/** The linear-systems notions blocks.py relies on: transfer functions given by
    coefficient lists, static feedthrough matrices, labelled blocks, and the
    combined system that appending single-channel systems produces. */
module Lti {

  /** A transfer function num(s)/den(s); coefficients highest power of s first. */
  datatype Tf = Tf(num: seq<real>, den: seq<real>)

  /** Value at s of the polynomial with coefficients p (highest power first). */
  function PolyEval(p: seq<real>, s: real): (v: real)
    decreases |p|
  {
    if |p| == 0 then 0.0 else PolyEval(p[..|p| - 1], s) * s + p[|p| - 1]
  }

  /** The coefficient list without its leading zeros. */
  function Trimmed(p: seq<real>): (r: seq<real>)
    ensures |r| <= |p| && r == p[|p| - |r|..]
    ensures r != [] ==> r[0] != 0.0
    ensures forall i :: 0 <= i < |p| - |r| ==> p[i] == 0.0
  {
    if |p| == 0 || p[0] != 0.0 then p else Trimmed(p[1..])
  }

  /** Proper: the numerator's degree does not exceed the denominator's, so the
      transfer function has a state-space realisation without differentiation. */
  predicate Proper(tf: Tf) {
    |Trimmed(tf.num)| <= |Trimmed(tf.den)|
  }

  /** The value of the transfer function at a point where its denominator does not vanish. */
  function Gain(tf: Tf, s: real): (g: real)
    requires PolyEval(tf.den, s) != 0.0
  {
    PolyEval(tf.num, s) / PolyEval(tf.den, s)
  }

  /** The n-by-n identity matrix (`np.eye(n)`). */
  function Identity(n: nat): (m: seq<seq<real>>)
    ensures |m| == n && forall i :: 0 <= i < n ==> |m[i]| == n
  {
    seq(n, i => seq(n, j => if i == j then 1.0 else 0.0))
  }

  function Dot(row: seq<real>, u: seq<real>): (d: real)
    requires |row| == |u|
  {
    if |row| == 0 then 0.0 else row[0] * u[0] + Dot(row[1..], u[1..])
  }

  /** The matrix-vector product m·u. */
  function MatVec(m: seq<seq<real>>, u: seq<real>): (y: seq<real>)
    requires forall i :: 0 <= i < |m| ==> |m[i]| == |u|
    ensures |y| == |m|
  {
    seq(|m|, i requires 0 <= i < |m| => Dot(m[i], u))
  }

  lemma {:induction false} DotZero(row: seq<real>, u: seq<real>)
    requires |row| == |u|
    requires forall j :: 0 <= j < |row| ==> row[j] == 0.0
    ensures Dot(row, u) == 0.0
  {
    if |row| > 0 {
      DotZero(row[1..], u[1..]);
    }
  }

  /** A unit row picks out one entry of the vector. */
  lemma {:induction false} DotUnit(row: seq<real>, u: seq<real>, k: nat)
    requires |row| == |u| && k < |row|
    requires forall j :: 0 <= j < |row| ==> row[j] == if j == k then 1.0 else 0.0
    ensures Dot(row, u) == u[k]
  {
    if k == 0 {
      DotZero(row[1..], u[1..]);
    } else {
      DotUnit(row[1..], u[1..], k - 1);
    }
  }

  /** Identity feedthrough: every output equals the input of the same index. */
  lemma IdentityPassesThrough(n: nat, u: seq<real>)
    requires |u| == n
    ensures MatVec(Identity(n), u) == u
  {
    var m := Identity(n);
    forall i | 0 <= i < n ensures MatVec(m, u)[i] == u[i] {
      DotUnit(m[i], u, i);
    }
  }

  /** How a block maps its inputs to its outputs: the block-diagonal
      combination of single-channel transfer functions (`ct.append`), or a
      state-free feedthrough matrix (`ct.ss([], [], [], D)`). */
  datatype Dynamics = Channels(tfs: seq<Tf>) | Feedthrough(d: seq<seq<real>>)

  /** A labelled block: its name, its input labels and its output labels, in port order. */
  datatype Block = Block(name: string, inputs: seq<string>, outputs: seq<string>, dynamics: Dynamics)

  function Digit(d: nat): (c: char)
    requires d < 10
  {
    "0123456789"[d]
  }

  function Decimal(n: nat): (s: string)
    decreases n
  {
    if n < 10 then [Digit(n)] else Decimal(n / 10) + [Digit(n % 10)]
  }

  /** Generic signal names `prefix[0]`, `prefix[1]`, ... */
  function SignalNames(prefix: string, n: nat): (r: seq<string>)
    ensures |r| == n
  {
    seq(n, i requires 0 <= i < n => prefix + "[" + Decimal(i) + "]")
  }

  /** The library's name for a system nobody has named yet. */
  const DefaultName: string := "sys"

  /** The combined system appending single-channel systems returns. Its
      dynamics are fixed when it is built; its name and labels are plain
      fields that callers overwrite afterwards. */
  class Appended {
    var name: string
    var inputLabels: seq<string>
    var outputLabels: seq<string>
    const channels: seq<Tf>

    /** One input label and one output label per channel. */
    predicate Valid()
      reads this
    {
      |inputLabels| == |channels| && |outputLabels| == |channels|
    }

    /** The block this object currently describes. */
    function Snapshot(): (b: Block)
      reads this
      requires Valid()
    {
      Block(name, inputLabels, outputLabels, Channels(channels))
    }

    /** Block-diagonal combination of at least one single-channel system,
        labelled generically. */
    constructor Append(tfs: seq<Tf>)
      requires |tfs| > 0
      ensures Valid() && channels == tfs
      ensures name == DefaultName
      ensures inputLabels == SignalNames("u", |tfs|) && outputLabels == SignalNames("y", |tfs|)
    {
      channels := tfs;
      name := DefaultName;
      inputLabels := SignalNames("u", |tfs|);
      outputLabels := SignalNames("y", |tfs|);
    }
  }
}
