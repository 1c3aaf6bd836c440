/** Signal references and connections, the vocabulary of the wiring list. */
module Signals {
  import opened Wrappers

  /** A port of a named block, with the gain applied to it when it feeds a
      summing junction: 1 for a plain `"block.port"`, -1 for the tuple
      `(block, port, -1)`. */
  datatype Ref = Ref(block: string, port: string, sign: int)

  /** The reference the string `"block.port"` denotes. */
  function Plus(block: string, port: string): (r: Ref) {
    Ref(block, port, 1)
  }

  /** The reference the tuple `(block, port, -1)` denotes. */
  function Minus(block: string, port: string): (r: Ref) {
    Ref(block, port, -1)
  }

  /** One wiring entry: the destination input is driven by the signed sum of
      the source outputs, which are never absent. */
  datatype Connection = Connection(dest: Ref, sources: seq<Ref>)

  /** The dotted text `block.port`. */
  function Dotted(block: string, port: string): (s: string) {
    block + "." + port
  }

  /** Position of the first '.' in s, or |s| when there is none. */
  function FirstDot(s: string): (k: nat)
    ensures k <= |s|
    ensures forall i :: 0 <= i < k ==> s[i] != '.'
    ensures k < |s| ==> s[k] == '.'
  {
    if |s| == 0 || s[0] == '.' then 0 else 1 + FirstDot(s[1..])
  }

  /** Reads dotted text with exactly one '.' as the reference with gain 1. */
  function ParseDotted(s: string): (r: Option<Ref>) {
    var k := FirstDot(s);
    if k == |s| || '.' in s[k + 1..] then None else Some(Plus(s[..k], s[k + 1..]))
  }

  /** A block and a port without dots are read back from their dotted text. */
  lemma ParseDottedRoundTrip(block: string, port: string)
    requires '.' !in block && '.' !in port
    ensures ParseDotted(Dotted(block, port)) == Some(Plus(block, port))
  {
    var s := Dotted(block, port);
    var k := FirstDot(s);
    assert s[|block|] == '.';
    assert k == |block|;
    assert s[..k] == block;
    assert s[k + 1..] == port;
  }

  /** Whatever dotted text reads as a reference is that reference's dotted
      text, with gain 1 and no dot in either part. */
  lemma ParseDottedSound(s: string)
    requires ParseDotted(s).Some?
    ensures var r := ParseDotted(s).value;
      r.sign == 1 && '.' !in r.block && '.' !in r.port && s == Dotted(r.block, r.port)
  {
  }

  /** The signed sum a summing junction forms from the source values, where
      `out(block, port)` is the value on that output. */
  function JunctionValue(sources: seq<Ref>, out: (string, string) -> real): (v: real) {
    if |sources| == 0 then 0.0
    else
      var last := sources[|sources| - 1];
      JunctionValue(sources[..|sources| - 1], out) + (last.sign as real) * out(last.block, last.port)
  }
}
