/** `close_loop` of blocks.py: the wiring list, the external input list and
    the external output list handed to the library's interconnection. */
module Loop {
  import opened Wrappers
  import opened Names
  import opened Lti
  import opened Signals

  function Min(a: nat, b: nat): (m: nat) {
    if a <= b then a else b
  }

  /** `zip(mvs, cvs)`: takes one element from each list until either runs
      out, so it stops at the shorter list's length and pairs equal indices. */
  function Zip(mvs: seq<string>, cvs: seq<string>): (pairs: seq<(string, string)>)
    ensures |pairs| == Min(|mvs|, |cvs|)
  {
    if |mvs| == 0 || |cvs| == 0 then []
    else [(mvs[0], cvs[0])] + Zip(mvs[1..], cvs[1..])
  }

  /** The i-th pair holds the i-th MV and the i-th CV. */
  lemma {:induction false} ZipAt(mvs: seq<string>, cvs: seq<string>, i: nat)
    requires i < Min(|mvs|, |cvs|)
    ensures Zip(mvs, cvs)[i] == (mvs[i], cvs[i])
  {
    if i > 0 {
      ZipAt(mvs[1..], cvs[1..], i - 1);
    }
  }

  /** The PID summing junction: `pid.e_<cv>` is driven by `set_points.<cv>_sp`
      with gain 1 and by `sensors.sense_<cv>` with gain -1. */
  function PidConnection(cv: string): (c: Connection) {
    Connection(Plus("pid", "e_" + cv), [Plus("set_points", cv + "_sp"), Minus("sensors", "sense_" + cv)])
  }

  /** `actuators.command_<mv>` is driven by `pid.command_<mv>`. */
  function ActuatorConnection(mv: string): (c: Connection) {
    Connection(Plus("actuators", "command_" + mv), [Plus("pid", "command_" + mv)])
  }

  /** `plant.<mv>` is driven by `actuators.effect_<mv>`. */
  function PlantConnection(mv: string): (c: Connection) {
    Connection(Plus("plant", mv), [Plus("actuators", "effect_" + mv)])
  }

  /** `sensors.<cv>` is driven by `plant.<cv>`. */
  function SensorConnection(cv: string): (c: Connection) {
    Connection(Plus("sensors", cv), [Plus("plant", cv)])
  }

  /** The four connections one loop iteration appends, in the order it appends them. */
  function PairConnections(pair: (string, string)): (cs: seq<Connection>) {
    [PidConnection(pair.1), ActuatorConnection(pair.0), PlantConnection(pair.0), SensorConnection(pair.1)]
  }

  /** The connection list after the loop has run over `pairs`. */
  function ConnectionList(pairs: seq<(string, string)>): (cs: seq<Connection>)
    decreases |pairs|
  {
    if |pairs| == 0 then []
    else ConnectionList(pairs[..|pairs| - 1]) + PairConnections(pairs[|pairs| - 1])
  }

  /** The output list after the loop has run over `pairs`: `plant.<cv>` per pair. */
  function OutputList(pairs: seq<(string, string)>): (outs: seq<Ref>) {
    seq(|pairs|, i requires 0 <= i < |pairs| => Plus("plant", pairs[i].1))
  }

  /** `set_points.<cv>_sp` for every CV, then `plant.<cv>_disturb` for every CV. */
  function InputList(cvs: seq<string>): (ins: seq<Ref>) {
    seq(|cvs|, i requires 0 <= i < |cvs| => Plus("set_points", cvs[i] + "_sp"))
      + seq(|cvs|, i requires 0 <= i < |cvs| => Plus("plant", cvs[i] + "_disturb"))
  }

  /** What `close_loop` hands to the interconnection: the blocks, the
      connection list, the external inputs and the external outputs. */
  datatype Request = Request(blocks: seq<Block>, connections: seq<Connection>, inplist: seq<Ref>, outlist: seq<Ref>)

  /** `close_loop(blocks, cvs, mvs)` up to the call that interconnects: one
      pass over `zip(mvs, cvs)` appending four connections and one output per
      pair, then the input list over all CVs. */
  method CloseLoop(blocks: seq<Block>, cvArray: seq<string>, mvArray: seq<string>) returns (req: Request)
    ensures req.blocks == blocks
    ensures req.connections == ConnectionList(Zip(mvArray, cvArray))
    ensures req.inplist == InputList(cvArray)
    ensures req.outlist == OutputList(Zip(mvArray, cvArray))
  {
    var connectionList: seq<Connection> := [];
    var outputList: seq<Ref> := [];
    var pairs := Zip(mvArray, cvArray);
    var i := 0;
    while i < |pairs|
      invariant 0 <= i <= |pairs|
      invariant connectionList == ConnectionList(pairs[..i])
      invariant outputList == OutputList(pairs[..i])
    {
      var (mv, cv) := pairs[i];
      var pidInput := PidConnection(cv);
      var actuatorInput := ActuatorConnection(mv);
      var plantInput := PlantConnection(mv);
      var sensorInput := SensorConnection(cv);

      connectionList := connectionList + [pidInput];
      connectionList := connectionList + [actuatorInput];
      connectionList := connectionList + [plantInput];
      connectionList := connectionList + [sensorInput];

      outputList := outputList + [Plus("plant", cv)];

      assert pairs[..i + 1][..i] == pairs[..i];
      i := i + 1;
    }
    assert pairs[..i] == pairs;
    var inputList := InputList(cvArray);
    req := Request(blocks, connectionList, inputList, outputList);
  }

  /** Each pair contributes four connections: the i-th pair's PID, actuator,
      plant and sensor connections sit at 4i, 4i+1, 4i+2 and 4i+3. */
  lemma {:induction false} ConnectionListAt(pairs: seq<(string, string)>, i: nat, k: nat)
    requires i < |pairs| && k < 4
    ensures |ConnectionList(pairs)| == 4 * |pairs|
    ensures ConnectionList(pairs)[4 * i + k] == PairConnections(pairs[i])[k]
  {
    var n := |pairs| - 1;
    if i == n {
      ConnectionListLength(pairs[..n]);
    } else {
      ConnectionListAt(pairs[..n], i, k);
    }
  }

  /** Four connections per pair: with `Zip`'s length, 4·min(|mvs|, |cvs|) in all. */
  lemma {:induction false} ConnectionListLength(pairs: seq<(string, string)>)
    ensures |ConnectionList(pairs)| == 4 * |pairs|
  {
    if |pairs| > 0 {
      ConnectionListLength(pairs[..|pairs| - 1]);
    }
  }

  /** close_loop emits 4·min(|mvs|, |cvs|) connections; for the i-th pair, in
      order, the PID junction on cv, then the actuator, plant and sensor
      connections. Unpaired channels get none. */
  lemma WiringOrder(mvs: seq<string>, cvs: seq<string>, i: nat)
    requires i < Min(|mvs|, |cvs|)
    ensures |ConnectionList(Zip(mvs, cvs))| == 4 * Min(|mvs|, |cvs|)
    ensures ConnectionList(Zip(mvs, cvs))[4 * i] == PidConnection(cvs[i])
    ensures ConnectionList(Zip(mvs, cvs))[4 * i + 1] == ActuatorConnection(mvs[i])
    ensures ConnectionList(Zip(mvs, cvs))[4 * i + 2] == PlantConnection(mvs[i])
    ensures ConnectionList(Zip(mvs, cvs))[4 * i + 3] == SensorConnection(cvs[i])
  {
    var pairs := Zip(mvs, cvs);
    ZipAt(mvs, cvs, i);
    ConnectionListAt(pairs, i, 0);
    ConnectionListAt(pairs, i, 1);
    ConnectionListAt(pairs, i, 2);
    ConnectionListAt(pairs, i, 3);
  }

  /** Every connection in the list is one of the four kinds, for a paired channel. */
  lemma {:induction false} ConnectionKinds(pairs: seq<(string, string)>, c: Connection)
    requires c in ConnectionList(pairs)
    ensures exists i :: 0 <= i < |pairs| && c in PairConnections(pairs[i])
  {
    var n := |pairs| - 1;
    if c in ConnectionList(pairs[..n]) {
      ConnectionKinds(pairs[..n], c);
      var i :| 0 <= i < n && c in PairConnections(pairs[..n][i]);
      assert pairs[..n][i] == pairs[i];
    } else {
      assert c in PairConnections(pairs[n]);
    }
  }

  /** The PID junction forms error = setpoint − sensed value; each of the other
      three connections copies its single source unchanged. */
  lemma JunctionSemantics(mv: string, cv: string, out: (string, string) -> real)
    ensures JunctionValue(PidConnection(cv).sources, out) == out("set_points", cv + "_sp") - out("sensors", "sense_" + cv)
    ensures JunctionValue(ActuatorConnection(mv).sources, out) == out("pid", "command_" + mv)
    ensures JunctionValue(PlantConnection(mv).sources, out) == out("actuators", "effect_" + mv)
    ensures JunctionValue(SensorConnection(cv).sources, out) == out("plant", cv)
  {
    var p := PidConnection(cv).sources;
    assert p[..1] == [p[0]] && p[..1][..0] == [];
    assert JunctionValue(p[..1], out) == out("set_points", cv + "_sp");
    var ss := [ActuatorConnection(mv).sources, PlantConnection(mv).sources, SensorConnection(cv).sources];
    assert forall j :: 0 <= j < 3 ==> ss[j][..0] == [];
  }

  /** Every source carries gain 1 except the sensed value entering a PID
      junction, which carries -1; every connection has at least one source. */
  lemma SignsOfSources(mvs: seq<string>, cvs: seq<string>, c: Connection)
    requires c in ConnectionList(Zip(mvs, cvs))
    ensures |c.sources| > 0
    ensures forall s :: s in c.sources ==> (s.sign == 1 || s.sign == -1)
    ensures forall s :: s in c.sources && s.sign == -1 ==> s.block == "sensors" && c.dest.block == "pid"
    ensures c.dest.block == "pid" ==> |c.sources| == 2 && c.sources[1].sign == -1
  {
    ConnectionKinds(Zip(mvs, cvs), c);
  }

  /** Distinct channel names give pairs that differ in both components. */
  lemma ZipDistinct(mvs: seq<string>, cvs: seq<string>)
    requires Distinct(mvs) && Distinct(cvs)
    ensures forall i, j :: 0 <= i < j < |Zip(mvs, cvs)| ==>
      Zip(mvs, cvs)[i].0 != Zip(mvs, cvs)[j].0 && Zip(mvs, cvs)[i].1 != Zip(mvs, cvs)[j].1
  {
    forall i, j | 0 <= i < j < |Zip(mvs, cvs)|
      ensures Zip(mvs, cvs)[i].0 != Zip(mvs, cvs)[j].0 && Zip(mvs, cvs)[i].1 != Zip(mvs, cvs)[j].1
    {
      ZipAt(mvs, cvs, i);
      ZipAt(mvs, cvs, j);
    }
  }

  /** When no two pairs share an MV or a CV, no two connections share a destination. */
  lemma DestinationsDistinctPairs(pairs: seq<(string, string)>, a: nat, b: nat)
    requires forall i, j :: 0 <= i < j < |pairs| ==> pairs[i].0 != pairs[j].0 && pairs[i].1 != pairs[j].1
    requires a < b < |ConnectionList(pairs)|
    ensures ConnectionList(pairs)[a].dest != ConnectionList(pairs)[b].dest
  {
    ConnectionListLength(pairs);
    var ia, ka := a / 4, a % 4;
    var ib, kb := b / 4, b % 4;
    assert a == 4 * ia + ka && b == 4 * ib + kb;
    ConnectionListAt(pairs, ia, ka);
    ConnectionListAt(pairs, ib, kb);
    if ka == kb {
      assert ia < ib;
      PrefixCancels("e_", pairs[ia].1, pairs[ib].1);
      PrefixCancels("command_", pairs[ia].0, pairs[ib].0);
    }
  }

  /** With distinct channel names no input port is the destination of two
      connections, so every junction is defined by exactly one entry. */
  lemma DestinationsDistinct(mvs: seq<string>, cvs: seq<string>, a: nat, b: nat)
    requires Distinct(mvs) && Distinct(cvs)
    requires a < b < |ConnectionList(Zip(mvs, cvs))|
    ensures ConnectionList(Zip(mvs, cvs))[a].dest != ConnectionList(Zip(mvs, cvs))[b].dest
  {
    ZipDistinct(mvs, cvs);
    DestinationsDistinctPairs(Zip(mvs, cvs), a, b);
  }

  /** The input list has 2·|cvs| entries, whatever the MV list: first every
      setpoint, then every disturbance, in CV order. */
  lemma InputListLayout(cvs: seq<string>)
    ensures |InputList(cvs)| == 2 * |cvs|
    ensures forall i :: 0 <= i < |cvs| ==> InputList(cvs)[i] == Plus("set_points", cvs[i] + "_sp")
    ensures forall i :: 0 <= i < |cvs| ==> InputList(cvs)[|cvs| + i] == Plus("plant", cvs[i] + "_disturb")
  {
  }

  /** The output list names `plant.<cv>` for each paired channel only, in order. */
  lemma OutputListLayout(mvs: seq<string>, cvs: seq<string>)
    ensures |OutputList(Zip(mvs, cvs))| == Min(|mvs|, |cvs|)
    ensures forall i :: 0 <= i < Min(|mvs|, |cvs|) ==> OutputList(Zip(mvs, cvs))[i] == Plus("plant", cvs[i])
  {
    forall i | 0 <= i < Min(|mvs|, |cvs|) ensures OutputList(Zip(mvs, cvs))[i] == Plus("plant", cvs[i]) {
      ZipAt(mvs, cvs, i);
    }
  }

  /** The dotted text of the destination, and of every source with gain 1,
      reads back as that very reference. */
  predicate ReadsBack(c: Connection) {
    && ParseDotted(Dotted(c.dest.block, c.dest.port)) == Some(c.dest)
    && forall s :: s in c.sources && s.sign == 1 ==> ParseDotted(Dotted(s.block, s.port)) == Some(s)
  }

  lemma PairDottedForms(pair: (string, string))
    requires '.' !in pair.0 && '.' !in pair.1
    ensures forall c :: c in PairConnections(pair) ==> ReadsBack(c)
  {
    var (mv, cv) := pair;
    ParseDottedRoundTrip("pid", "e_" + cv);
    ParseDottedRoundTrip("set_points", cv + "_sp");
    ParseDottedRoundTrip("actuators", "command_" + mv);
    ParseDottedRoundTrip("pid", "command_" + mv);
    ParseDottedRoundTrip("plant", mv);
    ParseDottedRoundTrip("actuators", "effect_" + mv);
    ParseDottedRoundTrip("sensors", cv);
    ParseDottedRoundTrip("plant", cv);
    assert ReadsBack(PidConnection(cv)) && ReadsBack(ActuatorConnection(mv));
    assert ReadsBack(PlantConnection(mv)) && ReadsBack(SensorConnection(cv));
  }

  /** With dot-free channel names the dotted strings close_loop writes read
      back as exactly the references the model uses. */
  lemma DottedFormsRead(mvs: seq<string>, cvs: seq<string>, c: Connection)
    requires forall i :: 0 <= i < |mvs| ==> '.' !in mvs[i]
    requires forall i :: 0 <= i < |cvs| ==> '.' !in cvs[i]
    requires c in ConnectionList(Zip(mvs, cvs))
    ensures ReadsBack(c)
  {
    var pairs := Zip(mvs, cvs);
    ConnectionKinds(pairs, c);
    var i :| 0 <= i < |pairs| && c in PairConnections(pairs[i]);
    ZipAt(mvs, cvs, i);
    PairDottedForms(pairs[i]);
  }
}
