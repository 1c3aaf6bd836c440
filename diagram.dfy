/** The closed loop simulation.py assembles from the builders: every reference
    in the wiring and in the external lists names a port that exists. */
module Diagram {
  import opened Names
  import opened Lti
  import opened Signals
  import opened Factories
  import opened Builders
  import opened Loop

  /** Some block of `bs` has the reference's name and lists its port among its inputs. */
  predicate HasInput(bs: seq<Block>, r: Ref) {
    exists j :: 0 <= j < |bs| && bs[j].name == r.block && r.port in bs[j].inputs
  }

  /** Some block of `bs` has the reference's name and lists its port among its outputs. */
  predicate HasOutput(bs: seq<Block>, r: Ref) {
    exists j :: 0 <= j < |bs| && bs[j].name == r.block && r.port in bs[j].outputs
  }

  /** The destination names an input port and every source an output port. */
  predicate Resolves(bs: seq<Block>, c: Connection) {
    HasInput(bs, c.dest) && forall s :: s in c.sources ==> HasOutput(bs, s)
  }

  function BlockNames(bs: seq<Block>): (names: seq<string>) {
    seq(|bs|, j requires 0 <= j < |bs| => bs[j].name)
  }

  /** The labels of the five blocks simulation.py passes to close_loop, in
      its order: setpoints, controllers, actuators, plant, sensors. */
  predicate ReferenceDiagram(bs: seq<Block>, mvs: seq<string>, cvs: seq<string>) {
    && |bs| == 5
    && bs[0].name == "set_points" && bs[0].inputs == Suffixed(cvs, "_sp") && bs[0].outputs == Suffixed(cvs, "_sp")
    && bs[1].name == "pid" && bs[1].inputs == Prefixed("e_", cvs) && bs[1].outputs == Prefixed("command_", mvs)
    && bs[2].name == "actuators" && bs[2].inputs == Prefixed("command_", mvs) && bs[2].outputs == Prefixed("effect_", mvs)
    && bs[3].name == "plant" && bs[3].inputs == mvs + Suffixed(cvs, "_disturb") && bs[3].outputs == cvs
    && bs[4].name == "sensors" && bs[4].inputs == cvs && bs[4].outputs == Prefixed("sense_", cvs)
  }

  /** Blocks built by setpoint_block, add_pid_controllers, add_actuators and
      add_sensors, with the plant simulation.py defines, form that diagram. */
  lemma BuiltBlocksFormDiagram(mvs: seq<string>, cvs: seq<string>, gains: seq<seq<real>>,
                               actuatorTaus: seq<real>, sensorTaus: seq<real>, plant: Block)
    requires PidBlock(cvs, mvs, gains).Success?
    requires ActuatorsBlock(mvs, actuatorTaus).Success?
    requires SensorsBlock(cvs, sensorTaus).Success?
    requires plant.name == "plant" && plant.inputs == mvs + Suffixed(cvs, "_disturb") && plant.outputs == cvs
    ensures ReferenceDiagram([SetpointBlock(Suffixed(cvs, "_sp")), PidBlock(cvs, mvs, gains).value,
                              ActuatorsBlock(mvs, actuatorTaus).value, plant, SensorsBlock(cvs, sensorTaus).value], mvs, cvs)
  {
  }

  /** The four connections of the i-th pair resolve in the diagram. */
  lemma PairResolves(bs: seq<Block>, mvs: seq<string>, cvs: seq<string>, i: nat)
    requires ReferenceDiagram(bs, mvs, cvs)
    requires i < |mvs| && i < |cvs|
    ensures Resolves(bs, PidConnection(cvs[i])) && Resolves(bs, ActuatorConnection(mvs[i]))
    ensures Resolves(bs, PlantConnection(mvs[i])) && Resolves(bs, SensorConnection(cvs[i]))
  {
  }

  /** In the reference diagram every connection close_loop emits runs from
      existing output ports into an existing input port, every external
      input names an input port and every external output an output port. */
  lemma EveryReferenceResolves(bs: seq<Block>, mvs: seq<string>, cvs: seq<string>)
    requires ReferenceDiagram(bs, mvs, cvs)
    ensures forall c :: c in ConnectionList(Zip(mvs, cvs)) ==> Resolves(bs, c)
    ensures forall r :: r in InputList(cvs) ==> HasInput(bs, r)
    ensures forall r :: r in OutputList(Zip(mvs, cvs)) ==> HasOutput(bs, r)
  {
    var pairs := Zip(mvs, cvs);
    forall c | c in ConnectionList(pairs) ensures Resolves(bs, c) {
      ConnectionKinds(pairs, c);
      var i :| 0 <= i < |pairs| && c in PairConnections(pairs[i]);
      ZipAt(mvs, cvs, i);
      PairResolves(bs, mvs, cvs, i);
    }
    forall r | r in InputList(cvs) ensures HasInput(bs, r) {
      var k :| 0 <= k < |InputList(cvs)| && InputList(cvs)[k] == r;
      if k < |cvs| {
        assert bs[0].inputs[k] == cvs[k] + "_sp";
        assert bs[0].name == "set_points";
      } else {
        var i := k - |cvs|;
        assert bs[3].inputs[|mvs| + i] == cvs[i] + "_disturb";
        assert bs[3].name == "plant";
      }
    }
    forall r | r in OutputList(pairs) ensures HasOutput(bs, r) {
      var i :| 0 <= i < |pairs| && OutputList(pairs)[i] == r;
      ZipAt(mvs, cvs, i);
      assert bs[3].outputs[i] == cvs[i];
      assert bs[3].name == "plant";
    }
  }

  /** Block names are distinct, and with distinct channel names so are the
      labels of the setpoint, PID, actuator and sensor blocks. The plant's
      labels come from its caller; see PlantResolutionUnique. */
  lemma ResolutionUnique(bs: seq<Block>, mvs: seq<string>, cvs: seq<string>)
    requires ReferenceDiagram(bs, mvs, cvs)
    requires Distinct(mvs) && Distinct(cvs)
    ensures Distinct(BlockNames(bs))
    ensures Distinct(bs[0].inputs) && Distinct(bs[0].outputs)
    ensures Distinct(bs[1].inputs) && Distinct(bs[1].outputs)
    ensures Distinct(bs[2].inputs) && Distinct(bs[2].outputs)
    ensures Distinct(bs[4].inputs) && Distinct(bs[4].outputs)
  {
    SuffixedDistinctIff(cvs, "_sp");
    PrefixedDistinctIff("e_", cvs);
    PrefixedDistinctIff("command_", mvs);
    PrefixedDistinctIff("effect_", mvs);
    PrefixedDistinctIff("sense_", cvs);
    var names := BlockNames(bs);
    assert names == ["set_points", "pid", "actuators", "plant", "sensors"];
  }

  /** The plant's input labels are the MVs followed by `<cv>_disturb`. They
      are distinct exactly when the MVs are, the CVs are, and no MV is named
      like the disturbance input of some CV; its output labels are distinct
      exactly when the CVs are. With ResolutionUnique, distinct labels on the
      plant then make all block names and all labels of the diagram distinct. */
  lemma PlantResolutionUnique(bs: seq<Block>, mvs: seq<string>, cvs: seq<string>)
    requires ReferenceDiagram(bs, mvs, cvs)
    ensures Distinct(bs[3].inputs) <==>
              Distinct(mvs) && Distinct(cvs) &&
              forall i, j :: 0 <= i < |mvs| && 0 <= j < |cvs| ==> mvs[i] != cvs[j] + "_disturb"
    ensures Distinct(bs[3].outputs) <==> Distinct(cvs)
  {
    var ds := Suffixed(cvs, "_disturb");
    var inputs := mvs + ds;
    SuffixedDistinctIff(cvs, "_disturb");
    if Distinct(inputs) {
      forall i, j | 0 <= i < j < |mvs| ensures mvs[i] != mvs[j] {
        assert inputs[i] == mvs[i] && inputs[j] == mvs[j];
      }
      forall i, j | 0 <= i < j < |ds| ensures ds[i] != ds[j] {
        assert inputs[|mvs| + i] == ds[i] && inputs[|mvs| + j] == ds[j];
      }
      forall i, j | 0 <= i < |mvs| && 0 <= j < |cvs| ensures mvs[i] != cvs[j] + "_disturb" {
        assert inputs[i] == mvs[i] && inputs[|mvs| + j] == ds[j];
      }
    }
    if Distinct(mvs) && Distinct(cvs) &&
       forall i, j :: 0 <= i < |mvs| && 0 <= j < |cvs| ==> mvs[i] != cvs[j] + "_disturb"
    {
      forall i, j | 0 <= i < j < |inputs| ensures inputs[i] != inputs[j] {
        if j < |mvs| {
          assert inputs[i] == mvs[i] && inputs[j] == mvs[j];
        } else if i < |mvs| {
          assert inputs[i] == mvs[i] && inputs[j] == ds[j - |mvs|];
        } else {
          assert inputs[i] == ds[i - |mvs|] && inputs[j] == ds[j - |mvs|];
        }
      }
    }
  }

  /** Distinct MV and CV names alone do not keep the plant's inputs apart: an
      MV called `T_disturb` collides with the disturbance input of CV `T`. */
  lemma PlantLabelsCanCollide()
    ensures var mvs, cvs := ["T_disturb", "X"], ["T", "Y"];
      Distinct(mvs) && Distinct(cvs) && !Distinct(mvs + Suffixed(cvs, "_disturb"))
  {
    var mvs, cvs := ["T_disturb", "X"], ["T", "Y"];
    var inputs := mvs + Suffixed(cvs, "_disturb");
    assert inputs[0] == "T_disturb" && inputs[2] == "T" + "_disturb";
  }
}
