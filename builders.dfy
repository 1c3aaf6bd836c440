/** The multi-channel builders of blocks.py: one combined block per role,
    appended from per-channel blocks and then relabelled channel by channel. */
module Builders {
  import opened Wrappers
  import opened Names
  import opened Lti
  import opened Factories

  /** `[hardware_delay(tau) for tau in taus]`. */
  function Delays(taus: seq<real>): (r: seq<Tf>)
    ensures |r| == |taus|
    ensures forall i :: 0 <= i < |taus| ==> r[i] == HardwareDelay(taus[i])
  {
    seq(|taus|, i requires 0 <= i < |taus| => HardwareDelay(taus[i]))
  }

  /** `[pid_controller(g) for g in gains]`, which stops at the first gain list
      that is not a triple. */
  function Pids(gains: seq<seq<real>>): (r: Result<seq<Tf>, BuildError>)
    ensures r.Success? <==> forall i :: 0 <= i < |gains| ==> |gains[i]| == 3
    ensures r.Failure? ==> r.error == GainCountMismatch
    ensures r.Success? ==> |r.value| == |gains|
    ensures r.Success? ==> forall i :: 0 <= i < |gains| ==> PidController(gains[i]) == Success(r.value[i])
  {
    if |gains| == 0 then Success([])
    else
      var first :- PidController(gains[0]);
      var rest :- Pids(gains[1..]);
      assert forall i :: 1 <= i < |gains| ==> gains[i] == gains[1..][i - 1];
      Success([first] + rest)
  }

  /** The block `add_sensors(cvs, taus)` returns: inputs are the CV names,
      outputs `sense_<cv>`, one hardware delay per channel. */
  function SensorsBlock(cvs: seq<string>, taus: seq<real>): (r: Result<Block, BuildError>)
  {
    var channels := Delays(taus);
    if |channels| == 0 then Failure(NoChannels)
    else if |cvs| != |channels| then Failure(LabelCountMismatch)
    else Success(Block("sensors", cvs, Prefixed("sense_", cvs), Channels(channels)))
  }

  /** The block `add_actuators(mvs, taus)` returns: inputs `command_<mv>`,
      outputs `effect_<mv>`, one hardware delay per channel. */
  function ActuatorsBlock(mvs: seq<string>, taus: seq<real>): (r: Result<Block, BuildError>)
  {
    var channels := Delays(taus);
    if |channels| == 0 then Failure(NoChannels)
    else if |mvs| != |channels| then Failure(LabelCountMismatch)
    else Success(Block("actuators", Prefixed("command_", mvs), Prefixed("effect_", mvs), Channels(channels)))
  }

  /** The block `add_pid_controllers(cvs, mvs, gains)` returns: inputs
      `e_<cv>`, outputs `command_<mv>`, one PID compensator per channel. */
  function PidBlock(cvs: seq<string>, mvs: seq<string>, gains: seq<seq<real>>): (r: Result<Block, BuildError>)
  {
    var channels :- Pids(gains);
    if |channels| == 0 then Failure(NoChannels)
    else if |cvs| != |channels| || |mvs| != |channels| then Failure(LabelCountMismatch)
    else Success(Block("pid", Prefixed("e_", cvs), Prefixed("command_", mvs), Channels(channels)))
  }

  /** add_sensors succeeds exactly when there is at least one delay and one CV
      per delay; the block is `sensors`, with input `cv` and output
      `sense_<cv>` for each channel, in channel order. */
  lemma SensorsLabels(cvs: seq<string>, taus: seq<real>)
    ensures SensorsBlock(cvs, taus).Success? <==> 0 < |taus| && |cvs| == |taus|
    ensures |taus| == 0 ==> SensorsBlock(cvs, taus) == Failure(NoChannels)
    ensures 0 < |taus| && |cvs| != |taus| ==> SensorsBlock(cvs, taus) == Failure(LabelCountMismatch)
    ensures SensorsBlock(cvs, taus).Success? ==>
      var b := SensorsBlock(cvs, taus).value;
      && b.name == "sensors"
      && |b.inputs| == |cvs| && |b.outputs| == |cvs|
      && (forall i :: 0 <= i < |cvs| ==> b.inputs[i] == cvs[i] && b.outputs[i] == "sense_" + cvs[i])
      && b.dynamics == Channels(Delays(taus))
  {
  }

  /** add_actuators succeeds exactly when there is at least one delay and one
      MV per delay; the block is `actuators`, with input `command_<mv>` and
      output `effect_<mv>` for each channel, in channel order. */
  lemma ActuatorsLabels(mvs: seq<string>, taus: seq<real>)
    ensures ActuatorsBlock(mvs, taus).Success? <==> 0 < |taus| && |mvs| == |taus|
    ensures |taus| == 0 ==> ActuatorsBlock(mvs, taus) == Failure(NoChannels)
    ensures 0 < |taus| && |mvs| != |taus| ==> ActuatorsBlock(mvs, taus) == Failure(LabelCountMismatch)
    ensures ActuatorsBlock(mvs, taus).Success? ==>
      var b := ActuatorsBlock(mvs, taus).value;
      && b.name == "actuators"
      && |b.inputs| == |mvs| && |b.outputs| == |mvs|
      && (forall i :: 0 <= i < |mvs| ==> b.inputs[i] == "command_" + mvs[i] && b.outputs[i] == "effect_" + mvs[i])
      && b.dynamics == Channels(Delays(taus))
  {
  }

  /** add_pid_controllers fails on the first malformed gain list, then on an
      empty gain list, then on a CV or MV list of the wrong length; otherwise
      the block is `pid`, with input `e_<cv>` and output `command_<mv>` for
      each channel, in channel order, and the i-th compensator built from
      the i-th gain triple. */
  lemma PidLabels(cvs: seq<string>, mvs: seq<string>, gains: seq<seq<real>>)
    ensures PidBlock(cvs, mvs, gains).Success? <==>
      0 < |gains| && |cvs| == |gains| && |mvs| == |gains| &&
      forall i :: 0 <= i < |gains| ==> |gains[i]| == 3
    ensures (exists i :: 0 <= i < |gains| && |gains[i]| != 3) ==>
      PidBlock(cvs, mvs, gains) == Failure(GainCountMismatch)
    ensures |gains| == 0 ==> PidBlock(cvs, mvs, gains) == Failure(NoChannels)
    ensures 0 < |gains| && (forall i :: 0 <= i < |gains| ==> |gains[i]| == 3) && (|cvs| != |gains| || |mvs| != |gains|) ==>
      PidBlock(cvs, mvs, gains) == Failure(LabelCountMismatch)
    ensures PidBlock(cvs, mvs, gains).Success? ==>
      var b := PidBlock(cvs, mvs, gains).value;
      && b.name == "pid"
      && |b.inputs| == |cvs| && |b.outputs| == |mvs|
      && (forall i :: 0 <= i < |cvs| ==> b.inputs[i] == "e_" + cvs[i])
      && (forall i :: 0 <= i < |mvs| ==> b.outputs[i] == "command_" + mvs[i])
      && b.dynamics.Channels? && |b.dynamics.tfs| == |gains|
      && (forall i :: 0 <= i < |gains| ==> PidController(gains[i]) == Success(b.dynamics.tfs[i]))
  {
  }

  /** The PID outputs and the actuator inputs are the same labels for the same
      MV list, so every command the controllers emit names an actuator port. */
  lemma PidFeedsActuators(cvs: seq<string>, mvs: seq<string>, gains: seq<seq<real>>, taus: seq<real>)
    requires PidBlock(cvs, mvs, gains).Success? && ActuatorsBlock(mvs, taus).Success?
    ensures PidBlock(cvs, mvs, gains).value.outputs == ActuatorsBlock(mvs, taus).value.inputs
  {
  }

  /** Distinct channel names give every built block distinct input labels and
      distinct output labels, and conversely. */
  lemma LabelsDistinctIff(cvs: seq<string>, mvs: seq<string>, gains: seq<seq<real>>,
                          actuatorTaus: seq<real>, sensorTaus: seq<real>)
    ensures SensorsBlock(cvs, sensorTaus).Success? ==>
      var b := SensorsBlock(cvs, sensorTaus).value;
      (Distinct(b.inputs) <==> Distinct(cvs)) && (Distinct(b.outputs) <==> Distinct(cvs))
    ensures ActuatorsBlock(mvs, actuatorTaus).Success? ==>
      var b := ActuatorsBlock(mvs, actuatorTaus).value;
      (Distinct(b.inputs) <==> Distinct(mvs)) && (Distinct(b.outputs) <==> Distinct(mvs))
    ensures PidBlock(cvs, mvs, gains).Success? ==>
      var b := PidBlock(cvs, mvs, gains).value;
      (Distinct(b.inputs) <==> Distinct(cvs)) && (Distinct(b.outputs) <==> Distinct(mvs))
  {
    PrefixedDistinctIff("sense_", cvs);
    PrefixedDistinctIff("command_", mvs);
    PrefixedDistinctIff("effect_", mvs);
    PrefixedDistinctIff("e_", cvs);
  }

  /** `add_sensors`: append one hardware delay per time constant, then
      overwrite the combined system's input labels, output labels and name. */
  method AddSensors(cvArray: seq<string>, timeConstArray: seq<real>) returns (r: Result<Appended, BuildError>)
    ensures r.Success? <==> SensorsBlock(cvArray, timeConstArray).Success?
    ensures r.Failure? ==> r.error == SensorsBlock(cvArray, timeConstArray).error
    ensures r.Success? ==> fresh(r.value) && r.value.Valid()
    ensures r.Success? ==> r.value.Snapshot() == SensorsBlock(cvArray, timeConstArray).value
  {
    var sensorList := Delays(timeConstArray);
    if |sensorList| == 0 {
      return Failure(NoChannels);
    }
    var sensors := new Appended.Append(sensorList);
    if |cvArray| != |sensors.channels| {
      return Failure(LabelCountMismatch);
    }
    sensors.inputLabels := cvArray;
    sensors.outputLabels := Prefixed("sense_", cvArray);
    sensors.name := "sensors";
    r := Success(sensors);
  }

  /** `add_actuators`: append one hardware delay per time constant, then
      overwrite the combined system's input labels, output labels and name. */
  method AddActuators(mvArray: seq<string>, timeConstArray: seq<real>) returns (r: Result<Appended, BuildError>)
    ensures r.Success? <==> ActuatorsBlock(mvArray, timeConstArray).Success?
    ensures r.Failure? ==> r.error == ActuatorsBlock(mvArray, timeConstArray).error
    ensures r.Success? ==> fresh(r.value) && r.value.Valid()
    ensures r.Success? ==> r.value.Snapshot() == ActuatorsBlock(mvArray, timeConstArray).value
  {
    var actuatorList := Delays(timeConstArray);
    if |actuatorList| == 0 {
      return Failure(NoChannels);
    }
    var actuators := new Appended.Append(actuatorList);
    if |mvArray| != |actuators.channels| {
      return Failure(LabelCountMismatch);
    }
    actuators.inputLabels := Prefixed("command_", mvArray);
    actuators.outputLabels := Prefixed("effect_", mvArray);
    actuators.name := "actuators";
    r := Success(actuators);
  }

  /** `add_pid_controllers`: build one compensator per gain triple, append
      them, then overwrite the combined system's input labels, output labels
      and name. */
  method AddPidControllers(cvArray: seq<string>, mvArray: seq<string>, pidArray: seq<seq<real>>)
    returns (r: Result<Appended, BuildError>)
    ensures r.Success? <==> PidBlock(cvArray, mvArray, pidArray).Success?
    ensures r.Failure? ==> r.error == PidBlock(cvArray, mvArray, pidArray).error
    ensures r.Success? ==> fresh(r.value) && r.value.Valid()
    ensures r.Success? ==> r.value.Snapshot() == PidBlock(cvArray, mvArray, pidArray).value
  {
    var built := Pids(pidArray);
    if built.Failure? {
      return Failure(built.error);
    }
    var pidControllerList := built.value;
    if |pidControllerList| == 0 {
      return Failure(NoChannels);
    }
    var pidControllers := new Appended.Append(pidControllerList);
    if |cvArray| != |pidControllers.channels| || |mvArray| != |pidControllers.channels| {
      return Failure(LabelCountMismatch);
    }
    pidControllers.inputLabels := Prefixed("e_", cvArray);
    pidControllers.outputLabels := Prefixed("command_", mvArray);
    pidControllers.name := "pid";
    r := Success(pidControllers);
  }
}
