# CSTR closed-loop wiring model

This project models the signal-wiring and port-naming layer of a
continuously-stirred tank reactor simulation under multi-channel PID control
(`src/blocks.py`). That layer builds small linear blocks and labels them per
channel: a hardware delay per sensor and actuator, a PID compensator per
channel, and a setpoint pass-through. It combines them into one block per role
(`sensors`, `actuators`, `pid`) and then writes the wiring list that the
control library's interconnection consumes. The wiring list holds four
connections per (MV, CV) pair, an external input list and an external output
list. The model stops where the library takes over.

Modules, one per concern:

- `Wrappers` (wrappers.dfy): `Option` and `Result`.
- `Names` (names.dfy): the label comprehensions `prefix + name` and `name + suffix`, and distinctness.
- `Lti` (lti.dfy): transfer functions as coefficient lists, their value at a point, properness, the identity matrix, the `Block` value (name, input labels, output labels, dynamics), and the class `Appended`. `Appended` is the object `ct.append` returns, whose `name`, `inputLabels` and `outputLabels` fields the builders overwrite in place.
- `Factories` (factories.dfy): `hardware_delay`, `pid_controller` and `setpoint_block`.
- `Builders` (builders.dfy): `add_sensors`, `add_actuators` and `add_pid_controllers`. Each is a method that appends and then relabels an `Appended` object, specified by a pure function giving the block it must produce.
- `Signals` (signals.dfy): `Ref(block, port, sign)`. A dotted string `"block.port"` denotes sign 1; the tuple `(block, port, -1)` denotes sign -1. The module also holds `Connection` (a destination plus its sources), the dotted notation and its reading, and the signed sum a summing junction forms.
- `Loop` (closeloop.dfy): `close_loop` as a method with the `for … in zip(…)` loop, proved against the functions `ConnectionList`, `InputList` and `OutputList`.
- `Diagram` (diagram.dfy): the five blocks `simulation.py` passes to `close_loop`. Every reference in the wiring and in the external lists names an existing port. With distinct channel names the setpoint, PID, actuator and sensor labels are distinct. The plant's input labels are distinct exactly when the MVs and the CVs are distinct and no MV is named `<cv>_disturb` for some CV; distinct MV and CV names alone are not enough.

`hardware_delay` (`src/blocks.py:13-19`) does not check the sign of `tau`; `HardwareDelay` accepts any `tau`.

## Model

| member | source | states |
|---|---|---|
| `Factories.HardwareDelayShape` | src/blocks.py:13-17 | the delay is the unity pass-through `[1]/[1]` exactly when tau is 0, and `[1]/[tau, 1]` otherwise |
| `Factories.HardwareDelayIsLag` | src/blocks.py:13-19 | both branches evaluate to the first-order lag 1/(tau·s + 1) wherever that is defined |
| `Factories.HardwareDelayProperUnitDc` | src/blocks.py:13-19 | every delay is proper and has steady-state gain 1 |
| `Factories.PidController` | src/blocks.py:6-10 | building from a gain list succeeds exactly when it holds three gains; otherwise the unpacking error |
| `Factories.PidRealisesGains` | src/blocks.py:6-10 | the coefficient lists evaluate to Kp + Ki/s + Kd·s at every nonzero s |
| `Factories.PidProperIff` | src/blocks.py:6-10 | the compensator is proper exactly when Kd = 0 |
| `Factories.SetpointPassesThrough` | src/blocks.py:22-23 | the setpoint block is named `set_points` by default; its input and output labels are the given names; it has no states; its n-by-n feedthrough returns every input vector unchanged |
| `Lti.IdentityPassesThrough` | src/blocks.py:23 | `np.eye(n)` times any n-vector is that vector |
| `Lti.Appended.Append` | src/blocks.py:29 | appending at least one single-channel system gives one input label and one output label per channel, with the channel dynamics in order |
| `Names.PrefixedDistinctIff` | src/blocks.py:30-54 | prefixed labels are distinct exactly when the channel names are |
| `Names.SuffixedDistinctIff` | src/blocks.py:76 | suffixed labels (`_sp`, `_disturb`) are distinct exactly when the channel names are |
| `Names.PrefixedInjective` | src/blocks.py:31 | two channel lists give the same prefixed labels exactly when they are equal |
| `Builders.Pids` | src/blocks.py:49 | the per-channel PID list succeeds exactly when every gain list is a triple; its i-th entry is the compensator of the i-th triple |
| `Builders.SensorsLabels` | src/blocks.py:26-34 | `add_sensors` succeeds exactly when there is at least one time constant and one CV per time constant; the block is `sensors` with input `cv` and output `sense_<cv>` per channel, in order, and the i-th delay |
| `Builders.ActuatorsLabels` | src/blocks.py:37-45 | `add_actuators` succeeds exactly when there is at least one time constant and one MV per time constant; the block is `actuators` with input `command_<mv>` and output `effect_<mv>` per channel, in order |
| `Builders.PidLabels` | src/blocks.py:48-56 | `add_pid_controllers` fails on a malformed gain list first, then on no channels; it succeeds exactly when the CV, MV and gain lists have one entry per channel; the block is `pid` with input `e_<cv>` and output `command_<mv>` per channel, in order |
| `Builders.PidFeedsActuators` | src/blocks.py:41-53 | the PID output labels equal the actuator input labels for the same MV list |
| `Builders.LabelsDistinctIff` | src/blocks.py:30-54 | each built block's input labels and output labels are distinct exactly when its channel names are |
| `Builders.AddSensors` | src/blocks.py:26-34 | the method returns the same error as `SensorsBlock`, or a fresh object whose labels, name and channels are `SensorsBlock`'s, with one label per channel |
| `Builders.AddActuators` | src/blocks.py:37-45 | the same for `ActuatorsBlock` |
| `Builders.AddPidControllers` | src/blocks.py:48-56 | the same for `PidBlock` |
| `Signals.ParseDottedRoundTrip` | src/blocks.py:64-67 | `"block.port"` with no dot in either part reads back as the reference with sign 1 |
| `Signals.ParseDottedSound` | src/blocks.py:64-67 | whatever dotted text reads as a reference is that reference's dotted text, with sign 1 and no dot in either part |
| `Loop.Zip` | src/blocks.py:63 | `zip`, taking one element of each list until either runs out, yields min(len(mvs), len(cvs)) pairs |
| `Loop.ZipAt` | src/blocks.py:63 | the i-th pair is the i-th MV with the i-th CV |
| `Loop.CloseLoop` | src/blocks.py:59-76 | the method produces exactly the connection list, the input list and the output list of the functions below, and forwards the blocks unchanged |
| `Loop.ConnectionListAt` | src/blocks.py:63-72 | the i-th pair's four connections are at 4i to 4i+3, in append order |
| `Loop.ConnectionListLength` | src/blocks.py:63-72 | four connections per pair, so 4·min(len(mvs), len(cvs)) for the zip |
| `Loop.WiringOrder` | src/blocks.py:63-72 | for pair i: PID junction on `cvs[i]`, then actuator, plant and sensor connections on `mvs[i]`, `mvs[i]`, `cvs[i]` |
| `Loop.ConnectionKinds` | src/blocks.py:63-72 | every emitted connection belongs to some paired channel's four |
| `Loop.JunctionSemantics` | src/blocks.py:64-67 | the PID junction forms setpoint − sensed value; the actuator, plant and sensor connections each copy their single source |
| `Loop.SignsOfSources` | src/blocks.py:64-67 | every connection has at least one source and every sign is ±1; -1 occurs only on the `sensors` source of a `pid` junction, which has two sources |
| `Loop.DestinationsDistinct` | src/blocks.py:63-72 | with distinct channel names no input port is the destination of two connections |
| `Loop.InputListLayout` | src/blocks.py:76 | the input list has 2·len(cvs) entries: `set_points.<cv>_sp` for every CV, then `plant.<cv>_disturb` for every CV |
| `Loop.OutputListLayout` | src/blocks.py:63-74 | the output list is `plant.<cv>` for each paired channel only, in order |
| `Loop.PairDottedForms` | src/blocks.py:64-67 | for a pair of dot-free channel names, every connection one iteration writes reads back from its dotted strings as its references |
| `Loop.DottedFormsRead` | src/blocks.py:64-67 | with dot-free channel names every dotted string in the connection list denotes the reference the model uses |
| `Diagram.BuiltBlocksFormDiagram` | simulation.py:11-21 | the blocks the factories and builders produce, with the plant's labels, form the five-block diagram passed to `close_loop` |
| `Diagram.PairResolves` | src/blocks.py:63-67 | in that diagram each of a pair's four connections runs from existing output ports into an existing input port |
| `Diagram.EveryReferenceResolves` | src/blocks.py:59-76 | every connection resolves, every external input names an input port and every external output names an output port |
| `Diagram.ResolutionUnique` | src/blocks.py:30-54 | block names are distinct, and with distinct channel names so are the labels of the setpoint, PID, actuator and sensor blocks |
| `Diagram.PlantResolutionUnique` | simulation.py:11 | the plant's input labels are distinct exactly when the MVs are distinct, the CVs are distinct and no MV equals `<cv>_disturb` for some CV; its output labels are distinct exactly when the CVs are |
| `Diagram.PlantLabelsCanCollide` | simulation.py:11 | distinct MV and CV names do not suffice: MV `T_disturb` with CV `T` gives the plant two inputs of the same name |

## Left out

- `ct.interconnect` (src/blocks.py:78-83) is not modelled. It resolves ports, assembles the summing-junction matrices and solves algebraic loops inside the control library, over floats. The model stops at `Loop.Request`: blocks, connections, input list and output list.
- State-space realisation is not modelled: `ct.ss` of a transfer function, `ct.append`'s block-diagonal matrices, and state counts. A block keeps its per-channel transfer functions, or its feedthrough matrix for the state-free setpoint block. What the library does with an improper compensator (Kd ≠ 0) is not modelled. `Factories.PidProperIff` only says when the compensator is improper.
- `Factories.PidController` gives the coefficient lists of Kp + Ki/s + Kd·s over the common denominator s, `[Kd, Kp, Ki]/[1, 0]`. The library's polynomial arithmetic may drop the leading zero when Kd = 0; that normalisation is not modelled. The rational function is the same either way.
- `Lti.Appended.Append`: before relabelling, the library names signals `u[i]`/`y[i]` and numbers the system itself. The model uses those labels and the fixed name `sys`. Every builder overwrites all three.
- `Builders.SensorsLabels`, `Builders.ActuatorsLabels`, `Builders.PidLabels`: a label list whose length differs from the channel count is reported by the model as `LabelCountMismatch`; what the library does with such an assignment is not modelled. Likewise `NoChannels` stands for `ct.append` called with no systems.
- `Signals.ParseDotted` is the model's reading of the `"block.port"` notation: exactly one dot, sign 1. The library's own signal-spec parser is not part of this model.
- `Loop.CloseLoop` takes the blocks as values (snapshots of the relabelled objects). The source passes the objects themselves, which nothing mutates after this point.
- simulation.py is left out: the forced-response solve and the plots (simulation.py:36-58) are numerics and I/O. Its plant enters only through its name and labels (simulation.py:11).
- src/setup.py is left out: physical constants and the plant matrices (src/setup.py:22-46) are fixed numeric inputs with no logic of their own.
- Float arithmetic is modelled as exact `real` arithmetic. The `tau == 0` test compares exactly, as the source does.
