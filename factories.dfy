/** The single-block factories of blocks.py: the PID compensator, the
    hardware delay and the setpoint pass-through. */
module Factories {
  import opened Wrappers
  import opened Lti

  /** Why building a block fails. */
  datatype BuildError =
    | GainCountMismatch   // a PID gain list does not hold exactly Kp, Ki, Kd
    | NoChannels          // nothing to append
    | LabelCountMismatch  // a label list does not have one label per channel

  /** `hardware_delay(tau)`: the first-order lag 1/(tau·s + 1), written as the
      plain wire 1/1 when tau is zero. */
  function HardwareDelay(tau: real): (tf: Tf)
  {
    if tau == 0.0 then Tf([1.0], [1.0]) else Tf([1.0], [tau, 1.0])
  }

  /** The delay is the unity pass-through 1/1 exactly when tau is zero, and
      [1]/[tau, 1] otherwise. */
  lemma HardwareDelayShape(tau: real)
    ensures HardwareDelay(tau) == Tf([1.0], [1.0]) <==> tau == 0.0
    ensures tau != 0.0 ==> HardwareDelay(tau) == Tf([1.0], [tau, 1.0])
  {
  }

  /** Both branches realise the same lag 1/(tau·s + 1): the zero-tau branch
      is that lag at tau = 0, not a different block. */
  lemma HardwareDelayIsLag(tau: real, s: real)
    requires tau * s + 1.0 != 0.0
    ensures PolyEval(HardwareDelay(tau).den, s) == tau * s + 1.0
    ensures Gain(HardwareDelay(tau), s) == 1.0 / (tau * s + 1.0)
  {
    var tf := HardwareDelay(tau);
    assert PolyEval(tf.num, s) == 1.0 by {
      assert PolyEval(tf.num[..0], s) == 0.0;
    }
    if tau == 0.0 {
      assert PolyEval(tf.den, s) == 1.0 by {
        assert PolyEval(tf.den[..0], s) == 0.0;
      }
    } else {
      assert tf.den[..1] == [tau];
      assert PolyEval([tau], s) == tau by {
        assert [tau][..0] == [];
      }
    }
  }

  /** The delay is always proper and has unit steady-state gain. */
  lemma HardwareDelayProperUnitDc(tau: real)
    ensures Proper(HardwareDelay(tau))
    ensures PolyEval(HardwareDelay(tau).den, 0.0) == 1.0 && Gain(HardwareDelay(tau), 0.0) == 1.0
  {
    HardwareDelayIsLag(tau, 0.0);
    var tf := HardwareDelay(tau);
    assert |Trimmed(tf.num)| == 1 by {
      assert tf.num == [1.0];
    }
    assert |Trimmed(tf.den)| == |tf.den| by {
      assert tf.den[0] != 0.0;
    }
  }

  /** `pid_controller([Kp, Ki, Kd])`: Kp + Ki/s + Kd·s over the common
      denominator s, that is (Kd·s² + Kp·s + Ki)/s. Unpacking a list that
      does not hold exactly three gains fails. */
  function PidController(gains: seq<real>): (r: Result<Tf, BuildError>)
    ensures r.Success? <==> |gains| == 3
    ensures r.Failure? ==> r.error == GainCountMismatch
  {
    if |gains| != 3 then Failure(GainCountMismatch)
    else
      var kp, ki, kd := gains[0], gains[1], gains[2];
      Success(Tf([kd, kp, ki], [1.0, 0.0]))
  }

  /** Wherever s is nonzero the coefficient lists evaluate to Kp + Ki/s + Kd·s. */
  lemma PidRealisesGains(kp: real, ki: real, kd: real, s: real)
    requires s != 0.0
    ensures PidController([kp, ki, kd]).Success?
    ensures PolyEval(PidController([kp, ki, kd]).value.den, s) == s
    ensures Gain(PidController([kp, ki, kd]).value, s) == kp + ki / s + kd * s
  {
    var tf := PidController([kp, ki, kd]).value;
    assert tf.num[..2] == [kd, kp] && [kd, kp][..1] == [kd] && [kd][..0] == [];
    assert PolyEval([kd], s) == kd;
    assert PolyEval([kd, kp], s) == kd * s + kp;
    assert PolyEval(tf.num, s) == (kd * s + kp) * s + ki;
    assert tf.den[..1] == [1.0] && [1.0][..0] == [];
    assert PolyEval(tf.den, s) == s;
    calc {
      ((kd * s + kp) * s + ki) / s;
      == (kd * s * s + kp * s + ki) / s;
      == kd * s + kp + ki / s;
    }
  }

  /** The PID block is proper exactly when its derivative gain is zero: with
      Kd ≠ 0 the numerator has degree two over a denominator of degree one. */
  lemma PidProperIff(kp: real, ki: real, kd: real)
    ensures PidController([kp, ki, kd]).Success?
    ensures Proper(PidController([kp, ki, kd]).value) <==> kd == 0.0
  {
  }

  /** `setpoint_block(names, block_name)`: no states and the identity
      feedthrough, with the given names as both input and output labels. */
  function SetpointBlock(names: seq<string>, blockName: string := "set_points"): (b: Block)
  {
    Block(blockName, names, names, Feedthrough(Identity(|names|)))
  }

  /** The setpoint block is named `set_points` unless told otherwise, labels
      its ports with the given names in order, and hands every input straight
      to the output of the same name. */
  lemma SetpointPassesThrough(names: seq<string>, u: seq<real>)
    requires |u| == |names|
    ensures SetpointBlock(names).name == "set_points"
    ensures SetpointBlock(names).inputs == names && SetpointBlock(names).outputs == names
    ensures SetpointBlock(names).dynamics.Feedthrough?
    ensures var d := SetpointBlock(names).dynamics.d;
      |d| == |names| && (forall i :: 0 <= i < |d| ==> |d[i]| == |names|) && MatVec(d, u) == u
  {
    IdentityPassesThrough(|names|, u);
  }
}
