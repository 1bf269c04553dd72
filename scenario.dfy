/**
 * The firmware driven by a PPM signal: calibration at power-up followed by
 * stick movements, both on the pure model and on the `MemorySwitch` object.
 */
module Scenario {
  import opened Word
  import opened Handshake
  import opened Calibration
  import Latch
  import opened Firmware

  /**
   * Calibrating with the zero from the start-up quirk and then 1480, 1500,
   * 1520 and 1500 ticks gives neutral 1500 and thresholds 1700/1300; then
   * neutral, forward, neutral, backward toggles PB3 and later PB4, once each.
   */
  lemma CalibrateThenSwitch()
    ensures Neutral([0, 1480, 1500, 1520, 1500]) == 1500
    ensures Thresholds(1500) == Bounds(1700, 1300)
    ensures var t := Bounds(1700, 1300);
            var start := Latch.Outputs(false, false, false);
            Latch.Run([1500, 1750, 1500, 1200], t, start) == Latch.Outputs(true, true, true) &&
            Latch.ForwardToggles([1500, 1750, 1500, 1200], t, start) == 1 &&
            Latch.BackwardToggles([1500, 1750, 1500, 1200], t, start) == 1
  {
    var r: seq<u16> := [0, 1480, 1500, 1520, 1500];
    assert r[..4] == [0, 1480, 1500, 1520];
    assert r[..4][..3] == [0, 1480, 1500];
    assert r[..4][..3][..2] == [0, 1480];
    assert r[..4][..3][..2][..1] == [0];
    assert [0][..0] == [];
    assert Sum([0]) == 0;
    assert Sum([0, 1480]) == 1480;
    assert Sum([0, 1480, 1500]) == 2980;
    assert Sum([0, 1480, 1500, 1520]) == 4500;
    assert Sum(r) == 6000;
    NeutralIsQuarterSum(r);
    ThresholdsAt1500();
    var w: seq<u16> := [1500, 1750, 1500, 1200];
    assert w[1..] == [1750, 1500, 1200];
    assert w[1..][1..] == [1500, 1200];
    assert w[1..][1..][1..] == [1200];
  }

  /** Poll once more: `SetupStep` while calibrating, `MainStep` afterwards. */
  method Tick(fw: MemorySwitch)
    requires fw.Valid() && fw.Line().status == 0
    modifies fw
    ensures fw.Valid() && fw.Line() == Poll(old(fw.Line())).next
    ensures fw.calibrated == old(fw.calibrated) && fw.recorded == old(fw.recorded)
    ensures fw.Limits() == old(fw.Limits()) && fw.Switch() == old(fw.Switch())
  {
    if fw.calibrated {
      fw.MainStep();
    } else {
      fw.SetupStep();
    }
  }

  /**
   * One pulse of `ticks` counting polls: the rising edge, the poll that
   * restarts the count, the counting polls and the falling edge. The
   * completion is left pending for the next loop iteration.
   */
  method Pulse(fw: MemorySwitch, ticks: nat)
    requires fw.Valid() && fw.Line() == Sampler(StopBit, true, 0)
    modifies fw
    ensures fw.Valid() && fw.Line() == Sampler(CompleteBit, true, ticks % M16)
    ensures fw.calibrated == old(fw.calibrated) && fw.recorded == old(fw.recorded)
    ensures fw.Limits() == old(fw.Limits()) && fw.Switch() == old(fw.Switch())
  {
    fw.Int0();
    if fw.calibrated {
      fw.MainStep();
    } else {
      fw.SetupStep();
    }
    var i := 0;
    while i < ticks
      invariant 0 <= i <= ticks
      invariant fw.Valid() && fw.Line() == Sampler(0, false, i % M16)
      invariant fw.calibrated == old(fw.calibrated) && fw.recorded == old(fw.recorded)
      invariant fw.Limits() == old(fw.Limits()) && fw.Switch() == old(fw.Switch())
    {
      Tick(fw);
      ModAddLeft(i, 1);
      i := i + 1;
    }
    fw.Int0();
  }

  /** A pulse of `ticks` polls during calibration, recorded by the next setup iteration. */
  method SetupPulse(fw: MemorySwitch, ticks: nat)
    requires fw.Valid() && !fw.calibrated && fw.Line() == Sampler(StopBit, true, 0)
    modifies fw
    ensures fw.Valid() && fw.Line() == Sampler(StopBit, true, 0)
    ensures fw.recorded == old(fw.recorded) + [ticks % M16]
    ensures fw.calibrated == (|fw.recorded| == SetupPulses)
    ensures fw.calibrated ==> fw.neutralLength == Neutral(fw.recorded) && fw.Limits() == Thresholds(fw.neutralLength)
    ensures fw.Switch() == old(fw.Switch())
  {
    Pulse(fw, ticks);
    fw.SetupStep();
  }

  /** A pulse of `ticks` polls after calibration, consumed by the next main iteration. */
  method SwitchPulse(fw: MemorySwitch, ticks: nat)
    requires fw.Valid() && fw.calibrated && fw.Line() == Sampler(StopBit, true, 0)
    modifies fw
    ensures fw.Valid() && fw.calibrated && fw.Line() == Sampler(StopBit, true, 0)
    ensures fw.Limits() == old(fw.Limits())
    ensures fw.Switch() == Latch.Step(ticks % M16, fw.Limits(), old(fw.Switch()))
  {
    Pulse(fw, ticks);
    fw.MainStep();
  }

  /**
   * Power-up and calibration on the object: the spurious zero, then pulses
   * of 1480, 1500, 1520 and 1500 ticks. Main's loop takes over with
   * thresholds 1700 and 1300 and both outputs low.
   */
  method PowerUp() returns (fw: MemorySwitch)
    ensures fresh(fw) && fw.Valid() && fw.calibrated && fw.Line() == Sampler(StopBit, true, 0)
    ensures fw.Limits() == Bounds(1700, 1300)
    ensures fw.Switch() == Latch.Outputs(false, false, false)
  {
    fw := new MemorySwitch();
    fw.SetupStep();
    assert fw.recorded == [0];
    SetupPulse(fw, 1480);
    SetupPulse(fw, 1500);
    SetupPulse(fw, 1520);
    SetupPulse(fw, 1500);
    assert fw.recorded == [0, 1480, 1500, 1520, 1500];
    CalibrateThenSwitch();
  }

  /**
   * The scenario of `CalibrateThenSwitch` on the object: after power-up,
   * pulses of 1500, 1750, 1500 and 1200 ticks. The thresholds are 1700 and
   * 1300, and both outputs end up on.
   */
  method PowerUpAndSwitch() returns (forward: u16, backward: u16, pb3: bool, pb4: bool)
    ensures forward == 1700 && backward == 1300
    ensures pb3 && pb4
  {
    var fw := PowerUp();
    forward, backward := fw.forwardOn, fw.backwardOn;
    SwitchPulse(fw, 1500);
    assert fw.Switch() == Latch.Outputs(false, false, false);
    SwitchPulse(fw, 1750);
    assert fw.Switch() == Latch.Outputs(true, true, false);
    SwitchPulse(fw, 1500);
    assert fw.Switch() == Latch.Outputs(false, true, false);
    SwitchPulse(fw, 1200);
    pb3, pb4 := fw.pb3, fw.pb4;
  }
}
