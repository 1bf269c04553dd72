/**
 * The firmware's mutable state and its three entry points: the INT0
 * interrupt handler and one iteration of each polling loop (`setup`, then
 * `main`). The interrupt is an event the environment calls between loop
 * iterations; it never runs in the middle of one.
 */
module Firmware {
  import opened Word
  import opened Handshake
  import opened Calibration
  import Latch

  class MemorySwitch {
    /** `pulse_status` */
    var status: bv8
    /** the ISC00 bit of MCUCR: the next INT0 is a rising edge */
    var risingMode: bool
    /** `pulse_length` of the loop that is running */
    var pulseLength: u16
    /** setup's `neutral_pulse_length`: the running sum, then the quotient of line 98 */
    var neutralLength: u16
    /** setup's `setup_counter` */
    var setupCounter: u8
    /** `setup` has returned and `main` is polling */
    var calibrated: bool
    /** `forward_on_pulse_length`, `backwards_on_pulse_length` */
    var forwardOn: u16
    var backwardOn: u16
    /** main's `was_last_on` */
    var wasLastOn: bool
    /** PORTB3 and PORTB4 */
    var pb3: bool
    var pb4: bool
    /** the widths `setup` has added up so far */
    ghost var recorded: seq<u16>

    /**
     * The bookkeeping of setup's loop. What calibration produced is stated by
     * the postconditions of `SetupStep`; afterwards no method writes the
     * thresholds again.
     */
    ghost predicate Valid()
      reads this`setupCounter, this`recorded, this`calibrated, this`neutralLength
    {
      setupCounter == |recorded| &&
      if calibrated then
        |recorded| == SetupPulses
      else
        |recorded| < SetupPulses && neutralLength == Sum16(recorded)
    }

    function Line(): Sampler
      reads this
    {
      Sampler(status, risingMode, pulseLength)
    }

    function Switch(): Latch.Outputs
      reads this
    {
      Latch.Outputs(wasLastOn, pb3, pb4)
    }

    function Limits(): Bounds
      reads this
    {
      Bounds(forwardOn, backwardOn)
    }

    /**
     * Power-up through the start of setup's loop: outputs low (line 121),
     * thresholds 0 (lines 61-62), rising edge armed (line 76) and
     * `pulse_status` set to 2, the COMPLETE mask (lines 77-78).
     */
    constructor ()
      ensures Valid() && !calibrated && recorded == []
      ensures Line() == Sampler(CompleteBit, true, 0)
      ensures Switch() == Latch.Outputs(false, false, false)
      ensures Limits() == Bounds(0, 0)
    {
      forwardOn, backwardOn := 0, 0;
      wasLastOn := false;
      pb3, pb4 := false, false;
      pulseLength, neutralLength, setupCounter := 0, 0, 0;
      recorded := [];
      calibrated := false;
      risingMode := true;
      status := 0;
      new;
      status := status | (StatusStop as bv8);
    }

    /** `ISR(INT0_vect)`: only `pulse_status` and the edge selection change. */
    method Int0()
      requires Valid()
      modifies this`status, this`risingMode
      ensures Valid()
      ensures Line() == OnInt0(old(Line()))
    {
      if risingMode {
        status := status | StartBit;
        risingMode := false;
      } else {
        risingMode := true;
        status := status | CompleteBit;
      }
    }

    /**
     * One iteration of setup's loop. A consumed width is added to the sum;
     * the fifth one ends calibration, and the state becomes the one `main`
     * polls from (rising edge armed, STOP set, its own `pulse_length` 0).
     */
    method SetupStep()
      requires Valid() && !calibrated
      modifies this
      ensures Valid()
      ensures Switch() == old(Switch())
      ensures Poll(old(Line())).sample.None? ==>
        Line() == Poll(old(Line())).next && !calibrated && recorded == old(recorded) &&
        Limits() == old(Limits())
      ensures Poll(old(Line())).sample.Some? ==>
        recorded == old(recorded) + [old(pulseLength)] &&
        calibrated == (|recorded| == SetupPulses) &&
        Line() == (if calibrated then Sampler(StopBit, true, 0) else Poll(old(Line())).next) &&
        (!calibrated ==> Limits() == old(Limits())) &&
        (calibrated ==> neutralLength == Neutral(recorded) && Limits() == Thresholds(neutralLength))
    {
      if status == 0 {
        pulseLength := (pulseLength + 1) % M16;
      } else if status & StartBit != 0 {
        status := 0;
        pulseLength := 0;
      } else if status & CompleteBit != 0 {
        status := status & !CompleteBit;
        status := status | StopBit;
        RecordWidth();
      }
    }

    /**
     * Lines 94-104: add the consumed width to the sum; the fifth one ends
     * calibration and hands over to `main`.
     */
    method RecordWidth()
      requires Valid() && !calibrated
      modifies this`neutralLength, this`setupCounter, this`recorded, this`calibrated,
        this`forwardOn, this`backwardOn, this`risingMode, this`status, this`pulseLength
      ensures Valid()
      ensures recorded == old(recorded) + [old(pulseLength)]
      ensures calibrated == (|recorded| == SetupPulses)
      ensures calibrated ==> Line() == Sampler(StopBit, true, 0)
      ensures calibrated ==> neutralLength == Neutral(recorded) && Limits() == Thresholds(neutralLength)
      ensures !calibrated ==> Line() == old(Line()).(length := 0) && Limits() == old(Limits())
    {
      neutralLength := (neutralLength + pulseLength) % M16;
      setupCounter := setupCounter + 1;
      recorded := recorded + [pulseLength];
      assert recorded[..|recorded| - 1] == old(recorded);
      if setupCounter == 5 {
        FinishCalibration();
        // main, lines 127-130: rising edge armed, STOP set; its pulse_length is still 0
        risingMode := true;
        status := 0;
        status := status | StopBit;
        pulseLength := 0;
        return;
      }
      pulseLength := 0;
    }

    /** Lines 97-101: the neutral width and the two thresholds, once five widths are summed. */
    method FinishCalibration()
      requires setupCounter == |recorded| == SetupPulses && neutralLength == Sum16(recorded)
      modifies this`neutralLength, this`forwardOn, this`backwardOn, this`calibrated
      ensures Valid() && calibrated
      ensures neutralLength == Neutral(recorded) && Limits() == Thresholds(neutralLength)
    {
      neutralLength := neutralLength / (setupCounter - 1);
      var t := Thresholds(neutralLength);
      forwardOn, backwardOn := t.forward, t.backward;
      calibrated := true;
    }

    /**
     * One iteration of main's loop: the handshake of `Poll`, and for a
     * consumed width the latch decision against the calibrated thresholds.
     */
    method MainStep()
      requires Valid() && calibrated
      modifies this`status, this`pulseLength, this`wasLastOn, this`pb3, this`pb4
      ensures Valid()
      ensures Line() == Poll(old(Line())).next
      ensures Switch() ==
        match Poll(old(Line())).sample
        case None => old(Switch())
        case Some(width) => Latch.Step(width, Limits(), old(Switch()))
    {
      if status == 0 {
        pulseLength := (pulseLength + 1) % M16;
      } else if status & StartBit != 0 {
        status := 0;
        pulseLength := 0;
      } else if status & CompleteBit != 0 {
        status := status & !CompleteBit;
        status := status | StopBit;
        ApplyLatch();
        pulseLength := 0;
      }
    }

    /** Lines 148-160: the latch decision for the width just consumed. */
    method ApplyLatch()
      modifies this`wasLastOn, this`pb3, this`pb4
      ensures Switch() == Latch.Step(pulseLength, Limits(), old(Switch()))
    {
      if backwardOn < pulseLength && pulseLength < forwardOn {
        wasLastOn := false;
      } else if pulseLength < backwardOn && !wasLastOn {
        pb4 := !pb4;
        wasLastOn := true;
      } else if pulseLength > forwardOn && !wasLastOn {
        pb3 := !pb3;
        wasLastOn := true;
      }
    }
  }
}
