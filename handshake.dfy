/**
 * The edge/status handshake between the INT0 interrupt handler and the
 * polling loops of `setup` and `main`, as pure transitions on a value.
 *
 * `pulse_status` is a byte of flag bits; MCUCR is represented only by its
 * ISC00 bit (`rising`), the one bit the handler reads and flips (ISC01 is
 * always set, so ISC00 alone selects rising versus falling edge).
 */
module Handshake {
  import opened Word

  /** Bit numbers of `pulse_status` (STATUS_START, STATUS_COMPLETE, STATUS_STOP). */
  const StatusStart: nat := 0
  const StatusComplete: nat := 1
  const StatusStop: nat := 2

  /** The corresponding masks `1 << STATUS_x`. */
  const StartBit: bv8 := 1 << StatusStart
  const CompleteBit: bv8 := 1 << StatusComplete
  const StopBit: bv8 := 1 << StatusStop

  predicate Has(status: bv8, bit: bv8)
  {
    status & bit != 0
  }

  /** The state shared by the handler and a polling loop. */
  datatype Sampler = Sampler(status: bv8, rising: bool, length: u16)

  /** What one poll leaves behind, and the pulse width it consumed, if any. */
  datatype Polled = Polled(next: Sampler, sample: Option<u16>)

  /** A stopped line: a flag is set, but neither START nor COMPLETE is pending. */
  predicate Parked(s: Sampler)
  {
    s.status != 0 && !Has(s.status, StartBit) && !Has(s.status, CompleteBit)
  }

  /**
   * `ISR(INT0_vect)`: on a rising edge raise START and arm for the falling
   * edge; on a falling edge raise COMPLETE and arm for the rising edge.
   */
  function OnInt0(s: Sampler): (r: Sampler)
    ensures r.rising == !s.rising && r.length == s.length
    ensures s.rising ==> Has(r.status, StartBit) && r.status & !StartBit == s.status & !StartBit
    ensures !s.rising ==> Has(r.status, CompleteBit) && r.status & !CompleteBit == s.status & !CompleteBit
  {
    if s.rising then Sampler(s.status | StartBit, false, s.length)
    else Sampler(s.status | CompleteBit, true, s.length)
  }

  /**
   * One iteration of the polling loop (the status part shared by `setup`
   * and `main`): count while no flag is set, restart on START, consume the
   * width on COMPLETE and park in STOP, otherwise wait.
   */
  function Poll(s: Sampler): (r: Polled)
    ensures r.next.rising == s.rising
    // no flag: only the tick counter moves, wrapping at 2^16
    ensures s.status == 0 ==> r == Polled(s.(length := (s.length + 1) % M16), None)
    // START wins over everything, including a pending COMPLETE
    ensures Has(s.status, StartBit) ==> r == Polled(Sampler(0, s.rising, 0), None)
    // a width is delivered exactly when COMPLETE is pending without START
    ensures r.sample.Some? <==> !Has(s.status, StartBit) && Has(s.status, CompleteBit)
    ensures r.sample.Some? ==>
      r.sample.value == s.length && r.next.length == 0 && Parked(r.next) && Has(r.next.status, StopBit)
    // parked: nothing changes
    ensures Parked(s) ==> r == Polled(s, None)
  {
    if s.status == 0 then
      Polled(s.(length := (s.length + 1) % M16), None)
    else if Has(s.status, StartBit) then
      Polled(Sampler(0, s.rising, 0), None)
    else if Has(s.status, CompleteBit) then
      Polled(Sampler((s.status & !CompleteBit) | StopBit, s.rising, 0), Some(s.length))
    else
      Polled(s, None)
  }

  /** `k` loop iterations with no interrupt in between. */
  function Polls(s: Sampler, k: nat): Sampler
    decreases k
  {
    if k == 0 then s else Polls(Poll(s).next, k - 1)
  }

  /** While no flag is set, `k` polls add `k` to the width, modulo 2^16. */
  lemma {:induction false} CountsTicks(s: Sampler, k: nat)
    requires s.status == 0
    ensures Polls(s, k) == s.(length := (s.length + k) % M16)
    decreases k
  {
    if k > 0 {
      var s' := Poll(s).next;
      CountsTicks(s', k - 1);
      ModAddLeft(s.length + 1, k - 1);
    }
  }

  /** Once parked, polling alone never resumes counting: only an interrupt can. */
  lemma {:induction false} ParkedStaysParked(s: Sampler, k: nat)
    requires Parked(s)
    ensures Polls(s, k) == s
    decreases k
  {
    if k > 0 {
      ParkedStaysParked(Poll(s).next, k - 1);
    }
  }

  /**
   * A whole pulse, from a parked line armed for a rising edge: any number of
   * idle polls, the rising edge, the poll that restarts the count, `ticks`
   * counting polls, the falling edge and the consuming poll. The width
   * delivered is `ticks` modulo 2^16, and the line is parked again, armed for
   * the next rising edge, with the counter cleared.
   */
  lemma MeasuresPulse(s: Sampler, idle: nat, ticks: nat)
    requires Parked(s) && s.rising
    ensures var started := Poll(OnInt0(Polls(s, idle))).next;
            var done := OnInt0(Polls(started, ticks));
            Poll(done).sample == Some(ticks % M16) &&
            Poll(done).next == Sampler(StopBit, true, 0)
  {
    ParkedStaysParked(s, idle);
    var started := Poll(OnInt0(Polls(s, idle))).next;
    assert started == Sampler(0, false, 0);
    CountsTicks(started, ticks);
  }

  /**
   * `setup` starts with `pulse_status |= STATUS_STOP`, i.e. the value 2, which
   * is the COMPLETE mask: a first poll with no interrupt consumes a width of 0.
   */
  const SetupStatus: bv8 := 0 | (StatusStop as bv8)

  lemma SetupStartsWithZeroSample()
    ensures SetupStatus == CompleteBit
    ensures Poll(Sampler(SetupStatus, true, 0)) == Polled(Sampler(StopBit, true, 0), Some(0))
  {
  }
}
