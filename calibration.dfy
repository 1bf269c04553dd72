/**
 * The startup calibrator of `setup`: the wrapping sum of the recorded
 * widths, the neutral width, and the two toggle thresholds placed 40% of
 * the way from neutral towards full deflection.
 */
module Calibration {
  import opened Word

  /** `setup` stops after this many recorded completions (`setup_counter == 5`). */
  const SetupPulses: nat := 5

  /** The two thresholds (`forward_on_pulse_length`, `backwards_on_pulse_length`). */
  datatype Bounds = Bounds(forward: u16, backward: u16)

  /** `neutral_pulse_length += pulse_length`, once per recorded width, in `uint16_t`. */
  function Sum16(widths: seq<u16>): u16
  {
    if widths == [] then 0 else (Sum16(widths[..|widths| - 1]) + widths[|widths| - 1]) % M16
  }

  /** The exact, unbounded sum of the widths. */
  function Sum(widths: seq<u16>): nat
  {
    if widths == [] then 0 else Sum(widths[..|widths| - 1]) + widths[|widths| - 1]
  }

  /** The 16-bit accumulator holds the exact sum reduced modulo 2^16. */
  lemma {:induction false} Sum16IsSumMod(widths: seq<u16>)
    ensures Sum16(widths) == Sum(widths) % M16
  {
    if widths != [] {
      var init := widths[..|widths| - 1];
      Sum16IsSumMod(init);
      ModAddLeft(Sum(init), widths[|widths| - 1]);
    }
  }

  /**
   * Line 98: the sum of the five recorded widths divided by
   * `setup_counter - 1`, that is by 4.
   */
  function Neutral(recorded: seq<u16>): u16
    requires |recorded| == SetupPulses
  {
    Sum16(recorded) / (SetupPulses - 1)
  }

  /**
   * Neutral is a quarter of the exact sum reduced modulo 2^16, and exactly
   * a quarter of the sum whenever the sum fits in 16 bits.
   */
  lemma NeutralIsQuarterSum(recorded: seq<u16>)
    requires |recorded| == SetupPulses
    ensures Neutral(recorded) == (Sum(recorded) % M16) / 4
    ensures Sum(recorded) < M16 ==> Neutral(recorded) == Sum(recorded) / 4
  {
    Sum16IsSumMod(recorded);
  }

  /**
   * Line 99, `((((n * 20) / 15) - n) * 4) / 10`, evaluated in 16-bit
   * unsigned arithmetic: every product and difference wraps modulo 2^16.
   */
  function Diff40(n: u16): u16
  {
    var scaled := (n * 20) % M16;
    var deviation := (scaled / 15 - n) % M16;
    ((deviation * 4) % M16) / 10
  }

  /** Lines 100-101: neutral plus and minus `diff40`, stored in `uint16_t`. */
  function Thresholds(n: u16): Bounds
  {
    var d := Diff40(n);
    Bounds((n + d) % M16, (n - d) % M16)
  }

  /**
   * For every neutral width, wrapped or not, forward lies `Diff40(n)` above
   * neutral and backward `Diff40(n)` below it, modulo 2^16.
   */
  lemma ThresholdsSymmetric(n: u16)
    ensures (Thresholds(n).forward - n) % M16 == Diff40(n)
    ensures (n - Thresholds(n).backward) % M16 == Diff40(n)
  {
    WrapUndone(n, Diff40(n));
  }

  /** Adding and then subtracting in 16 bits gives the offset back, whether or not it wrapped. */
  lemma WrapUndone(n: u16, d: u16)
    ensures ((n + d) % M16 - n) % M16 == d
    ensures (n - (n - d) % M16) % M16 == d
  {
    if n + d >= M16 {
      assert (n + d) % M16 == n + d - M16;
    }
    if n < d {
      assert (n - d) % M16 == n - d + M16;
    }
  }

  /** `n * 20 / 15` is `n + n / 3` in exact arithmetic. */
  lemma ScaleByFourThirds(n: nat)
    ensures (n * 20) / 15 == n + n / 3
  {
    var q, r := n / 3, n % 3;
    assert n * 20 == 15 * (4 * q + r) + 5 * r;
  }

  /**
   * While `n * 20` fits in 16 bits (n <= 3276), no step of line 99 wraps,
   * and since floor(4n/3) - n == floor(n/3) the offset is (n/3*4)/10.
   */
  lemma Diff40Exact(n: u16)
    requires n <= 3276
    ensures Diff40(n) == (n / 3 * 4) / 10
  {
    var scaled := (n * 20) % M16;
    assert scaled == n * 20;
    ScaleByFourThirds(n);
    var deviation := (scaled / 15 - n) % M16;
    assert deviation == n / 3;
    assert (deviation * 4) % M16 == n / 3 * 4;
  }

  /** The closed-form offset never exceeds the width and is positive exactly from 9 on. */
  lemma OffsetRange(n: nat)
    ensures (n / 3 * 4) / 10 <= n
    ensures (n / 3 * 4) / 10 >= 1 <==> n >= 9
  {
    var q := n / 3;
    assert (q * 4) / 10 <= q;
    assert (q * 4) / 10 >= 1 <==> q >= 3;
  }

  /** An offset that neither overflows nor underflows is applied exactly. */
  lemma ThresholdsWithoutWrap(n: u16, d: u16)
    requires Diff40(n) == d && d <= n && n + d < M16
    ensures Thresholds(n) == Bounds(n + d, n - d)
  {
    assert (n + d) % M16 == n + d;
    assert (n - d) % M16 == n - d;
  }

  /**
   * Without wrap-around the thresholds are symmetric about neutral and
   * ordered around it; both inequalities are strict exactly when the
   * offset is at least one tick, which is the case from n == 9 on.
   */
  lemma ThresholdsAroundNeutral(n: u16)
    requires n <= 3276
    ensures var t := Thresholds(n);
            t.forward - n == n - t.backward == (n / 3 * 4) / 10 &&
            t.backward <= n <= t.forward &&
            (t.backward < n < t.forward <==> n >= 9)
  {
    Diff40Exact(n);
    OffsetRange(n);
    ThresholdsWithoutWrap(n, (n / 3 * 4) / 10);
  }

  /** A 1500-tick neutral gives the thresholds 1700 and 1300. */
  lemma ThresholdsAt1500()
    ensures Thresholds(1500) == Bounds(1700, 1300)
  {
    Diff40Exact(1500);
  }

  /**
   * Past 3276 the product `n * 20` wraps: at 3277 the backward threshold
   * lands above neutral.
   */
  lemma ThresholdsWrapAt3277()
    ensures Thresholds(3277) == Bounds(8519, 63571)
    ensures Thresholds(3277).backward > 3277
  {
    var scaled := (3277 * 20) % M16;
    assert scaled == 4;
    var deviation := (scaled / 15 - 3277) % M16;
    assert deviation == 62259;
    assert (deviation * 4) % M16 == 52428;
    assert Diff40(3277) == 5242;
  }

  /**
   * The first recorded width of `setup` is the spurious 0; four further
   * widths of a stick held at `v` then calibrate to exactly `v`.
   */
  lemma SteadyStickCalibratesToIt(v: u16)
    requires v < M16 / 4
    ensures Neutral([0, v, v, v, v]) == v
  {
    var r := [0, v, v, v, v];
    assert r[..4] == [0, v, v, v];
    assert r[..4][..3] == [0, v, v];
    assert r[..4][..3][..2] == [0, v];
    assert r[..4][..3][..2][..1] == [0];
    assert [0][..0] == [];
    assert Sum([0]) == 0;
    assert Sum([0, v]) == v;
    assert Sum([0, v, v]) == 2 * v;
    assert Sum([0, v, v, v]) == 3 * v;
    assert Sum(r) == 4 * v;
    NeutralIsQuarterSum(r);
  }
}
