/**
 * The memory-switch latch of `main`: each consumed width is compared with
 * the calibrated thresholds; a deflection toggles PB4 (backward) or PB3
 * (forward) once, and only a return into the neutral band re-arms.
 */
module Latch {
  import opened Word
  import opened Calibration

  /** `was_last_on` and the two output bits PORTB3 and PORTB4. */
  datatype Outputs = Outputs(latched: bool, pb3: bool, pb4: bool)

  /** Strictly between the thresholds. */
  predicate InBand(width: u16, t: Bounds)
  {
    t.backward < width < t.forward
  }

  /** Thresholds as calibration produces them without wrap-around. */
  predicate Ordered(t: Bounds)
  {
    t.backward <= t.forward
  }

  /** Calibration yields ordered thresholds for every neutral width whose products do not wrap. */
  lemma CalibratedOrdered(n: u16)
    requires n <= 3276
    ensures Ordered(Thresholds(n))
  {
    ThresholdsAroundNeutral(n);
  }

  /** The decision of lines 148-160 for one consumed width. */
  function Step(width: u16, t: Bounds, s: Outputs): (r: Outputs)
    // the neutral band re-arms and touches no output
    ensures InBand(width, t) ==> r == s.(latched := false)
    // outside the band, an engaged latch holds everything
    ensures !InBand(width, t) && s.latched ==> r == s
    // PB4 toggles exactly on a backward deflection while armed
    ensures r.pb4 != s.pb4 <==> !s.latched && width < t.backward
    // PB3 toggles exactly on a forward deflection while armed (backward takes priority)
    ensures r.pb3 != s.pb3 <==> !s.latched && t.forward < width && t.backward <= width
    ensures !(r.pb3 != s.pb3 && r.pb4 != s.pb4)
    ensures r.latched <==> !InBand(width, t) && (s.latched || width < t.backward || t.forward < width)
    // a width exactly on a threshold changes nothing, not even the latch
    ensures Ordered(t) && (width == t.forward || width == t.backward) ==> r == s
  {
    if InBand(width, t) then s.(latched := false)
    else if width < t.backward && !s.latched then Outputs(true, s.pb3, !s.pb4)
    else if width > t.forward && !s.latched then Outputs(true, !s.pb3, s.pb4)
    else s
  }

  /** The outputs after a sequence of consumed widths. */
  function Run(widths: seq<u16>, t: Bounds, s: Outputs): Outputs
    decreases |widths|
  {
    if widths == [] then s else Run(widths[1..], t, Step(widths[0], t, s))
  }

  /** How many of the steps toggle PB3. */
  function ForwardToggles(widths: seq<u16>, t: Bounds, s: Outputs): nat
    decreases |widths|
  {
    if widths == [] then 0
    else
      var s' := Step(widths[0], t, s);
      (if s'.pb3 != s.pb3 then 1 else 0) + ForwardToggles(widths[1..], t, s')
  }

  /** How many of the steps toggle PB4. */
  function BackwardToggles(widths: seq<u16>, t: Bounds, s: Outputs): nat
    decreases |widths|
  {
    if widths == [] then 0
    else
      var s' := Step(widths[0], t, s);
      (if s'.pb4 != s.pb4 then 1 else 0) + BackwardToggles(widths[1..], t, s')
  }

  /** Each output ends up flipped exactly when it was toggled an odd number of times. */
  lemma {:induction false} TogglesDecideOutputs(widths: seq<u16>, t: Bounds, s: Outputs)
    ensures Run(widths, t, s).pb3 == (s.pb3 != (ForwardToggles(widths, t, s) % 2 == 1))
    ensures Run(widths, t, s).pb4 == (s.pb4 != (BackwardToggles(widths, t, s) % 2 == 1))
    decreases |widths|
  {
    if widths != [] {
      TogglesDecideOutputs(widths[1..], t, Step(widths[0], t, s));
    }
  }

  /**
   * With no width in the neutral band the latch is never re-armed, so the
   * two outputs together toggle at most once, and not at all if it starts
   * engaged.
   */
  lemma {:induction false} NoNeutralAtMostOneToggle(widths: seq<u16>, t: Bounds, s: Outputs)
    requires forall i :: 0 <= i < |widths| ==> !InBand(widths[i], t)
    ensures ForwardToggles(widths, t, s) + BackwardToggles(widths, t, s) <= (if s.latched then 0 else 1)
    decreases |widths|
  {
    if widths != [] {
      var s' := Step(widths[0], t, s);
      assert forall i :: 0 <= i < |widths[1..]| ==> widths[1..][i] == widths[i + 1];
      NoNeutralAtMostOneToggle(widths[1..], t, s');
    }
  }

  /**
   * Holding the stick forward, however long, toggles PB3 exactly once if
   * the latch was armed, and never toggles PB4.
   */
  lemma {:induction false} HeldForwardTogglesOnce(widths: seq<u16>, t: Bounds, s: Outputs)
    requires Ordered(t) && |widths| > 0
    requires forall i :: 0 <= i < |widths| ==> t.forward < widths[i]
    ensures ForwardToggles(widths, t, s) == (if s.latched then 0 else 1)
    ensures BackwardToggles(widths, t, s) == 0
    ensures Run(widths, t, s).latched
    decreases |widths|
  {
    var s' := Step(widths[0], t, s);
    if |widths| > 1 {
      assert forall i :: 0 <= i < |widths[1..]| ==> widths[1..][i] == widths[i + 1];
      HeldForwardTogglesOnce(widths[1..], t, s');
    }
  }

  /** [neutral, forward, neutral, forward] toggles PB3 twice: the band re-arms. */
  lemma ReArmTogglesAgain(a: u16, b: u16, c: u16, d: u16, t: Bounds, s: Outputs)
    requires Ordered(t) && InBand(a, t) && InBand(c, t) && t.forward < b && t.forward < d
    ensures ForwardToggles([a, b, c, d], t, s) == 2
    ensures BackwardToggles([a, b, c, d], t, s) == 0
  {
    var s1 := Step(a, t, s);
    var s2 := Step(b, t, s1);
    var s3 := Step(c, t, s2);
    assert !s1.latched && s2.latched && !s3.latched;
    assert [a, b, c, d][1..] == [b, c, d];
    assert [b, c, d][1..] == [c, d];
    assert [c, d][1..] == [d];
    assert ForwardToggles([d], t, s3) == 1 && BackwardToggles([d], t, s3) == 0;
    assert ForwardToggles([c, d], t, s2) == 1 && BackwardToggles([c, d], t, s2) == 0;
    assert ForwardToggles([b, c, d], t, s1) == 2 && BackwardToggles([b, c, d], t, s1) == 0;
  }

  /** [neutral, forward, forward, forward] toggles PB3 only once. */
  lemma HeldAfterNeutralTogglesOnce(a: u16, b: u16, c: u16, d: u16, t: Bounds, s: Outputs)
    requires Ordered(t) && InBand(a, t) && t.forward < b && t.forward < c && t.forward < d
    ensures ForwardToggles([a, b, c, d], t, s) == 1
    ensures BackwardToggles([a, b, c, d], t, s) == 0
  {
    assert [a, b, c, d][1..] == [b, c, d];
    HeldForwardTogglesOnce([b, c, d], t, Step(a, t, s));
  }

  /** Swinging from forward straight to backward, with no neutral width between, leaves PB4 alone. */
  lemma ForwardThenBackwardKeepsPb4(f: u16, b: u16, t: Bounds, s: Outputs)
    requires Ordered(t) && t.forward < f && b < t.backward
    ensures BackwardToggles([f, b], t, s) == 0
    ensures Run([f, b], t, s).pb4 == s.pb4
  {
    var s1 := Step(f, t, s);
    assert s1.latched && s1.pb4 == s.pb4;
    assert [f, b][1..] == [b];
    assert Step(b, t, s1) == s1;
    assert BackwardToggles([b], t, s1) == 0 && Run([b], t, s1) == s1;
  }
}
