/**
 * The verdict for one shot, as the input listener refines it
 * (input_events.py, `_build_classification` and the sound cue chosen in `_on_click`).
 *
 * The raw classification comes from the movement classifier, which is not part
 * of this model; here it is any value of `Classification`.  Times are
 * milliseconds; only comparisons are made on them, so they are `real`.
 */
module Shot {
  import opened Wrappers

  /** The label strings the listener compares against.  "Counter‑strafe" is
      spelled with U+2011 NON-BREAKING HYPHEN, not the ASCII '-'. */
  const OverlapText: string := "Overlap"
  const CounterStrafeText: string := "Counter\U{2011}strafe"
  const BadText: string := "Bad"

  /** A classification label; `Other` stands for every string the listener does
      not recognise. */
  datatype Label = Overlap | CounterStrafe | Bad | Other

  /** The label a label string denotes: only the three exact spellings are recognised. */
  function ParseLabel(s: string): (l: Label)
    ensures l == Overlap <==> s == OverlapText
    ensures l == CounterStrafe <==> s == CounterStrafeText
    ensures l == Bad <==> s == BadText
  {
    if s == OverlapText then Overlap
    else if s == CounterStrafeText then CounterStrafe
    else if s == BadText then Bad
    else Other
  }

  /** The string the listener writes for a label it produces. */
  function LabelText(l: Label): string
    requires l != Other
  {
    match l
    case Overlap => OverlapText
    case CounterStrafe => CounterStrafeText
    case Bad => BadText
  }

  /** Every label the listener produces reads back as itself. */
  lemma LabelTextRoundTrip(l: Label)
    requires l != Other
    ensures ParseLabel(LabelText(l)) == l
  {
  }

  /** "Counter-strafe" written with an ASCII hyphen is not the counter-strafe label. */
  lemma AsciiHyphenIsNotCounterStrafe()
    ensures ParseLabel("Counter-strafe") == Other
    ensures BuildClassification(Classification(ParseLabel("Counter-strafe"), None, Some(100.0), Some(150.0)))
              == Classification(Bad, None, None, None)
  {
    assert "Counter-strafe"[7] != CounterStrafeText[7];
  }

  /** A shot classification with its optional measurements (`ShotClassification`). */
  datatype Classification = Classification(
    kind: Label,
    overlapTime: Option<real>,
    csTime: Option<real>,
    shotDelay: Option<real>)

  /** The fixed grading thresholds, in milliseconds. */
  const LateDelay: real := 230.0
  const SlowBound: real := 215.0

  /** A counter-strafe is too slow when the shot came more than 230 ms after the
      release, or when both the reversal and the shot delay exceeded 215 ms. */
  predicate TooSlow(csTime: real, shotDelay: real) {
    shotDelay > LateDelay || (csTime > SlowBound && shotDelay > SlowBound)
  }

  /** Both timing measurements needed to grade a counter-strafe are present. */
  predicate HasTimings(c: Classification) {
    c.csTime.Some? && c.shotDelay.Some?
  }

  /** The counter-strafe grades as good. */
  predicate GradesGood(c: Classification) {
    c.kind == CounterStrafe && HasTimings(c) && !TooSlow(c.csTime.value, c.shotDelay.value)
  }

  /** The final verdict for a raw classification (`_build_classification`). */
  function BuildClassification(base: Classification): (r: Classification)
    // an overlap passes through with its overlap time and nothing else
    ensures base.kind == Overlap ==> r == Classification(Overlap, base.overlapTime, None, None)
    // the verdict is never better than the raw label
    ensures r.kind == Overlap <==> base.kind == Overlap
    ensures r.kind == CounterStrafe <==> GradesGood(base)
    ensures r.kind != Other
    // only an overlap carries an overlap time
    ensures r.kind != Overlap ==> r.overlapTime == None
    // a graded counter-strafe, good or bad, keeps both measurements unchanged
    ensures base.kind == CounterStrafe && HasTimings(base) ==>
              r.csTime == base.csTime && r.shotDelay == base.shotDelay
    // anything that could not be graded carries no measurements
    ensures !(base.kind == CounterStrafe && HasTimings(base)) ==> r.csTime == None && r.shotDelay == None
  {
    if base.kind == Overlap then
      Classification(Overlap, base.overlapTime, None, None)
    else if base.kind == CounterStrafe then
      var cs := base.csTime;
      var delay := base.shotDelay;
      if cs.Some? && delay.Some? then
        if delay.value > LateDelay || (cs.value > SlowBound && delay.value > SlowBound) then
          Classification(Bad, None, cs, delay)
        else
          Classification(CounterStrafe, None, cs, delay)
      else
        Classification(Bad, None, None, None)
    else
      Classification(Bad, None, None, None)
  }

  /** A shot more than 230 ms after the release is bad, and keeps both measurements. */
  lemma LateShotIsBad(cs: real, delay: real, overlap: Option<real>)
    requires delay > LateDelay
    ensures BuildClassification(Classification(CounterStrafe, overlap, Some(cs), Some(delay)))
              == Classification(Bad, None, Some(cs), Some(delay))
  {
  }

  /** A slow reversal followed by a shot delay over 215 ms is bad even when the
      delay is within 230 ms. */
  lemma SlowReversalIsBad(cs: real, delay: real, overlap: Option<real>)
    requires cs > SlowBound && delay > SlowBound
    ensures BuildClassification(Classification(CounterStrafe, overlap, Some(cs), Some(delay)))
              == Classification(Bad, None, Some(cs), Some(delay))
  {
  }

  /** The comparisons are strict: a delay of exactly 230 ms with a reversal of at
      most 215 ms, or both exactly 215 ms, still grade as good. */
  lemma BoundariesStayGood(cs: real, overlap: Option<real>)
    requires cs <= SlowBound
    ensures BuildClassification(Classification(CounterStrafe, overlap, Some(cs), Some(LateDelay)))
              == Classification(CounterStrafe, None, Some(cs), Some(LateDelay))
    ensures BuildClassification(Classification(CounterStrafe, overlap, Some(SlowBound), Some(SlowBound)))
              == Classification(CounterStrafe, None, Some(SlowBound), Some(SlowBound))
  {
  }

  /** The sound keys the listener plays, one per verdict. */
  const GoodSound: string := "good"
  const BadSound: string := "bad"
  const OverlapSound: string := "overlap"

  /** The sounds played for a final label (`label` in the source): the listener tests the three labels one
      after the other, each test playing its own sound. */
  function CuesFor(kind: Label): (cues: seq<string>)
    ensures |cues| <= 1
    ensures cues == [] <==> kind == Other
    ensures cues == [GoodSound] <==> kind == CounterStrafe
    ensures cues == [BadSound] <==> kind == Bad
    ensures cues == [OverlapSound] <==> kind == Overlap
  {
    assert [GoodSound][0] != [BadSound][0] && [GoodSound][0] != [OverlapSound][0] && [BadSound][0] != [OverlapSound][0];
    (if kind == CounterStrafe then [GoodSound] else [])
    + (if kind == Bad then [BadSound] else [])
    + (if kind == Overlap then [OverlapSound] else [])
  }

  /** Every shot plays exactly one sound, and it is "good" exactly when the raw
      counter-strafe grades as good. */
  lemma EveryShotPlaysOneCue(base: Classification)
    ensures |CuesFor(BuildClassification(base).kind)| == 1
    ensures CuesFor(BuildClassification(base).kind)[0] in {GoodSound, BadSound, OverlapSound}
    ensures CuesFor(BuildClassification(base).kind) == [GoodSound] <==> GradesGood(base)
    ensures CuesFor(BuildClassification(base).kind) == [OverlapSound] <==> base.kind == Overlap
  {
  }
}
