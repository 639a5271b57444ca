/**
 * The logic of SessionScreen: the gauge colour band for the current cadence,
 * the JSON payload handed on when the session finishes, and the title text.
 */
module SessionScreen {
  import opened Wrappers
  import opened Kotlin
  import opened Text
  import Session

  /** The gauge colours: primary in the target range, tertiary within 10 of it, error otherwise. */
  datatype GaugeBand = InTarget | NearTarget | OffTarget

  /** The `when` choosing SpmGauge's colour. */
  function Gauge(ui: Session.UiState): (b: GaugeBand)
    ensures b == InTarget <==> ui.targetSpmRange.Contains(ui.cadenceSpm)
    ensures b == NearTarget <==>
      !ui.targetSpmRange.Contains(ui.cadenceSpm)
      && ui.targetSpmRange.first - 10 <= ui.cadenceSpm <= ui.targetSpmRange.last + 10
    ensures b == OffTarget <==>
      ui.cadenceSpm < ui.targetSpmRange.first - 10 || ui.targetSpmRange.last + 10 < ui.cadenceSpm
  {
    var range := ui.targetSpmRange;
    if range.Contains(ui.cadenceSpm) then InTarget
    else if IntRange(range.first - 10, range.last + 10).Contains(ui.cadenceSpm) then NearTarget
    else OffTarget
  }

  /** With the range setPhase gives, the band depends only on the distance from the target. */
  lemma GaugeByDistance(ui: Session.UiState)
    requires ui.targetSpmRange == Session.TargetRange(ui.targetSpm)
    ensures Gauge(ui) == InTarget <==> Abs(ui.cadenceSpm - ui.targetSpm) <= 5
    ensures Gauge(ui) == NearTarget <==> 5 < Abs(ui.cadenceSpm - ui.targetSpm) <= 15
    ensures Gauge(ui) == OffTarget <==> 15 < Abs(ui.cadenceSpm - ui.targetSpm)
  {
  }

  const AVG_PREFIX := "{\"avgSpm\":"
  const SETS_PREFIX := ",\"sets\":"
  const SUFFIX := "}"

  /** statsJson: `{"avgSpm":A,"sets":S}`. */
  function StatsJson(ui: Session.UiState): (json: string)
    ensures |json| > |AVG_PREFIX| && json[..|AVG_PREFIX|] == AVG_PREFIX && json[|json| - 1] == '}'
    ensures ParseStats(json) == Some((ui.avgSpm, ui.setCount))
  {
    PayloadRoundTrip(ui.avgSpm, ui.setCount);
    AVG_PREFIX + IntToString(ui.avgSpm) + SETS_PREFIX + IntToString(ui.setCount) + SUFFIX
  }

  /** Index of the first ',' in s, or |s| when there is none. */
  function CommaIndex(s: string): (i: nat)
    ensures i <= |s|
    ensures forall j :: 0 <= j < i ==> s[j] != ','
    ensures i < |s| ==> s[i] == ','
  {
    if s == [] then 0
    else if s[0] == ',' then 0
    else 1 + CommaIndex(s[1..])
  }

  /** Reads a payload of the statsJson shape back into its average and set count. */
  function ParseStats(s: string): Option<(int, int)> {
    if |s| < |AVG_PREFIX| || s[..|AVG_PREFIX|] != AVG_PREFIX then None
    else
      var body := s[|AVG_PREFIX|..];
      var i := CommaIndex(body);
      var rest := body[i..];
      if |rest| < |SETS_PREFIX| + |SUFFIX| || rest[..|SETS_PREFIX|] != SETS_PREFIX || rest[|rest| - 1..] != SUFFIX then None
      else
        match (ParseInt(body[..i]), ParseInt(rest[|SETS_PREFIX|..|rest| - 1]))
        case (Some(a), Some(n)) => Some((a, n))
        case _ => None
  }

  /** A number as IntToString writes it holds no ','. */
  lemma NoCommaInNumber(x: int)
    ensures forall j :: 0 <= j < |IntToString(x)| ==> IntToString(x)[j] != ','
  {
  }

  lemma CommaIndexAfterNumber(x: int, tail: string)
    requires |tail| > 0 && tail[0] == ','
    ensures CommaIndex(IntToString(x) + tail) == |IntToString(x)|
  {
    var t := IntToString(x);
    var s := t + tail;
    NoCommaInNumber(x);
    assert forall j :: 0 <= j < |t| ==> s[j] == t[j];
    assert s[|t|] == ',';
  }

  /** The part after the average reads back as the set count. */
  lemma SetsPartRoundTrip(n: int)
    ensures var rest := SETS_PREFIX + IntToString(n) + SUFFIX;
      |rest| >= |SETS_PREFIX| + |SUFFIX|
      && rest[..|SETS_PREFIX|] == SETS_PREFIX
      && rest[|rest| - 1..] == SUFFIX
      && rest[|SETS_PREFIX|..|rest| - 1] == IntToString(n)
  {
  }

  /** A payload of the statsJson shape reads back as the average and the set count it was made from. */
  lemma PayloadRoundTrip(avg: int, sets: int)
    ensures var s := AVG_PREFIX + IntToString(avg) + SETS_PREFIX + IntToString(sets) + SUFFIX;
      s[..|AVG_PREFIX|] == AVG_PREFIX && ParseStats(s) == Some((avg, sets))
  {
    var a, n := IntToString(avg), IntToString(sets);
    var tail := SETS_PREFIX + n + SUFFIX;
    var s := AVG_PREFIX + a + SETS_PREFIX + n + SUFFIX;
    assert s == AVG_PREFIX + (a + tail);
    assert s[..|AVG_PREFIX|] == AVG_PREFIX;
    var body := s[|AVG_PREFIX|..];
    assert body == a + tail;
    CommaIndexAfterNumber(avg, tail);
    assert body[..|a|] == a;
    assert body[|a|..] == tail;
    SetsPartRoundTrip(sets);
  }

  const FAST_NAME := "速歩"
  const SLOW_NAME := "スロー"
  const TITLE_MIDDLE := " - "
  const TITLE_END := " / 5 セット目"

  function PhaseName(fastPhase: bool): string {
    if fastPhase then FAST_NAME else SLOW_NAME
  }

  /** The top bar: the phase name, then the one-based set number out of 5. */
  function Title(ui: Session.UiState): (t: string)
    ensures |t| > 0 && t[0] == (if ui.fastPhase then '速' else 'ス')
    ensures var p := |PhaseName(ui.fastPhase)| + |TITLE_MIDDLE|;
      p < |t| - |TITLE_END| && t[|t| - |TITLE_END|..] == TITLE_END
      && ParseInt(t[p..|t| - |TITLE_END|]) == Some(ui.setCount + 1)
  {
    var name, number := PhaseName(ui.fastPhase), IntToString(ui.setCount + 1);
    var t := name + TITLE_MIDDLE + number + TITLE_END;
    assert t[|name| + |TITLE_MIDDLE|..|t| - |TITLE_END|] == number;
    t
  }

  /** The title determines the phase and the set it was made from. */
  lemma TitleDeterminesPhaseAndSet(u: Session.UiState, v: Session.UiState)
    requires Title(u) == Title(v)
    ensures u.fastPhase == v.fastPhase && u.setCount == v.setCount
  {
    var t := Title(u);
    assert t[0] == PhaseName(u.fastPhase)[0];
    assert t[0] == PhaseName(v.fastPhase)[0];
    var p := |PhaseName(u.fastPhase)| + |TITLE_MIDDLE|;
    var nu, nv := IntToString(u.setCount + 1), IntToString(v.setCount + 1);
    assert |nu| == |t| - p - |TITLE_END| == |nv|;
    assert t[p..p + |nu|] == nu;
    assert Title(v)[p..p + |nv|] == nv;
    IntToStringInjective(u.setCount + 1, v.setCount + 1);
  }
}
