/**
 * The ISO 8601 duration pattern both `DurationTranslator` variants compile,
 *
 *   P(?:(?P<years>\d+)Y)?(?:(?P<months>\d+)M)?(?:(?P<days>\d+)D)?
 *    (?:T(?:(?P<hours>\d+)H)?(?:(?P<minutes>\d+)M)?(?:(?P<seconds>\d+)S)?)?
 *
 * applied with `re.match` (anchored at the start, trailing text ignored),
 * and the unit/factor decision `translate_duration_factor` takes on the
 * groups that `groupdict(0)` returns.
 */
module DurationPattern {
  import opened PyText

  predicate IsDigit(c: char)
  {
    '0' <= c <= '9'
  }

  predicate AllDigits(s: string)
  {
    forall k :: 0 <= k < |s| ==> IsDigit(s[k])
  }

  /** The longest run of digits at the start of `t` (what a greedy `\d+` tries first). */
  function LeadingDigits(t: string): (d: string)
    ensures |d| <= |t| && d == t[..|d|]
    ensures AllDigits(d)
    ensures |d| == |t| || !IsDigit(t[|d|])
  {
    if |t| > 0 && IsDigit(t[0]) then [t[0]] + LeadingDigits(t[1..]) else []
  }

  /**
   * One optional group `(?:(\d+)U)?`: the digits it captures, if any, and the
   * text left after it.  Backtracking `\d+` to fewer digits leaves a digit
   * where `U` is needed, so only the longest run can be followed by `U`.
   */
  function UnitGroup(t: string, unit: char): (r: (Option<string>, string))
    ensures r.0.Some? ==>
      (|r.0.value| > 0 && AllDigits(r.0.value) && t == r.0.value + [unit] + r.1)
    ensures r.0.None? ==> r.1 == t
  {
    var d := LeadingDigits(t);
    if |d| > 0 && |d| < |t| && t[|d|] == unit then
      assert t == d + [unit] + t[|d| + 1..];
      (Some(d), t[|d| + 1..])
    else
      (None, t)
  }

  /** The six named groups; `None` is a group that did not take part in the match. */
  datatype Components = Components(
    years: Option<string>, months: Option<string>, days: Option<string>,
    hours: Option<string>, minutes: Option<string>, seconds: Option<string>)

  /** The time part `T(?:(\d+)H)?(?:(\d+)M)?(?:(\d+)S)?` after the `T`. */
  function MatchTime(t: string): (Option<string>, Option<string>, Option<string>)
  {
    var (h, afterH) := UnitGroup(t, 'H');
    var (mi, afterMi) := UnitGroup(afterH, 'M');
    var (se, _) := UnitGroup(afterMi, 'S');
    (h, mi, se)
  }

  /** `re.match(pattern, s)`: `None` when `s` does not start with `P`. */
  function MatchDuration(s: string): (r: Option<Components>)
    ensures r.Some? <==> |s| > 0 && s[0] == 'P'
  {
    if |s| == 0 || s[0] != 'P' then None
    else
      var (y, afterY) := UnitGroup(s[1..], 'Y');
      var (mo, afterMo) := UnitGroup(afterY, 'M');
      var (d, afterD) := UnitGroup(afterMo, 'D');
      if |afterD| > 0 && afterD[0] == 'T' then
        var (h, mi, se) := MatchTime(afterD[1..]);
        Some(Components(y, mo, d, h, mi, se))
      else
        Some(Components(y, mo, d, None, None, None))
  }

  // ---------------------------------------------------------------------
  // Rendering a duration, and the round trip through the pattern
  // ---------------------------------------------------------------------

  predicate GroupOk(g: Option<string>)
  {
    g.Some? ==> |g.value| > 0 && AllDigits(g.value)
  }

  predicate WellFormed(c: Components)
  {
    GroupOk(c.years) && GroupOk(c.months) && GroupOk(c.days)
    && GroupOk(c.hours) && GroupOk(c.minutes) && GroupOk(c.seconds)
  }

  function Group(g: Option<string>, unit: char): string
  {
    if g.Some? then g.value + [unit] else []
  }

  /** The designator form PnYnMnDTnHnMnS of section 4.4.3.2 of ISO 8601:2004. */
  function Render(c: Components): string
  {
    var time := if c.hours.Some? || c.minutes.Some? || c.seconds.Some? then
      "T" + (Group(c.hours, 'H') + (Group(c.minutes, 'M') + Group(c.seconds, 'S')))
    else [];
    "P" + (Group(c.years, 'Y') + (Group(c.months, 'M') + (Group(c.days, 'D') + time)))
  }

  /** `t` cannot be taken for a group with designator `unit`. */
  predicate NotAGroupOf(t: string, unit: char)
  {
    var d := LeadingDigits(t);
    |d| == 0 || |d| == |t| || t[|d|] != unit
  }

  lemma {:induction false} LeadingDigitsOfGroup(d: string, u: char, rest: string)
    requires AllDigits(d) && !IsDigit(u)
    ensures LeadingDigits(d + [u] + rest) == d
    decreases |d|
  {
    if |d| > 0 {
      assert (d + [u] + rest)[1..] == d[1..] + [u] + rest;
      LeadingDigitsOfGroup(d[1..], u, rest);
      assert d == [d[0]] + d[1..];
    }
  }

  lemma GroupRoundTrip(g: Option<string>, u: char, rest: string)
    requires GroupOk(g) && !IsDigit(u) && NotAGroupOf(rest, u)
    ensures UnitGroup(Group(g, u) + rest, u) == (g, rest)
  {
    if g.Some? {
      LeadingDigitsOfGroup(g.value, u, rest);
      assert (g.value + [u] + rest)[|g.value| + 1..] == rest;
    } else {
      assert Group(g, u) + rest == rest;
    }
  }

  lemma NotAGroupAfter(g: Option<string>, u: char, rest: string, unit: char)
    requires GroupOk(g) && !IsDigit(u) && u != unit && NotAGroupOf(rest, unit)
    ensures NotAGroupOf(Group(g, u) + rest, unit)
  {
    if g.Some? {
      LeadingDigitsOfGroup(g.value, u, rest);
      assert (g.value + [u] + rest)[|g.value|] == u;
    } else {
      assert Group(g, u) + rest == rest;
    }
  }

  lemma NotAGroupStartingT(t: string, unit: char)
    requires t == [] || t[0] == 'T'
    ensures NotAGroupOf(t, unit)
  {
  }

  lemma MatchTimeRender(c: Components)
    requires WellFormed(c)
    ensures MatchTime(Group(c.hours, 'H') + (Group(c.minutes, 'M') + Group(c.seconds, 'S')))
      == (c.hours, c.minutes, c.seconds)
  {
    var se := Group(c.seconds, 'S');
    var mi := Group(c.minutes, 'M') + se;
    NotAGroupStartingT([], 'S');
    GroupRoundTrip(c.seconds, 'S', []);
    assert se + [] == se;
    NotAGroupStartingT([], 'M');
    NotAGroupAfter(c.seconds, 'S', [], 'M');
    GroupRoundTrip(c.minutes, 'M', se);
    NotAGroupStartingT([], 'H');
    NotAGroupAfter(c.seconds, 'S', [], 'H');
    NotAGroupAfter(c.minutes, 'M', se, 'H');
    GroupRoundTrip(c.hours, 'H', mi);
  }

  lemma DateRender(c: Components, time: string)
    requires WellFormed(c) && (time == [] || time[0] == 'T')
    ensures UnitGroup(Group(c.days, 'D') + time, 'D') == (c.days, time)
    ensures UnitGroup(Group(c.months, 'M') + (Group(c.days, 'D') + time), 'M')
      == (c.months, Group(c.days, 'D') + time)
    ensures UnitGroup(Group(c.years, 'Y') + (Group(c.months, 'M') + (Group(c.days, 'D') + time)), 'Y')
      == (c.years, Group(c.months, 'M') + (Group(c.days, 'D') + time))
  {
    var dTail := Group(c.days, 'D') + time;
    var moTail := Group(c.months, 'M') + dTail;
    NotAGroupStartingT(time, 'D');
    NotAGroupStartingT(time, 'M');
    NotAGroupStartingT(time, 'Y');
    GroupRoundTrip(c.days, 'D', time);
    NotAGroupAfter(c.days, 'D', time, 'M');
    GroupRoundTrip(c.months, 'M', dTail);
    NotAGroupAfter(c.days, 'D', time, 'Y');
    NotAGroupAfter(c.months, 'M', dTail, 'Y');
    GroupRoundTrip(c.years, 'Y', moTail);
  }

  /** Matching the rendering of a well-formed duration gives back its components. */
  lemma MatchRender(c: Components)
    requires WellFormed(c)
    ensures MatchDuration(Render(c)) == Some(c)
  {
    var hasTime := c.hours.Some? || c.minutes.Some? || c.seconds.Some?;
    var hTail := Group(c.hours, 'H') + (Group(c.minutes, 'M') + Group(c.seconds, 'S'));
    var time := if hasTime then "T" + hTail else [];
    var dTail := Group(c.days, 'D') + time;
    var moTail := Group(c.months, 'M') + dTail;
    var s := Render(c);
    assert s == "P" + (Group(c.years, 'Y') + moTail);
    assert s[1..] == Group(c.years, 'Y') + moTail;
    DateRender(c, time);
    if hasTime {
      assert time[0] == 'T' && time[1..] == hTail;
      MatchTimeRender(c);
    } else {
      assert time == [];
    }
    MatchDurationSteps(s, c, moTail, dTail, time);
  }

  /** The match, group by group, once each group is known. */
  lemma MatchDurationSteps(s: string, c: Components, moTail: string, dTail: string, time: string)
    requires |s| > 0 && s[0] == 'P'
    requires UnitGroup(s[1..], 'Y') == (c.years, moTail)
    requires UnitGroup(moTail, 'M') == (c.months, dTail)
    requires UnitGroup(dTail, 'D') == (c.days, time)
    requires time == [] ==> c.hours.None? && c.minutes.None? && c.seconds.None?
    requires time != [] ==> time[0] == 'T' && MatchTime(time[1..]) == (c.hours, c.minutes, c.seconds)
    ensures MatchDuration(s) == Some(c)
  {
  }

  // ---------------------------------------------------------------------
  // translate_duration_factor
  // ---------------------------------------------------------------------

  /** A value of the dictionary `match.groupdict(0)`: the matched text, or the int 0. */
  datatype PyScalar = PyStr(text: string) | PyInt(n: int)

  function GroupValue(g: Option<string>): (v: PyScalar)
    ensures v.PyStr? <==> g.Some?
  {
    if g.Some? then PyStr(g.value) else PyInt(0)
  }

  /** Python 2's `v > 0`: CPython 2 orders every number before every string. */
  predicate GreaterThanZero(v: PyScalar)
  {
    match v
    case PyStr(_) => true
    case PyInt(n) => n > 0
  }

  /** Python 2's `v == 5`: a string never equals an int. */
  predicate EqualsFive(v: PyScalar)
  {
    v == PyInt(5)
  }

  /** The `duration_factor` of a result: `''`, the matched digits, or an int. */
  datatype Factor = Blank | Digits(text: string) | Count(n: int)

  function FactorOf(v: PyScalar): Factor
  {
    match v
    case PyStr(t) => Digits(t)
    case PyInt(n) => Count(n)
  }

  /** The result dictionary `{'duration': unit, 'duration_factor': factor}`. */
  datatype Period = Period(unit: string, factor: Factor)

  /**
   * `translate_duration_factor(period)`, with the branches as written; the
   * two variants differ only in the label of the seconds branch.
   */
  function TranslateFactor(period: string, secondsLabel: string): Period
  {
    match MatchDuration(period)
    case None => Period("", Blank)
    case Some(c) =>
      var years := GroupValue(c.years);
      var months := GroupValue(c.months);
      var days := GroupValue(c.days);
      var hours := GroupValue(c.hours);
      var minutes := GroupValue(c.minutes);
      var seconds := GroupValue(c.seconds);
      if GreaterThanZero(years) then
        if EqualsFive(years) then Period("5-jahre", Count(0))
        else Period("jahr", FactorOf(years))
      else if GreaterThanZero(months) then Period("monat", FactorOf(months))
      else if GreaterThanZero(days) then Period("tag", FactorOf(days))
      else if GreaterThanZero(hours) then Period("stunde", FactorOf(hours))
      else if GreaterThanZero(minutes) then Period("minute", FactorOf(minutes))
      else if GreaterThanZero(days) then Period(secondsLabel, FactorOf(seconds))
      else Period("", Blank)
  }

  /**
   * The decision on present/absent components: the first component present in
   * the order years, months, days, hours, minutes gives the unit and its text
   * the factor; seconds alone, no component at all, or a period that does not
   * start with `P` give `('', '')`.  The `'5-jahre'` and seconds branches are
   * never taken.
   */
  lemma TranslateFactorPrecedence(period: string, secondsLabel: string)
    ensures var r := TranslateFactor(period, secondsLabel);
      match MatchDuration(period)
      case None => r == Period("", Blank)
      case Some(c) =>
        if c.years.Some? then r == Period("jahr", Digits(c.years.value))
        else if c.months.Some? then r == Period("monat", Digits(c.months.value))
        else if c.days.Some? then r == Period("tag", Digits(c.days.value))
        else if c.hours.Some? then r == Period("stunde", Digits(c.hours.value))
        else if c.minutes.Some? then r == Period("minute", Digits(c.minutes.value))
        else r == Period("", Blank)
  {
  }

  /** The result unit is one of six, and a unit comes with matched digits. */
  lemma TranslateFactorRange(period: string, secondsLabel: string)
    ensures var r := TranslateFactor(period, secondsLabel);
      r.unit in {"", "jahr", "monat", "tag", "stunde", "minute"}
      && (r.unit == "" <==> r.factor == Blank)
      && (r.factor.Digits? || r.factor.Blank?)
      && (r.factor.Digits? ==> |r.factor.text| > 0 && AllDigits(r.factor.text))
  {
    TranslateFactorPrecedence(period, secondsLabel);
    match MatchDuration(period)
    case None =>
    case Some(c) =>
      var s := period[1..];
      var (y, afterY) := UnitGroup(s, 'Y');
      var (mo, afterMo) := UnitGroup(afterY, 'M');
      var (d, afterD) := UnitGroup(afterMo, 'D');
  }

  /** A well-formed duration read back through the pattern decides by its first component. */
  lemma TranslateRendered(c: Components, secondsLabel: string)
    requires WellFormed(c)
    ensures c.years.Some? ==>
      TranslateFactor(Render(c), secondsLabel) == Period("jahr", Digits(c.years.value))
    ensures (c.years.None? && c.months.None? && c.days.None? && c.hours.None?
      && c.minutes.None?) ==> TranslateFactor(Render(c), secondsLabel) == Period("", Blank)
  {
    MatchRender(c);
    TranslateFactorPrecedence(Render(c), secondsLabel);
  }
}
