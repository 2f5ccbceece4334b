/** The duration arithmetic of `get_video_details`: the seconds of an ISO 8601
    duration such as `PT1H20M30S`, read with three independent regular-expression
    searches `(\d+)H`, `(\d+)M` and `(\d+)S`. */
module VideoDetails {
  import opened Wrappers
  import opened Strings

  /** The end of the maximal run of digits that starts at `i` (`i` itself when `s[i]` is no digit). */
  function RunEnd(s: string, i: nat): (j: nat)
    requires i <= |s|
    ensures i <= j <= |s|
    ensures forall k :: i <= k < j ==> IsDigit(s[k])
    ensures j == |s| || !IsDigit(s[j])
    decreases |s| - i
  {
    if i < |s| && IsDigit(s[i]) then RunEnd(s, i + 1) else i
  }

  /** `(\d+)U` matches at `i`. The greedy `\d+` cannot give back a digit to meet a
      letter `U`, so the run from `i` must be followed directly by `U`. */
  predicate MatchAt(s: string, unit: char, i: nat)
    requires i <= |s|
  {
    i < |s| && IsDigit(s[i]) && RunEnd(s, i) < |s| && s[RunEnd(s, i)] == unit
  }

  /** The leftmost match at or after `i` (`|s|` when there is none). */
  function FirstMatch(s: string, unit: char, i: nat): (k: nat)
    requires i <= |s|
    ensures i <= k <= |s|
    ensures k < |s| ==> MatchAt(s, unit, k)
    ensures forall j :: i <= j < k ==> !MatchAt(s, unit, j)
    decreases |s| - i
  {
    if i == |s| || MatchAt(s, unit, i) then i else FirstMatch(s, unit, i + 1)
  }

  /** `re.search(r'(\d+)U', s)` with `int(match.group(1))`, or `None` without a match. */
  function UnitField(s: string, unit: char): Option<nat>
  {
    var k := FirstMatch(s, unit, 0);
    if k == |s| then None else Some(DigitsValue(s[k..RunEnd(s, k)]))
  }

  /** A missing component adds nothing (the `if ..._match:` guards). */
  function ValueOr0(field: Option<nat>): nat {
    if field.Some? then field.value else 0
  }

  /** The value the source computes: hours, minutes and seconds from the first
      match of each, a missing one counting as 0. */
  function Duration(s: string): nat {
    ValueOr0(UnitField(s, 'H')) * 3600 + ValueOr0(UnitField(s, 'M')) * 60 + ValueOr0(UnitField(s, 'S'))
  }

  /** The accumulation into `duration_seconds`, one `+=` per component found. */
  method DurationSeconds(duration: string) returns (seconds: nat)
    ensures seconds == Duration(duration)
  {
    var hours := UnitField(duration, 'H');
    var minutes := UnitField(duration, 'M');
    var secs := UnitField(duration, 'S');
    seconds := 0;
    if hours.Some? {
      seconds := seconds + hours.value * 3600;
    }
    if minutes.Some? {
      seconds := seconds + minutes.value * 60;
    }
    if secs.Some? {
      seconds := seconds + secs.value;
    }
  }

  // ---------------------------------------------------------------------------
  // Searching a concatenation
  // ---------------------------------------------------------------------------

  /** A string that does not end in a digit: no digit run crosses its end. */
  predicate EndsOutsideRun(x: string) {
    x == [] || !IsDigit(x[|x| - 1])
  }

  lemma {:induction false} RunEndPrefix(x: string, y: string, i: nat)
    requires EndsOutsideRun(x) && i < |x|
    ensures RunEnd(x + y, i) == RunEnd(x, i) < |x|
    decreases |x| - i
  {
    var s := x + y;
    if IsDigit(x[i]) {
      assert s[i] == x[i];
      if i + 1 < |x| {
        RunEndPrefix(x, y, i + 1);
      }
    }
  }

  lemma {:induction false} RunEndSuffix(x: string, y: string, i: nat)
    requires |x| <= i <= |x| + |y|
    ensures RunEnd(x + y, i) == |x| + RunEnd(y, i - |x|)
    decreases |x| + |y| - i
  {
    var s := x + y;
    if i < |s| {
      assert s[i] == y[i - |x|];
      if IsDigit(s[i]) {
        RunEndSuffix(x, y, i + 1);
      }
    }
  }

  /** `FirstMatch` is pinned down by its contract. */
  lemma {:induction false} FirstMatchIs(s: string, unit: char, i: nat, k: nat)
    requires i <= k <= |s|
    requires k < |s| ==> MatchAt(s, unit, k)
    requires forall j :: i <= j < k ==> !MatchAt(s, unit, j)
    ensures FirstMatch(s, unit, i) == k
    decreases |s| - i
  {
    if i < k {
      FirstMatchIs(s, unit, i + 1, k);
    }
  }

  /** Searching `x + y`: a match inside `x` wins; otherwise the search goes on into `y`. */
  lemma UnitFieldAppend(x: string, y: string, unit: char)
    requires EndsOutsideRun(x)
    ensures UnitField(x + y, unit) == if UnitField(x, unit).Some? then UnitField(x, unit) else UnitField(y, unit)
  {
    if FirstMatch(x, unit, 0) < |x| {
      MatchInPrefix(x, y, unit);
    } else {
      MatchInSuffix(x, y, unit);
    }
  }

  lemma PrefixMatches(x: string, y: string, unit: char)
    requires EndsOutsideRun(x)
    ensures forall j :: 0 <= j < |x| ==> (MatchAt(x + y, unit, j) <==> MatchAt(x, unit, j))
  {
    var s := x + y;
    forall j | 0 <= j < |x|
      ensures MatchAt(s, unit, j) <==> MatchAt(x, unit, j)
    {
      RunEndPrefix(x, y, j);
      assert s[j] == x[j];
      assert s[RunEnd(x, j)] == x[RunEnd(x, j)];
    }
  }

  lemma MatchInPrefix(x: string, y: string, unit: char)
    requires EndsOutsideRun(x)
    requires FirstMatch(x, unit, 0) < |x|
    ensures UnitField(x + y, unit) == UnitField(x, unit)
  {
    var s := x + y;
    var kx := FirstMatch(x, unit, 0);
    PrefixMatches(x, y, unit);
    FirstMatchIs(s, unit, 0, kx);
    RunEndPrefix(x, y, kx);
    assert s[kx..RunEnd(s, kx)] == x[kx..RunEnd(x, kx)];
  }

  lemma SuffixMatch(x: string, y: string, unit: char, j: nat)
    requires |x| <= j <= |x| + |y|
    ensures MatchAt(x + y, unit, j) <==> MatchAt(y, unit, j - |x|)
  {
    var s := x + y;
    RunEndSuffix(x, y, j);
    if j < |s| {
      assert s[j] == y[j - |x|];
      if RunEnd(s, j) < |s| {
        assert s[RunEnd(s, j)] == y[RunEnd(y, j - |x|)];
      }
    }
  }

  lemma FirstMatchInSuffix(x: string, y: string, unit: char)
    requires EndsOutsideRun(x)
    requires FirstMatch(x, unit, 0) == |x|
    ensures FirstMatch(x + y, unit, 0) == |x| + FirstMatch(y, unit, 0)
  {
    var s := x + y;
    var ky := FirstMatch(y, unit, 0);
    PrefixMatches(x, y, unit);
    forall j | |x| <= j < |x| + ky
      ensures !MatchAt(s, unit, j)
    {
      SuffixMatch(x, y, unit, j);
    }
    SuffixMatch(x, y, unit, |x| + ky);
    FirstMatchIs(s, unit, 0, |x| + ky);
  }

  lemma MatchInSuffix(x: string, y: string, unit: char)
    requires EndsOutsideRun(x)
    requires FirstMatch(x, unit, 0) == |x|
    ensures UnitField(x + y, unit) == UnitField(y, unit)
  {
    var ky := FirstMatch(y, unit, 0);
    FirstMatchInSuffix(x, y, unit);
    var e := RunEnd(y, ky);
    if ky < |y| {
      RunEndSuffix(x, y, |x| + ky);
      SliceOfSuffix(x, y, ky, e);
    }
    SameField(x + y, y, unit, |x|, ky, e);
  }

  /** Two strings whose first matches and digit runs correspond have the same field. */
  lemma SameField(s: string, y: string, unit: char, d: nat, ky: nat, e: nat)
    requires |s| == d + |y| && ky <= e <= |y|
    requires FirstMatch(y, unit, 0) == ky && FirstMatch(s, unit, 0) == d + ky
    requires ky < |y| ==> RunEnd(y, ky) == e && RunEnd(s, d + ky) == d + e && s[d + ky..d + e] == y[ky..e]
    ensures UnitField(s, unit) == UnitField(y, unit)
  {
  }

  lemma SliceOfSuffix(x: string, y: string, i: nat, j: nat)
    requires i <= j <= |y|
    ensures (x + y)[|x| + i..|x| + j] == y[i..j]
  {
  }

  // ---------------------------------------------------------------------------
  // The designator form
  // ---------------------------------------------------------------------------

  /** One designator component: `nU`, or nothing when the component is absent. */
  function Component(n: Option<nat>, unit: char): string {
    if n.Some? then NatToString(n.value) + [unit] else ""
  }

  lemma NoMatchWithoutDigits(s: string, unit: char)
    requires forall i :: 0 <= i < |s| ==> !IsDigit(s[i])
    ensures UnitField(s, unit) == None
  {
    FirstMatchIs(s, unit, 0, |s|);
  }

  /** `nU` answers the search for `U` with `n` and the search for any other letter with nothing. */
  lemma ComponentField(n: Option<nat>, designator: char, unit: char)
    requires !IsDigit(designator)
    ensures EndsOutsideRun(Component(n, designator))
    ensures UnitField(Component(n, designator), unit) == if designator == unit then n else None
  {
    var s := Component(n, designator);
    if n.Some? {
      var digits := NatToString(n.value);
      forall i | 0 <= i <= |digits|
        ensures RunEnd(s, i) == |digits|
      {
        RunEndOfDigits(s, i, |digits|);
      }
      if designator == unit {
        FirstMatchIs(s, unit, 0, 0);
        assert s[0..|digits|] == digits;
      } else {
        FirstMatchIs(s, unit, 0, |s|);
      }
    } else {
      NoMatchWithoutDigits(s, unit);
    }
  }

  lemma {:induction false} RunEndOfDigits(s: string, i: nat, e: nat)
    requires i <= e < |s|
    requires forall k :: i <= k < e ==> IsDigit(s[k])
    requires !IsDigit(s[e])
    ensures RunEnd(s, i) == e
    decreases e - i
  {
    if i < e {
      RunEndOfDigits(s, i + 1, e);
    }
  }

  /** The designator form `PT[nH][nM][nS]` reads back as `h*3600 + m*60 + s`,
      every absent component counting as 0. */
  lemma DurationOfDesignators(h: Option<nat>, m: Option<nat>, s: Option<nat>)
    ensures Duration("PT" + Component(h, 'H') + Component(m, 'M') + Component(s, 'S'))
         == ValueOr0(h) * 3600 + ValueOr0(m) * 60 + ValueOr0(s)
  {
    DesignatorField(h, m, s, 'H');
    DesignatorField(h, m, s, 'M');
    DesignatorField(h, m, s, 'S');
  }

  lemma DesignatorField(h: Option<nat>, m: Option<nat>, s: Option<nat>, u: char)
    requires u == 'H' || u == 'M' || u == 'S'
    ensures UnitField("PT" + Component(h, 'H') + Component(m, 'M') + Component(s, 'S'), u)
         == if u == 'H' then h else if u == 'M' then m else s
  {
    var x := "PT" + Component(h, 'H') + Component(m, 'M');
    HoursMinutesField(h, m, u);
    ComponentField(s, 'S', u);
    UnitFieldAppend(x, Component(s, 'S'), u);
  }

  /** The designator prefix `PT[nH][nM]` answers the searches for `H` and `M`
      and ends outside a digit run. */
  lemma HoursMinutesField(h: Option<nat>, m: Option<nat>, u: char)
    requires u == 'H' || u == 'M' || u == 'S'
    ensures EndsOutsideRun("PT" + Component(h, 'H') + Component(m, 'M'))
    ensures UnitField("PT" + Component(h, 'H') + Component(m, 'M'), u)
         == if u == 'H' then h else if u == 'M' then m else None
  {
    NoMatchWithoutDigits("PT", u);
    ComponentField(h, 'H', u);
    ComponentField(m, 'M', u);
    UnitFieldAppend("PT", Component(h, 'H'), u);
    EndsAfterComponent("PT", h, 'H');
    UnitFieldAppend("PT" + Component(h, 'H'), Component(m, 'M'), u);
    EndsAfterComponent("PT" + Component(h, 'H'), m, 'M');
  }

  lemma EndsAfterComponent(x: string, n: Option<nat>, unit: char)
    requires x != [] && !IsDigit(x[|x| - 1]) && !IsDigit(unit)
    ensures x + Component(n, unit) != []
    ensures !IsDigit((x + Component(n, unit))[|x + Component(n, unit)| - 1])
  {
  }

  /** The day count of `PnDT...` is never read: a duration over a day loses whole days. */
  lemma DaysIgnored(days: nat, h: Option<nat>, m: Option<nat>, s: Option<nat>)
    ensures Duration("P" + NatToString(days) + "DT" + Component(h, 'H') + Component(m, 'M') + Component(s, 'S'))
         == Duration("PT" + Component(h, 'H') + Component(m, 'M') + Component(s, 'S'))
  {
    var rest := Component(h, 'H') + Component(m, 'M') + Component(s, 'S');
    var dayPart := "P" + NatToString(days) + "D";
    var long := "P" + NatToString(days) + "DT" + Component(h, 'H') + Component(m, 'M') + Component(s, 'S');
    var short := "PT" + Component(h, 'H') + Component(m, 'M') + Component(s, 'S');
    DaysPrefixSplits(NatToString(days), Component(h, 'H'), Component(m, 'M'), Component(s, 'S'));
    DayPartIgnored(days, "T" + rest, 'H');
    DayPartIgnored(days, "T" + rest, 'M');
    DayPartIgnored(days, "T" + rest, 'S');
    SameFieldsSameDuration(long, short);
  }

  lemma DaysPrefixSplits(n: string, a: string, b: string, c: string)
    ensures "P" + n + "DT" + a + b + c == ("P" + n + "D") + ("T" + (a + b + c))
    ensures "PT" + a + b + c == "P" + ("T" + (a + b + c))
  {
    assert "DT" == "D" + "T";
    assert "PT" == "P" + "T";
  }

  lemma SameFieldsSameDuration(a: string, b: string)
    requires UnitField(a, 'H') == UnitField(b, 'H')
    requires UnitField(a, 'M') == UnitField(b, 'M')
    requires UnitField(a, 'S') == UnitField(b, 'S')
    ensures Duration(a) == Duration(b)
  {
  }

  /** A date part `PnX` before the time part: the searches for other letters
      look straight past it. */
  lemma DayPartIgnored(days: nat, rest: string, unit: char)
    requires unit != 'D'
    ensures UnitField(("P" + NatToString(days) + "D") + rest, unit) == UnitField("P" + rest, unit)
  {
    DatePartIgnored(days, 'D', rest, unit);
  }

  lemma DatePartIgnored(n: nat, designator: char, rest: string, unit: char)
    requires !IsDigit(designator) && unit != designator
    ensures UnitField(("P" + NatToString(n) + [designator]) + rest, unit) == UnitField("P" + rest, unit)
  {
    DatePartField(n, designator, unit);
    UnitFieldAppend("P" + NatToString(n) + [designator], rest, unit);
    NoMatchWithoutDigits("P", unit);
    UnitFieldAppend("P", rest, unit);
  }

  lemma DatePartField(n: nat, designator: char, unit: char)
    requires !IsDigit(designator)
    ensures EndsOutsideRun("P" + NatToString(n) + [designator])
    ensures UnitField("P" + NatToString(n) + [designator], unit) == if unit == designator then Some(n) else None
  {
    NoMatchWithoutDigits("P", unit);
    ComponentField(Some(n), designator, unit);
    UnitFieldAppend("P", Component(Some(n), designator), unit);
    assert "P" + Component(Some(n), designator) == "P" + NatToString(n) + [designator];
  }

  /** The month count of `PnMT...` is found first by the search for `M`, so it
      stands in for the minutes, whatever the time part says. */
  lemma MonthsReadAsMinutes(months: nat, h: Option<nat>, m: Option<nat>, s: Option<nat>)
    ensures Duration("P" + NatToString(months) + "MT" + Component(h, 'H') + Component(m, 'M') + Component(s, 'S'))
         == ValueOr0(h) * 3600 + months * 60 + ValueOr0(s)
  {
    var a, b, c := Component(h, 'H'), Component(m, 'M'), Component(s, 'S');
    MonthsPrefixSplits(NatToString(months), a, b, c);
    DaysPrefixSplits(NatToString(months), a, b, c);
    MonthPartFields(months, "T" + (a + b + c));
    DesignatorField(h, m, s, 'H');
    DesignatorField(h, m, s, 'S');
  }

  lemma MonthsPrefixSplits(n: string, a: string, b: string, c: string)
    ensures "P" + n + "MT" + a + b + c == ("P" + n + "M") + ("T" + (a + b + c))
  {
    assert "MT" == "M" + "T";
  }

  lemma MonthPartFields(months: nat, tail: string)
    ensures UnitField(("P" + NatToString(months) + "M") + tail, 'M') == Some(months)
    ensures UnitField(("P" + NatToString(months) + "M") + tail, 'H') == UnitField("P" + tail, 'H')
    ensures UnitField(("P" + NatToString(months) + "M") + tail, 'S') == UnitField("P" + tail, 'S')
  {
    DatePartIgnored(months, 'M', tail, 'H');
    DatePartIgnored(months, 'M', tail, 'S');
    DatePartField(months, 'M', 'M');
    UnitFieldAppend("P" + NatToString(months) + "M", tail, 'M');
  }
}
