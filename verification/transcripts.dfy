/** The caption-to-transcript pipeline of `api/index.py`: choosing a caption
    track, reading a SubRip payload into timed segments, and rendering the
    transcript. Times are whole milliseconds. */
module Transcripts {
  import opened Wrappers
  import opened Strings
  import opened Seqs
  import opened Clock

  /** One entry of the caption listing; a missing `name` or `trackKind` is "". */
  datatype CaptionTrack = CaptionTrack(id: string, language: string, name: string, trackKind: string)

  datatype TranscriptError =
    | NoCaptionsFound             // the listing has no items
    | NoSuitableCaptions          // every candidate the passes picked has an empty id
    | MalformedTimestamp(line: string)  // parse_srt_timestamp raised on this line

  datatype Segment = Segment(startMs: nat, endMs: nat, text: string)

  datatype Transcript = Transcript(full: string, formatted: string, segments: seq<Segment>, language: string)

  // ---------------------------------------------------------------------------
  // Caption-track selection
  // ---------------------------------------------------------------------------

  predicate IsAutoGenerated(t: CaptionTrack) {
    Contains(Lower(t.name), "auto-generated") || t.trackKind == "ASR"
  }

  predicate IsEnglish(t: CaptionTrack) {
    t.language == "en"
  }

  predicate IsManualEnglish(t: CaptionTrack) {
    IsEnglish(t) && !IsAutoGenerated(t)
  }

  /** The track the three first-match-wins passes settle on: the first manual
      English track, else the first English track, else the first track. A pass
      only counts when the id it picked is non-empty, since an empty id is falsy
      in the source's `if not caption_id`. */
  function ChosenTrack(items: seq<CaptionTrack>): (r: Result<CaptionTrack, TranscriptError>)
    ensures r == Failure(NoCaptionsFound) <==> items == []
    ensures r.Success? ==> r.value in items && r.value.id != ""
  {
    if items == [] then Failure(NoCaptionsFound)
    else
      var manual := Find(items, IsManualEnglish);
      var english := Find(items, IsEnglish);
      if manual < |items| && items[manual].id != "" then Success(items[manual])
      else if english < |items| && items[english].id != "" then Success(items[english])
      else if items[0].id != "" then Success(items[0])
      else Failure(NoSuitableCaptions)
  }

  /** The first manual English track wins, wherever it stands, when its id is usable. */
  lemma ManualEnglishWins(items: seq<CaptionTrack>, k: nat)
    requires k < |items| && IsManualEnglish(items[k]) && items[k].id != ""
    requires forall j :: 0 <= j < k ==> !IsManualEnglish(items[j])
    ensures ChosenTrack(items) == Success(items[k])
  {
    assert Find(items, IsManualEnglish) == k;
  }

  /** When the first manual English track has an empty id, or there is none,
      the first English track is taken even when it is auto-generated. */
  lemma EnglishBeforeOtherLanguages(items: seq<CaptionTrack>, k: nat)
    requires k < |items| && IsEnglish(items[k]) && items[k].id != ""
    requires forall j :: 0 <= j < k ==> !IsEnglish(items[j])
    requires forall j :: 0 <= j < |items| && IsManualEnglish(items[j]) && (forall i :: 0 <= i < j ==> !IsManualEnglish(items[i]))
               ==> items[j].id == ""
    ensures ChosenTrack(items) == Success(items[k])
  {
    var manual := Find(items, IsManualEnglish);
    assert manual < |items| ==> items[manual].id == "";
    assert Find(items, IsEnglish) == k;
  }

  /** A usable track in a listing without English tracks is the first track. */
  lemma NoEnglishTakesFirst(items: seq<CaptionTrack>)
    requires items != [] && items[0].id != ""
    requires forall j :: 0 <= j < |items| ==> !IsEnglish(items[j])
    ensures ChosenTrack(items) == Success(items[0])
  {
  }

  /** The three passes as `for ... break` loops over the listing. */
  method SelectCaptionTrack(items: seq<CaptionTrack>) returns (r: Result<CaptionTrack, TranscriptError>)
    ensures r == ChosenTrack(items)
  {
    if items == [] {
      return Failure(NoCaptionsFound);
    }
    var captionId := "";
    var track := items[0];
    var i := 0;
    while i < |items|
      invariant 0 <= i <= |items|
      invariant forall j :: 0 <= j < i ==> !IsManualEnglish(items[j])
      invariant captionId == ""
    {
      if IsManualEnglish(items[i]) {
        captionId, track := items[i].id, items[i];
        break;
      }
      i := i + 1;
    }
    ghost var manual := Find(items, IsManualEnglish);
    assert i == manual;
    assert captionId == (if manual < |items| then items[manual].id else "");
    assert captionId != "" ==> track == items[manual];
    if captionId == "" {
      i := 0;
      while i < |items|
        invariant 0 <= i <= |items|
        invariant forall j :: 0 <= j < i ==> !IsEnglish(items[j])
        invariant captionId == ""
      {
        if IsEnglish(items[i]) {
          captionId, track := items[i].id, items[i];
          break;
        }
        i := i + 1;
      }
      ghost var english := Find(items, IsEnglish);
      assert i == english;
      if captionId == "" {
        captionId, track := items[0].id, items[0];
      }
    }
    if captionId == "" {
      return Failure(NoSuitableCaptions);
    }
    r := Success(track);
  }

  // ---------------------------------------------------------------------------
  // Timestamps
  // ---------------------------------------------------------------------------

  /** `\d+(\.\d+)?`: the seconds field of a clock value after ',' became '.'. */
  predicate IsDecimal(s: string) {
    var k := IndexOf(s, ".");
    if k == |s| then IsDigits(s) else IsDigits(s[..k]) && IsDigits(s[k + 1..])
  }

  /** The seconds field in milliseconds; fraction digits past the third are dropped. */
  function DecimalMillis(s: string): nat
    requires IsDecimal(s)
  {
    var k := IndexOf(s, ".");
    if k == |s| then DigitsValue(s) * 1000
    else
      var fraction := (s[k + 1..] + "000")[..3];
      assert forall i :: 0 <= i < 3 ==> IsDigit(fraction[i]);
      DigitsValue(s[..k]) * 1000 + DigitsValue(fraction)
  }

  /** The nested `parse_time`: exactly three ':' fields, `h*3600 + m*60 + s`. */
  function ParseClock(field: string): Option<nat>
  {
    ClockOfFields(Split(field, ":"))
  }

  /** The unpacking `h, m, s = ...` and the conversions `int(h)`, `int(m)`, `float(s)`. */
  function ClockOfFields(f: seq<string>): Option<nat>
  {
    if |f| == 3 && IsDigits(f[0]) && IsDigits(f[1]) && IsDecimal(f[2]) then
      Some(DigitsValue(f[0]) * 3_600_000 + DigitsValue(f[1]) * 60_000 + DecimalMillis(f[2]))
    else None
  }

  /** `.replace(',', '.')`: the decimal comma of a clock value becomes a period. */
  function Dotted(s: string): string
  {
    Replace(s, ',', '.')
  }

  /** `parse_srt_timestamp`: the first two pieces around " --> ", each with its
      decimal comma turned into a period. `None` is the raised exception. */
  function ParseSrtTimestamp(line: string): Option<(nat, nat)>
  {
    var parts := Split(line, " --> ");
    if |parts| < 2 then None
    else
      match (ParseClock(Dotted(parts[0])), ParseClock(Dotted(parts[1])))
      case (Some(start), Some(end)) => Some((start, end))
      case _ => None
  }

  /** `format_time`: whole seconds (floor) as zero-padded `HH:MM:SS`. */
  function FormatTime(ms: nat): string
  {
    var hms := Hms(ms / 1000);
    Pad2(hms.0) + ":" + Pad2(hms.1) + ":" + Pad2(hms.2)
  }

  /** Three digit fields separated by ':' read as `h*3600 + m*60 + s` seconds. */
  lemma ParseClockOfDigits(a: string, b: string, c: string)
    requires IsDigits(a) && IsDigits(b) && IsDigits(c)
    ensures ParseClock(a + ":" + b + ":" + c)
         == Some(DigitsValue(a) * 3_600_000 + DigitsValue(b) * 60_000 + DigitsValue(c) * 1000)
  {
    DigitsHaveNoColon(a);
    DigitsHaveNoColon(b);
    DigitsHaveNoColon(c);
    SplitClock(a, b, c);
    ClockOfDigits(a, b, c);
  }

  lemma ClockOfDigits(a: string, b: string, c: string)
    requires IsDigits(a) && IsDigits(b) && IsDigits(c)
    ensures ClockOfFields([a, b, c]) == Some(DigitsValue(a) * 3_600_000 + DigitsValue(b) * 60_000 + DigitsValue(c) * 1000)
  {
    WholeSeconds(c);
  }

  lemma SplitClock(a: string, b: string, c: string)
    requires ':' !in a && ':' !in b && ':' !in c
    ensures Split(a + ":" + b + ":" + c, ":") == [a, b, c]
  {
    var fields: seq<string> := [a, b, c];
    JoinThree(a, b, c);
    SplitJoin(fields, ':');
  }

  lemma JoinThree(a: string, b: string, c: string)
    ensures Join([a, b, c], ":") == a + ":" + b + ":" + c
  {
    var fields: seq<string> := [a, b, c];
    assert fields[1..] == [b, c] && fields[1..][1..] == [c];
    assert Join([b, c], ":") == b + ":" + c;
  }

  lemma DigitsHaveNoColon(s: string)
    requires IsDigits(s)
    ensures ':' !in s
  {
    assert forall i :: 0 <= i < |s| ==> IsDigit(s[i]);
  }

  /** A seconds field without a decimal point counts whole seconds. */
  lemma WholeSeconds(c: string)
    requires IsDigits(c)
    ensures IsDecimal(c) && DecimalMillis(c) == DigitsValue(c) * 1000
  {
    IndexOfChar(c, '.', |c|);
    assert "." == ['.'];
  }

  /** The time `h` hours, `m` minutes, `s` seconds and `f` thousandths in milliseconds. */
  function Millis(h: string, m: string, s: string, f: string): nat
    requires IsDigits(h) && IsDigits(m) && IsDigits(s) && IsDigits(f)
  {
    DigitsValue(h) * 3_600_000 + DigitsValue(m) * 60_000 + DigitsValue(s) * 1000 + DigitsValue(f)
  }

  /** A seconds field with a three-digit fraction counts its milliseconds. */
  lemma FractionSeconds(c: string, f: string)
    requires IsDigits(c) && IsDigits(f) && |f| == 3
    ensures IsDecimal(c + "." + f) && DecimalMillis(c + "." + f) == DigitsValue(c) * 1000 + DigitsValue(f)
  {
    var x := c + "." + f;
    IndexOfChar(x, '.', |c|);
    assert "." == ['.'];
    assert x[..|c|] == c && x[|c| + 1..] == f;
    assert (f + "000")[..3] == f;
  }

  /** `h:m:s.fff` with digit fields reads as its time in milliseconds, the three
      fraction digits counting thousandths of a second. */
  lemma ParseClockOfFraction(a: string, b: string, c: string, f: string)
    requires IsDigits(a) && IsDigits(b) && IsDigits(c) && IsDigits(f) && |f| == 3
    ensures ParseClock(a + ":" + b + ":" + c + "." + f) == Some(Millis(a, b, c, f))
  {
    var seconds := c + "." + f;
    AssocRight4(a + ":" + b + ":", c, ".", f);
    DigitsHaveNoColon(a);
    DigitsHaveNoColon(b);
    DigitsHaveNoColon(c);
    DigitsHaveNoColon(f);
    assert ':' !in seconds;
    SplitClock(a, b, seconds);
    ClockOfFraction(a, b, c, f);
  }

  lemma ClockOfFraction(a: string, b: string, c: string, f: string)
    requires IsDigits(a) && IsDigits(b) && IsDigits(c) && IsDigits(f) && |f| == 3
    ensures ClockOfFields([a, b, c + "." + f]) == Some(Millis(a, b, c, f))
  {
    FractionSeconds(c, f);
  }

  /** One side of a SubRip timestamp line, `h:m:s,fff`: it has no space, and
      with its comma made a period it reads as its time in milliseconds. */
  lemma SrtSideReads(h: string, m: string, s: string, f: string)
    requires IsDigits(h) && IsDigits(m) && IsDigits(s) && IsDigits(f) && |f| == 3
    ensures var side := SrtClock(h, m, s, f);
      && ' ' !in side
      && ParseClock(Dotted(side)) == Some(Millis(h, m, s, f))
  {
    var clock := h + ":" + m + ":" + s;
    var side := clock + "," + f;
    DigitsAvoid(h, ' ');
    DigitsAvoid(m, ' ');
    DigitsAvoid(s, ' ');
    DigitsAvoid(f, ' ');
    DigitsAvoid(h, ',');
    DigitsAvoid(m, ',');
    DigitsAvoid(s, ',');
    DigitsAvoid(f, ',');
    assert ',' !in clock;
    DecimalComma(clock, f);
    ParseClockOfFraction(h, m, s, f);
  }

  lemma DigitsAvoid(s: string, c: char)
    requires IsDigits(s) && !IsDigit(c)
    ensures c !in s
  {
    assert forall i :: 0 <= i < |s| ==> IsDigit(s[i]);
  }

  /** The only comma of `x,y` becomes a period. */
  lemma DecimalComma(x: string, y: string)
    requires ',' !in x && ',' !in y
    ensures Dotted(x + "," + y) == x + "." + y
  {
    var line := x + "," + y;
    var r := Dotted(line);
    forall i | 0 <= i < |line|
      ensures r[i] == (x + "." + y)[i]
    {
      if i < |x| {
        assert line[i] == x[i];
      } else if i > |x| {
        assert line[i] == y[i - |x| - 1];
      }
    }
  }

  /** Splitting `x --> y` on the arrow, when `x` has no space. */
  lemma SplitArrow(x: string, y: string)
    requires ' ' !in x
    ensures Split(x + " --> " + y, " --> ") == [x] + Split(y, " --> ")
  {
    var line := x + " --> " + y;
    assert line[|x|..|x| + 5] == " --> ";
    IndexOfAt(line, " --> ", |x|);
    assert line[..|x|] == x && line[|x| + 5..] == y;
  }

  /** A side without a space holds no arrow. */
  lemma SplitNoArrow(y: string)
    requires ' ' !in y
    ensures Split(y, " --> ") == [y]
  {
    IndexOfAbsent(y, " --> ");
  }

  /** A time as SubRip writes it: `h:m:s,fff`. */
  function SrtClock(h: string, m: string, s: string, f: string): string
  {
    h + ":" + m + ":" + s + "," + f
  }

  /** A SubRip timestamp line `h:m:s,fff --> h:m:s,fff` with digit fields reads
      as its start and end in milliseconds. */
  lemma SrtTimestampReads(h1: string, m1: string, s1: string, f1: string,
                          h2: string, m2: string, s2: string, f2: string)
    requires IsDigits(h1) && IsDigits(m1) && IsDigits(s1) && IsDigits(f1) && |f1| == 3
    requires IsDigits(h2) && IsDigits(m2) && IsDigits(s2) && IsDigits(f2) && |f2| == 3
    ensures ParseSrtTimestamp(SrtClock(h1, m1, s1, f1) + " --> " + SrtClock(h2, m2, s2, f2))
         == Some((Millis(h1, m1, s1, f1), Millis(h2, m2, s2, f2)))
  {
    SrtSideReads(h1, m1, s1, f1);
    SrtSideReads(h2, m2, s2, f2);
    SidesRead(SrtClock(h1, m1, s1, f1), SrtClock(h2, m2, s2, f2), Millis(h1, m1, s1, f1), Millis(h2, m2, s2, f2));
  }

  /** A line `x --> y` whose sides have no space reads as the times of its sides. */
  lemma SidesRead(x: string, y: string, start: nat, end: nat)
    requires ' ' !in x && ' ' !in y
    requires ParseClock(Dotted(x)) == Some(start) && ParseClock(Dotted(y)) == Some(end)
    ensures ParseSrtTimestamp(x + " --> " + y) == Some((start, end))
  {
    SplitArrow(x, y);
    SplitNoArrow(y);
  }

  /** A line without " --> " is not a timestamp. */
  lemma TimestampWithoutArrowFails(line: string)
    requires !Contains(line, " --> ")
    ensures ParseSrtTimestamp(line) == None
  {
  }

  /** A clock value that is not exactly three ':' fields does not read, whatever
      its fields hold. */
  lemma ClockFieldCountFails(fields: seq<string>)
    requires |fields| != 3
    requires forall k :: 0 <= k < |fields| ==> ':' !in fields[k]
    ensures ParseClock(Dotted(Join(fields, ":"))) == None
  {
    if fields == [] {
      assert Dotted(Join(fields, ":")) == [];
    } else {
      DottedJoin(fields);
      var dotted := Map(fields, Dotted);
      forall k | 0 <= k < |dotted|
        ensures ':' !in dotted[k]
      {
        DottedAvoids(fields[k], ':');
      }
      assert ":" == [':'];
      SplitJoin(dotted, ':');
    }
  }

  lemma DottedAvoids(s: string, c: char)
    requires c !in s && c != '.'
    ensures c !in Dotted(s)
  {
    var r := Dotted(s);
    assert forall i :: 0 <= i < |r| ==> r[i] == s[i] || r[i] == '.';
  }

  lemma DottedAppend(x: string, y: string)
    ensures Dotted(x + y) == Dotted(x) + Dotted(y)
  {
    var r := Dotted(x + y);
    forall i | 0 <= i < |r|
      ensures r[i] == (Dotted(x) + Dotted(y))[i]
    {
      if i >= |x| {
        assert (x + y)[i] == y[i - |x|];
      }
    }
  }

  /** Replacing commas piece by piece or in the joined string is the same. */
  lemma {:induction false} DottedJoin(fields: seq<string>)
    requires fields != []
    ensures Dotted(Join(fields, ":")) == Join(Map(fields, Dotted), ":")
  {
    var dotted := Map(fields, Dotted);
    if |fields| > 1 {
      DottedJoin(fields[1..]);
      assert dotted[1..] == Map(fields[1..], Dotted);
      DottedAppend(fields[0] + ":", Join(fields[1..], ":"));
      DottedAppend(fields[0], ":");
      assert Dotted(":") == ":";
    }
  }

  /** A timestamp line whose start is not three ':' fields fails. */
  lemma StartFieldCountFails(fields: seq<string>, rest: string)
    requires |fields| != 3
    requires forall k :: 0 <= k < |fields| ==> ':' !in fields[k] && ' ' !in fields[k]
    ensures ParseSrtTimestamp(Join(fields, ":") + " --> " + rest) == None
  {
    JoinAvoids(fields, ":", ' ');
    SplitArrow(Join(fields, ":"), rest);
    ClockFieldCountFails(fields);
  }

  /** A timestamp line whose end is not three ':' fields fails. */
  lemma EndFieldCountFails(start: string, fields: seq<string>)
    requires ' ' !in start
    requires |fields| != 3
    requires forall k :: 0 <= k < |fields| ==> ':' !in fields[k] && ' ' !in fields[k]
    ensures ParseSrtTimestamp(start + " --> " + Join(fields, ":")) == None
  {
    JoinAvoids(fields, ":", ' ');
    SplitArrow(start, Join(fields, ":"));
    SplitNoArrow(Join(fields, ":"));
    ClockFieldCountFails(fields);
  }

  /** Reading a rendered time back gives the time truncated to whole seconds;
      so 59 900 ms renders as 00:00:59 and reads back as 59 000 ms. */
  lemma FormatTimeReadsBack(ms: nat)
    ensures ParseClock(FormatTime(ms)) == Some(ms / 1000 * 1000)
  {
    var hms := Hms(ms / 1000);
    var h: nat, m, s := hms.0, hms.1, hms.2;
    ParseClockOfDigits(Pad2(h), Pad2(m), Pad2(s));
    assert h * 3_600_000 + m * 60_000 + s * 1000 == (h * 3600 + m * 60 + s) * 1000;
  }

  // ---------------------------------------------------------------------------
  // The SubRip reader
  // ---------------------------------------------------------------------------

  /** The loop's accumulators: the pending timestamp line ("" before the first),
      the pending text lines, and the segments emitted so far. */
  datatype ParserState = ParserState(timestamp: string, pending: seq<string>, segments: seq<Segment>)

  const Start := ParserState("", [], [])

  /** A stripped line the reader skips: empty or all digits (a block number). */
  predicate IsSkipped(line: string) {
    line == [] || IsDigits(line)
  }

  /** Closing a segment: the pending lines joined by single spaces. */
  function MakeSegment(timestamp: string, pending: seq<string>): Result<Segment, TranscriptError>
  {
    match ParseSrtTimestamp(timestamp)
    case None => Failure(MalformedTimestamp(timestamp))
    case Some((start, end)) => Success(Segment(start, end, Join(pending, " ")))
  }

  /** One iteration of the source's `for line in ...` loop. */
  function Step(p: ParserState, raw: string): Result<ParserState, TranscriptError>
  {
    var line := Strip(raw);
    if IsSkipped(line) then Success(p)
    else if Contains(line, "-->") then
      if p.pending != [] && p.timestamp != "" then
        match MakeSegment(p.timestamp, p.pending)
        case Failure(e) => Failure(e)
        case Success(seg) => Success(ParserState(line, [], p.segments + [seg]))
      else Success(p.(timestamp := line))
    else Success(p.(pending := p.pending + [line]))
  }

  function Run(p: ParserState, lines: seq<string>): Result<ParserState, TranscriptError>
    decreases |lines|
  {
    if lines == [] then Success(p)
    else
      match Step(p, lines[0])
      case Failure(e) => Failure(e)
      case Success(q) => Run(q, lines[1..])
  }

  /** The flush after the loop, for a payload without a trailing blank line. */
  function Finish(p: ParserState): Result<seq<Segment>, TranscriptError>
  {
    if p.pending != [] && p.timestamp != "" then
      match MakeSegment(p.timestamp, p.pending)
      case Failure(e) => Failure(e)
      case Success(seg) => Success(p.segments + [seg])
    else Success(p.segments)
  }

  /** The segments of a payload already split into lines. */
  function ParseSegments(lines: seq<string>): Result<seq<Segment>, TranscriptError>
  {
    match Run(Start, lines)
    case Failure(e) => Failure(e)
    case Success(p) => Finish(p)
  }

  /** A line that the reader treats as a timestamp line. */
  predicate IsTimestampLine(raw: string) {
    var line := Strip(raw);
    !IsSkipped(line) && Contains(line, "-->")
  }

  /** A line that the reader treats as caption text. */
  predicate IsTextLine(raw: string) {
    var line := Strip(raw);
    !IsSkipped(line) && !Contains(line, "-->")
  }

  function TimestampLines(lines: seq<string>): nat
  {
    if lines == [] then 0 else (if IsTimestampLine(lines[0]) then 1 else 0) + TimestampLines(lines[1..])
  }

  /** A blank or all-digit line changes nothing, wherever it stands. */
  lemma {:induction false} SkippedLineIgnored(p: ParserState, before: seq<string>, skipped: string, after: seq<string>)
    requires IsSkipped(Strip(skipped))
    ensures Run(p, before + [skipped] + after) == Run(p, before + after)
    decreases |before|
  {
    if before == [] {
      AppendEmpty(before, [skipped] + after);
      AppendEmpty(before, after);
      assert Step(p, skipped) == Success(p);
      RunCons(p, skipped, after, p);
    } else {
      var first, more := before[0], before[1..];
      UncoverFirst(before, skipped, after);
      match Step(p, first)
      case Failure(e) =>
        RunConsFails(p, first, more + [skipped] + after, e);
        RunConsFails(p, first, more + after, e);
      case Success(q) =>
        RunCons(p, first, more + [skipped] + after, q);
        RunCons(p, first, more + after, q);
        SkippedLineIgnored(q, more, skipped, after);
    }
  }

  lemma RunConsFails(p: ParserState, a: string, rest: seq<string>, e: TranscriptError)
    requires Step(p, a) == Failure(e)
    ensures Run(p, [a] + rest) == Failure(e)
  {
    assert ([a] + rest)[0] == a;
  }

  /** Emitted segments are only ever appended to, and each emission uses up a
      timestamp line: segments so far plus a pending timestamp never outnumber
      the timestamp lines read. */
  lemma {:induction false} RunAppendsSegments(p: ParserState, lines: seq<string>)
    requires Run(p, lines).Success?
    ensures var q := Run(p, lines).value;
      && p.segments <= q.segments
      && |q.segments| + (if q.timestamp != "" then 1 else 0)
         <= |p.segments| + (if p.timestamp != "" then 1 else 0) + TimestampLines(lines)
    decreases |lines|
  {
    if lines != [] {
      var q := Step(p, lines[0]).value;
      StepAppends(p, lines[0]);
      RunAppendsSegments(q, lines[1..]);
    }
  }

  /** One step of `RunAppendsSegments`. */
  lemma StepAppends(p: ParserState, raw: string)
    requires Step(p, raw).Success?
    ensures var q := Step(p, raw).value;
      && p.segments <= q.segments
      && |q.segments| + (if q.timestamp != "" then 1 else 0)
         <= |p.segments| + (if p.timestamp != "" then 1 else 0) + (if IsTimestampLine(raw) then 1 else 0)
  {
    var line := Strip(raw);
    if IsSkipped(line) {
      assert Step(p, raw) == Success(p);
    } else if Contains(line, "-->") {
      assert IsTimestampLine(raw);
      if p.pending != [] && p.timestamp != "" {
        var seg := MakeSegment(p.timestamp, p.pending).value;
        assert Step(p, raw) == Success(ParserState(line, [], p.segments + [seg]));
      } else {
        assert Step(p, raw) == Success(p.(timestamp := line));
      }
    } else {
      assert Step(p, raw) == Success(p.(pending := p.pending + [line]));
    }
  }

  /** No more segments than timestamp lines; a timestamp line followed by no text emits nothing. */
  lemma SegmentCountBound(lines: seq<string>)
    requires ParseSegments(lines).Success?
    ensures |ParseSegments(lines).value| <= TimestampLines(lines)
  {
    RunAppendsSegments(Start, lines);
  }

  predicate AllCleanState(p: ParserState) {
    AllClean(p.pending) && AllClean(Texts(p.segments))
  }

  lemma {:induction false} RunKeepsClean(p: ParserState, lines: seq<string>)
    requires AllCleanState(p)
    requires Run(p, lines).Success?
    ensures AllCleanState(Run(p, lines).value)
    decreases |lines|
  {
    if lines != [] {
      StepKeepsClean(p, lines[0]);
      RunKeepsClean(Step(p, lines[0]).value, lines[1..]);
    }
  }

  /** One step of `RunKeepsClean`. */
  lemma StepKeepsClean(p: ParserState, raw: string)
    requires AllCleanState(p)
    requires Step(p, raw).Success?
    ensures AllCleanState(Step(p, raw).value)
  {
    var line := Strip(raw);
    if IsSkipped(line) {
      assert Step(p, raw) == Success(p);
    } else if Contains(line, "-->") {
      if p.pending != [] && p.timestamp != "" {
        var seg := MakeSegment(p.timestamp, p.pending).value;
        assert Step(p, raw) == Success(ParserState(line, [], p.segments + [seg]));
        FlushKeepsClean(p, seg);
      } else {
        assert Step(p, raw) == Success(p.(timestamp := line));
      }
    } else {
      assert Step(p, raw) == Success(p.(pending := p.pending + [line]));
      AllCleanSnoc(p.pending, line);
    }
  }

  lemma FlushKeepsClean(p: ParserState, seg: Segment)
    requires AllCleanState(p) && p.pending != []
    requires seg.text == Join(p.pending, " ")
    ensures AllClean(Texts(p.segments + [seg]))
  {
    JoinClean(p.pending);
    AccumulatedSnoc(p.segments, seg);
    AllCleanSnoc(Texts(p.segments), seg.text);
  }

  /** Every segment text is non-empty and has no whitespace at either end. */
  lemma SegmentTextsClean(lines: seq<string>)
    requires ParseSegments(lines).Success?
    ensures forall k :: 0 <= k < |ParseSegments(lines).value| ==> Clean(ParseSegments(lines).value[k].text)
  {
    var segs := ParseSegments(lines).value;
    assert AllCleanState(Start);
    RunKeepsClean(Start, lines);
    var p := Run(Start, lines).value;
    assert Finish(p) == ParseSegments(lines);
    FinishedTextsClean(p);
    assert AllClean(Texts(segs));
  }

  lemma FinishedTextsClean(p: ParserState)
    requires AllCleanState(p)
    requires Finish(p).Success?
    ensures AllClean(Texts(Finish(p).value))
  {
    if p.pending != [] && p.timestamp != "" {
      JoinClean(p.pending);
      var seg := MakeSegment(p.timestamp, p.pending).value;
      FinishFlush(p, seg);
      AccumulatedSnoc(p.segments, seg);
      AllCleanSnoc(Texts(p.segments), seg.text);
    }
  }

  /** A timestamp line followed directly by another emits no segment when no
      text is pending. */
  lemma TimestampWithoutText(p: ParserState, first: string, second: string)
    requires p.pending == []
    requires IsTimestampLine(first) && IsTimestampLine(second)
    ensures Run(p, [first, second]) == Success(ParserState(Strip(second), [], p.segments))
  {
    var p1 := p.(timestamp := Strip(first));
    StepTimestamp(p, first);
    StepTimestamp(p1, second);
    RunTwo(p, first, second, p1, p1.(timestamp := Strip(second)));
  }

  lemma StepText(p: ParserState, raw: string)
    requires IsTextLine(raw)
    ensures Step(p, raw) == Success(p.(pending := p.pending + [Strip(raw)]))
  {
  }

  lemma StepTimestamp(p: ParserState, raw: string)
    requires IsTimestampLine(raw)
    requires p.pending == [] || p.timestamp == ""
    ensures Step(p, raw) == Success(p.(timestamp := Strip(raw)))
  {
  }

  lemma RunTwo(p: ParserState, a: string, b: string, q1: ParserState, q2: ParserState)
    requires Step(p, a) == Success(q1) && Step(q1, b) == Success(q2)
    ensures Run(p, [a, b]) == Success(q2)
  {
    Pair(a, b);
    RunCons(p, a, [b], q1);
    RunOne(q1, b, q2);
  }

  lemma RunThree(p: ParserState, a: string, b: string, c: string, q1: ParserState, q2: ParserState, q3: ParserState)
    requires Step(p, a) == Success(q1) && Step(q1, b) == Success(q2) && Step(q2, c) == Success(q3)
    ensures Run(p, [a, b, c]) == Success(q3)
  {
    Triple(a, b, c);
    RunCons(p, a, [b, c], q1);
    RunTwo(q1, b, c, q2, q3);
  }

  lemma ParseAfterRun(lines: seq<string>, p: ParserState)
    requires Run(Start, lines) == Success(p)
    ensures ParseSegments(lines) == Finish(p)
  {
  }

  lemma FinishFlush(p: ParserState, seg: Segment)
    requires p.pending != [] && p.timestamp != ""
    requires MakeSegment(p.timestamp, p.pending) == Success(seg)
    ensures Finish(p) == Success(p.segments + [seg])
  {
  }

  /** A run that ends with a readable timestamp and two pending lines, and no
      segment yet, parses to the one segment those lines make. */
  lemma OnlySegment(lines: seq<string>, timestamp: string, a: string, b: string, start: nat, end: nat)
    requires Run(Start, lines) == Success(ParserState(timestamp, [a, b], []))
    requires timestamp != "" && ParseSrtTimestamp(timestamp) == Some((start, end))
    ensures ParseSegments(lines) == Success([Segment(start, end, a + " " + b)])
  {
    var p := ParserState(timestamp, [a, b], []);
    ParseAfterRun(lines, p);
    assert [a, b][1..] == [b];
    assert Join([a, b], " ") == a + " " + b;
    var seg := Segment(start, end, a + " " + b);
    assert MakeSegment(timestamp, [a, b]) == Success(seg);
    FinishFlush(p, seg);
    assert p.segments + [seg] == [seg];
  }

  lemma RunTextTimestampText(early: string, timestamp: string, late: string)
    requires IsTextLine(early) && IsTimestampLine(timestamp) && IsTextLine(late)
    ensures Run(Start, [early, timestamp, late])
         == Success(ParserState(Strip(timestamp), [Strip(early), Strip(late)], []))
  {
    var p1 := ParserState("", [Strip(early)], []);
    var p2 := ParserState(Strip(timestamp), [Strip(early)], []);
    var p3 := ParserState(Strip(timestamp), [Strip(early), Strip(late)], []);
    Pair(Strip(early), Strip(late));
    StepText(Start, early);
    StepTimestamp(p1, timestamp);
    StepText(p2, late);
    RunThree(Start, early, timestamp, late, p1, p2, p3);
  }

  /** Reading two payloads one after the other is reading their concatenation. */
  lemma {:induction false} RunAppend(p: ParserState, a: seq<string>, b: seq<string>)
    ensures Run(p, a + b) == match Run(p, a) case Failure(e) => Failure(e) case Success(q) => Run(q, b)
    decreases |a|
  {
    if a == [] {
      assert a + b == b;
    } else {
      assert (a + b)[0] == a[0] && (a + b)[1..] == a[1..] + b;
      match Step(p, a[0])
      case Failure(_) =>
      case Success(q) => RunAppend(q, a[1..], b);
    }
  }

  /** Caption text lines are collected, stripped and in order, into the pending text. */
  lemma {:induction false} RunTextLines(p: ParserState, texts: seq<string>, rest: seq<string>)
    requires forall k :: 0 <= k < |texts| ==> IsTextLine(texts[k])
    ensures Run(p, texts + rest) == Run(p.(pending := p.pending + Map(texts, Strip)), rest)
    decreases |texts|
  {
    if texts == [] {
      AppendEmpty(texts, rest);
      AppendEmpty(Map(texts, Strip), p.pending);
    } else {
      var q := p.(pending := p.pending + [Strip(texts[0])]);
      StepText(p, texts[0]);
      ConsSplit(texts, rest);
      RunCons(p, texts[0], texts[1..] + rest, q);
      RunTextLines(q, texts[1..], rest);
      MapCons(texts, Strip);
      AssocRight(p.pending, [Strip(texts[0])], Map(texts[1..], Strip));
    }
  }

  lemma RunCons(p: ParserState, a: string, rest: seq<string>, q: ParserState)
    requires Step(p, a) == Success(q)
    ensures Run(p, [a] + rest) == Run(q, rest)
  {
    assert ([a] + rest)[0] == a && ([a] + rest)[1..] == rest;
  }

  /** Text read before the first timestamp line is not dropped: whatever
      follows, the reader goes on with those lines pending under that timestamp,
      so they open the first segment's text. */
  lemma TextBeforeFirstTimestamp(early: seq<string>, timestamp: string, rest: seq<string>)
    requires forall k :: 0 <= k < |early| ==> IsTextLine(early[k])
    requires IsTimestampLine(timestamp)
    ensures Run(Start, early + [timestamp] + rest)
         == Run(ParserState(Strip(timestamp), Map(early, Strip), []), rest)
  {
    AssocRight(early, [timestamp], rest);
    RunTextLines(Start, early, [timestamp] + rest);
    AppendEmpty(Start.pending, Map(early, Strip));
    PendingThenTimestamp(Map(early, Strip), timestamp, rest);
  }

  lemma PendingThenTimestamp(pending: seq<string>, timestamp: string, rest: seq<string>)
    requires IsTimestampLine(timestamp)
    ensures Run(ParserState("", pending, []), [timestamp] + rest)
         == Run(ParserState(Strip(timestamp), pending, []), rest)
  {
    var p := ParserState("", pending, []);
    StepTimestamp(p, timestamp);
    RunCons(p, timestamp, rest, p.(timestamp := Strip(timestamp)));
  }

  /** Leading text lines, one timestamp line and one text line: a single segment
      whose text is every text line, in order, joined by single spaces. */
  lemma LeadingTextInFirstSegment(early: seq<string>, timestamp: string, late: string, start: nat, end: nat)
    requires forall k :: 0 <= k < |early| ==> IsTextLine(early[k])
    requires IsTimestampLine(timestamp) && IsTextLine(late)
    requires ParseSrtTimestamp(Strip(timestamp)) == Some((start, end))
    ensures ParseSegments(early + [timestamp, late])
         == Success([Segment(start, end, Join(Map(early, Strip) + [Strip(late)], " "))])
  {
    var lines := early + [timestamp, late];
    var texts := Map(early, Strip) + [Strip(late)];
    var p := ParserState(Strip(timestamp), Map(early, Strip), []);
    var q := ParserState(Strip(timestamp), texts, []);
    SnocPair(early, timestamp, late);
    TextBeforeFirstTimestamp(early, timestamp, [late]);
    assert Run(Start, lines) == Run(p, [late]);
    StepText(p, late);
    assert Step(p, late) == Success(q);
    RunOne(p, late, q);
    ParseAfterRun(lines, q);
    assert q.timestamp != "";
    FinishOne(q, start, end);
  }

  lemma RunOne(p: ParserState, a: string, q: ParserState)
    requires Step(p, a) == Success(q)
    ensures Run(p, [a]) == Success(q)
  {
    assert [a][0] == a && [a][1..] == [];
  }

  /** A run with one pending segment and none emitted finishes with that segment. */
  lemma FinishOne(p: ParserState, start: nat, end: nat)
    requires p.timestamp != "" && p.pending != [] && p.segments == []
    requires ParseSrtTimestamp(p.timestamp) == Some((start, end))
    ensures Finish(p) == Success([Segment(start, end, Join(p.pending, " "))])
  {
    var seg := Segment(start, end, Join(p.pending, " "));
    assert MakeSegment(p.timestamp, p.pending) == Success(seg);
    FinishFlush(p, seg);
    assert p.segments + [seg] == [seg];
  }

  /** A pending timestamp that cannot be read fails the payload: at the next
      timestamp line, or at the end when none follows. */
  lemma {:induction false} UnreadablePendingFails(p: ParserState, lines: seq<string>)
    requires p.timestamp != "" && p.pending != [] && ParseSrtTimestamp(p.timestamp) == None
    ensures match Run(p, lines)
      case Failure(e) => e == MalformedTimestamp(p.timestamp)
      case Success(q) => Finish(q) == Failure(MalformedTimestamp(p.timestamp))
    decreases |lines|
  {
    if lines != [] {
      var line := Strip(lines[0]);
      if IsSkipped(line) {
        assert Step(p, lines[0]) == Success(p);
        UnreadablePendingFails(p, lines[1..]);
      } else if Contains(line, "-->") {
        assert Step(p, lines[0]) == Failure(MalformedTimestamp(p.timestamp));
      } else {
        var q := p.(pending := p.pending + [line]);
        assert Step(p, lines[0]) == Success(q);
        UnreadablePendingFails(q, lines[1..]);
      }
    }
  }

  /** A timestamp line that cannot be read, followed by caption text, fails the
      whole transcript, wherever it stands after a payload that reads. */
  lemma MalformedTimestampFails(before: seq<string>, timestamp: string, text: string, after: seq<string>)
    requires ParseSegments(before).Success?
    requires IsTimestampLine(timestamp) && IsTextLine(text)
    requires ParseSrtTimestamp(Strip(timestamp)) == None
    ensures ParseSegments(before + [timestamp, text] + after) == Failure(MalformedTimestamp(Strip(timestamp)))
  {
    var p := Run(Start, before).value;
    UnreadableTimestampFails(p, timestamp, text, after);
    AssocRight(before, [timestamp, text], after);
    RunAppend(Start, before, [timestamp, text] + after);
  }

  lemma UnreadableTimestampFails(p: ParserState, timestamp: string, text: string, after: seq<string>)
    requires Finish(p).Success?
    requires IsTimestampLine(timestamp) && IsTextLine(text)
    requires ParseSrtTimestamp(Strip(timestamp)) == None
    ensures match Run(p, [timestamp, text] + after)
      case Failure(e) => e == MalformedTimestamp(Strip(timestamp))
      case Success(q) => Finish(q) == Failure(MalformedTimestamp(Strip(timestamp)))
  {
    StepTimestampAfterReadable(p, timestamp);
    var q1 := Step(p, timestamp).value;
    var q2 := q1.(pending := q1.pending + [Strip(text)]);
    StepText(q1, text);
    RunTwoThen(p, timestamp, text, after, q1, q2);
    UnreadablePendingFails(q2, after);
  }

  lemma StepTimestampAfterReadable(p: ParserState, raw: string)
    requires Finish(p).Success? && IsTimestampLine(raw)
    ensures Step(p, raw).Success? && Step(p, raw).value.timestamp == Strip(raw)
  {
    if p.pending != [] && p.timestamp != "" {
      assert MakeSegment(p.timestamp, p.pending).Success?;
    }
  }

  lemma RunTwoThen(p: ParserState, a: string, b: string, rest: seq<string>, q1: ParserState, q2: ParserState)
    requires Step(p, a) == Success(q1) && Step(q1, b) == Success(q2)
    ensures Run(p, [a, b] + rest) == Run(q2, rest)
  {
    ConsPair(a, b, rest);
    RunCons(p, a, [b] + rest, q1);
    RunCons(q1, b, rest, q2);
  }

  /** Every timestamp line is directly followed by a caption text line, as in a
      well-formed SubRip payload. */
  predicate TextFollowsTimestamps(lines: seq<string>) {
    forall i :: 0 <= i < |lines| && IsTimestampLine(lines[i]) ==> i + 1 < |lines| && IsTextLine(lines[i + 1])
  }

  /** Whether a timestamp line is pending. */
  function Open(p: ParserState): nat {
    if p.timestamp != "" then 1 else 0
  }

  /** On a payload where text follows every timestamp line, each timestamp line
      is either emitted or still pending: none is lost. */
  lemma {:induction false} RunCountsTimestamps(p: ParserState, lines: seq<string>)
    requires Run(p, lines).Success? && TextFollowsTimestamps(lines)
    requires p.timestamp != "" ==> p.pending != []
    ensures var q := Run(p, lines).value;
      && (q.timestamp != "" ==> q.pending != [])
      && |q.segments| + Open(q) == |p.segments| + Open(p) + TimestampLines(lines)
    decreases |lines|
  {
    if lines != [] {
      var q1 := Step(p, lines[0]).value;
      assert Run(p, lines) == Run(q1, lines[1..]);
      if IsTimestampLine(lines[0]) {
        assert IsTextLine(lines[1]);
        StepTimestampCounts(p, lines[0]);
        var q2 := q1.(pending := q1.pending + [Strip(lines[1])]);
        StepText(q1, lines[1]);
        assert lines[1..][0] == lines[1] && lines[1..][1..] == lines[2..];
        assert Run(q1, lines[1..]) == Run(q2, lines[2..]);
        FollowsInSuffix(lines, 2);
        RunCountsTimestamps(q2, lines[2..]);
        assert !IsTimestampLine(lines[1]);
        assert TimestampLines(lines[1..]) == TimestampLines(lines[2..]);
      } else {
        assert |q1.segments| == |p.segments| && Open(q1) == Open(p);
        assert q1.timestamp != "" ==> q1.pending != [];
        FollowsInSuffix(lines, 1);
        RunCountsTimestamps(q1, lines[1..]);
      }
    }
  }

  /** A timestamp step with nothing lost: it emits a segment or opens a timestamp. */
  lemma StepTimestampCounts(p: ParserState, raw: string)
    requires IsTimestampLine(raw) && Step(p, raw).Success?
    requires p.timestamp != "" ==> p.pending != []
    ensures var q := Step(p, raw).value;
      q.timestamp == Strip(raw) && |q.segments| + Open(q) == |p.segments| + Open(p) + 1
  {
  }

  lemma FollowsInSuffix(lines: seq<string>, n: nat)
    requires n <= |lines| && TextFollowsTimestamps(lines)
    ensures TextFollowsTimestamps(lines[n..])
  {
    forall i | 0 <= i < |lines[n..]| && IsTimestampLine(lines[n..][i])
      ensures i + 1 < |lines[n..]| && IsTextLine(lines[n..][i + 1])
    {
      assert lines[n..][i] == lines[n + i];
    }
  }

  /** On a payload where caption text follows every timestamp line, there are
      exactly as many segments as timestamp lines: each pending segment is
      emitted at the next timestamp line or at the end. */
  lemma SegmentCountExact(lines: seq<string>)
    requires ParseSegments(lines).Success? && TextFollowsTimestamps(lines)
    ensures |ParseSegments(lines).value| == TimestampLines(lines)
  {
    RunCountsTimestamps(Start, lines);
    var q := Run(Start, lines).value;
    assert ParseSegments(lines) == Finish(q);
  }

  // ---------------------------------------------------------------------------
  // Payloads made of well-formed blocks
  // ---------------------------------------------------------------------------

  /** One SubRip block as the reader meets it: the skipped lines before it (the
      blank line that ends the previous block, the block number), its timestamp
      line and its caption text lines. */
  datatype SrtBlock = SrtBlock(head: seq<string>, timestamp: string, texts: seq<string>)

  predicate AllSkipped(lines: seq<string>) {
    forall k :: 0 <= k < |lines| ==> IsSkipped(Strip(lines[k]))
  }

  predicate AllText(lines: seq<string>) {
    forall k :: 0 <= k < |lines| ==> IsTextLine(lines[k])
  }

  /** A block whose timestamp line reads and which has at least one text line. */
  /** The block's timestamp line reads. */
  predicate Timed(b: SrtBlock) {
    ParseSrtTimestamp(Strip(b.timestamp)).Some?
  }

  predicate WellFormedBlock(b: SrtBlock) {
    && AllSkipped(b.head)
    && IsTimestampLine(b.timestamp)
    && Timed(b)
    && b.texts != []
    && AllText(b.texts)
  }

  predicate WellFormedBlocks(blocks: seq<SrtBlock>) {
    forall k :: 0 <= k < |blocks| ==> WellFormedBlock(blocks[k])
  }

  /** The lines of a run of blocks, in order. */
  function BlockLines(blocks: seq<SrtBlock>): seq<string>
  {
    if blocks == [] then []
    else blocks[0].head + [blocks[0].timestamp] + blocks[0].texts + BlockLines(blocks[1..])
  }

  /** The segment a block stands for: the times of its own timestamp line, and
      its text lines, stripped, joined by single spaces. */
  function BlockSegment(b: SrtBlock): Segment
    requires Timed(b)
  {
    var times := ParseSrtTimestamp(Strip(b.timestamp)).value;
    Segment(times.0, times.1, Join(Map(b.texts, Strip), " "))
  }

  /** Every block's timestamp line reads. */
  predicate AllTimed(blocks: seq<SrtBlock>) {
    forall k :: 0 <= k < |blocks| ==> Timed(blocks[k])
  }

  function BlockSegments(blocks: seq<SrtBlock>): (segments: seq<Segment>)
    requires AllTimed(blocks)
    ensures |segments| == |blocks|
    ensures forall k :: 0 <= k < |blocks| ==> segments[k] == BlockSegment(blocks[k])
  {
    seq(|blocks|, k requires 0 <= k < |blocks| => BlockSegment(blocks[k]))
  }

  lemma BlockSegmentsCons(blocks: seq<SrtBlock>)
    requires blocks != [] && AllTimed(blocks)
    ensures AllTimed(blocks[1..])
    ensures BlockSegments(blocks) == [BlockSegment(blocks[0])] + BlockSegments(blocks[1..])
  {
    var all := BlockSegments(blocks);
    var rest := BlockSegments(blocks[1..]);
    forall k | 0 <= k < |rest|
      ensures all[k + 1] == rest[k]
    {
      assert blocks[1..][k] == blocks[k + 1];
    }
    ConsOfShifted(all, all[0], rest);
  }

  /** A payload of well-formed blocks, with any blank lines after the last one,
      reads as one segment per block in block order: segment `k` has the times
      of block `k`'s timestamp line and its text lines, stripped, joined by
      single spaces. */
  lemma WellFormedPayloadSegments(blocks: seq<SrtBlock>, tail: seq<string>)
    requires WellFormedBlocks(blocks) && AllSkipped(tail)
    ensures ParseSegments(BlockLines(blocks) + tail) == Success(BlockSegments(blocks))
    ensures var segments := ParseSegments(BlockLines(blocks) + tail).value;
      |segments| == |blocks| && forall k :: 0 <= k < |blocks| ==> segments[k] == BlockSegment(blocks[k])
  {
    if blocks == [] {
      SkippedOnly(Start, tail);
      ParseAfterRun(BlockLines(blocks) + tail, Start);
    } else {
      var b := blocks[0];
      var more := BlockLines(blocks[1..]) + tail;
      BlockLinesCons(blocks, tail);
      RunSkippedLines(Start, b.head, [b.timestamp] + b.texts + more);
      BlockOpens(Start, b.timestamp, b.texts, more);
      var q := ParserState(Strip(b.timestamp), Map(b.texts, Strip), []);
      var times := ParseSrtTimestamp(Strip(b.timestamp)).value;
      BlocksInSuffix(blocks);
      ReadyThenBlocks(q, blocks[1..], tail, times.0, times.1);
      var r := Run(q, more).value;
      assert Run(Start, BlockLines(blocks) + tail) == Success(r);
      ParseAfterRun(BlockLines(blocks) + tail, r);
      BlockSegmentsCons(blocks);
      Pair(BlockSegment(b), BlockSegment(b));
    }
  }

  /** From a state with text pending under a readable timestamp line, a run of
      well-formed blocks emits the pending segment and then one segment per
      block, the last one at the final flush. */
  lemma {:induction false} ReadyThenBlocks(p: ParserState, blocks: seq<SrtBlock>, tail: seq<string>, start: nat, end: nat)
    requires p.timestamp != "" && p.pending != [] && ParseSrtTimestamp(p.timestamp) == Some((start, end))
    requires WellFormedBlocks(blocks) && AllSkipped(tail)
    ensures Run(p, BlockLines(blocks) + tail).Success?
    ensures Finish(Run(p, BlockLines(blocks) + tail).value)
         == Success(p.segments + [Segment(start, end, Join(p.pending, " "))] + BlockSegments(blocks))
    decreases |blocks|
  {
    var seg := Segment(start, end, Join(p.pending, " "));
    if blocks == [] {
      SkippedOnly(p, tail);
      assert MakeSegment(p.timestamp, p.pending) == Success(seg);
      FinishFlush(p, seg);
      AppendEmpty(BlockSegments(blocks), p.segments + [seg]);
    } else {
      var b := blocks[0];
      var more := BlockLines(blocks[1..]) + tail;
      BlockLinesCons(blocks, tail);
      RunSkippedLines(p, b.head, [b.timestamp] + b.texts + more);
      BlockClosesPending(p, b.timestamp, b.texts, more, start, end);
      var q := ParserState(Strip(b.timestamp), Map(b.texts, Strip), p.segments + [seg]);
      var times := ParseSrtTimestamp(Strip(b.timestamp)).value;
      BlocksInSuffix(blocks);
      ReadyThenBlocks(q, blocks[1..], tail, times.0, times.1);
      BlockSegmentsCons(blocks);
      assert Segment(times.0, times.1, Join(q.pending, " ")) == BlockSegment(b);
      AssocRight(p.segments + [seg], [BlockSegment(b)], BlockSegments(blocks[1..]));
    }
  }

  /** A timestamp line closes the pending segment, with the times of the pending
      timestamp and the pending lines joined by single spaces; the text lines
      after it become the new pending text. */
  lemma BlockClosesPending(p: ParserState, timestamp: string, texts: seq<string>, rest: seq<string>, start: nat, end: nat)
    requires p.timestamp != "" && p.pending != [] && ParseSrtTimestamp(p.timestamp) == Some((start, end))
    requires IsTimestampLine(timestamp) && AllText(texts)
    ensures Run(p, [timestamp] + texts + rest)
         == Run(ParserState(Strip(timestamp), Map(texts, Strip), p.segments + [Segment(start, end, Join(p.pending, " "))]), rest)
  {
    var q := ParserState(Strip(timestamp), [], p.segments + [Segment(start, end, Join(p.pending, " "))]);
    StepCloses(p, timestamp, start, end);
    AssocRight([timestamp], texts, rest);
    RunCons(p, timestamp, texts + rest, q);
    RunTextLines(q, texts, rest);
    AppendEmpty(q.pending, Map(texts, Strip));
  }

  lemma StepCloses(p: ParserState, timestamp: string, start: nat, end: nat)
    requires p.timestamp != "" && p.pending != [] && ParseSrtTimestamp(p.timestamp) == Some((start, end))
    requires IsTimestampLine(timestamp)
    ensures Step(p, timestamp) == Success(ParserState(Strip(timestamp), [], p.segments + [Segment(start, end, Join(p.pending, " "))]))
  {
    assert MakeSegment(p.timestamp, p.pending) == Success(Segment(start, end, Join(p.pending, " ")));
  }

  /** The first timestamp line, with nothing pending, opens a segment whose
      pending text is the text lines after it. */
  lemma BlockOpens(p: ParserState, timestamp: string, texts: seq<string>, rest: seq<string>)
    requires p.pending == [] && IsTimestampLine(timestamp) && AllText(texts)
    ensures Run(p, [timestamp] + texts + rest)
         == Run(ParserState(Strip(timestamp), Map(texts, Strip), p.segments), rest)
  {
    var q := p.(timestamp := Strip(timestamp));
    StepTimestamp(p, timestamp);
    AssocRight([timestamp], texts, rest);
    RunCons(p, timestamp, texts + rest, q);
    RunTextLines(q, texts, rest);
    AppendEmpty(q.pending, Map(texts, Strip));
  }

  /** Skipped lines change nothing. */
  lemma {:induction false} RunSkippedLines(p: ParserState, skipped: seq<string>, rest: seq<string>)
    requires AllSkipped(skipped)
    ensures Run(p, skipped + rest) == Run(p, rest)
    decreases |skipped|
  {
    if skipped == [] {
      AppendEmpty(skipped, rest);
    } else {
      assert Step(p, skipped[0]) == Success(p);
      ConsSplit(skipped, rest);
      RunCons(p, skipped[0], skipped[1..] + rest, p);
      assert AllSkipped(skipped[1..]) by {
        forall k | 0 <= k < |skipped[1..]| ensures IsSkipped(Strip(skipped[1..][k])) {
          assert skipped[1..][k] == skipped[k + 1];
        }
      }
      RunSkippedLines(p, skipped[1..], rest);
    }
  }

  lemma SkippedOnly(p: ParserState, tail: seq<string>)
    requires AllSkipped(tail)
    ensures Run(p, BlockLines([]) + tail) == Success(p)
  {
    AppendEmpty(BlockLines([]), tail);
    AppendEmpty([], tail);
    RunSkippedLines(p, tail, []);
  }

  lemma BlockLinesCons(blocks: seq<SrtBlock>, tail: seq<string>)
    requires blocks != []
    ensures BlockLines(blocks) + tail
         == blocks[0].head + ([blocks[0].timestamp] + blocks[0].texts + (BlockLines(blocks[1..]) + tail))
  {
    var b := blocks[0];
    GroupLines(b.head, [b.timestamp], b.texts, BlockLines(blocks[1..]), tail);
  }

  lemma GroupLines<T>(a: seq<T>, b: seq<T>, c: seq<T>, d: seq<T>, e: seq<T>)
    ensures a + b + c + d + e == a + (b + c + (d + e))
  {
  }

  lemma BlocksInSuffix(blocks: seq<SrtBlock>)
    requires blocks != [] && WellFormedBlocks(blocks)
    ensures WellFormedBlock(blocks[0]) && WellFormedBlocks(blocks[1..])
    ensures Strip(blocks[0].timestamp) != "" && Map(blocks[0].texts, Strip) != []
  {
    assert WellFormedBlock(blocks[0]);
    forall k | 0 <= k < |blocks[1..]| ensures WellFormedBlock(blocks[1..][k]) {
      assert blocks[1..][k] == blocks[k + 1];
    }
  }

  /** A timestamp line `h:m:s,fff --> h:m:s,fff` of digit fields is taken for a
      timestamp line as it stands, and reads. */
  lemma SrtLineReads(h1: string, m1: string, s1: string, f1: string,
                     h2: string, m2: string, s2: string, f2: string)
    requires IsDigits(h1) && IsDigits(m1) && IsDigits(s1) && IsDigits(f1) && |f1| == 3
    requires IsDigits(h2) && IsDigits(m2) && IsDigits(s2) && IsDigits(f2) && |f2| == 3
    ensures var line := SrtClock(h1, m1, s1, f1) + " --> " + SrtClock(h2, m2, s2, f2);
      && Strip(line) == line && IsTimestampLine(line)
      && ParseSrtTimestamp(Strip(line)) == Some((Millis(h1, m1, s1, f1), Millis(h2, m2, s2, f2)))
  {
    ClockEnds(h1, m1, s1, f1);
    ClockEnds(h2, m2, s2, f2);
    ArrowLine(SrtClock(h1, m1, s1, f1), SrtClock(h2, m2, s2, f2));
    SrtTimestampReads(h1, m1, s1, f1, h2, m2, s2, f2);
  }

  lemma ClockEnds(h: string, m: string, s: string, f: string)
    requires IsDigits(h) && IsDigits(f)
    ensures var c := SrtClock(h, m, s, f); c != [] && !IsSpace(c[0]) && !IsSpace(c[|c| - 1])
  {
    var c := SrtClock(h, m, s, f);
    assert c == h + (":" + m + ":" + s + ",") + f;
    assert c[0] == h[0] && c[|c| - 1] == f[|f| - 1];
  }

  /** A line `x --> y` with no surrounding space is a timestamp line as it stands. */
  lemma ArrowLine(x: string, y: string)
    requires x != [] && y != [] && !IsSpace(x[0]) && !IsSpace(y[|y| - 1])
    ensures Strip(x + " --> " + y) == x + " --> " + y && IsTimestampLine(x + " --> " + y)
  {
    ArrowLineClean(x, y);
    ArrowLineTimestamp(x, y);
  }

  lemma ArrowLineTimestamp(x: string, y: string)
    requires Clean(x + " --> " + y)
    ensures IsTimestampLine(x + " --> " + y)
  {
    ArrowInLine(x, y);
    ArrowMakesTimestampLine(x + " --> " + y, |x| + 1);
  }

  /** A line with no surrounding space that holds "-->" is a timestamp line. */
  lemma ArrowMakesTimestampLine(line: string, k: nat)
    requires Clean(line) && Contains(line, "-->") && k < |line| && line[k] == '-'
    ensures IsTimestampLine(line)
  {
    StripClean(line);
    NotAllDigits(line, k);
  }

  lemma ArrowLineClean(x: string, y: string)
    requires x != [] && y != [] && !IsSpace(x[0]) && !IsSpace(y[|y| - 1])
    ensures Clean(x + " --> " + y) && Strip(x + " --> " + y) == x + " --> " + y
  {
    var line := x + " --> " + y;
    assert line == x + (" --> " + y);
    assert line[0] == x[0] && line[|line| - 1] == y[|y| - 1];
    StripClean(line);
  }

  lemma ArrowInLine(x: string, y: string)
    ensures Contains(x + " --> " + y, "-->")
    ensures (x + " --> " + y)[|x| + 1] == '-'
  {
    ArrowParts();
    SurroundMiddle(x, " ", "-->", " ", y);
    MiddleSlice(x + " ", "-->", " " + y);
    AtContains(x + " --> " + y, "-->", |x| + 1);
  }

  lemma ArrowParts()
    ensures " --> " == " " + "-->" + " "
  {
  }

  lemma SurroundMiddle<T>(x: seq<T>, a: seq<T>, b: seq<T>, c: seq<T>, y: seq<T>)
    ensures x + (a + b + c) + y == (x + a) + b + (c + y)
  {
  }

  lemma MiddleSlice(a: string, b: string, c: string)
    ensures (a + b + c)[|a|..|a| + |b|] == b
  {
  }

  /** A line with no surrounding space, not all digits and without a `-` is
      caption text as it stands. */
  lemma PlainTextLine(t: string)
    requires Clean(t) && !IsDigits(t) && '-' !in t
    ensures Strip(t) == t && IsTextLine(t)
  {
    StripClean(t);
    IndexOfAbsent(t, "-->");
  }

  /** Two blocks, each a number line, a timestamp line and one line of text,
      with a blank line between them and at the end, read as two segments, in
      order, each with its own times and text. */
  lemma TwoBlocks(n1: string, ts1: string, t1: string, n2: string, ts2: string, t2: string,
                  times1: (int, int), times2: (int, int))
    requires IsSkipped(Strip(n1)) && IsSkipped(Strip(n2))
    requires Strip(ts1) == ts1 && IsTimestampLine(ts1) && ParseSrtTimestamp(ts1) == Some(times1)
    requires Strip(ts2) == ts2 && IsTimestampLine(ts2) && ParseSrtTimestamp(ts2) == Some(times2)
    requires Strip(t1) == t1 && t1 != [] && IsTextLine(t1)
    requires Strip(t2) == t2 && t2 != [] && IsTextLine(t2)
    ensures ParseSegments([n1, ts1, t1, "", n2, ts2, t2, ""])
         == Success([Segment(times1.0, times1.1, t1), Segment(times2.0, times2.1, t2)])
  {
    BlankLineSkipped();
    SkippedOne(n1);
    SkippedPair("", n2);
    OneTextBlock([n1], ts1, t1, times1);
    OneTextBlock(["", n2], ts2, t2, times2);
    TwoWellFormedBlocks(SrtBlock([n1], ts1, [t1]), SrtBlock(["", n2], ts2, [t2]));
  }

  /** A block with one line of clean caption text is well formed and makes a
      segment of that text. */
  lemma OneTextBlock(head: seq<string>, timestamp: string, text: string, times: (int, int))
    requires AllSkipped(head)
    requires Strip(timestamp) == timestamp && IsTimestampLine(timestamp)
    requires ParseSrtTimestamp(timestamp) == Some(times)
    requires Strip(text) == text && text != [] && IsTextLine(text)
    ensures WellFormedBlock(SrtBlock(head, timestamp, [text]))
    ensures BlockSegment(SrtBlock(head, timestamp, [text])) == Segment(times.0, times.1, text)
  {
    TextOne(text);
    SingleTextSegment(SrtBlock(head, timestamp, [text]), times);
  }

  lemma TwoWellFormedBlocks(b1: SrtBlock, b2: SrtBlock)
    requires WellFormedBlock(b1) && WellFormedBlock(b2)
    requires |b1.head| == 1 && |b2.head| == 2 && |b1.texts| == 1 && |b2.texts| == 1
    requires b2.head[0] == ""
    ensures ParseSegments([b1.head[0], b1.timestamp, b1.texts[0], b2.head[0], b2.head[1], b2.timestamp, b2.texts[0], ""])
         == Success([BlockSegment(b1), BlockSegment(b2)])
  {
    PairPayload(b1, b2);
    TwoBlockLines(b1, b2);
    PairSegments(b1, b2);
  }

  lemma PairPayload(b1: SrtBlock, b2: SrtBlock)
    requires WellFormedBlock(b1) && WellFormedBlock(b2)
    ensures AllTimed([b1, b2])
    ensures ParseSegments(BlockLines([b1, b2]) + [""]) == Success(BlockSegments([b1, b2]))
  {
    BlankLineSkipped();
    SkippedOne("");
    WellFormedPair(b1, b2);
    BothHold(Timed, b1, b2);
    WellFormedPayloadSegments([b1, b2], [""]);
  }

  lemma PairSegments(b1: SrtBlock, b2: SrtBlock)
    requires Timed(b1) && Timed(b2)
    ensures AllTimed([b1, b2])
    ensures BlockSegments([b1, b2]) == [BlockSegment(b1), BlockSegment(b2)]
  {
    BothHold(Timed, b1, b2);
    TwoElements(BlockSegments([b1, b2]), BlockSegment(b1), BlockSegment(b2));
  }

  lemma WellFormedPair(b1: SrtBlock, b2: SrtBlock)
    requires WellFormedBlock(b1) && WellFormedBlock(b2)
    ensures WellFormedBlocks([b1, b2])
  {
    BothHold(WellFormedBlock, b1, b2);
  }

  /** A block with one line of clean text makes a segment of that text. */
  lemma SingleTextSegment(b: SrtBlock, times: (int, int))
    requires ParseSrtTimestamp(Strip(b.timestamp)) == Some(times)
    requires |b.texts| == 1 && Strip(b.texts[0]) == b.texts[0]
    ensures BlockSegment(b) == Segment(times.0, times.1, b.texts[0])
  {
    assert Map(b.texts, Strip) == [b.texts[0]];
  }

  lemma TwoBlockLines(b1: SrtBlock, b2: SrtBlock)
    requires |b1.head| == 1 && |b2.head| == 2 && |b1.texts| == 1 && |b2.texts| == 1
    ensures BlockLines([b1, b2]) + [""]
         == [b1.head[0], b1.timestamp, b1.texts[0], b2.head[0], b2.head[1], b2.timestamp, b2.texts[0], ""]
  {
    assert [b1, b2][1..] == [b2] && [b2][1..] == [];
    assert BlockLines([b2]) == b2.head + [b2.timestamp] + b2.texts + BlockLines([]);
    assert BlockLines([b1, b2]) == b1.head + [b1.timestamp] + b1.texts + BlockLines([b2]);
  }

  lemma TextOne(t: string)
    requires IsTextLine(t)
    ensures AllText([t])
  {
    var lines := [t];
    forall k | 0 <= k < |lines|
      ensures IsTextLine(lines[k])
    {
      assert lines[k] == t;
    }
  }

  /** The payload `1`, `00:00:00,000 --> 00:00:02,500`, `Hello world`, blank,
      `2`, `00:00:02,500 --> 00:00:05,000`, `Goodbye`, blank reads as two
      segments: 0 to 2500 ms "Hello world", then 2500 to 5000 ms "Goodbye". */
  lemma TwoBlockPayload()
    ensures ParseSegments(["1", "00:00:00,000 --> 00:00:02,500", "Hello world", "",
                           "2", "00:00:02,500 --> 00:00:05,000", "Goodbye", ""])
         == Success([Segment(0, 2500, "Hello world"), Segment(2500, 5000, "Goodbye")])
  {
    DigitLineSkipped('1');
    DigitLineSkipped('2');
    FirstExampleTimestamp();
    SecondExampleTimestamp();
    FirstExampleText();
    SecondExampleText();
    TwoBlocks("1", "00:00:00,000 --> 00:00:02,500", "Hello world",
              "2", "00:00:02,500 --> 00:00:05,000", "Goodbye", (0, 2500), (2500, 5000));
  }

  lemma FirstExampleTimestamp()
    ensures var line := "00:00:00,000 --> 00:00:02,500";
      Strip(line) == line && IsTimestampLine(line) && ParseSrtTimestamp(line) == Some((0, 2500))
  {
    SrtLineReads("00", "00", "00", "000", "00", "00", "02", "500");
    ExampleTimes();
    ExampleClocks();
    FirstExampleArrow();
  }

  lemma SecondExampleTimestamp()
    ensures var line := "00:00:02,500 --> 00:00:05,000";
      Strip(line) == line && IsTimestampLine(line) && ParseSrtTimestamp(line) == Some((2500, 5000))
  {
    SrtLineReads("00", "00", "02", "500", "00", "00", "05", "000");
    ExampleTimes();
    ExampleClocks();
    SecondExampleArrow();
  }

  lemma ExampleClocks()
    ensures SrtClock("00", "00", "00", "000") == "00:00:00,000"
    ensures SrtClock("00", "00", "02", "500") == "00:00:02,500"
    ensures SrtClock("00", "00", "05", "000") == "00:00:05,000"
  {
  }

  lemma FirstExampleArrow()
    ensures "00:00:00,000" + " --> " + "00:00:02,500" == "00:00:00,000 --> 00:00:02,500"
  {
  }

  lemma SecondExampleArrow()
    ensures "00:00:02,500" + " --> " + "00:00:05,000" == "00:00:02,500 --> 00:00:05,000"
  {
  }

  lemma FirstExampleText()
    ensures Strip("Hello world") == "Hello world" && IsTextLine("Hello world")
  {
    PlainTextLine("Hello world");
  }

  lemma SecondExampleText()
    ensures Strip("Goodbye") == "Goodbye" && IsTextLine("Goodbye")
  {
    PlainTextLine("Goodbye");
  }

  lemma ExampleTimes()
    ensures Millis("00", "00", "00", "000") == 0
    ensures Millis("00", "00", "02", "500") == 2500
    ensures Millis("00", "00", "05", "000") == 5000
  {
    assert "0"[..0] == "" && "5"[..0] == "";
    assert DigitsValue("0") == 0 && DigitsValue("5") == 5;
    assert "00"[..1] == "0" && "02"[..1] == "0" && "05"[..1] == "0" && "50"[..1] == "5";
    assert DigitsValue("00") == 0 && DigitsValue("02") == 2 && DigitsValue("05") == 5 && DigitsValue("50") == 50;
    assert "000"[..2] == "00" && "500"[..2] == "50";
    assert DigitsValue("000") == 0 && DigitsValue("500") == 500;
  }

  lemma BlankLineSkipped()
    ensures IsSkipped(Strip(""))
  {
    assert TrimStart("") == "";
  }

  lemma SkippedOne(a: string)
    requires IsSkipped(Strip(a))
    ensures AllSkipped([a])
  {
    var lines := [a];
    forall k | 0 <= k < |lines|
      ensures IsSkipped(Strip(lines[k]))
    {
      assert lines[k] == a;
    }
  }

  lemma SkippedPair(a: string, b: string)
    requires IsSkipped(Strip(a)) && IsSkipped(Strip(b))
    ensures AllSkipped([a, b])
  {
    var lines := [a, b];
    forall k | 0 <= k < |lines|
      ensures IsSkipped(Strip(lines[k]))
    {
      if k == 0 {
        assert lines[k] == a;
      } else {
        assert lines[k] == b;
      }
    }
  }

  lemma DigitLineSkipped(c: char)
    requires IsDigit(c)
    ensures IsSkipped(Strip([c]))
  {
    assert IsDigits([c]);
    StripClean([c]);
  }

  function Texts(segments: seq<Segment>): (texts: seq<string>)
    ensures |texts| == |segments|
    ensures forall k :: 0 <= k < |segments| ==> texts[k] == segments[k].text
  {
    if segments == [] then [] else Texts(segments[..|segments| - 1]) + [segments[|segments| - 1].text]
  }

  /** One `[start - end] text` block of the `formatted` listing. */
  function Block(seg: Segment): string
  {
    "[" + FormatTime(seg.startMs) + " - " + FormatTime(seg.endMs) + "] " + seg.text
  }

  /** The `formatted_segments` list: one block per segment, in order. */
  function Blocks(segments: seq<Segment>): (blocks: seq<string>)
    ensures |blocks| == |segments|
    ensures forall k :: 0 <= k < |segments| ==> blocks[k] == Block(segments[k])
  {
    Map(segments, Block)
  }

  /** No pending line and no segment text holds a line feed. */
  predicate OneLineState(p: ParserState) {
    && (forall k :: 0 <= k < |p.pending| ==> '\n' !in p.pending[k])
    && (forall k :: 0 <= k < |p.segments| ==> '\n' !in p.segments[k].text)
  }

  /** Lines without a line feed give pending lines and segment texts without one. */
  lemma {:induction false} RunKeepsOneLine(p: ParserState, lines: seq<string>)
    requires OneLineState(p) && Run(p, lines).Success?
    requires forall k :: 0 <= k < |lines| ==> '\n' !in lines[k]
    ensures OneLineState(Run(p, lines).value)
    decreases |lines|
  {
    if lines != [] {
      StepKeepsOneLine(p, lines[0]);
      RunKeepsOneLine(Step(p, lines[0]).value, lines[1..]);
    }
  }

  lemma StepKeepsOneLine(p: ParserState, raw: string)
    requires OneLineState(p) && Step(p, raw).Success? && '\n' !in raw
    ensures OneLineState(Step(p, raw).value)
  {
    var line := Strip(raw);
    if IsSkipped(line) {
      assert Step(p, raw) == Success(p);
    } else if Contains(line, "-->") {
      if p.pending != [] && p.timestamp != "" {
        var seg := MakeSegment(p.timestamp, p.pending).value;
        assert Step(p, raw) == Success(ParserState(line, [], p.segments + [seg]));
        FlushOneLine(p, seg);
      } else {
        assert Step(p, raw) == Success(p.(timestamp := line));
      }
    } else {
      assert Step(p, raw) == Success(p.(pending := p.pending + [line]));
      StripAvoids(raw, '\n');
      SnocOneLine(p.pending, line);
    }
  }

  lemma FlushOneLine(p: ParserState, seg: Segment)
    requires OneLineState(p) && p.pending != []
    requires seg.text == Join(p.pending, " ")
    ensures forall k :: 0 <= k < |p.segments + [seg]| ==> '\n' !in (p.segments + [seg])[k].text
  {
    JoinAvoids(p.pending, " ", '\n');
  }

  lemma SnocOneLine(pending: seq<string>, line: string)
    requires forall k :: 0 <= k < |pending| ==> '\n' !in pending[k]
    requires '\n' !in line
    ensures forall k :: 0 <= k < |pending + [line]| ==> '\n' !in (pending + [line])[k]
  {
  }

  lemma FinishKeepsOneLine(p: ParserState)
    requires OneLineState(p) && Finish(p).Success?
    ensures forall k :: 0 <= k < |Finish(p).value| ==> '\n' !in Finish(p).value[k].text
  {
    if p.pending != [] {
      JoinAvoids(p.pending, " ", '\n');
    }
  }

  /** The segment texts of a payload split on line feeds hold no line feed. */
  lemma ParsedTextsOneLine(payload: string)
    requires ParseSegments(Split(payload, "\n")).Success?
    ensures var segments := ParseSegments(Split(payload, "\n")).value;
      forall k :: 0 <= k < |segments| ==> '\n' !in segments[k].text
  {
    var lines := Split(payload, "\n");
    assert "\n" == ['\n'];
    SplitAvoids(payload, '\n');
    assert OneLineState(Start);
    RunKeepsOneLine(Start, lines);
    var p := Run(Start, lines).value;
    assert ParseSegments(lines) == Finish(p);
    FinishKeepsOneLine(p);
  }

  lemma BlockOneLine(seg: Segment)
    requires '\n' !in seg.text
    ensures '\n' !in Block(seg)
  {
    TimeOneLine(seg.startMs);
    TimeOneLine(seg.endMs);
    assert '\n' !in "[" && '\n' !in " - " && '\n' !in "] ";
    SixAvoid("[", FormatTime(seg.startMs), " - ", FormatTime(seg.endMs), "] ", seg.text, '\n');
  }

  lemma SixAvoid(a: string, b: string, c: string, d: string, e: string, f: string, x: char)
    requires x !in a && x !in b && x !in c && x !in d && x !in e && x !in f
    ensures x !in a + b + c + d + e + f
  {
  }

  lemma TimeOneLine(ms: nat)
    ensures '\n' !in FormatTime(ms)
  {
    var hms := Hms(ms / 1000);
    DigitsAvoid(Pad2(hms.0), '\n');
    DigitsAvoid(Pad2(hms.1), '\n');
    DigitsAvoid(Pad2(hms.2), '\n');
  }

  /** The `formatted` string splits on blank lines back into its blocks, when
      no segment text holds a line feed. */
  lemma FormattedSplitsIntoBlocks(segments: seq<Segment>)
    requires segments != []
    requires forall k :: 0 <= k < |segments| ==> '\n' !in segments[k].text
    ensures Split(Join(Blocks(segments), "\n\n"), "\n\n") == Blocks(segments)
  {
    var blocks := Blocks(segments);
    forall k | 0 <= k < |blocks|
      ensures '\n' !in blocks[k]
    {
      BlockOneLine(segments[k]);
    }
    assert "\n\n"[0] == '\n';
    SplitJoinSep(blocks, "\n\n");
  }

  /** The `formatted` string of a read payload splits on blank lines back into
      one block per segment. */
  lemma FormattedBlocks(payload: string)
    requires ParseSegments(Split(payload, "\n")).Success?
    requires ParseSegments(Split(payload, "\n")).value != []
    ensures var segments := ParseSegments(Split(payload, "\n")).value;
      Split(Join(Blocks(segments), "\n\n"), "\n\n") == Blocks(segments)
  {
    ParsedTextsOneLine(payload);
    FormattedSplitsIntoBlocks(ParseSegments(Split(payload, "\n")).value);
  }

  predicate AllClean(parts: seq<string>) {
    forall k :: 0 <= k < |parts| ==> Clean(parts[k])
  }

  lemma AllCleanSnoc(parts: seq<string>, last: string)
    requires AllClean(parts) && Clean(last)
    ensures AllClean(parts + [last])
  {
  }

  /** What `full_text` holds inside the loop: every emitted text followed by a space. */
  ghost function Accumulated(segments: seq<Segment>): string
  {
    if segments == [] then "" else Join(Texts(segments), " ") + " "
  }

  lemma AccumulatedSnoc(segments: seq<Segment>, seg: Segment)
    ensures Texts(segments + [seg]) == Texts(segments) + [seg.text]
    ensures Accumulated(segments + [seg]) == Accumulated(segments) + seg.text + " "
    ensures Join(Texts(segments + [seg]), " ") == Accumulated(segments) + seg.text
  {
    assert (segments + [seg])[..|segments|] == segments;
    if segments != [] {
      JoinSnoc(Texts(segments), " ", seg.text);
    }
  }

  /** `full_text.strip()` after the loop: the emitted texts joined by one space. */
  lemma AccumulatedStrips(segments: seq<Segment>)
    requires AllClean(Texts(segments))
    ensures Strip(Accumulated(segments)) == Join(Texts(segments), " ")
  {
    if segments != [] {
      JoinClean(Texts(segments));
      StripClean(Join(Texts(segments), " "));
    }
  }

  /** The loop over the payload's lines and the flush after it, with the
      accumulators `current_timestamp`, `current_text`, `segments` and
      `full_text`; the result carries the segments and `full_text.strip()`. */
  method ReadSegments(lines: seq<string>) returns (r: Result<(seq<Segment>, string), TranscriptError>)
    ensures r.Success? <==> ParseSegments(lines).Success?
    ensures r.Failure? ==> r.error == ParseSegments(lines).error
    ensures r.Success? ==>
      r.value.0 == ParseSegments(lines).value && r.value.1 == Join(Texts(r.value.0), " ")
  {
    var segments: seq<Segment> := [];
    var fullText := "";
    var currentTimestamp := "";
    var currentText: seq<string> := [];
    var i := 0;
    while i < |lines|
      invariant 0 <= i <= |lines|
      invariant Run(Start, lines) == Run(ParserState(currentTimestamp, currentText, segments), lines[i..])
      invariant AllClean(currentText) && AllClean(Texts(segments))
      invariant fullText == Accumulated(segments)
    {
      ghost var before := ParserState(currentTimestamp, currentText, segments);
      assert lines[i..][0] == lines[i] && lines[i..][1..] == lines[i + 1..];
      var line := Strip(lines[i]);
      if line == [] || IsDigits(line) {
        i := i + 1;
        continue;
      }
      if Contains(line, "-->") {
        if currentText != [] && currentTimestamp != "" {
          var text := Join(currentText, " ");
          var times := ParseSrtTimestamp(currentTimestamp);
          if times.None? {
            return Failure(MalformedTimestamp(currentTimestamp));
          }
          JoinClean(currentText);
          var seg := Segment(times.value.0, times.value.1, text);
          AccumulatedSnoc(segments, seg);
          AllCleanSnoc(Texts(segments), text);
          segments := segments + [seg];
          fullText := fullText + text + " ";
          currentText := [];
        }
        currentTimestamp := line;
      } else {
        AllCleanSnoc(currentText, line);
        currentText := currentText + [line];
      }
      assert Step(before, lines[i]) == Success(ParserState(currentTimestamp, currentText, segments));
      i := i + 1;
    }
    if currentText != [] && currentTimestamp != "" {
      var text := Join(currentText, " ");
      var times := ParseSrtTimestamp(currentTimestamp);
      if times.None? {
        return Failure(MalformedTimestamp(currentTimestamp));
      }
      JoinClean(currentText);
      var seg := Segment(times.value.0, times.value.1, text);
      AccumulatedSnoc(segments, seg);
      segments := segments + [seg];
      fullText := fullText + text;
      StripClean(fullText);
    } else {
      AccumulatedStrips(segments);
    }
    r := Success((segments, Strip(fullText)));
  }

  /** The transcript part of `get_transcript` once the payload is downloaded. */
  method ParseTranscript(payload: string, language: string) returns (r: Result<Transcript, TranscriptError>)
    ensures var expected := ParseSegments(Split(payload, "\n"));
      r.Success? <==> expected.Success?
    ensures r.Failure? ==> r.error == ParseSegments(Split(payload, "\n")).error
    ensures r.Success? ==>
      && r.value.segments == ParseSegments(Split(payload, "\n")).value
      && r.value.full == Join(Texts(r.value.segments), " ")
      && r.value.formatted == Join(Blocks(r.value.segments), "\n\n")
      && (r.value.segments != [] ==> Split(r.value.formatted, "\n\n") == Blocks(r.value.segments))
      && r.value.language == language
  {
    var read := ReadSegments(Split(payload, "\n"));
    if read.Failure? {
      return Failure(read.error);
    }
    var (segments, full) := read.value;
    if segments != [] {
      FormattedBlocks(payload);
    }
    r := Success(Transcript(full, Join(Blocks(segments), "\n\n"), segments, language));
  }

  /** `get_transcript` from the caption listing on: choose a track, download its
      payload (`download` stands for the remote call, by caption id) and read it. */
  method GetTranscript(items: seq<CaptionTrack>, download: string -> string) returns (r: Result<Transcript, TranscriptError>)
    ensures ChosenTrack(items).Failure? ==> r == Failure(ChosenTrack(items).error)
    ensures ChosenTrack(items).Success? ==>
      var track := ChosenTrack(items).value;
      var expected := ParseSegments(Split(download(track.id), "\n"));
      && (r.Success? <==> expected.Success?)
      && (r.Failure? ==> r.error == expected.error)
      && (r.Success? ==>
            && r.value.segments == expected.value
            && r.value.full == Join(Texts(r.value.segments), " ")
            && r.value.formatted == Join(Blocks(r.value.segments), "\n\n")
            && (r.value.segments != [] ==> Split(r.value.formatted, "\n\n") == Blocks(r.value.segments))
            && r.value.language == track.language)
  {
    var chosen := SelectCaptionTrack(items);
    if chosen.Failure? {
      return Failure(chosen.error);
    }
    var track := chosen.value;
    r := ParseTranscript(download(track.id), track.language);
  }
}
