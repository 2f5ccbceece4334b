/** The edit scripts of `api/google_docs.py`: the ordered requests that fill a
    new transcript document, the duration shown in its metadata, and the splice
    point and requests that add an analysis to an existing document.

    A document body is modelled by its text. A Docs index `i` is the character at
    string position `i - 1`; a new document is the single final newline "\n". */
module Documents {
  import opened Wrappers
  import opened Strings
  import opened Seqs
  import opened Clock

  // ---------------------------------------------------------------------------
  // format_duration
  // ---------------------------------------------------------------------------

  /** `format_duration`: "Hh Mm Ss" from one hour on, "Mm Ss" from one minute on, else "Ss". */
  function FormatDuration(seconds: int): (text: string)
  {
    var hms := Hms(seconds);
    if hms.0 > 0 then Word(hms.0, 'h') + " " + Word(hms.1, 'm') + " " + Word(hms.2, 's')
    else if hms.1 > 0 then Word(hms.1, 'm') + " " + Word(hms.2, 's')
    else Word(hms.2, 's')
  }

  /** A number followed by its unit letter, such as "20m". */
  function Word(n: nat, unit: char): (w: string)
    ensures IsWord(w, unit) && WordValue(w, unit) == n
  {
    var w := NatToString(n) + [unit];
    assert w[..|w| - 1] == NatToString(n);
    w
  }

  predicate IsWord(w: string, unit: char) {
    |w| >= 2 && w[|w| - 1] == unit && IsDigits(w[..|w| - 1])
  }

  function WordValue(w: string, unit: char): nat
    requires IsWord(w, unit)
  {
    DigitsValue(w[..|w| - 1])
  }

  /** Reading a rendered duration back: one, two or three space-separated words
      with the units h, m, s in that order. */
  function ReadDuration(text: string): Option<nat>
  {
    var words := Split(text, " ");
    if |words| == 3 && IsWord(words[0], 'h') && IsWord(words[1], 'm') && IsWord(words[2], 's') then
      Some(WordValue(words[0], 'h') * 3600 + WordValue(words[1], 'm') * 60 + WordValue(words[2], 's'))
    else if |words| == 2 && IsWord(words[0], 'm') && IsWord(words[1], 's') then
      Some(WordValue(words[0], 'm') * 60 + WordValue(words[1], 's'))
    else if |words| == 1 && IsWord(words[0], 's') then
      Some(WordValue(words[0], 's'))
    else None
  }

  lemma WordHasNoSpace(n: nat, unit: char)
    requires unit != ' '
    ensures ' ' !in Word(n, unit)
  {
    var w := Word(n, unit);
    var digits := w[..|w| - 1];
    forall i | 0 <= i < |w|
      ensures w[i] != ' '
    {
      if i < |w| - 1 {
        assert w[i] == digits[i];
      }
    }
  }

  lemma {:induction false} SplitWords(words: seq<string>)
    requires |words| >= 1
    requires forall k :: 0 <= k < |words| ==> ' ' !in words[k]
    ensures Split(Join(words, " "), " ") == words
  {
    assert " " == [' '];
    SplitJoin(words, ' ');
  }

  lemma ReadThreeWords(h: nat, m: nat, s: nat, total: nat)
    requires total == h * 3600 + m * 60 + s
    ensures ReadDuration(Word(h, 'h') + " " + Word(m, 'm') + " " + Word(s, 's')) == Some(total)
    ensures |Split(Word(h, 'h') + " " + Word(m, 'm') + " " + Word(s, 's'), " ")| == 3
  {
    WordHasNoSpace(h, 'h');
    WordHasNoSpace(m, 'm');
    WordHasNoSpace(s, 's');
    ReadThree(Word(h, 'h'), Word(m, 'm'), Word(s, 's'), total);
  }

  lemma ReadThree(x: string, y: string, z: string, total: nat)
    requires ' ' !in x && ' ' !in y && ' ' !in z
    requires IsWord(x, 'h') && IsWord(y, 'm') && IsWord(z, 's')
    requires total == WordValue(x, 'h') * 3600 + WordValue(y, 'm') * 60 + WordValue(z, 's')
    ensures ReadDuration(x + " " + y + " " + z) == Some(total)
    ensures |Split(x + " " + y + " " + z, " ")| == 3
  {
    SplitThree(x, y, z);
    ReadSplitThree(x + " " + y + " " + z, x, y, z);
  }

  lemma SplitThree(x: string, y: string, z: string)
    requires ' ' !in x && ' ' !in y && ' ' !in z
    ensures Split(x + " " + y + " " + z, " ") == [x, y, z]
  {
    var words: seq<string> := [x, y, z];
    assert words[1..] == [y, z] && words[1..][1..] == [z];
    assert Join(words[1..], " ") == y + " " + z;
    assert Join(words, " ") == x + " " + (y + " " + z);
    assert x + " " + (y + " " + z) == x + " " + y + " " + z;
    SplitWords(words);
  }

  lemma ReadSplitThree(text: string, x: string, y: string, z: string)
    requires Split(text, " ") == [x, y, z]
    requires IsWord(x, 'h') && IsWord(y, 'm') && IsWord(z, 's')
    ensures ReadDuration(text) == Some(WordValue(x, 'h') * 3600 + WordValue(y, 'm') * 60 + WordValue(z, 's'))
  {
  }

  lemma ReadTwoWords(m: nat, s: nat)
    ensures ReadDuration(Word(m, 'm') + " " + Word(s, 's')) == Some(m * 60 + s)
    ensures |Split(Word(m, 'm') + " " + Word(s, 's'), " ")| == 2
  {
    WordHasNoSpace(m, 'm');
    WordHasNoSpace(s, 's');
    ReadTwo(Word(m, 'm'), Word(s, 's'), m, s);
  }

  lemma ReadTwo(x: string, y: string, m: nat, s: nat)
    requires ' ' !in x && ' ' !in y
    requires IsWord(x, 'm') && IsWord(y, 's')
    requires WordValue(x, 'm') == m && WordValue(y, 's') == s
    ensures ReadDuration(x + " " + y) == Some(m * 60 + s)
    ensures |Split(x + " " + y, " ")| == 2
  {
    var words: seq<string> := [x, y];
    assert words[1..] == [y];
    assert Join(words, " ") == x + " " + y;
    SplitWords(words);
  }

  lemma ReadOneWord(s: nat)
    ensures ReadDuration(Word(s, 's')) == Some(s) && |Split(Word(s, 's'), " ")| == 1
  {
    var words: seq<string> := [Word(s, 's')];
    WordHasNoSpace(s, 's');
    SplitWords(words);
  }

  /** The rendering reads back as the number of seconds it was made from, and it
      has three words from one hour on, two from one minute on, one below. */
  lemma FormatDurationReadsBack(seconds: nat)
    ensures ReadDuration(FormatDuration(seconds)) == Some(seconds)
    ensures |Split(FormatDuration(seconds), " ")| == if seconds >= 3600 then 3 else if seconds >= 60 then 2 else 1
  {
    if seconds >= 3600 {
      HoursRenderingReadsBack(seconds);
    } else if seconds >= 60 {
      MinutesRenderingReadsBack(seconds);
    } else {
      SecondsRenderingReadsBack(seconds);
    }
  }

  lemma HoursRenderingReadsBack(seconds: nat)
    requires seconds >= 3600
    ensures ReadDuration(FormatDuration(seconds)) == Some(seconds)
    ensures |Split(FormatDuration(seconds), " ")| == 3
  {
    var hms := Hms(seconds);
    var h: nat, m, s := hms.0, hms.1, hms.2;
    assert h > 0;
    ReadThreeWords(h, m, s, seconds);
    assert FormatDuration(seconds) == Word(h, 'h') + " " + Word(m, 'm') + " " + Word(s, 's');
  }

  lemma MinutesRenderingReadsBack(seconds: nat)
    requires 60 <= seconds < 3600
    ensures ReadDuration(FormatDuration(seconds)) == Some(seconds)
    ensures |Split(FormatDuration(seconds), " ")| == 2
  {
    var hms := Hms(seconds);
    var m, s := hms.1, hms.2;
    assert hms.0 == 0 && m > 0;
    assert FormatDuration(seconds) == Word(m, 'm') + " " + Word(s, 's');
    ReadTwoWords(m, s);
  }

  lemma SecondsRenderingReadsBack(seconds: nat)
    requires seconds < 60
    ensures ReadDuration(FormatDuration(seconds)) == Some(seconds)
    ensures |Split(FormatDuration(seconds), " ")| == 1
  {
    var hms := Hms(seconds);
    assert hms == (0, 0, seconds);
    assert FormatDuration(seconds) == Word(seconds, 's');
    ReadOneWord(seconds);
  }

  // ---------------------------------------------------------------------------
  // Requests and their effect on the document text
  // ---------------------------------------------------------------------------

  datatype NamedStyle = Heading1 | Heading2

  /** The two kinds of batch-update request the core builds. Ranges are half-open. */
  datatype Request =
    | InsertText(index: int, text: string)
    | UpdateParagraphStyle(startIndex: int, endIndex: int, style: NamedStyle)

  /** One request on the body text. An insert at index `i` goes before the
      character at `i`, which must lie in the body (the final newline included);
      a paragraph style changes no text but its range must lie in the body. */
  function Apply(doc: string, r: Request): Option<string>
  {
    match r
    case InsertText(i, t) =>
      if 1 <= i <= |doc| then Some(doc[..i - 1] + t + doc[i - 1..]) else None
    case UpdateParagraphStyle(first, end, _) =>
      if 1 <= first < end <= |doc| + 1 then Some(doc) else None
  }

  /** A batch update: the requests in order; one rejected request rejects the batch. */
  function ApplyAll(doc: string, reqs: seq<Request>): Option<string>
    decreases |reqs|
  {
    if reqs == [] then Some(doc)
    else
      var next := Apply(doc, reqs[0]);
      if next.None? then None else ApplyAll(next.value, reqs[1..])
  }

  lemma {:induction false} ApplyAllAppend(doc: string, first: seq<Request>, second: seq<Request>)
    ensures ApplyAll(doc, first + second)
         == if ApplyAll(doc, first).Some? then ApplyAll(ApplyAll(doc, first).value, second) else None
    decreases |first|
  {
    if first == [] {
      assert first + second == second;
    } else {
      assert (first + second)[0] == first[0];
      assert (first + second)[1..] == first[1..] + second;
      var next := Apply(doc, first[0]);
      if next.Some? {
        ApplyAllAppend(next.value, first[1..], second);
      }
    }
  }

  /** Consecutive inserts, each one starting where the previous text ended. */
  function Inserts(texts: seq<string>, at: int): (reqs: seq<Request>)
    ensures |reqs| == |texts|
    decreases |texts|
  {
    if texts == [] then [] else [InsertText(at, texts[0])] + Inserts(texts[1..], at + |texts[0]|)
  }

  /** Chained inserts at the end of `prefix` lay their texts down in order. */
  lemma {:induction false} ApplyInserts(prefix: string, suffix: string, texts: seq<string>)
    requires suffix != []
    ensures ApplyAll(prefix + suffix, Inserts(texts, |prefix| + 1)) == Some(prefix + Concat(texts) + suffix)
    decreases |texts|
  {
    if texts == [] {
      assert prefix + Concat(texts) + suffix == prefix + suffix;
    } else {
      var doc := prefix + suffix;
      var reqs := Inserts(texts, |prefix| + 1);
      SplitAtJoin(prefix, suffix);
      assert Apply(doc, reqs[0]) == Some(prefix + texts[0] + suffix);
      assert reqs[1..] == Inserts(texts[1..], |prefix + texts[0]| + 1);
      ApplyInserts(prefix + texts[0], suffix, texts[1..]);
      GroupInner(prefix, texts[0], Concat(texts[1..]), suffix);
    }
  }

  // ---------------------------------------------------------------------------
  // create_doc_with_transcript
  // ---------------------------------------------------------------------------

  /** The `video` part of the transcript data the document is filled from. */
  datatype VideoInfo = VideoInfo(title: string, channel: string, url: string, durationSeconds: int)

  function TitleLine(title: string): string {
    "# Meeting Transcript: " + title
  }

  /** The first inserted text: the title line and a blank line. */
  function TitleText(title: string): string {
    TitleLine(title) + "\n\n"
  }

  function MetadataText(video: VideoInfo): string {
    "Video URL: " + video.url + "\n"
    + "Channel: " + video.channel + "\n"
    + "Duration: " + FormatDuration(video.durationSeconds) + "\n\n"
    + "---\n\n"
  }

  const AnalysisHeader := "## Analysis\n\n"
  const AnalysisTrailer := "\n\n---\n\n"
  const TranscriptHeader := "## Full Transcript\n\n"
  /** The advance the source adds for `AnalysisTrailer`, which is 7 characters long. */
  const TrailerAdvance := 6

  /** `if analysis_text:` is false for `None` and for the empty string alike. */
  predicate HasAnalysis(analysis: Option<string>) {
    analysis.Some? && analysis.value != ""
  }

  /** The heading style over the title line, its trailing blank line excluded. */
  function TitleStyle(title: string): Request {
    UpdateParagraphStyle(1, 1 + |TitleLine(title)|, Heading1)
  }

  /** The texts the document is meant to hold, top to bottom. */
  function CreateBlocks(video: VideoInfo, formatted: string, analysis: Option<string>): seq<string> {
    BlocksOf(TitleText(video.title), MetadataText(video), formatted, analysis)
  }

  function BlocksOf(title: string, metadata: string, formatted: string, analysis: Option<string>): seq<string> {
    [title, metadata]
    + (if HasAnalysis(analysis) then [AnalysisHeader, analysis.value + AnalysisTrailer] else [])
    + [TranscriptHeader, formatted]
  }

  /** The request list as the source builds it, offsets included. */
  function CreateScript(video: VideoInfo, formatted: string, analysis: Option<string>): seq<Request>
  {
    Script(TitleText(video.title), MetadataText(video), formatted, analysis, TitleStyle(video.title))
  }

  /** The source's request list around a given title text, metadata text and
      title style. */
  function Script(title: string, metadata: string, formatted: string, analysis: Option<string>,
                  titleStyle: Request): seq<Request>
  {
    var afterMetadata := |title| + |metadata|;
    if HasAnalysis(analysis) then
      var afterAnalysis := afterMetadata + |AnalysisHeader| + |analysis.value| + TrailerAdvance;
      [ InsertText(1, title),
        InsertText(|title|, metadata),
        InsertText(afterMetadata, AnalysisHeader),
        InsertText(afterMetadata + |AnalysisHeader|, analysis.value + AnalysisTrailer),
        InsertText(afterAnalysis, TranscriptHeader),
        InsertText(afterAnalysis + |TranscriptHeader|, formatted),
        titleStyle ]
    else
      [ InsertText(1, title),
        InsertText(|title|, metadata),
        InsertText(afterMetadata, TranscriptHeader),
        InsertText(afterMetadata + |TranscriptHeader|, formatted),
        titleStyle ]
  }

  /** The request-building part of `create_doc_with_transcript`. */
  method CreateRequests(video: VideoInfo, formatted: string, analysis: Option<string>) returns (requests: seq<Request>)
    ensures requests == CreateScript(video, formatted, analysis)
  {
    var title := TitleText(video.title);
    var metadata := MetadataText(video);
    requests := AppendRequests(title, metadata, formatted, analysis, TitleStyle(video.title));
  }

  /** The `requests.append` sequence while `current_index` advances. */
  method AppendRequests(title: string, metadata: string, formatted: string, analysis: Option<string>,
                        titleStyle: Request) returns (requests: seq<Request>)
    ensures requests == Script(title, metadata, formatted, analysis, titleStyle)
  {
    requests := [];
    requests := requests + [InsertText(1, title)];
    var currentIndex := |title|;
    requests := requests + [InsertText(currentIndex, metadata)];
    currentIndex := currentIndex + |metadata|;
    if HasAnalysis(analysis) {
      requests := requests + [InsertText(currentIndex, AnalysisHeader)];
      currentIndex := currentIndex + |AnalysisHeader|;
      requests := requests + [InsertText(currentIndex, analysis.value + AnalysisTrailer)];
      currentIndex := currentIndex + |analysis.value| + TrailerAdvance;
    }
    requests := requests + [InsertText(currentIndex, TranscriptHeader)];
    currentIndex := currentIndex + |TranscriptHeader|;
    requests := requests + [InsertText(currentIndex, formatted)];
    requests := requests + [titleStyle];
  }

  lemma ConcatThree(a: string, b: string, c: string)
    ensures Concat([a, b, c]) == a + b + c
  {
    var texts: seq<string> := [a, b, c];
    assert texts[1..] == [b, c];
    ConcatTwo(b, c);
  }

  lemma ConcatTwo(a: string, b: string)
    ensures Concat([a, b]) == a + b
  {
    var texts: seq<string> := [a, b];
    assert texts[1..] == [b] && texts[1..][1..] == [];
    assert Concat([b]) == b + "";
    assert b + "" == b;
  }

  lemma InsertsThree(a: string, b: string, c: string, at: int)
    ensures Inserts([a, b, c], at) == [InsertText(at, a), InsertText(at + |a|, b), InsertText(at + |a| + |b|, c)]
  {
    var texts: seq<string> := [a, b, c];
    assert texts[1..] == [b, c];
    InsertsTwo(b, c, at + |a|);
  }

  lemma InsertsTwo(a: string, b: string, at: int)
    ensures Inserts([a, b], at) == [InsertText(at, a), InsertText(at + |a|, b)]
  {
    var texts: seq<string> := [a, b];
    assert texts[1..] == [b] && texts[1..][1..] == [];
  }

  /** How far the source's `current_index` falls behind the end of the text
      before insert `k`: one after the title (measured without the body's first
      index), and one more after the 7-character analysis trailer advanced by 6. */
  function Lag(analysis: Option<string>, k: nat): (lag: nat)
    ensures lag <= 1
  {
    if k == 1 || (HasAnalysis(analysis) && k == 4) then 1 else 0
  }

  /** The source's script: one insert per block, in order, then the title style;
      seven requests with a non-empty analysis and five otherwise (an empty
      analysis counts as none). The first insert is at index 1 and each later one
      starts where the previous text ended, less `Lag`. */
  lemma CreateScriptShape(video: VideoInfo, formatted: string, analysis: Option<string>)
    ensures var script := CreateScript(video, formatted, analysis);
      var blocks := CreateBlocks(video, formatted, analysis);
      && |script| == |blocks| + 1
      && |blocks| == (if HasAnalysis(analysis) then 6 else 4)
      && (forall k :: 0 <= k < |blocks| ==> script[k].InsertText? && script[k].text == blocks[k])
      && script[|blocks|] == TitleStyle(video.title)
      && script[0].index == 1
      && (forall k :: 1 <= k < |blocks| ==>
            script[k].index == script[k - 1].index + |blocks[k - 1]| - Lag(analysis, k))
  {
    ScriptShape(TitleText(video.title), MetadataText(video), formatted, analysis, TitleStyle(video.title));
  }

  lemma ScriptShape(title: string, metadata: string, formatted: string, analysis: Option<string>, style: Request)
    ensures var script := Script(title, metadata, formatted, analysis, style);
      var blocks := BlocksOf(title, metadata, formatted, analysis);
      && |script| == |blocks| + 1
      && |blocks| == (if HasAnalysis(analysis) then 6 else 4)
      && (forall k :: 0 <= k < |blocks| ==> script[k].InsertText? && script[k].text == blocks[k])
      && script[|blocks|] == style
      && script[0].index == 1
      && (forall k :: 1 <= k < |blocks| ==>
            script[k].index == script[k - 1].index + |blocks[k - 1]| - Lag(analysis, k))
  {
    var blocks := BlocksOf(title, metadata, formatted, analysis);
    if HasAnalysis(analysis) {
      assert |AnalysisTrailer| == TrailerAdvance + 1;
      assert blocks == [title, metadata, AnalysisHeader, analysis.value + AnalysisTrailer, TranscriptHeader, formatted];
    } else {
      assert blocks == [title, metadata, TranscriptHeader, formatted];
    }
  }

  /** Every block but the last (the formatted transcript, which may be empty)
      is at least two characters long. */
  lemma BlocksLong(video: VideoInfo, formatted: string, analysis: Option<string>)
    ensures var blocks := CreateBlocks(video, formatted, analysis);
      forall k :: 0 <= k < |blocks| - 1 ==> |blocks[k]| >= 2
  {
    var blocks := CreateBlocks(video, formatted, analysis);
    assert |MetadataText(video)| >= 2;
    if HasAnalysis(analysis) {
      assert blocks == [TitleText(video.title), MetadataText(video), AnalysisHeader,
                        analysis.value + AnalysisTrailer, TranscriptHeader, formatted];
    } else {
      assert blocks == [TitleText(video.title), MetadataText(video), TranscriptHeader, formatted];
    }
  }

  /** Although each offset of the source's script lags, the inserts still
      advance: an earlier insert always has a smaller index than a later one. */
  lemma CreateOffsetsIncrease(video: VideoInfo, formatted: string, analysis: Option<string>)
    ensures var script := CreateScript(video, formatted, analysis);
      var n := |CreateBlocks(video, formatted, analysis)|;
      && n < |script|
      && (forall k :: 0 <= k < n ==> script[k].InsertText?)
      && forall j, k :: 0 <= j < k < n ==> script[j].index < script[k].index
  {
    var script := CreateScript(video, formatted, analysis);
    var blocks := CreateBlocks(video, formatted, analysis);
    CreateScriptShape(video, formatted, analysis);
    BlocksLong(video, formatted, analysis);
    forall j, k | 0 <= j < k < |blocks|
      ensures script[j].index < script[k].index
    {
      LaggedChainIncreases(script, blocks, analysis, j, k);
    }
  }

  lemma {:induction false} LaggedChainIncreases(script: seq<Request>, blocks: seq<string>, analysis: Option<string>,
                                                j: nat, k: nat)
    requires j < k < |blocks| <= |script|
    requires forall i :: 0 <= i < |blocks| ==> script[i].InsertText?
    requires forall i :: 1 <= i < |blocks| ==>
               script[i].index == script[i - 1].index + |blocks[i - 1]| - Lag(analysis, i)
    requires forall i :: 0 <= i < |blocks| - 1 ==> |blocks[i]| >= 2
    ensures script[j].index < script[k].index
    decreases k - j
  {
    if j < k - 1 {
      LaggedChainIncreases(script, blocks, analysis, j, k - 1);
    }
  }

  /** The source's script styles nothing but the title, as `HEADING_1`. */
  lemma CreateScriptStylesOnlyTitle(video: VideoInfo, formatted: string, analysis: Option<string>)
    ensures var script := CreateScript(video, formatted, analysis);
      forall k :: 0 <= k < |script| && script[k].UpdateParagraphStyle? ==> script[k] == TitleStyle(video.title)
  {
    CreateScriptShape(video, formatted, analysis);
  }

  /** The corrected script: the same texts and the same title style, but each
      insert starts exactly where the previous text ended. */
  lemma CorrectedScriptShape(video: VideoInfo, formatted: string, analysis: Option<string>)
    ensures var script := CorrectedScript(video, formatted, analysis);
      var blocks := CreateBlocks(video, formatted, analysis);
      && |script| == |blocks| + 1
      && (forall k :: 0 <= k < |blocks| ==> script[k].InsertText? && script[k].text == blocks[k])
      && script[|blocks|] == TitleStyle(video.title)
      && script[0].index == 1
      && (forall k :: 1 <= k < |blocks| ==> script[k].index == script[k - 1].index + |blocks[k - 1]|)
  {
    var blocks := CreateBlocks(video, formatted, analysis);
    InsertsChain(blocks, 1);
  }

  /** How many characters short of the corrected offset the source's insert `k` is. */
  function Drift(analysis: Option<string>, k: nat): (drift: nat)
    ensures drift <= 2
  {
    (if k >= 1 then 1 else 0) + (if HasAnalysis(analysis) && k >= 4 then 1 else 0)
  }

  /** The two scripts differ only in the offsets: the source's insert `k` is
      `Drift` characters early, one from the metadata on and two from the
      transcript header on when there is an analysis. */
  lemma {:induction false} CreateScriptDrift(video: VideoInfo, formatted: string, analysis: Option<string>)
    ensures var script := CreateScript(video, formatted, analysis);
      var corrected := CorrectedScript(video, formatted, analysis);
      var blocks := CreateBlocks(video, formatted, analysis);
      && |script| == |corrected| == |blocks| + 1
      && script[|blocks|] == corrected[|blocks|]
      && forall k :: 0 <= k < |blocks| ==>
           && script[k].InsertText? && corrected[k].InsertText?
           && script[k].text == corrected[k].text
           && corrected[k].index == script[k].index + Drift(analysis, k)
  {
    var script := CreateScript(video, formatted, analysis);
    var corrected := CorrectedScript(video, formatted, analysis);
    var blocks := CreateBlocks(video, formatted, analysis);
    CreateScriptShape(video, formatted, analysis);
    CorrectedScriptShape(video, formatted, analysis);
    DriftAccumulates(script, corrected, blocks, analysis, |blocks|);
  }

  lemma {:induction false} DriftAccumulates(script: seq<Request>, corrected: seq<Request>, blocks: seq<string>,
                                             analysis: Option<string>, n: nat)
    requires n <= |blocks| && |blocks| < |script| && |blocks| < |corrected|
    requires forall k :: 0 <= k < |blocks| ==> script[k].InsertText? && corrected[k].InsertText?
    requires blocks != [] ==> script[0].index == 1 && corrected[0].index == 1
    requires forall k :: 1 <= k < |blocks| ==>
               script[k].index == script[k - 1].index + |blocks[k - 1]| - Lag(analysis, k)
    requires forall k :: 1 <= k < |blocks| ==> corrected[k].index == corrected[k - 1].index + |blocks[k - 1]|
    ensures forall k :: 0 <= k < n ==> corrected[k].index == script[k].index + Drift(analysis, k)
  {
    if n > 0 {
      DriftAccumulates(script, corrected, blocks, analysis, n - 1);
      var k := n - 1;
      if k >= 1 {
        assert Drift(analysis, k) == Drift(analysis, k - 1) + Lag(analysis, k);
        assert corrected[k - 1].index == script[k - 1].index + Drift(analysis, k - 1);
      }
    }
  }

  /** The document text the create path leaves behind, as written: the metadata
      lands one character early, inside the title's blank line, and with an
      analysis the transcript header lands one character early as well, inside
      the analysis trailer; the displaced newlines collect at the end. */
  function AsWrittenDocument(video: VideoInfo, formatted: string, analysis: Option<string>): string
  {
    TitleLine(video.title) + "\n" + MetadataText(video) + AsWrittenTail(formatted, analysis)
  }

  function AsWrittenTail(formatted: string, analysis: Option<string>): string
  {
    if HasAnalysis(analysis) then
      AnalysisHeader + analysis.value + "\n\n---\n" + TranscriptHeader + formatted + "\n\n\n"
    else
      TranscriptHeader + formatted + "\n\n"
  }

  /** The document the blocks are meant to form: the blocks one after another,
      then the body's final newline. */
  function IntendedDocument(video: VideoInfo, formatted: string, analysis: Option<string>): string
  {
    Concat(CreateBlocks(video, formatted, analysis)) + "\n"
  }

  /** The source's script with an analysis, its offsets spelled out. */
  lemma ScriptWithAnalysis(title: string, metadata: string, formatted: string, analysis: Option<string>, style: Request)
    requires HasAnalysis(analysis)
    ensures var resume := |title| + |metadata| + |AnalysisHeader| + |analysis.value| + TrailerAdvance;
      Script(title, metadata, formatted, analysis, style)
        == [ InsertText(1, title),
             InsertText(|title|, metadata),
             InsertText(|title| + |metadata|, AnalysisHeader),
             InsertText(|title| + |metadata| + |AnalysisHeader|, analysis.value + AnalysisTrailer),
             InsertText(resume, TranscriptHeader),
             InsertText(resume + |TranscriptHeader|, formatted),
             style ]
  {
  }

  lemma ChainsWithAnalysis(title: string, metadata: string, header: string, body: string,
                           transcriptHeader: string, formatted: string, style: Request, resume: int)
    ensures [ InsertText(1, title),
              InsertText(|title|, metadata),
              InsertText(|title| + |metadata|, header),
              InsertText(|title| + |metadata| + |header|, body),
              InsertText(resume, transcriptHeader),
              InsertText(resume + |transcriptHeader|, formatted),
              style ]
         == [InsertText(1, title)]
            + Inserts([metadata, header, body], |title|)
            + Inserts([transcriptHeader, formatted], resume)
            + [style]
  {
    InsertsThree(metadata, header, body, |title|);
    InsertsTwo(transcriptHeader, formatted, resume);
    SeqSeven(
      InsertText(1, title),
      InsertText(|title|, metadata),
      InsertText(|title| + |metadata|, header),
      InsertText(|title| + |metadata| + |header|, body),
      InsertText(resume, transcriptHeader),
      InsertText(resume + |transcriptHeader|, formatted),
      style,
      Inserts([metadata, header, body], |title|),
      Inserts([transcriptHeader, formatted], resume));
  }

  lemma SeqSeven<T>(a: T, b: T, c: T, d: T, e: T, f: T, g: T, x: seq<T>, y: seq<T>)
    requires x == [b, c, d] && y == [e, f]
    ensures [a, b, c, d, e, f, g] == [a] + x + y + [g]
  {
  }

  lemma ChainsWithoutAnalysis(title: string, metadata: string, transcriptHeader: string, formatted: string, style: Request)
    ensures [ InsertText(1, title),
              InsertText(|title|, metadata),
              InsertText(|title| + |metadata|, transcriptHeader),
              InsertText(|title| + |metadata| + |transcriptHeader|, formatted),
              style ]
         == [InsertText(1, title)] + Inserts([metadata, transcriptHeader, formatted], |title|) + [style]
  {
    InsertsThree(metadata, transcriptHeader, formatted, |title|);
    SeqFive(InsertText(1, title), InsertText(|title|, metadata), InsertText(|title| + |metadata|, transcriptHeader),
      InsertText(|title| + |metadata| + |transcriptHeader|, formatted), style,
      Inserts([metadata, transcriptHeader, formatted], |title|));
  }

  lemma SeqFive<T>(a: T, b: T, c: T, d: T, e: T, x: seq<T>)
    requires x == [b, c, d]
    ensures [a, b, c, d, e] == [a] + x + [e]
  {
  }

  /** Applying the source's script to a new document gives `AsWrittenDocument`. */
  lemma CreateScriptDocument(video: VideoInfo, formatted: string, analysis: Option<string>)
    ensures ApplyAll("\n", CreateScript(video, formatted, analysis)) == Some(AsWrittenDocument(video, formatted, analysis))
  {
    ScriptDocument(TitleLine(video.title), MetadataText(video), formatted, analysis);
  }

  lemma ScriptDocument(line: string, metadata: string, formatted: string, analysis: Option<string>)
    requires line != []
    ensures ApplyAll("\n", Script(line + "\n\n", metadata, formatted, analysis, UpdateParagraphStyle(1, 1 + |line|, Heading1)))
         == Some(line + "\n" + metadata + AsWrittenTail(formatted, analysis))
  {
    if HasAnalysis(analysis) {
      ScriptWithAnalysis(line + "\n\n", metadata, formatted, analysis, UpdateParagraphStyle(1, 1 + |line|, Heading1));
      assert AnalysisTrailer == "\n\n---\n" + "\n";
      LaggedDocumentWithAnalysis(line, metadata, AnalysisHeader, analysis.value, "\n\n---\n", TranscriptHeader, formatted);
    } else {
      LaggedDocument(line, metadata, TranscriptHeader, formatted);
    }
  }

  lemma Chain(d0: string, first: seq<Request>, d1: string, second: seq<Request>, d2: string)
    requires ApplyAll(d0, first) == Some(d1) && ApplyAll(d1, second) == Some(d2)
    ensures ApplyAll(d0, first + second) == Some(d2)
  {
    ApplyAllAppend(d0, first, second);
  }

  lemma FirstInsert(text: string)
    ensures ApplyAll("\n", [InsertText(1, text)]) == Some(text + "\n")
  {
    var doc: string := "\n";
    assert doc[..0] == [] && doc[0..] == doc;
    assert doc[..0] + text + doc[0..] == text + "\n";
    assert Apply(doc, InsertText(1, text)) == Some(text + "\n");
    assert [InsertText(1, text)][1..] == [];
  }

  lemma StyleKeepsText(doc: string, line: string)
    requires 1 <= |line| < |doc|
    ensures ApplyAll(doc, [UpdateParagraphStyle(1, 1 + |line|, Heading1)]) == Some(doc)
  {
    assert [UpdateParagraphStyle(1, 1 + |line|, Heading1)][1..] == [];
  }

  /** Without an analysis: the metadata goes in one character early, inside the
      title's blank line, and the transcript follows it directly. */
  lemma LaggedDocument(line: string, metadata: string, transcriptHeader: string, formatted: string)
    requires line != []
    ensures var title := line + "\n\n";
      ApplyAll("\n", [ InsertText(1, title),
                       InsertText(|title|, metadata),
                       InsertText(|title| + |metadata|, transcriptHeader),
                       InsertText(|title| + |metadata| + |transcriptHeader|, formatted),
                       UpdateParagraphStyle(1, 1 + |line|, Heading1) ])
      == Some(line + "\n" + metadata + (transcriptHeader + formatted + "\n\n"))
  {
    var title := line + "\n\n";
    var style := UpdateParagraphStyle(1, 1 + |line|, Heading1);
    ChainsWithoutAnalysis(title, metadata, transcriptHeader, formatted, style);
    TitledInserts(line, [metadata, transcriptHeader, formatted]);
    ConcatThree(metadata, transcriptHeader, formatted);
    var doc := line + "\n" + metadata + (transcriptHeader + formatted + "\n\n");
    assert line + "\n" + (metadata + transcriptHeader + formatted) + "\n\n" == doc;
    ThenStyle([InsertText(1, title)] + Inserts([metadata, transcriptHeader, formatted], |title|), doc, line);
  }

  /** The title insert into a new document, then inserts starting one short of
      its end: they all land before the title's second newline. */
  lemma TitledInserts(line: string, texts: seq<string>)
    ensures ApplyAll("\n", [InsertText(1, line + "\n\n")] + Inserts(texts, |line| + 2))
         == Some(line + "\n" + Concat(texts) + "\n\n")
  {
    var title := line + "\n\n";
    FirstInsert(title);
    assert title + "\n" == (line + "\n") + "\n\n";
    ApplyInserts(line + "\n", "\n\n", texts);
    assert |line + "\n"| + 1 == |line| + 2;
    Chain("\n", [InsertText(1, title)], title + "\n", Inserts(texts, |line| + 2), line + "\n" + Concat(texts) + "\n\n");
  }

  /** The title style after requests that leave a document longer than the title line. */
  lemma ThenStyle(reqs: seq<Request>, doc: string, line: string)
    requires ApplyAll("\n", reqs) == Some(doc) && 1 <= |line| < |doc|
    ensures ApplyAll("\n", reqs + [UpdateParagraphStyle(1, 1 + |line|, Heading1)]) == Some(doc)
  {
    StyleKeepsText(doc, line);
    Chain("\n", reqs, doc, [UpdateParagraphStyle(1, 1 + |line|, Heading1)], doc);
  }

  /** With an analysis body `a + lead + "\n"` whose offset advance stops short of
      the final newline: the transcript header lands before that newline too. */
  lemma LaggedDocumentWithAnalysis(line: string, metadata: string, header: string, a: string, lead: string,
                                   transcriptHeader: string, formatted: string)
    requires line != []
    ensures var title := line + "\n\n";
      var resume := |title| + |metadata| + |header| + |a| + |lead|;
      ApplyAll("\n", [ InsertText(1, title),
                       InsertText(|title|, metadata),
                       InsertText(|title| + |metadata|, header),
                       InsertText(|title| + |metadata| + |header|, a + (lead + "\n")),
                       InsertText(resume, transcriptHeader),
                       InsertText(resume + |transcriptHeader|, formatted),
                       UpdateParagraphStyle(1, 1 + |line|, Heading1) ])
      == Some(line + "\n" + metadata + (header + a + lead + transcriptHeader + formatted + "\n\n\n"))
  {
    var title := line + "\n\n";
    var resume := |title| + |metadata| + |header| + |a| + |lead|;
    ChainsWithAnalysis(title, metadata, header, a + (lead + "\n"), transcriptHeader, formatted,
      UpdateParagraphStyle(1, 1 + |line|, Heading1), resume);
    var first := [InsertText(1, title)];
    var middle := Inserts([metadata, header, a + (lead + "\n")], |title|);
    var last := Inserts([transcriptHeader, formatted], resume);
    var prefix := line + "\n" + metadata + header + a + lead;
    var doc3 := line + "\n" + metadata + (header + a + lead + transcriptHeader + formatted + "\n\n\n");
    LaggedAnalysisInserts(line, metadata, header, a + lead);
    assert a + (lead + "\n") == (a + lead) + "\n";
    assert line + "\n" + metadata + header + (a + lead) + "\n\n\n" == prefix + "\n\n\n";
    assert |prefix| + 1 == resume;
    TwoInserts(prefix, "\n\n\n", transcriptHeader, formatted);
    assert prefix + transcriptHeader + formatted + "\n\n\n" == doc3;
    Chain("\n", first + middle, prefix + "\n\n\n", last, doc3);
    ThenStyle(first + middle + last, doc3, line);
  }

  /** Title, metadata, a header and a body ending in a newline: the body's final
      newline is pushed behind the title's second newline and the body's own. */
  lemma LaggedAnalysisInserts(line: string, metadata: string, header: string, text: string)
    ensures var title := line + "\n\n";
      ApplyAll("\n", [InsertText(1, title)] + Inserts([metadata, header, text + "\n"], |title|))
      == Some(line + "\n" + metadata + header + text + "\n\n\n")
  {
    TitledInserts(line, [metadata, header, text + "\n"]);
    ConcatThree(metadata, header, text + "\n");
    assert line + "\n" + (metadata + header + (text + "\n")) + "\n\n"
        == line + "\n" + metadata + header + text + "\n\n\n";
  }

  lemma TwoInserts(prefix: string, suffix: string, x: string, y: string)
    requires suffix != []
    ensures ApplyAll(prefix + suffix, Inserts([x, y], |prefix| + 1)) == Some(prefix + x + y + suffix)
  {
    ApplyInserts(prefix, suffix, [x, y]);
    ConcatTwo(x, y);
    assert prefix + (x + y) + suffix == prefix + x + y + suffix;
  }

  /** The chain property of `Inserts`: every insert starts where the previous text ends. */
  lemma {:induction false} InsertsChain(texts: seq<string>, at: int)
    ensures var reqs := Inserts(texts, at);
      && (forall k :: 0 <= k < |texts| ==> reqs[k].InsertText? && reqs[k].text == texts[k])
      && (texts != [] ==> reqs[0].index == at)
      && (forall k :: 1 <= k < |texts| ==> reqs[k].index == reqs[k - 1].index + |texts[k - 1]|)
    decreases |texts|
  {
    if texts != [] {
      var reqs := Inserts(texts, at);
      var rest := Inserts(texts[1..], at + |texts[0]|);
      InsertsChain(texts[1..], at + |texts[0]|);
      assert reqs == [InsertText(at, texts[0])] + rest;
      forall k | 1 <= k < |texts|
        ensures reqs[k].InsertText? && reqs[k].text == texts[k]
        ensures reqs[k].index == reqs[k - 1].index + |texts[k - 1]|
      {
        assert reqs[k] == rest[k - 1];
        if k >= 2 {
          assert reqs[k - 1] == rest[k - 2];
        }
      }
    }
  }

  /** The script with the evidently intended offsets: each insert starts where the
      previous text ended, beginning at index 1. */
  function CorrectedScript(video: VideoInfo, formatted: string, analysis: Option<string>): seq<Request>
  {
    Inserts(CreateBlocks(video, formatted, analysis), 1) + [TitleStyle(video.title)]
  }

  lemma ConcatStartsWith(texts: seq<string>)
    requires texts != []
    ensures |Concat(texts)| >= |texts[0]| && Concat(texts)[..|texts[0]|] == texts[0]
  {
  }

  /** The corrected script lays the blocks down in order in a new document, and
      its title style range lies in the body. */
  lemma CorrectedScriptDocument(video: VideoInfo, formatted: string, analysis: Option<string>)
    ensures ApplyAll("\n", CorrectedScript(video, formatted, analysis)) == Some(IntendedDocument(video, formatted, analysis))
  {
    var line := TitleLine(video.title);
    var blocks := CreateBlocks(video, formatted, analysis);
    assert blocks[0] == line + "\n\n";
    BlocksInOrder(blocks, line);
  }

  lemma BlocksInOrder(blocks: seq<string>, line: string)
    requires blocks != [] && 1 <= |line| < |blocks[0]|
    ensures ApplyAll("\n", Inserts(blocks, 1) + [UpdateParagraphStyle(1, 1 + |line|, Heading1)])
         == Some(Concat(blocks) + "\n")
  {
    ApplyInserts("", "\n", blocks);
    assert "" + "\n" == "\n" && "" + Concat(blocks) + "\n" == Concat(blocks) + "\n";
    ConcatStartsWith(blocks);
    ThenStyle(Inserts(blocks, 1), Concat(blocks) + "\n", line);
  }

  /** The source's script never produces the intended document: right after the
      title line it leaves one newline where two were meant, so the metadata's
      first character stands where the blank line should be. */
  lemma CreateScriptMisplacesMetadata(video: VideoInfo, formatted: string, analysis: Option<string>)
    ensures AsWrittenDocument(video, formatted, analysis) != IntendedDocument(video, formatted, analysis)
    ensures var p := |TitleLine(video.title)| + 1;
      && AsWrittenDocument(video, formatted, analysis)[p] == 'V'
      && IntendedDocument(video, formatted, analysis)[p] == '\n'
  {
    var line := TitleLine(video.title);
    var p := |line| + 1;
    var asWritten := AsWrittenDocument(video, formatted, analysis);
    var intended := IntendedDocument(video, formatted, analysis);
    var metadata := MetadataText(video);
    assert metadata[0] == 'V';
    var head := line + "\n" + metadata;
    var tail := AsWrittenTail(formatted, analysis);
    CharOfPrefix(head, tail, p);
    assert head[p] == metadata[0];
    var blocks := CreateBlocks(video, formatted, analysis);
    ConcatStartsWith(blocks);
    assert intended[..|blocks[0]|] == line + "\n\n";
    assert intended[p] == intended[..|blocks[0]|][p];
  }

  lemma CharOfPrefix(x: string, y: string, i: nat)
    requires i < |x|
    ensures (x + y)[i] == x[i]
  {
  }

  /** The title style range [1, 1 + |title line|) is exactly the title line,
      ending at its newline, in the document either script produces. */
  lemma TitleStyleCoversTitleLine(video: VideoInfo, formatted: string, analysis: Option<string>)
    ensures var line := TitleLine(video.title);
      var asWritten := AsWrittenDocument(video, formatted, analysis);
      var intended := IntendedDocument(video, formatted, analysis);
      && |line| < |asWritten| && asWritten[..|line|] == line && asWritten[|line|] == '\n'
      && |line| < |intended| && intended[..|line|] == line && intended[|line|] == '\n'
  {
    var line := TitleLine(video.title);
    LineOpens(line, MetadataText(video), AsWrittenTail(formatted, analysis));
    var blocks := CreateBlocks(video, formatted, analysis);
    assert blocks[0] == line + "\n\n";
    LineOpensBlocks(blocks, line);
  }

  lemma LineOpens(line: string, metadata: string, tail: string)
    ensures var doc := line + "\n" + metadata + tail;
      |line| < |doc| && doc[..|line|] == line && doc[|line|] == '\n'
  {
    assert line + "\n" + metadata + tail == line + "\n" + (metadata + tail);
    LineFirst(line, metadata + tail);
  }

  lemma LineOpensBlocks(blocks: seq<string>, line: string)
    requires blocks != [] && blocks[0] == line + "\n\n"
    ensures var doc := Concat(blocks) + "\n";
      |line| < |doc| && doc[..|line|] == line && doc[|line|] == '\n'
  {
    assert Concat(blocks) + "\n" == line + "\n" + ("\n" + Concat(blocks[1..]) + "\n");
    LineFirst(line, "\n" + Concat(blocks[1..]) + "\n");
  }

  lemma LineFirst(line: string, rest: string)
    ensures var doc := line + "\n" + rest;
      |line| < |doc| && doc[..|line|] == line && doc[|line|] == '\n'
  {
    var doc := line + "\n" + rest;
    assert doc[..|line|] == line;
  }

  // ---------------------------------------------------------------------------
  // update_doc_with_analysis
  // ---------------------------------------------------------------------------

  /** A paragraph element of a fetched document; an element without a text run,
      or a text run without content, contributes no text. */
  datatype ParagraphElement = TextRun(content: string) | OtherElement

  /** A structural element of the fetched body: a paragraph with its optional
      named style, or anything else (table, section break, ...). Either may lack
      a start index. */
  datatype StructuralElement =
    | Paragraph(startIndex: Option<int>, namedStyleType: Option<string>, elements: seq<ParagraphElement>)
    | OtherStructure(startIndex: Option<int>)

  function ElementText(e: ParagraphElement): string {
    if e.TextRun? then e.content else ""
  }

  /** The paragraph's text runs joined together. */
  function ParagraphText(elements: seq<ParagraphElement>): string {
    Concat(Map(elements, ElementText))
  }

  const TranscriptTitle := "Full Transcript"

  /** A `HEADING_2` paragraph whose text mentions the transcript. */
  predicate IsTranscriptHeading(item: StructuralElement) {
    && item.Paragraph?
    && item.namedStyleType == Some("HEADING_2")
    && Contains(ParagraphText(item.elements), TranscriptTitle)
  }

  /** Where the analysis goes: the start of the first transcript heading; index 1
      when there is none, and also when that heading's start index is missing or
      0 (both are falsy). A later heading is never consulted. */
  function SpliceIndex(content: seq<StructuralElement>): (index: int)
    ensures (forall k :: 0 <= k < |content| ==> !IsTranscriptHeading(content[k])) ==> index == 1
    ensures forall k :: 0 <= k < |content| && IsTranscriptHeading(content[k])
                          && (forall j :: 0 <= j < k ==> !IsTranscriptHeading(content[j])) ==>
              index == (if content[k].startIndex.None? || content[k].startIndex.value == 0 then 1
                        else content[k].startIndex.value)
    ensures index != 0
  {
    var k := Find(content, IsTranscriptHeading);
    if k == |content| || content[k].startIndex.None? || content[k].startIndex.value == 0 then 1
    else content[k].startIndex.value
  }

  /** A body without `HEADING_2` paragraphs, such as one styled only by the
      create script, takes the analysis at index 1, the start of the body. */
  lemma NoHeading2SplicesAtStart(content: seq<StructuralElement>)
    requires forall k :: 0 <= k < |content| && content[k].Paragraph? ==> content[k].namedStyleType != Some("HEADING_2")
    ensures SpliceIndex(content) == 1
  {
  }

  /** The search loop of `update_doc_with_analysis`. */
  method LocateAnalysisSplice(content: seq<StructuralElement>) returns (index: int)
    ensures index == SpliceIndex(content)
  {
    var found: Option<int> := None;
    var i := 0;
    while i < |content|
      invariant 0 <= i <= |content|
      invariant forall j :: 0 <= j < i ==> !IsTranscriptHeading(content[j])
      invariant found == None
    {
      var item := content[i];
      if item.Paragraph? && item.namedStyleType == Some("HEADING_2") {
        var text := ParagraphText(item.elements);
        if Contains(text, TranscriptTitle) {
          found := item.startIndex;
          break;
        }
      }
      i := i + 1;
    }
    if found.None? || found.value == 0 {
      index := 1;
    } else {
      index := found.value;
    }
  }

  /** The search stops at the first transcript heading: what follows it in the
      body does not move the splice point. */
  lemma {:induction false} LaterContentIgnored(content: seq<StructuralElement>, more: seq<StructuralElement>)
    requires exists k :: 0 <= k < |content| && IsTranscriptHeading(content[k])
    ensures SpliceIndex(content + more) == SpliceIndex(content)
  {
    var k := Find(content, IsTranscriptHeading);
    var all := content + more;
    FindPrefix(content, more, IsTranscriptHeading);
    assert all[k] == content[k];
  }

  lemma {:induction false} FindPrefix<T>(s: seq<T>, more: seq<T>, p: T -> bool)
    requires exists k :: 0 <= k < |s| && p(s[k])
    ensures Find(s + more, p) == Find(s, p)
  {
    if !p(s[0]) {
      assert (s + more)[1..] == s[1..] + more;
      var k :| 0 <= k < |s| && p(s[k]);
      assert s[1..][k - 1] == s[k];
      FindPrefix(s[1..], more, p);
    }
  }

  /** The two requests: the analysis block at the splice point, then the
      `HEADING_2` style over the header with its trailing newlines stripped. */
  function UpdateScript(index: int, analysis: string): seq<Request> {
    [ InsertText(index, AnalysisHeader + analysis + AnalysisTrailer),
      UpdateParagraphStyle(index, index + |TrimEnd(AnalysisHeader)|, Heading2) ]
  }

  /** The request-building part of `update_doc_with_analysis`. */
  method UpdateRequests(content: seq<StructuralElement>, analysis: string) returns (requests: seq<Request>)
    ensures requests == UpdateScript(SpliceIndex(content), analysis)
  {
    var index := LocateAnalysisSplice(content);
    requests := UpdateScript(index, analysis);
  }

  /** The stripped header is the header line without its newlines. */
  lemma HeaderLine()
    ensures TrimEnd(AnalysisHeader) == "## Analysis"
  {
    var line := "## Analysis";
    assert AnalysisHeader == line + "\n\n";
    assert AnalysisHeader[..|AnalysisHeader| - 1] == line + "\n";
    assert (line + "\n")[..|line|] == line;
    assert TrimEnd(line + "\n") == TrimEnd(line);
  }

  /** The update is accepted exactly when the splice point lies in the body; the
      block then appears there, and the heading range covers exactly the
      header line "## Analysis", ending before its newline. */
  lemma UpdateScriptDocument(doc: string, index: int, analysis: string)
    ensures ApplyAll(doc, UpdateScript(index, analysis)).Some? <==> 1 <= index <= |doc|
    ensures 1 <= index <= |doc| ==>
      var result := doc[..index - 1] + AnalysisHeader + analysis + AnalysisTrailer + doc[index - 1..];
      var last := index + |TrimEnd(AnalysisHeader)| - 1;
      && ApplyAll(doc, UpdateScript(index, analysis)) == Some(result)
      && result[index - 1..last] == "## Analysis"
      && result[last] == '\n'
  {
    HeaderLine();
    var line := "## Analysis";
    var text := AnalysisHeader + analysis + AnalysisTrailer;
    assert UpdateScript(index, analysis) == [InsertText(index, text), UpdateParagraphStyle(index, index + |line|, Heading2)];
    InsertThenStyle(doc, index, text, index + |line|, Heading2);
    if 1 <= index <= |doc| {
      assert AnalysisHeader == line + "\n\n";
      GroupMiddle(doc[..index - 1], AnalysisHeader, analysis, AnalysisTrailer, doc[index - 1..]);
      HeaderPosition(doc, index, line, analysis + AnalysisTrailer, text);
    }
  }

  /** The body after inserting `text` before the character at index `index`. */
  function Spliced(doc: string, index: int, text: string): (r: string)
    requires 1 <= index <= |doc|
    ensures |r| == |doc| + |text|
  {
    doc[..index - 1] + text + doc[index - 1..]
  }

  /** After splicing in a header line, a blank line and more text, the header
      line starts at the splice point and is followed by a newline. */
  lemma HeaderPosition(doc: string, index: int, line: string, rest: string, text: string)
    requires 1 <= index <= |doc| && text == line + "\n\n" + rest
    ensures Spliced(doc, index, text)[index - 1..index - 1 + |line|] == line
    ensures Spliced(doc, index, text)[index - 1 + |line|] == '\n'
  {
    HeaderAt(doc[..index - 1], line, rest + doc[index - 1..]);
    AssocShift(doc[..index - 1], line + "\n\n", rest, doc[index - 1..]);
  }

  /** An insert followed by a style starting at the insert's index. */
  lemma InsertThenStyle(doc: string, index: int, text: string, end: int, style: NamedStyle)
    requires index < end <= index + |text|
    ensures ApplyAll(doc, [InsertText(index, text), UpdateParagraphStyle(index, end, style)])
         == if 1 <= index <= |doc| then Some(Spliced(doc, index, text)) else None
  {
    var insert, heading := InsertText(index, text), UpdateParagraphStyle(index, end, style);
    ApplyTwo(doc, insert, heading);
    if 1 <= index <= |doc| {
      var next := Spliced(doc, index, text);
      assert Apply(doc, insert) == Some(next);
      assert Apply(next, heading) == Some(next);
    } else {
      assert Apply(doc, insert) == None;
    }
  }

  lemma ApplyTwo(doc: string, first: Request, second: Request)
    ensures ApplyAll(doc, [first, second])
         == if Apply(doc, first).None? then None else Apply(Apply(doc, first).value, second)
  {
    var script := [first, second];
    assert script[1..] == [second] && script[1..][1..] == [];
    var next := Apply(doc, first);
    if next.Some? {
      var last := Apply(next.value, second);
      if last.Some? {
        assert ApplyAll(last.value, []) == last;
      }
      assert ApplyAll(next.value, [second]) == last;
    }
  }

  lemma HeaderAt(before: string, line: string, tail: string)
    ensures var result := before + (line + "\n\n") + tail;
      && result[|before|..|before| + |line|] == line
      && result[|before| + |line|] == '\n'
  {
    var x := line + "\n\n";
    var result := before + x + tail;
    forall i | 0 <= i < |line|
      ensures result[|before| + i] == line[i]
    {
      assert result[|before| + i] == x[i];
    }
    assert result[|before| + |line|] == x[|line|];
  }
}
