# Council meeting analyzer: transcript and document core

This project models the core of the council-meeting analyzer's back end:

- how a YouTube caption track is chosen;
- how the SubRip (SRT) payload of that track is read into timed segments;
- how the `full` and `formatted` transcript strings are built;
- how an ISO 8601 video duration is turned into seconds;
- how the Google Docs edit scripts are built:
  - the request list that fills a new transcript document;
  - the readable duration in its metadata;
  - the splice point and the two requests that add an analysis to an existing
    document.

The model has four modules in four files:

- `common.dfy` holds the string, sequence and clock helpers of the two Python
  files:
  - `str.strip`, `str.split`, `str.replace`, `str.lower` and `str.isdigit`,
    which `api/index.py` uses;
  - `str.join` and the substring test `in`, which both files use;
  - `str.rstrip`, which `api/google_docs.py` uses;
  - a first-match search over a list (the `for … break` loops);
  - the split of seconds into hours, minutes and seconds. `format_time` in
    `api/index.py` computes it with `//` and `%`, and `format_duration` in
    `api/google_docs.py` with `divmod`.
- `transcripts.dfy` (module `Transcripts`) covers `get_transcript`,
  `parse_srt_timestamp` and `format_time` of `api/index.py`.
- `video_details.dfy` (module `VideoDetails`) covers the duration arithmetic of
  `get_video_details`.
- `documents.dfy` (module `Documents`) covers `create_doc_with_transcript`,
  `format_duration` and `update_doc_with_analysis` of `api/google_docs.py`.

Modelling choices:

- Times are whole milliseconds (`nat`). A rendering such as `HH:MM:SS` truncates
  to whole seconds, as `int(...)` does in the source.
- A caption id of `""` is falsy in Python. So a selection pass that settles on
  such a track does not stop the next pass. The model keeps this.
- A document body is modelled by its text:
  - a Docs index `i` is string position `i - 1`;
  - a new document is the single newline `"\n"`;
  - an insert is accepted when `1 <= i <= |body|`;
  - a paragraph-style request is accepted when its range lies in the body, and it
    changes no text.

  A batch with a rejected request is rejected as a whole.
- Remote calls are parameters. The caption payload is a function from a caption
  id to the decoded text. The fetched document is its list of structural
  elements.

Behaviour of the code that a reader might not expect, which the model keeps:

- A timestamp line is never checked for start ≤ end.
- Text lines that come before the first timestamp line are merged into the first
  segment (`Transcripts.TextBeforeFirstTimestamp`,
  `Transcripts.LeadingTextInFirstSegment`).
- The day count of a `PnDT…` duration is ignored (`VideoDetails.DaysIgnored`).
- The month count of a `PnMT…` duration is read as minutes
  (`VideoDetails.MonthsReadAsMinutes`).
- An empty analysis string adds no analysis section when a document is created.
  The update path inserts it anyway.
- The create path styles only the title, as `HEADING_1`
  (`Documents.CreateScriptStylesOnlyTitle`). The update path looks for a
  `HEADING_2` paragraph mentioning "Full Transcript". So on a document that the
  create path made, the update finds no such paragraph and splices the analysis
  at index 1, before the title (`Documents.NoHeading2SplicesAtStart`).

## Model

| member | source | states |
|---|---|---|
| Transcripts.ChosenTrack | api/index.py:75-107 | Fails with "no captions" exactly when the listing is empty. Any track it chooses is in the listing and has a non-empty id. |
| Transcripts.SelectCaptionTrack | api/index.py:75-107 | The three `for … break` passes pick the same track as `ChosenTrack`, or give the same error. |
| Transcripts.ManualEnglishWins | api/index.py:82-91 | The first English track that is not auto-generated is chosen when its id is non-empty. A track counts as auto-generated when its name says so in any case, or when its kind is ASR. |
| Transcripts.EnglishBeforeOtherLanguages | api/index.py:82-99 | When the first manual English track has an empty id, or there is none, the first English track is chosen, auto-generated or not, even if a later manual English track has an id. |
| Transcripts.NoEnglishTakesFirst | api/index.py:101-104 | With no English track at all, the first track of the listing is chosen. |
| Transcripts.ParseClockOfDigits | api/index.py:204-206 | Three digit fields `h:m:s` read as `h*3600 + m*60 + s` seconds. |
| Transcripts.ParseClockOfFraction | api/index.py:204-206 | Digit fields `h:m:s.fff`, with three fraction digits, read as `h*3600000 + m*60000 + s*1000 + fff` milliseconds. |
| Transcripts.SrtTimestampReads | api/index.py:198-208 | A line `h:m:s,fff --> h:m:s,fff` of digit fields reads as the pair of its start and end times, each in milliseconds, the comma read as the decimal point. |
| Transcripts.TimestampWithoutArrowFails | api/index.py:199-202 | A line without ` --> ` has no second part and is malformed. |
| Transcripts.ClockFieldCountFails | api/index.py:204-206 | A side that does not split on `:` into exactly three fields is malformed. |
| Transcripts.StartFieldCountFails | api/index.py:199-208 | A line whose start side has other than three fields is malformed, whatever the end side. |
| Transcripts.EndFieldCountFails | api/index.py:199-208 | A line with a readable start whose end side has other than three fields is malformed. |
| Transcripts.ClockOfDigits | api/index.py:205-206 | Unpacked into exactly three digit fields, `h, m, s` read as their weighted sum in milliseconds; seconds without a decimal point are whole seconds. |
| Transcripts.FormatTimeReadsBack | api/index.py:210-215 | The `HH:MM:SS` rendering of a time reads back as that time truncated to whole seconds. |
| Transcripts.SkippedLineIgnored | api/index.py:129-131 | Inserting a blank or all-digit line anywhere in the payload leaves the reader's result unchanged. |
| Transcripts.RunAppendsSegments | api/index.py:133-152 | The reader only appends segments. Emitted segments plus a pending timestamp never outnumber the timestamp lines read. |
| Transcripts.SegmentCountBound | api/index.py:126-165 | A payload yields at most one segment per timestamp line. |
| Transcripts.RunCountsTimestamps | api/index.py:126-152 | When caption text follows every timestamp line, each timestamp line read is either emitted as a segment or still pending with text: none is lost. |
| Transcripts.SegmentCountExact | api/index.py:126-165 | When caption text follows every timestamp line, a payload that reads yields exactly one segment per timestamp line. |
| Transcripts.WellFormedPayloadSegments | api/index.py:126-165 | A payload made of well-formed blocks, then any blank lines, reads as one segment per block, in block order. A block is skipped lines, a timestamp line that reads, and one or more caption text lines. Segment `k` has the start and end times of block `k`'s timestamp line, and its text lines stripped and joined by single spaces. |
| Transcripts.ReadyThenBlocks | api/index.py:126-165 | With text pending under a readable timestamp, a run of well-formed blocks emits the pending segment first. It then emits one segment per block, the last at the final flush. |
| Transcripts.BlockClosesPending | api/index.py:134-152 | A timestamp line closes the pending segment: the pending timestamp's times, and the pending lines joined by single spaces. The text lines after it become the new pending text, stripped, under the new timestamp. |
| Transcripts.BlockOpens | api/index.py:134-152 | With nothing pending, a timestamp line and the text lines after it emit nothing. The text is left pending, stripped, under that timestamp. |
| Transcripts.RunSkippedLines | api/index.py:127-131 | Any run of blank or all-digit lines leaves the reader's state unchanged. |
| Transcripts.SrtLineReads | api/index.py:127-134 | A `h:m:s,fff --> h:m:s,fff` line of digit fields is already stripped and counts as a timestamp line. Its times are the two clock values in milliseconds. |
| Transcripts.TwoBlocks | api/index.py:126-165 | A number line, a timestamp line and one text line, a blank line, then the same again and a final blank line, read as two segments. Each segment has its own block's times and text. |
| Transcripts.TwoBlockPayload | api/index.py:126-165 | The payload `1`, `00:00:00,000 --> 00:00:02,500`, `Hello world`, blank, `2`, `00:00:02,500 --> 00:00:05,000`, `Goodbye`, blank reads as the segments 0–2500 ms "Hello world" and 2500–5000 ms "Goodbye". |
| Transcripts.RunAppend | api/index.py:126-152 | Reading two runs of lines one after the other is reading their concatenation, and a failure in the first ends the whole. |
| Transcripts.RunTextLines | api/index.py:150-152 | A run of caption text lines is appended, stripped and in order, to the pending text. |
| Transcripts.RunKeepsClean | api/index.py:126-152 | Every pending line and every emitted segment text is non-empty and has no surrounding whitespace. |
| Transcripts.SegmentTextsClean | api/index.py:126-165 | Every segment text of a parsed payload is non-empty and stripped. |
| Transcripts.FinishedTextsClean | api/index.py:154-165 | The flush after the loop keeps every segment text non-empty and stripped. |
| Transcripts.TimestampWithoutText | api/index.py:134-149 | A timestamp line with no text before the next one is replaced by it, and no segment is emitted. |
| Transcripts.TextBeforeFirstTimestamp | api/index.py:126-152 | Any number of text lines before the first timestamp line stay pending, stripped and in order, under that timestamp, whatever follows. |
| Transcripts.LeadingTextInFirstSegment | api/index.py:126-165 | Leading text lines, a timestamp line and a text line give one segment whose text is all the text lines, in order, joined by single spaces. |
| Transcripts.RunTextTimestampText | api/index.py:126-152 | Before the flush, a text line, a timestamp line and a text line leave that timestamp pending with both texts. |
| Transcripts.UnreadablePendingFails | api/index.py:134-160 | Once an unreadable timestamp has text pending, the payload fails with that timestamp: at the next timestamp line, or at the final flush. |
| Transcripts.MalformedTimestampFails | api/index.py:134-160 | After any payload that reads, an unreadable timestamp line followed by text makes the whole transcript fail with that line, whatever follows. |
| Transcripts.AccumulatedStrips | api/index.py:146-187 | `full_text.strip()` equals the segment texts joined by single spaces. |
| Transcripts.AccumulatedSnoc | api/index.py:146-165 | Each emitted segment adds its text and one space to `full_text`. |
| Transcripts.ParsedTextsOneLine | api/index.py:126-165 | No segment text of a payload split on line feeds contains a line feed. |
| Transcripts.FormattedSplitsIntoBlocks | api/index.py:167-172 | When no segment text holds a line feed, splitting the blocks joined by blank lines on blank lines gives back the blocks. |
| Transcripts.FormattedBlocks | api/index.py:119-188 | The `formatted` string of any payload splits on blank lines back into its blocks, one per segment. |
| Transcripts.ReadSegments | api/index.py:119-165 | The accumulator loop succeeds exactly when the reader does and gives the same segments or error. Its `full_text` is the texts joined by spaces. |
| Transcripts.ParseTranscript | api/index.py:115-192 | The payload is split on line feeds and read by `ParseSegments`, whose segments for payloads of well-formed blocks are given by `WellFormedPayloadSegments`. `full` and `formatted` (blocks joined by blank lines) are built from the segments, and the language is passed through. `formatted` splits on blank lines back into the blocks. |
| Transcripts.GetTranscript | api/index.py:66-196 | Selection failure is returned as is. Otherwise the chosen track's payload is read as above, and its language is reported. |
| VideoDetails.FirstMatch | api/index.py:48-50 | The leftmost position where a digit run directly followed by the unit letter starts. |
| VideoDetails.DurationSeconds | api/index.py:43-57 | The three `+=` steps give hours·3600 + minutes·60 + seconds of the first match of each, a missing one counting 0. |
| VideoDetails.UnitFieldAppend | api/index.py:48-50 | After a prefix that does not end in a digit, a search finds the prefix's match if it has one, else the suffix's. |
| VideoDetails.NoMatchWithoutDigits | api/index.py:48-57 | A string without digits matches no component. |
| VideoDetails.ComponentField | api/index.py:48-50 | `nU` gives `n` to the search for `U` and nothing to the search for any other letter. |
| VideoDetails.DurationOfDesignators | api/index.py:43-57 | `PT[nH][nM][nS]` reads as `h*3600 + m*60 + s`, each absent component counting 0. |
| VideoDetails.DesignatorField | api/index.py:48-50 | Each of the three searches on `PT[nH][nM][nS]` finds its own component. |
| VideoDetails.DaysIgnored | api/index.py:48-57 | A `PnDT…` duration reads as its time part alone: whole days are lost. |
| VideoDetails.MonthsReadAsMinutes | api/index.py:48-57 | In `PnMT…` the month count is taken as the minutes and the time part's minutes are ignored. |
| Documents.Word | api/google_docs.py:199-203 | `{n}{unit}` is a digit run followed by the unit letter, and it reads back as `n`. |
| Documents.FormatDurationReadsBack | api/google_docs.py:193-203 | The rendering reads back as the seconds it came from. It has three words from one hour on, two from one minute on, otherwise one. |
| Documents.ApplyInserts | api/google_docs.py:92-149 | Inserts that each start where the previous text ended lay their texts down in order. |
| Documents.CreateRequests | api/google_docs.py:70-164 | The appends and the `current_index` updates build exactly `CreateScript`, the source's own offsets included. |
| Documents.CreateScriptShape | api/google_docs.py:70-164 | One insert per block in document order, then the title style. There are seven requests with a non-empty analysis and five without; an empty analysis counts as none. The first insert is at 1, and each later one is where the previous text ended, less the lag (see Findings). |
| Documents.CreateScriptDocument | api/google_docs.py:70-170 | Applied to a new document, the source's script gives the title line, one newline, the metadata, and then the rest with the displaced newlines at the end. |
| Documents.CreateOffsetsIncrease | api/google_docs.py:84-139 | The insert offsets of the source's script strictly increase. |
| Documents.CreateScriptStylesOnlyTitle | api/google_docs.py:151-164 | The only paragraph style the create path applies is `HEADING_1` over the title line. |
| Documents.CreateScriptMisplacesMetadata | api/google_docs.py:84 | That document is never the intended one: right after the title line it has `V` (the metadata) where a blank line was meant. |
| Documents.CreateScriptDrift | api/google_docs.py:84-139 | The source's and the corrected scripts have the same texts and title style. The source's insert `k` is one character early from the metadata on, and two from the transcript header on when there is an analysis. |
| Documents.CorrectedScriptShape | api/google_docs.py:84-139 | In the corrected script each insert starts exactly where the previous text ended, from index 1. |
| Documents.CorrectedScriptDocument | api/google_docs.py:70-164 | The corrected script yields the blocks one after another, then the body's final newline. |
| Documents.TitleStyleCoversTitleLine | api/google_docs.py:151-164 | The `HEADING_1` range covers exactly the title line, ending at its newline, in both documents. |
| Documents.InsertsChain | api/google_docs.py:101-139 | A chain of inserts starts at its index, and each next insert is offset by the previous text's length. |
| Documents.SpliceIndex | api/google_docs.py:215-231 | The start of the first `HEADING_2` paragraph mentioning "Full Transcript". It is 1 when there is none, and when that start is missing or 0. It is never 0. |
| Documents.LocateAnalysisSplice | api/google_docs.py:215-231 | The `for … break` search and the fallback give `SpliceIndex`. |
| Documents.NoHeading2SplicesAtStart | api/google_docs.py:218-231 | A body without any `HEADING_2` paragraph is spliced at index 1. |
| Documents.LaterContentIgnored | api/google_docs.py:218-227 | Once a transcript heading is present, content appended after it does not move the splice point. |
| Documents.FindPrefix | api/google_docs.py:218-227 | A first-match search that succeeds in a prefix gives the same answer on any extension. |
| Documents.UpdateRequests | api/google_docs.py:233-259 | The two requests are the analysis block at `SpliceIndex`, then `HEADING_2` over the stripped header. |
| Documents.HeaderLine | api/google_docs.py:251 | The stripped analysis header is `## Analysis`. |
| Documents.UpdateScriptDocument | api/google_docs.py:233-259 | The update is accepted exactly when the splice point lies in the body. The block then appears there, and the `HEADING_2` range covers exactly `## Analysis`, up to its newline. |

## Left out

- The service calls (captions list and download, video details, Drive, Docs and
  permissions) and the credentials behind them are not modelled. The caption
  payload is a function parameter of `Transcripts.GetTranscript`.
- Folder handling, the share link, the document URLs and the Flask routes are not
  modelled. `get_video_details`'s `None` for an unknown video is not modelled
  either.
- UTF-8 decoding is not modelled: the payload is already text.
- Docs indices count UTF-16 code units, while the model counts characters. They
  agree on text without astral characters.
- `str.strip`, `str.isdigit` and `str.lower` are modelled on ASCII only. The
  Unicode whitespace, digit and case tables are not modelled.
- Transcripts.ParseClockOfDigits: states whole-second fields only. Seconds with
  a fraction are stated by `Transcripts.ParseClockOfFraction`.
- Transcripts.SrtTimestampReads: states fractions of exactly three digits, the
  SubRip form. Other fraction lengths are read by `Transcripts.DecimalMillis`,
  truncated to milliseconds, but no lemma states them for a whole line.
- Transcripts.SegmentCountBound: gives only the upper bound for an arbitrary
  payload. Equality, for payloads where text follows every timestamp line, is
  `Transcripts.SegmentCountExact`.
- Transcripts.ParseClock: accepts only `\d+(\.\d+)?` seconds and plain digit
  hours and minutes. Python's `int` and `float` also accept signs, surrounding
  spaces, underscores, exponents, `inf` and `nan`; such a field reads as malformed
  here. Beyond milliseconds, fraction digits are truncated rather than kept as a
  float.
- Transcripts.GetTranscript: the exception text of the error dictionaries is not
  modelled. Errors are the constructors of `TranscriptError`.
- Transcripts.Block: the rendered start and end times are whole seconds.
  Fractional seconds of the float times are not rendered, and rendering a negative
  time is not modelled, since times are `nat`.
- Documents.Apply: a paragraph style's visual effect is not modelled. Only its
  range check and the fact that it leaves the text alone are.
- Documents.SpliceIndex: a body whose `content` is missing, which would raise in
  the source, is not modelled. The fetched body is always a sequence of elements.

## Findings

| source | as written | input that shows it | evidently intended | confidence | as-written member | corrected member |
|---|---|---|---|---|---|---|
| api/google_docs.py:84 | The metadata insert goes at `len(title_text)`, one index before the title text ends. Docs indices start at 1 and the title was inserted at 1. | any video, e.g. title "A": the metadata lands before the second newline of the title's blank line, leaving `# Meeting Transcript: A\nVideo URL: …` | `1 + len(title_text)`, so the metadata follows the blank line | not executed | Documents.CreateScriptMisplacesMetadata | Documents.CorrectedScriptDocument |
| api/google_docs.py:126 | After the analysis body, `current_index` advances by `len(analysis_text) + 6`, but the appended trailer `"\n\n---\n\n"` is 7 characters long. | any non-empty analysis: the transcript header lands one character inside the trailer, and the drift grows to two | advance by `len(analysis_text) + 7` | not executed | Documents.CreateScriptDrift | Documents.CorrectedScriptShape |
