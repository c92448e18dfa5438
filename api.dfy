/** The backend's API routes: request validation for /analyze and
    /analyze/file, the per-line CSV analysis, history pagination, the delete
    status and the export format and CSV rows. Authentication is outside the
    model: every route receives the user id. */
module Api {
  import opened Text
  import SD = SpamDetection
  import DB = DatabaseService

  /** A JSON value in a request body, as far as the routes look at it. */
  datatype JsonValue = JString(s: string) | JNonString

  /** The parsed body: a JSON object, or None when get_json() gives None. */
  type Body = Option<map<string, JsonValue>>

  /** An error reply: HTTP status and the `code` field. */
  datatype Failure = Failure(status: int, code: string)

  /** One analysed line of a CSV upload. */
  datatype CsvResult = CsvResult(lineNumber: nat, content: string, analysis: SD.Analysis)

  datatype Pagination = Pagination(
    page: int, perPage: int, totalCount: nat, totalPages: int, hasNext: bool, hasPrev: bool)

  datatype Reply =
    | Analyzed(messageId: DB.ObjectId, analysis: SD.Analysis)
    | CsvAnalyzed(linesProcessed: nat, results: seq<CsvResult>)
    | History(messages: seq<DB.Message>, pagination: Pagination)
    | Deleted
    | ExportedCsv(rows: seq<seq<string>>, filename: string)
    | ExportedPdf(filename: string)
    | Failed(failure: Failure)

  /** What a request carries besides its body: the authenticated user, the
      client address and agent, and the server clock. */
  datatype Context = Context(
    userId: string, ip: Option<string>, userAgent: Option<string>,
    now: string, today: string, month: string)

  const MaxMessageLength := 5000
  const MaxFileLength := 10000
  const MaxCsvLines := 50
  const MaxPerPage := 100

  // ------------------------------------------------------------ /analyze

  /** The checks of /analyze, in order: a body with a `content` key, a
      string there (anything else fails in .strip() and the handler answers
      500), not blank once stripped, and at most 5000 characters. */
  function AnalyzeRequest(data: Body): (r: Result<string, Failure>)
    ensures data.None? || "content" !in data.value ==> r == Err(Failure(400, "MISSING_CONTENT"))
    ensures data.Some? && "content" in data.value && data.value["content"].JNonString? ==>
              r == Err(Failure(500, "ANALYSIS_ERROR"))
    ensures data.Some? && "content" in data.value && data.value["content"].JString? ==>
              var c := Strip(data.value["content"].s);
              && (c == [] ==> r == Err(Failure(400, "EMPTY_CONTENT")))
              && (c != [] && |c| > MaxMessageLength ==> r == Err(Failure(400, "MESSAGE_TOO_LONG")))
              && (c != [] && |c| <= MaxMessageLength ==> r == Ok(c))
    ensures r.Ok? ==> 1 <= |r.value| <= MaxMessageLength && !AllSpace(r.value)
  {
    if data.None? || "content" !in data.value then Err(Failure(400, "MISSING_CONTENT"))
    else match data.value["content"]
      case JNonString => Err(Failure(500, "ANALYSIS_ERROR"))
      case JString(s) =>
        var c := Strip(s);
        if c == [] then Err(Failure(400, "EMPTY_CONTENT"))
        else if |c| > MaxMessageLength then Err(Failure(400, "MESSAGE_TOO_LONG"))
        else
          StripEmptyIff(s);
          assert !IsSpace(c[0]);
          Ok(c)
  }

  /** Content /analyze accepts is never blank, so there the analyzer as
      written fails only when the classifier is missing or fails. */
  lemma AcceptedContentAvoidsBlankPath(data: Body, o: SD.Oracle)
    requires AnalyzeRequest(data).Ok?
    requires o.classifier.Some? && o.classifier.value(AnalyzeRequest(data).value).Predicted?
    ensures SD.AnalyzeAsWritten(AnalyzeRequest(data).value, o) == Ok(SD.Analyze(AnalyzeRequest(data).value, o))
  {
    var c := AnalyzeRequest(data).value;
    assert !IsSpace(c[0]);
    assert LowerChar(c[0]) == Lower(c)[0];
    assert !IsSpace(Lower(c)[0]);
    SD.AsWrittenAgrees(c, o);
  }

  /** POST /analyze: validate, analyse, store, answer with the new id. */
  method AnalyzeRoute(db: DB.Database, ctx: Context, data: Body, o: SD.Oracle) returns (reply: Reply)
    requires db.Valid()
    modifies db
    ensures db.Valid()
    ensures AnalyzeRequest(data).Err? ==>
              reply == Failed(AnalyzeRequest(data).error) && db.messages == old(db.messages) &&
              db.statistics == old(db.statistics) && db.inserted == old(db.inserted)
    ensures AnalyzeRequest(data).Ok? ==>
              var content := AnalyzeRequest(data).value;
              var a := SD.Analyze(content, o);
              var m := DB.MessageOf(DB.ObjectId(old(db.inserted)), ctx.userId, content, DB.FieldsOf(a), ctx.ip, ctx.userAgent, ctx.now);
              && reply == Analyzed(m.id, a)
              && db.messages == [m] + old(db.messages)
              && db.inserted == old(db.inserted) + 1
              && db.statistics == DB.Recorded(old(db.statistics), ctx.userId, Some(a.classification), ctx.today, ctx.month, ctx.now)
  {
    var request := AnalyzeRequest(data);
    if request.Err? {
      return Failed(request.error);
    }
    var a := SD.AnalyzeMessage(request.value, o);
    var m := db.SaveMessageAnalysis(ctx.userId, request.value, DB.FieldsOf(a), ctx.ip, ctx.userAgent,
                                    ctx.now, ctx.today, ctx.month);
    reply := Analyzed(m.id, a);
  }

  // ------------------------------------------------------- /analyze/file

  /** The `file` part of a multipart upload: missing, or a file name with
      its content, which is None when it is not valid UTF-8. */
  datatype Upload = NoFilePart | FilePart(filename: string, text: Option<string>)

  predicate IsCsvName(name: string) { EndsWith(Lower(name), ".csv") }

  predicate IsTextName(name: string) { EndsWith(Lower(name), ".txt") }

  /** The checks of /analyze/file, in order; on success the decoded
      content. */
  function FileRequest(f: Upload): (r: Result<string, Failure>)
    ensures f.NoFilePart? ==> r == Err(Failure(400, "NO_FILE"))
    ensures f.FilePart? && f.filename == "" ==> r == Err(Failure(400, "NO_FILE_SELECTED"))
    ensures f.FilePart? && f.filename != "" && !IsTextName(f.filename) && !IsCsvName(f.filename) ==>
              r == Err(Failure(400, "INVALID_FILE_TYPE"))
    ensures f.FilePart? && (IsTextName(f.filename) || IsCsvName(f.filename)) && f.text.None? ==>
              r == Err(Failure(400, "ENCODING_ERROR"))
    ensures f.FilePart? && (IsTextName(f.filename) || IsCsvName(f.filename)) && f.text.Some? ==>
              r == (if |f.text.value| > MaxFileLength then Err(Failure(400, "FILE_TOO_LARGE")) else Ok(f.text.value))
    ensures r.Ok? ==> f.FilePart? && f.text == Some(r.value) && |r.value| <= MaxFileLength
  {
    match f
    case NoFilePart => Err(Failure(400, "NO_FILE"))
    case FilePart(name, text) =>
      if name == "" then Err(Failure(400, "NO_FILE_SELECTED"))
      else if !(IsTextName(name) || IsCsvName(name)) then Err(Failure(400, "INVALID_FILE_TYPE"))
      else if text.None? then Err(Failure(400, "ENCODING_ERROR"))
      else if |text.value| > MaxFileLength then Err(Failure(400, "FILE_TOO_LARGE"))
      else Ok(text.value)
  }

  /** The preview of one CSV line: its stripped text cut to 100 characters,
      with "..." when the line as read (before stripping) is longer than
      100. */
  function Preview(line: string): (r: string)
    ensures |r| <= 103
    ensures |line| <= 100 ==> r == Strip(line)
    ensures |line| > 100 ==> |r| >= 3 && r[|r| - 3..] == "..." && r[..|r| - 3] == Take(Strip(line), 100)
  {
    var head := Take(Strip(line), 100);
    if |line| > 100 then
      head + "..."
    else
      assert |Strip(line)| <= 100;
      head
  }

  /** The first 50 lines of a CSV upload. */
  function CsvLines(content: string): (lines: seq<string>)
    ensures 1 <= |lines| <= MaxCsvLines
    ensures forall k :: 0 <= k < |lines| ==> '\n' !in lines[k]
  {
    Take(Split(content, '\n'), MaxCsvLines)
  }

  /** A line that strips to nothing (StripEmptyIff): all white space. */
  predicate Blank(line: string) { AllSpace(line) }

  /** A line of the upload with its 1-based number. */
  datatype NumberedLine = NumberedLine(number: nat, text: string)

  /** Line `n` of `lines`, counting from 1. */
  function LineAt(lines: seq<string>, n: nat): NumberedLine
    requires 1 <= n <= |lines|
  {
    NumberedLine(n, lines[n - 1])
  }

  /** The lines that are not blank, numbered from 1, in order. */
  function NonBlankLines(lines: seq<string>): (r: seq<NumberedLine>)
    ensures |r| <= |lines|
    ensures forall k :: 0 <= k < |r| ==> 1 <= r[k].number <= |lines|
  {
    if lines == [] then []
    else
      var n := |lines|;
      NonBlankLines(lines[..n - 1]) + (if !Blank(lines[n - 1]) then [NumberedLine(n, lines[n - 1])] else [])
  }

  /** Each picked line is the line of that number and is not blank, and the
      numbers increase. */
  lemma {:induction false} NonBlankLinesSound(lines: seq<string>)
    ensures forall k :: 0 <= k < |NonBlankLines(lines)| ==>
              NonBlankLines(lines)[k].text == lines[NonBlankLines(lines)[k].number - 1] && !Blank(NonBlankLines(lines)[k].text)
    ensures forall j, k :: 0 <= j < k < |NonBlankLines(lines)| ==> NonBlankLines(lines)[j].number < NonBlankLines(lines)[k].number
  {
    if lines != [] {
      var n := |lines|;
      var prefix := lines[..n - 1];
      NonBlankLinesSound(prefix);
      var before := NonBlankLines(prefix);
      var r := NonBlankLines(lines);
      assert r == before + (if !Blank(lines[n - 1]) then [NumberedLine(n, lines[n - 1])] else []);
      forall k | 0 <= k < |r|
        ensures r[k].text == lines[r[k].number - 1] && !Blank(r[k].text) && (k < |before| ==> r[k] == before[k])
      {
        if k < |before| {
          assert r[k] == before[k];
          assert lines[before[k].number - 1] == prefix[before[k].number - 1];
        } else {
          assert r[k] == NumberedLine(n, lines[n - 1]);
        }
      }
      forall j, k | 0 <= j < k < |r| ensures r[j].number < r[k].number {
        if k >= |before| {
          assert r[j] == before[j] && before[j].number <= n - 1;
        }
      }
    }
  }

  /** Each picked line is the line of its number. */
  lemma NonBlankLinesText(lines: seq<string>)
    ensures forall k :: 0 <= k < |NonBlankLines(lines)| ==>
              NonBlankLines(lines)[k].text == lines[NonBlankLines(lines)[k].number - 1]
  {
    NonBlankLinesSound(lines);
  }

  /** Every line that is not blank is picked. */
  lemma {:induction false} NonBlankLinesComplete(lines: seq<string>, i: nat)
    requires i < |lines| && !Blank(lines[i])
    ensures exists k :: 0 <= k < |NonBlankLines(lines)| && NonBlankLines(lines)[k] == NumberedLine(i + 1, lines[i])
  {
    var n := |lines|;
    var r := NonBlankLines(lines);
    if i == n - 1 {
      assert r[|r| - 1] == NumberedLine(i + 1, lines[i]);
    } else {
      var prefix := lines[..n - 1];
      NonBlankLinesComplete(prefix, i);
      var before := NonBlankLines(prefix);
      var k :| 0 <= k < |before| && before[k] == NumberedLine(i + 1, prefix[i]);
      assert r[k] == before[k];
    }
  }

  /** The detector as the CSV loop uses it: one analysis per text. */
  type Detector = string -> SD.Analysis

  function DetectorOf(o: SD.Oracle): Detector {
    s => SD.Analyze(s, o)
  }

  /** The result for one line that is not blank: its number, its preview
      and the analysis of its stripped text. */
  function ResultFor(l: NumberedLine, detect: Detector): (r: CsvResult)
    ensures r.lineNumber == l.number
  {
    CsvResult(l.number, Preview(l.text), detect(Strip(l.text)))
  }

  function ResultMaker(detect: Detector): NumberedLine -> CsvResult {
    l => ResultFor(l, detect)
  }

  /** `f` applied to each element of `xs`, in order. */
  function Each<A, B>(xs: seq<A>, f: A -> B): (r: seq<B>)
    ensures |r| == |xs| && forall k :: 0 <= k < |xs| ==> r[k] == f(xs[k])
  {
    seq(|xs|, k requires 0 <= k < |xs| => f(xs[k]))
  }

  lemma EachSnoc<A, B>(xs: seq<A>, x: A, f: A -> B)
    ensures Each(xs + [x], f) == Each(xs, f) + [f(x)]
  {
    var a := Each(xs + [x], f);
    var b := Each(xs, f) + [f(x)];
    forall k | 0 <= k < |a| ensures a[k] == b[k] {
      if k < |xs| {
        assert (xs + [x])[k] == xs[k];
      }
    }
  }

  /** The results of a CSV upload's lines: those of the lines that are not
      blank, in order. */
  function CsvResults(lines: seq<string>, detect: Detector): seq<CsvResult> {
    Each(NonBlankLines(lines), ResultMaker(detect))
  }

  /** Result k carries the number of the k-th line that is not blank. */
  lemma CsvResultNumbers(lines: seq<string>, detect: Detector)
    ensures |CsvResults(lines, detect)| == |NonBlankLines(lines)|
    ensures forall k :: 0 <= k < |CsvResults(lines, detect)| ==>
              CsvResults(lines, detect)[k].lineNumber == NonBlankLines(lines)[k].number
  {
  }

  /** Each result names a line that is not blank, at most once and in
      order. */
  lemma CsvResultsCoverLines(lines: seq<string>, detect: Detector)
    ensures |CsvResults(lines, detect)| <= |lines|
    ensures forall k :: 0 <= k < |CsvResults(lines, detect)| ==>
              1 <= CsvResults(lines, detect)[k].lineNumber <= |lines| && !Blank(lines[CsvResults(lines, detect)[k].lineNumber - 1])
    ensures forall j, k :: 0 <= j < k < |CsvResults(lines, detect)| ==>
              CsvResults(lines, detect)[j].lineNumber < CsvResults(lines, detect)[k].lineNumber
  {
    NonBlankLinesSound(lines);
    CsvResultNumbers(lines, detect);
  }

  /** Every line that is not blank has a result. */
  lemma CsvResultsCoverAll(lines: seq<string>, detect: Detector)
    ensures forall i :: 0 <= i < |lines| && !Blank(lines[i]) ==>
              exists k :: 0 <= k < |CsvResults(lines, detect)| && CsvResults(lines, detect)[k].lineNumber == i + 1
  {
    CsvResultNumbers(lines, detect);
    var picked := NonBlankLines(lines);
    var r := CsvResults(lines, detect);
    forall i | 0 <= i < |lines| && !Blank(lines[i])
      ensures exists k :: 0 <= k < |r| && r[k].lineNumber == i + 1
    {
      NonBlankLinesComplete(lines, i);
      var k :| 0 <= k < |picked| && picked[k] == NumberedLine(i + 1, lines[i]);
      assert r[k].lineNumber == i + 1;
    }
  }

  /** Each result is the preview and analysis of the line it names. */
  lemma CsvResultsDescribeLines(lines: seq<string>, detect: Detector)
    ensures forall k :: 0 <= k < |CsvResults(lines, detect)| ==>
              1 <= CsvResults(lines, detect)[k].lineNumber <= |lines| &&
              CsvResults(lines, detect)[k] == ResultFor(LineAt(lines, CsvResults(lines, detect)[k].lineNumber), detect)
  {
    NonBlankLinesText(lines);
    CsvResultNumbers(lines, detect);
    var picked := NonBlankLines(lines);
    var r := CsvResults(lines, detect);
    forall k | 0 <= k < |r|
      ensures 1 <= r[k].lineNumber <= |lines| && r[k] == ResultFor(LineAt(lines, r[k].lineNumber), detect)
    {
      var l := picked[k];
      assert r[k] == ResultFor(l, detect);
      assert LineAt(lines, r[k].lineNumber) == l;
    }
  }

  /** With the detector itself, each result holds the preview of the line
      it names and the detector's analysis of that line, stripped. */
  lemma CsvResultsAnalyseLines(lines: seq<string>, o: SD.Oracle)
    ensures forall k :: 0 <= k < |CsvResults(lines, DetectorOf(o))| ==>
              var n := CsvResults(lines, DetectorOf(o))[k].lineNumber;
              1 <= n <= |lines| &&
              CsvResults(lines, DetectorOf(o))[k].content == Preview(lines[n - 1]) &&
              CsvResults(lines, DetectorOf(o))[k].analysis == SD.Analyze(Strip(lines[n - 1]), o)
  {
    CsvResultsDescribeLines(lines, DetectorOf(o));
  }

  /** One more line extends the results by that line's, if it is not
      blank. */
  lemma CsvResultsSnoc(lines: seq<string>, i: nat, detect: Detector)
    requires i < |lines|
    ensures CsvResults(lines[..i + 1], detect)
         == CsvResults(lines[..i], detect) + (if !Blank(lines[i]) then [ResultFor(NumberedLine(i + 1, lines[i]), detect)] else [])
  {
    NonBlankLinesSnoc(lines, i);
    var l := NumberedLine(i + 1, lines[i]);
    if !Blank(lines[i]) {
      EachSnoc(NonBlankLines(lines[..i]), l, ResultMaker(detect));
      assert ResultMaker(detect)(l) == ResultFor(l, detect);
    } else {
      assert NonBlankLines(lines[..i + 1]) == NonBlankLines(lines[..i]);
    }
  }

  /** The document stored for the analysed CSV line `l` with result `r`,
      under the n-th id. */
  function SavedMessage(l: NumberedLine, r: CsvResult, n: nat, ctx: Context, agent: string): DB.Message {
    DB.MessageOf(DB.ObjectId(n), ctx.userId, Strip(l.text), DB.FieldsOf(r.analysis), ctx.ip, Some(agent), ctx.now)
  }

  /** The documents stored for the analysed CSV lines, oldest first; the
      first gets the `first`-th id. */
  function SavedMessages(picked: seq<NumberedLine>, results: seq<CsvResult>, first: nat,
                         ctx: Context, agent: string): (ms: seq<DB.Message>)
    requires |picked| == |results|
    ensures |ms| == |picked|
    ensures forall j :: 0 <= j < |ms| ==> ms[j] == SavedMessage(picked[j], results[j], first + j, ctx, agent)
  {
    if picked == [] then []
    else
      var n := |picked| - 1;
      SavedMessages(picked[..n], results[..n], first, ctx, agent) + [SavedMessage(picked[n], results[n], first + n, ctx, agent)]
  }

  function Reversed<T>(s: seq<T>): (r: seq<T>)
    ensures |r| == |s| && forall k :: 0 <= k < |s| ==> r[k] == s[|s| - 1 - k]
  {
    if s == [] then [] else Reversed(s[1..]) + [s[0]]
  }

  lemma ReversedSnoc<T>(s: seq<T>, x: T)
    ensures Reversed(s + [x]) == [x] + Reversed(s)
  {
    var a := Reversed(s + [x]);
    var b := [x] + Reversed(s);
    assert |a| == |b|;
    forall k | 0 <= k < |a| ensures a[k] == b[k] {
    }
  }

  lemma ConsAppend<T>(x: T, a: seq<T>, b: seq<T>)
    ensures [x] + (a + b) == ([x] + a) + b
  {
  }

  /** The store holds `base` with the documents of the `results` so far
      on top, and the statistics count their classifications on top of
      `baseStats`. */
  ghost predicate Stored(db: DB.Database, ctx: Context, agent: string,
                         picked: seq<NumberedLine>, results: seq<CsvResult>, first: nat,
                         base: seq<DB.Message>, baseStats: map<string, DB.UserStats>)
    reads db
  {
    && DB.AllValid(baseStats)
    && |picked| == |results|
    && db.inserted == first + |results|
    && db.messages == Reversed(SavedMessages(picked, results, first, ctx, agent)) + base
    && db.statistics == DB.RecordAll(baseStats, ctx.userId, Classes(results), ctx.today, ctx.month, ctx.now)
  }

  /** Analyse and store one CSV line that is not blank, extending the
      documents and statistics the loop has produced so far by its own. */
  method SaveLine(db: DB.Database, ctx: Context, agent: string, l: NumberedLine, detect: Detector,
                  ghost picked: seq<NumberedLine>, ghost results: seq<CsvResult>, ghost first: nat,
                  ghost base: seq<DB.Message>, ghost baseStats: map<string, DB.UserStats>)
    returns (r: CsvResult)
    requires db.Valid()
    requires Stored(db, ctx, agent, picked, results, first, base, baseStats)
    modifies db
    ensures db.Valid()
    ensures r == ResultFor(l, detect)
    ensures Stored(db, ctx, agent, picked + [l], results + [r], first, base, baseStats)
  {
    var content := Strip(l.text);
    var a := detect(content);
    r := CsvResult(l.number, Preview(l.text), a);
    ghost var saved := SavedMessages(picked, results, first, ctx, agent);
    var m := db.SaveMessageAnalysis(ctx.userId, content, DB.FieldsOf(a), ctx.ip, Some(agent),
                                    ctx.now, ctx.today, ctx.month);
    ClassesSnoc(results, r);
    DB.RecordAllSnoc(baseStats, ctx.userId, Classes(results), a.classification, ctx.today, ctx.month, ctx.now);
    assert m == SavedMessage(l, r, first + |results|, ctx, agent);
    SavedMessagesSnoc(picked, results, l, r, first, ctx, agent);
    assert SavedMessages(picked + [l], results + [r], first, ctx, agent) == saved + [m];
    ReversedSnoc(saved, m);
    ConsAppend(m, Reversed(saved), base);
  }

  /** `picked` and `results` are what the first `i` lines give. */
  ghost predicate Covered(lines: seq<string>, i: nat, detect: Detector,
                          picked: seq<NumberedLine>, results: seq<CsvResult>)
  {
    i <= |lines| && picked == NonBlankLines(lines[..i]) && results == CsvResults(lines[..i], detect)
  }

  /** One turn of the CSV loop: line `i` is skipped when blank, and
      otherwise analysed and stored. */
  method CsvStep(db: DB.Database, ctx: Context, agent: string, lines: seq<string>, i: nat, detect: Detector,
                 results: seq<CsvResult>, ghost picked: seq<NumberedLine>, ghost first: nat,
                 ghost base: seq<DB.Message>, ghost baseStats: map<string, DB.UserStats>)
    returns (results': seq<CsvResult>, ghost picked': seq<NumberedLine>)
    requires i < |lines| && db.Valid()
    requires Covered(lines, i, detect, picked, results)
    requires Stored(db, ctx, agent, picked, results, first, base, baseStats)
    modifies db
    ensures db.Valid()
    ensures Covered(lines, i + 1, detect, picked', results')
    ensures Stored(db, ctx, agent, picked', results', first, base, baseStats)
  {
    var line := lines[i];
    CsvResultsSnoc(lines, i, detect);
    NonBlankLinesSnoc(lines, i);
    StripEmptyIff(line);
    if Strip(line) != [] {
      var l := NumberedLine(i + 1, line);
      var r := SaveLine(db, ctx, agent, l, detect, picked, results, first, base, baseStats);
      results' := results + [r];
      picked' := picked + [l];
    } else {
      results' := results;
      picked' := picked;
    }
  }

  /** The CSV branch of /analyze/file: analyse and store every line of
      `lines` that is not blank, in order, so that the newest document is
      the last line's. */
  method AnalyzeCsvLines(db: DB.Database, ctx: Context, agent: string, lines: seq<string>, detect: Detector)
    returns (results: seq<CsvResult>)
    requires db.Valid()
    modifies db
    ensures db.Valid()
    ensures results == CsvResults(lines, detect)
    ensures db.inserted == old(db.inserted) + |results|
    ensures db.messages == Reversed(SavedMessages(NonBlankLines(lines), results, old(db.inserted), ctx, agent)) + old(db.messages)
    ensures db.statistics == DB.RecordAll(old(db.statistics), ctx.userId, Classes(results), ctx.today, ctx.month, ctx.now)
  {
    results := [];
    ghost var picked: seq<NumberedLine> := [];
    ghost var first, base, baseStats := db.inserted, db.messages, db.statistics;
    var i := 0;
    while i < |lines|
      invariant db.Valid() && Covered(lines, i, detect, picked, results)
      invariant Stored(db, ctx, agent, picked, results, first, base, baseStats)
    {
      results, picked := CsvStep(db, ctx, agent, lines, i, detect, results, picked, first, base, baseStats);
      i := i + 1;
    }
    assert lines[..i] == lines;
  }

  lemma SavedMessagesSnoc(picked: seq<NumberedLine>, results: seq<CsvResult>, l: NumberedLine, r: CsvResult,
                          first: nat, ctx: Context, agent: string)
    requires |picked| == |results|
    ensures SavedMessages(picked + [l], results + [r], first, ctx, agent)
         == SavedMessages(picked, results, first, ctx, agent) + [SavedMessage(l, r, first + |results|, ctx, agent)]
  {
    assert (picked + [l])[..|picked|] == picked;
    assert (results + [r])[..|results|] == results;
  }

  lemma NonBlankLinesSnoc(lines: seq<string>, i: nat)
    requires i < |lines|
    ensures NonBlankLines(lines[..i + 1])
         == NonBlankLines(lines[..i]) + (if !Blank(lines[i]) then [NumberedLine(i + 1, lines[i])] else [])
  {
    assert lines[..i + 1][..i] == lines[..i];
    assert lines[..i + 1][i] == lines[i];
  }

  lemma ClassesSnoc(results: seq<CsvResult>, r: CsvResult)
    ensures Classes(results + [r]) == Classes(results) + [r.analysis.classification]
  {
    var a := Classes(results + [r]);
    var b := Classes(results) + [r.analysis.classification];
    assert |a| == |b|;
    forall k | 0 <= k < |a| ensures a[k] == b[k] {
      if k < |results| {
        assert (results + [r])[k] == results[k];
      }
    }
  }

  /** The classifications of the analysed lines, in order. */
  function Classes(results: seq<CsvResult>): (cs: seq<string>)
    ensures |cs| == |results| && forall k :: 0 <= k < |cs| ==> cs[k] == results[k].analysis.classification
  {
    seq(|results|, k requires 0 <= k < |results| => results[k].analysis.classification)
  }

  /** POST /analyze/file. A .csv name selects the per-line analysis of
      the first 50 lines; any other accepted name is analysed as a whole. */
  method AnalyzeFileRoute(db: DB.Database, ctx: Context, f: Upload, o: SD.Oracle) returns (reply: Reply)
    requires db.Valid()
    modifies db
    ensures db.Valid()
    ensures FileRequest(f).Err? ==>
              reply == Failed(FileRequest(f).error) && db.messages == old(db.messages) &&
              db.statistics == old(db.statistics) && db.inserted == old(db.inserted)
    ensures FileRequest(f).Ok? && IsCsvName(f.filename) ==>
              var lines := CsvLines(FileRequest(f).value);
              var results := CsvResults(lines, DetectorOf(o));
              && reply == CsvAnalyzed(|results|, results) && db.inserted == old(db.inserted) + |results|
              && db.messages == Reversed(SavedMessages(NonBlankLines(lines), results, old(db.inserted), ctx,
                                                       "File Upload: " + f.filename)) + old(db.messages)
              && db.statistics == DB.RecordAll(old(db.statistics), ctx.userId, Classes(results), ctx.today, ctx.month, ctx.now)
    ensures FileRequest(f).Ok? && !IsCsvName(f.filename) ==>
              var content := FileRequest(f).value;
              var a := SD.Analyze(content, o);
              var m := DB.MessageOf(DB.ObjectId(old(db.inserted)), ctx.userId, content, DB.FieldsOf(a),
                                    ctx.ip, Some("File Upload: " + f.filename), ctx.now);
              && reply == Analyzed(m.id, a)
              && db.messages == [m] + old(db.messages)
              && db.inserted == old(db.inserted) + 1
              && db.statistics == DB.Recorded(old(db.statistics), ctx.userId, Some(a.classification), ctx.today, ctx.month, ctx.now)
  {
    var request := FileRequest(f);
    if request.Err? {
      return Failed(request.error);
    }
    var agent := "File Upload: " + f.filename;
    if IsCsvName(f.filename) {
      var results := AnalyzeCsvLines(db, ctx, agent, CsvLines(request.value), DetectorOf(o));
      reply := CsvAnalyzed(|results|, results);
    } else {
      var a := SD.AnalyzeMessage(request.value, o);
      var m := db.SaveMessageAnalysis(ctx.userId, request.value, DB.FieldsOf(a), ctx.ip, Some(agent),
                                      ctx.now, ctx.today, ctx.month);
      reply := Analyzed(m.id, a);
    }
  }

  // ------------------------------------------------------------ /history

  /** A query-string integer: absent, a number, or text int() rejects. */
  datatype QueryInt = Absent | Number(n: int) | NotANumber

  /** Python's // (floor division). */
  function PyFloorDiv(a: int, b: int): (q: int)
    requires b != 0
    ensures b > 0 ==> q * b <= a < q * b + b
    ensures b < 0 ==> q * b >= a > q * b + b
  {
    if b > 0 then a / b else (-a) / (-b)
  }

  /** The pagination block of a history reply. */
  function PaginationOf(page: int, perPage: int, total: nat): (p: Pagination)
    requires perPage != 0
    ensures p.page == page && p.perPage == perPage && p.totalCount == total
    ensures perPage > 0 ==> p.totalPages >= 0 && p.totalPages * perPage >= total &&
                             (p.totalPages == 0 <==> total == 0) &&
                             (p.totalPages > 0 ==> (p.totalPages - 1) * perPage < total)
    ensures p.hasNext <==> page < p.totalPages
    ensures p.hasPrev <==> page > 1
  {
    var pages := PyFloorDiv(total + perPage - 1, perPage);
    Pagination(page, perPage, total, pages, page < pages, page > 1)
  }

  /** With a positive page size there is a next page exactly when the
      messages run past the current page. */
  lemma HasNextIffMore(page: int, perPage: int, total: nat)
    requires perPage > 0
    ensures PaginationOf(page, perPage, total).hasNext <==> page * perPage < total
  {
    var tp := PaginationOf(page, perPage, total).totalPages;
    if page < tp {
      MulMonotone(page, tp - 1, perPage);
    } else {
      MulMonotone(tp, page, perPage);
    }
  }

  lemma MulMonotone(a: int, b: int, c: nat)
    requires a <= b
    ensures a * c <= b * c
  {
    var d := b - a;
    assert b * c == a * c + d * c;
  }

  function QueryValue(q: QueryInt, default: int): int
    requires !q.NotANumber?
  {
    if q.Number? then q.n else default
  }

  /** GET /history: page (default 1) and per_page (default 20, at most 100)
      select a window of the user's messages; text that is not a number and
      a per_page of 0 both end in 500. */
  method HistoryRoute(db: DB.Database, userId: string, pageArg: QueryInt, perPageArg: QueryInt,
                      classification: Option<string>) returns (reply: Reply)
    ensures pageArg.NotANumber? || perPageArg.NotANumber? ==> reply == Failed(Failure(500, "HISTORY_ERROR"))
    ensures !pageArg.NotANumber? && !perPageArg.NotANumber? ==>
              var page := QueryValue(pageArg, 1);
              var perPage := SD.Min(QueryValue(perPageArg, 20), MaxPerPage);
              && (perPage == 0 ==> reply == Failed(Failure(500, "HISTORY_ERROR")))
              && (perPage != 0 ==>
                    reply == History(DB.Page(DB.Matching(db.messages, userId, classification), (page - 1) * perPage, perPage),
                                     PaginationOf(page, perPage, db.MessageCount(userId, classification))))
  {
    if pageArg.NotANumber? || perPageArg.NotANumber? {
      return Failed(Failure(500, "HISTORY_ERROR"));
    }
    var page := QueryValue(pageArg, 1);
    var perPage := SD.Min(QueryValue(perPageArg, 20), MaxPerPage);
    var skip := (page - 1) * perPage;
    var messages := db.GetUserMessages(userId, perPage, skip, classification);
    var total := db.MessageCount(userId, classification);
    if perPage == 0 {
      return Failed(Failure(500, "HISTORY_ERROR"));
    }
    reply := History(messages, PaginationOf(page, perPage, total));
  }

  // ----------------------------------------------------- DELETE /history

  /** DELETE /history/<id>: success when the service removed a message,
      404 otherwise. */
  method DeleteRoute(db: DB.Database, userId: string, messageId: string) returns (reply: Reply)
    requires db.Valid()
    modifies db
    ensures db.Valid() && db.statistics == old(db.statistics)
    ensures reply == Deleted || reply == Failed(Failure(404, "MESSAGE_NOT_FOUND"))
    ensures reply == Deleted <==> |db.messages| == |old(db.messages)| - 1
    ensures reply == Deleted <==>
              DB.IsObjectIdText(messageId) &&
              exists k :: 0 <= k < |old(db.messages)| && DB.Identifies(old(db.messages)[k], Lower(messageId), userId)
  {
    var success := db.DeleteMessage(userId, messageId);
    if success {
      reply := Deleted;
    } else {
      reply := Failed(Failure(404, "MESSAGE_NOT_FOUND"));
    }
  }

  // ------------------------------------------------------------- /export

  /** The export format: `format` lower-cased, "pdf" when absent. A missing
      body or a format that is not a string fails in the handler (500). */
  function ExportFormat(data: Body): (r: Result<string, Failure>)
    ensures r.Ok? ==> r.value == "pdf" || r.value == "csv"
    ensures data.None? ==> r == Err(Failure(500, "EXPORT_ERROR"))
    ensures data.Some? && "format" !in data.value ==> r == Ok("pdf")
    ensures data.Some? && "format" in data.value && data.value["format"].JNonString? ==> r == Err(Failure(500, "EXPORT_ERROR"))
    ensures data.Some? && "format" in data.value && data.value["format"].JString? ==>
              var f := Lower(data.value["format"].s);
              r == (if f == "pdf" || f == "csv" then Ok(f) else Err(Failure(400, "INVALID_FORMAT")))
  {
    if data.None? then Err(Failure(500, "EXPORT_ERROR"))
    else if "format" !in data.value then Ok("pdf")
    else match data.value["format"]
      case JNonString => Err(Failure(500, "EXPORT_ERROR"))
      case JString(s) =>
        var f := Lower(s);
        if f == "pdf" || f == "csv" then Ok(f) else Err(Failure(400, "INVALID_FORMAT"))
  }

  const CsvFilePrefix := "spamshield_export_"
  const PdfFilePrefix := "spamshield_report_"

  /** The export file name: a fixed prefix, the first 8 characters of the
      user id, the format's extension. */
  function ExportFilename(format: string, userId: string): (r: string)
    requires format == "pdf" || format == "csv"
    ensures |r| == 18 + (if |userId| < 8 then |userId| else 8) + 4
    ensures r[..18] == (if format == "csv" then CsvFilePrefix else PdfFilePrefix)
    ensures r[18..|r| - 4] == userId[..|r| - 22]
    ensures r[|r| - 4..] == "." + format
  {
    (if format == "csv" then CsvFilePrefix else PdfFilePrefix) + Take(userId, 8) + "." + format
  }

  /** The content column: the first 100 characters, with "..." when the
      content is longer. */
  function ContentCell(content: string): (r: string)
    ensures |content| <= 100 ==> r == content
    ensures |content| > 100 ==> |r| == 103 && r[..100] == content[..100] && r[100..] == "..."
  {
    Take(content, 100) + (if |content| > 100 then "..." else "")
  }

  const CsvHeader: seq<string> :=
    ["Date", "Message Content", "Risk Score", "Classification", "Confidence", "Threats Detected", "Recommendations"]

  /** How numbers are written into the CSV; Python's str() and "{:.2f}"
      are not modelled. */
  datatype Formats = Formats(integer: int -> string, fixed2: real -> string)

  /** One exported row. The stored analysis details never have a
      `recommendations` key, so that column is always empty. */
  function ExportRow(m: DB.Message, fmt: Formats): (row: seq<string>)
    ensures |row| == |CsvHeader|
    ensures row[0] == m.analyzedAt && row[1] == ContentCell(m.content) && row[3] == m.classification
    ensures row[5] == Join(m.threats, ", ")
    ensures row[6] == ""
  {
    [m.analyzedAt, ContentCell(m.content), fmt.integer(m.riskScore), m.classification,
     fmt.fixed2(m.confidence), Join(m.threats, ", "), ""]
  }

  /** The rows the CSV writer receives: the header, then one row per
      message in order. */
  method CsvExportRows(messages: seq<DB.Message>, fmt: Formats) returns (rows: seq<seq<string>>)
    ensures |rows| == |messages| + 1 && rows[0] == CsvHeader
    ensures forall k :: 0 <= k < |messages| ==> rows[k + 1] == ExportRow(messages[k], fmt)
  {
    rows := [CsvHeader];
    for i := 0 to |messages|
      invariant |rows| == i + 1 && rows[0] == CsvHeader
      invariant forall k :: 0 <= k < i ==> rows[k + 1] == ExportRow(messages[k], fmt)
    {
      rows := rows + [ExportRow(messages[i], fmt)];
    }
  }

  /** POST /export over the user's 1000 newest messages. */
  method ExportRoute(db: DB.Database, userId: string, data: Body, fmt: Formats) returns (reply: Reply)
    ensures ExportFormat(data).Err? ==> reply == Failed(ExportFormat(data).error)
    ensures ExportFormat(data) == Ok("pdf") ==> reply == ExportedPdf(ExportFilename("pdf", userId))
    ensures ExportFormat(data) == Ok("csv") ==>
              var messages := DB.Page(DB.Matching(db.messages, userId, None), 0, 1000);
              && reply.ExportedCsv? && reply.filename == ExportFilename("csv", userId)
              && |reply.rows| == |messages| + 1 && reply.rows[0] == CsvHeader
              && forall k :: 0 <= k < |messages| ==> reply.rows[k + 1] == ExportRow(messages[k], fmt)
  {
    var format := ExportFormat(data);
    if format.Err? {
      return Failed(format.error);
    }
    if format.value == "csv" {
      var messages := db.GetUserMessages(userId, 1000, 0, None);
      var rows := CsvExportRows(messages, fmt);
      reply := ExportedCsv(rows, ExportFilename("csv", userId));
    } else {
      reply := ExportedPdf(ExportFilename("pdf", userId));
    }
  }
}
