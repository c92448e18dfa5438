/** The Dashboard page's analysis history: the record built from an API
    response, the most-recent-first list of at most 10 records, and the
    browser storage it is loaded from and saved to under the key
    `spamshield-history`. */
module Dashboard {
  import opened Text

  /** The four lists the page reads from `analysis_details`. */
  datatype PageDetails = PageDetails(
    keywordMatches: seq<string>, patternMatches: seq<string>,
    urlDomains: seq<string>, formattingIssues: seq<string>)

  /** The `analysis` object of a successful response. `details` is None
      when `analysis_details` lacks one of the four lists, so that mapping
      over it raises. */
  datatype PageAnalysis = PageAnalysis(
    classification: string, confidence: real, riskScore: int,
    threats: seq<string>, recommendations: seq<string>, analyzedAt: string,
    details: Option<PageDetails>)

  /** What the API call produced: an answer with its `success` flag, or an
      exception (network failure). */
  datatype Response = Answered(success: bool, analysis: PageAnalysis) | RequestFailed

  /** The lines of a record's `reasons`; ReasonText gives each one's
      wording. */
  datatype Reason =
    | KeywordReason(keyword: string) | PatternReason(pattern: string)
    | UrlReason(domain: string) | FormattingReason(issue: string)
    | ThreatReason(threats: string)

  function ReasonText(r: Reason): string {
    match r
    case KeywordReason(k) => "Contains spam keyword: \"" + k + "\""
    case PatternReason(p) => "Suspicious pattern: " + p
    case UrlReason(u) => "Suspicious URL: " + u
    case FormattingReason(f) => "Formatting issue: " + f
    case ThreatReason(t) => "Threat detected: " + t
  }

  /** The `reasons` list: one line per keyword, pattern, URL and formatting
      issue, in that order, then one line for the threats if there are
      any. */
  function Reasons(d: PageDetails, threats: seq<string>): (r: seq<Reason>)
    ensures |r| == |d.keywordMatches| + |d.patternMatches| + |d.urlDomains| + |d.formattingIssues|
                   + (if threats != [] then 1 else 0)
    ensures forall i :: 0 <= i < |d.keywordMatches| ==> r[i] == KeywordReason(d.keywordMatches[i])
    ensures forall i :: 0 <= i < |d.patternMatches| ==>
              r[|d.keywordMatches| + i] == PatternReason(d.patternMatches[i])
    ensures forall i :: 0 <= i < |d.urlDomains| ==>
              r[|d.keywordMatches| + |d.patternMatches| + i] == UrlReason(d.urlDomains[i])
    ensures forall i :: 0 <= i < |d.formattingIssues| ==>
              r[|d.keywordMatches| + |d.patternMatches| + |d.urlDomains| + i] == FormattingReason(d.formattingIssues[i])
    ensures threats != [] ==> r[|r| - 1] == ThreatReason(Join(threats, ", "))
  {
    var k := seq(|d.keywordMatches|, i requires 0 <= i < |d.keywordMatches| => KeywordReason(d.keywordMatches[i]));
    var p := seq(|d.patternMatches|, i requires 0 <= i < |d.patternMatches| => PatternReason(d.patternMatches[i]));
    var u := seq(|d.urlDomains|, i requires 0 <= i < |d.urlDomains| => UrlReason(d.urlDomains[i]));
    var f := seq(|d.formattingIssues|, i requires 0 <= i < |d.formattingIssues| => FormattingReason(d.formattingIssues[i]));
    k + p + u + f + (if threats != [] then [ThreatReason(Join(threats, ", "))] else [])
  }

  /** `threats.join(', ') || 'None'`: the joined threats, or "None" when
      the join is the empty string, which happens exactly for no threats or
      one empty threat. */
  function ThreatType(threats: seq<string>): (t: string)
    ensures t != ""
    ensures threats == [] || threats == [""] ==> t == "None"
    ensures !(threats == [] || threats == [""]) ==> t == Join(threats, ", ")
  {
    JoinEmptyIff(threats, ", ");
    var joined := Join(threats, ", ");
    if joined == "" then "None" else joined
  }

  /** The stored text of a typed message: its first 100 characters, and
      "..." after them when it is longer. */
  function TruncatedMessage(m: string): (r: string)
    ensures |r| <= 103
    ensures |m| <= 100 ==> r == m
    ensures |m| > 100 ==> |r| == 103 && r[..100] == m[..100] && r[100..] == "..."
  {
    Take(m, 100) + (if |m| > 100 then "..." else "")
  }

  /** What was analysed: a typed message or an uploaded file. */
  datatype Source = Typed(message: string) | Uploaded(fileName: string)

  /** A history record (`analysisResult`); `timestamp` is the locale
      rendering of `analyzed_at`. */
  datatype Record = Record(
    isSpam: bool, confidence: int, reasons: seq<Reason>, threatType: string,
    riskScore: int, classification: string, recommendations: seq<string>,
    timestamp: string, message: string, fileName: Option<string>)

  /** The record for an analysis whose details the page can read. */
  function BuildRecord(a: PageAnalysis, d: PageDetails, src: Source, localTime: string -> string): (r: Record)
    ensures r.isSpam <==> a.classification == "spam"
    ensures r.reasons == Reasons(d, a.threats) && r.threatType == ThreatType(a.threats)
    ensures r.confidence == RoundHalfUp(a.confidence * 100.0)
    ensures r.riskScore == a.riskScore && r.classification == a.classification
    ensures r.recommendations == a.recommendations && r.timestamp == localTime(a.analyzedAt)
    ensures src.Typed? ==> r.message == TruncatedMessage(src.message) && r.fileName == None
    ensures src.Uploaded? ==> r.message == "File: " + src.fileName && r.fileName == Some(src.fileName)
  {
    Record(a.classification == "spam", RoundHalfUp(a.confidence * 100.0), Reasons(d, a.threats),
           ThreatType(a.threats), a.riskScore, a.classification, a.recommendations,
           localTime(a.analyzedAt),
           match src
           case Typed(m) => TruncatedMessage(m)
           case Uploaded(name) => "File: " + name,
           if src.Uploaded? then Some(src.fileName) else None)
  }

  /** The record a response yields, if any: only a successful answer whose
      details can be read gives one. */
  function Outcome(response: Response, src: Source, localTime: string -> string): (r: Option<Record>)
    ensures r.Some? <==> response.Answered? && response.success && response.analysis.details.Some?
    ensures r.Some? ==> r.value == BuildRecord(response.analysis, response.analysis.details.value, src, localTime)
  {
    match response
    case RequestFailed => None
    case Answered(success, a) =>
      if success && a.details.Some? then Some(BuildRecord(a, a.details.value, src, localTime)) else None
  }

  // ------------------------------------------------------------- the history

  const HistoryLimit := 10

  /** An element of the history array: a record, or a string or other JSON
      value that came from storage. */
  datatype Entry = Rec(record: Record) | TextItem(text: string) | OtherJson

  /** `[e, ...h].slice(0, 10)`. */
  function PushRecent(e: Entry, h: seq<Entry>): (r: seq<Entry>)
    ensures |r| == if |h| + 1 < HistoryLimit then |h| + 1 else HistoryLimit
    ensures r[0] == e
    ensures forall i :: 1 <= i < |r| ==> r[i] == h[i - 1]
  {
    Take([e] + h, HistoryLimit)
  }

  /** Appending keeps the most recent entries: with room the old history is
      kept whole after the new entry; otherwise only its first nine entries
      stay. */
  lemma PushRecentEvicts(e: Entry, h: seq<Entry>)
    ensures |h| < HistoryLimit ==> PushRecent(e, h) == [e] + h
    ensures |h| >= HistoryLimit ==> PushRecent(e, h) == [e] + h[..HistoryLimit - 1]
  {
    var r := PushRecent(e, h);
    if |h| < HistoryLimit {
      assert r == [e] + h by {
        forall i | 1 <= i < |r| ensures r[i] == ([e] + h)[i] { }
      }
    } else {
      assert r == [e] + h[..HistoryLimit - 1] by {
        forall i | 1 <= i < |r| ensures r[i] == ([e] + h[..HistoryLimit - 1])[i] { }
      }
    }
  }

  /** A history of at most 10 entries stays within 10 after any number of
      appends. */
  lemma {:induction false} PushAllBounded(es: seq<Entry>, h: seq<Entry>)
    requires |h| <= HistoryLimit
    ensures |PushAll(es, h)| <= HistoryLimit
    ensures es != [] ==> PushAll(es, h)[0] == es[|es| - 1]
  {
    if es != [] {
      PushAllBounded(es[..|es| - 1], h);
    }
  }

  /** The history after appending `es` in order. */
  function PushAll(es: seq<Entry>, h: seq<Entry>): seq<Entry> {
    if es == [] then h else PushRecent(es[|es| - 1], PushAll(es[..|es| - 1], h))
  }

  /** The outcome of JSON.parse on the stored text. */
  datatype Parsed = ParseError | JsonArray(items: seq<Entry>) | JsonString(s: string) | JsonOther

  /** The value of the storage key: absent, text written by someone else,
      or the serialisation of a history this page wrote. */
  datatype StorageValue = Missing | Raw(text: string) | Written(items: seq<Entry>)

  /** The `history` state: a parsed array, a parsed string, or another
      JSON value (null, a number, a boolean or an object). */
  datatype HistoryValue = Listed(items: seq<Entry>) | Chars(s: string) | NotIterable

  /** The initializer: no key, an empty value or one that does not parse
      gives `[]`; otherwise the parsed value, whatever its shape. A history
      this page wrote reads back as itself. */
  function InitialHistory(stored: StorageValue, parse: string -> Parsed): (h: HistoryValue)
    ensures stored.Missing? || stored == Raw("") ==> h == Listed([])
    ensures stored.Raw? && stored.text != "" && parse(stored.text).ParseError? ==> h == Listed([])
    ensures stored.Raw? && stored.text != "" && parse(stored.text).JsonArray? ==> h == Listed(parse(stored.text).items)
    ensures stored.Written? ==> h == Listed(stored.items)
  {
    match stored
    case Missing => Listed([])
    case Written(items) => Listed(items)
    case Raw(text) =>
      if text == "" then Listed([])
      else match parse(text)
        case ParseError => Listed([])
        case JsonArray(items) => Listed(items)
        case JsonString(s) => Chars(s)
        case JsonOther => NotIterable
  }

  /** `...history`: an array spreads into its elements, a string into its
      characters; any other value raises a TypeError. */
  function Spread(h: HistoryValue): (r: Option<seq<Entry>>)
    ensures r.None? <==> h.NotIterable?
    ensures h.Listed? ==> r == Some(h.items)
    ensures h.Chars? ==> |r.value| == |h.s| && forall i :: 0 <= i < |h.s| ==> r.value[i] == TextItem([h.s[i]])
  {
    match h
    case Listed(items) => Some(items)
    case Chars(s) => Some(seq(|s|, i requires 0 <= i < |s| => TextItem([s[i]])))
    case NotIterable => None
  }

  /** The history after an analysis that produced `outcome`. */
  function NextHistory(h: HistoryValue, outcome: Option<Record>): (r: HistoryValue)
    ensures outcome.None? || h.NotIterable? ==> r == h
    ensures outcome.Some? && h.Listed? ==> r == Listed(PushRecent(Rec(outcome.value), h.items))
  {
    if outcome.Some? && Spread(h).Some? then Listed(PushRecent(Rec(outcome.value), Spread(h).value)) else h
  }

  /** The page's history state, its storage key and the displayed result. */
  class HistoryStore {
    var history: HistoryValue
    var persisted: StorageValue
    var result: Option<Record>

    /** Mount: the history is read from storage. */
    constructor (stored: StorageValue, parse: string -> Parsed)
      ensures history == InitialHistory(stored, parse) && persisted == stored && result == None
    {
      history := InitialHistory(stored, parse);
      persisted := stored;
      result := None;
    }

    /** saveHistory: the state takes the new history whether or not the
        storage write succeeds (`writeOk`); a failed write leaves the stored
        value as it was. */
    method SaveHistory(newHistory: seq<Entry>, writeOk: bool)
      modifies this
      ensures history == Listed(newHistory)
      ensures persisted == if writeOk then Written(newHistory) else old(persisted)
      ensures result == old(result)
    {
      if writeOk {
        persisted := Written(newHistory);
      }
      history := Listed(newHistory);
    }

    /** The common tail of both analyses: the result is cleared, then set
        to the response's record if there is one, which is pushed onto the
        history and saved; a history that cannot be spread raises, which
        the handler catches, after the result is set. */
    method ShowOutcome(response: Response, src: Source, localTime: string -> string, writeOk: bool)
      modifies this
      ensures result == Outcome(response, src, localTime)
      ensures history == NextHistory(old(history), result)
      ensures persisted == if result.Some? && Spread(old(history)).Some? && writeOk
                           then Written(NextHistory(old(history), result).items) else old(persisted)
    {
      result := None;
      var outcome := Outcome(response, src, localTime);
      if outcome.None? {
        return;
      }
      result := outcome;
      var spread := Spread(history);
      if spread.None? {
        return;
      }
      var newHistory := PushRecent(Rec(outcome.value), spread.value);
      SaveHistory(newHistory, writeOk);
    }

    /** analyzeMessage: a message that trims to nothing is refused before
        any request and nothing changes. */
    method AnalyzeMessage(message: string, response: Response, localTime: string -> string, writeOk: bool)
      modifies this
      ensures AllSpace(message) ==> history == old(history) && persisted == old(persisted) && result == old(result)
      ensures !AllSpace(message) ==>
                && result == Outcome(response, Typed(message), localTime)
                && history == NextHistory(old(history), result)
      ensures !AllSpace(message) ==>
                persisted == if result.Some? && Spread(old(history)).Some? && writeOk
                             then Written(NextHistory(old(history), result).items) else old(persisted)
    {
      StripEmptyIff(message);
      if Strip(message) == [] {
        return;
      }
      ShowOutcome(response, Typed(message), localTime, writeOk);
    }

    /** analyzeFileDirectly: the file is sent as it is. */
    method AnalyzeFileDirectly(fileName: string, response: Response, localTime: string -> string, writeOk: bool)
      modifies this
      ensures result == Outcome(response, Uploaded(fileName), localTime)
      ensures history == NextHistory(old(history), result)
      ensures persisted == if result.Some? && Spread(old(history)).Some? && writeOk
                           then Written(NextHistory(old(history), result).items) else old(persisted)
    {
      ShowOutcome(response, Uploaded(fileName), localTime, writeOk);
    }
  }
}
