/** The decision rules of the backend's SpamDetector: score bucketing of the
    classifier's (mlLabel, score), the keyword scan that fills five category
    buckets, the explanation and recommendation builders, and the result
    record. The transformer pipeline, the URL regular expression, the
    percentage formatting of the score and the clock are inputs (Oracle). */
module SpamDetection {
  import opened Text

  /** A classifier score. */
  type Probability = r: real | 0.0 <= r <= 1.0

  /** What one call of the text-classification pipeline produced. */
  datatype Prediction =
    | Predicted(mlLabel: string, score: Probability)
    | PredictionFailed(reason: string)  // the pipeline raised; `reason` is str(e)

  /** Everything the detector consults but does not compute itself. */
  datatype Oracle = Oracle(
    classifier: Option<string -> Prediction>, // None when no model is loaded
    countUrls: string -> nat,                 // matches of the URL regular expression
    percent: real -> string,                  // the `{score:.1%}` rendering
    now: string)                              // datetime.utcnow().isoformat()

  datatype Bucket = Bucket(classification: string, riskScore: int)

  /** The five keyword buckets of _analyze_content_characteristics. */
  datatype Characteristics = Characteristics(
    money: seq<string>, urgency: seq<string>, phishing: seq<string>,
    social: seq<string>, technical: seq<string>)

  datatype Details =
    | NoDetails
    | MlDetails(mlLabel: string, score: real, explanations: seq<Explanation>)
    | ErrorDetails(error: string)

  /** The dictionary built by _create_result. `confidence` carries the score
      itself; round(score, 3) is not modelled. */
  datatype Analysis = Analysis(
    riskScore: int, classification: string, confidence: real,
    threats: seq<string>, details: Details, recommendations: seq<Advice>,
    analyzedAt: string)

  function Min(a: int, b: int): int { if a <= b then a else b }
  function Max(a: int, b: int): int { if a >= b then a else b }

  /** Python's int() on a real: truncation toward zero. */
  function Trunc(x: real): int {
    if x >= 0.0 then x.Floor else -((-x).Floor)
  }

  // ---------------------------------------------------------------- bucketing

  /** The classification and clamped risk score for a classifier verdict. */
  function ScoreBucket(mlLabel: string, score: Probability): (b: Bucket)
    ensures b.classification == "spam" <==> mlLabel == "Spam" && score > 0.8
    ensures mlLabel == "Spam" && score > 0.8 ==> 80 <= b.riskScore <= 100
    ensures mlLabel == "Spam" && 0.6 < score <= 0.8 ==>
              b.classification == "suspicious" && 60 <= b.riskScore <= 69
    ensures mlLabel == "Spam" && score <= 0.6 ==>
              b.classification == "suspicious" && 30 <= b.riskScore <= 49
    ensures mlLabel != "Spam" && score > 0.9 ==> b.classification == "safe" && 0 <= b.riskScore <= 1
    ensures mlLabel != "Spam" && 0.7 < score <= 0.9 ==>
              b.classification == "safe" && 0 <= b.riskScore <= 6
    ensures mlLabel != "Spam" && score <= 0.7 ==>
              b.classification == "suspicious" && 10 <= b.riskScore <= 29
    ensures 0 <= b.riskScore <= 100
  {
    if mlLabel == "Spam" then
      if score > 0.8 then Bucket("spam", Min(100, Max(70, Trunc(score * 100.0))))
      else if score > 0.6 then Bucket("suspicious", Min(69, Max(50, Trunc(score * 100.0))))
      else Bucket("suspicious", Min(49, Max(30, Trunc(score * 100.0))))
    else
      if score > 0.9 then Bucket("safe", Max(0, Trunc((1.0 - score) * 10.0)))
      else if score > 0.7 then Bucket("safe", Max(0, Trunc((1.0 - score) * 20.0)))
      else Bucket("suspicious", Min(29, Max(10, Trunc((1.0 - score) * 50.0))))
  }

  // ------------------------------------------------------------- keyword scan

  const MoneyKeywords: seq<string> :=
    ["free", "prize", "won", "cash", "money", "dollar", "bitcoin", "crypto", "investment", "lottery"]
  const UrgencyKeywords: seq<string> :=
    ["urgent", "immediate", "now", "act fast", "limited time", "expires", "deadline", "rush"]
  const PhishingKeywords: seq<string> :=
    ["click here", "verify", "confirm", "login", "account", "password", "suspended", "security alert"]
  const SocialKeywords: seq<string> :=
    ["lonely", "love", "destiny", "soulmate", "marry", "military", "overseas", "widow", "orphan"]
  const TechnicalKeywords: seq<string> :=
    ["virus", "infected", "microsoft", "support", "computer", "error", "fix", "repair"]

  const ContainsLinks := "contains_links"

  predicate NoDup<T(==)>(s: seq<T>) {
    forall i, j :: 0 <= i < j < |s| ==> s[i] != s[j]
  }

  /** The keywords of `keywords` that occur in `message`, in list order (the
      body of one `for keyword in ...: if keyword in message` loop). */
  function KeywordsIn(keywords: seq<string>, message: string): seq<string>
    decreases |keywords|
  {
    if keywords == [] then []
    else
      var last := keywords[|keywords| - 1];
      KeywordsIn(keywords[..|keywords| - 1], message) + (if Contains(message, last) then [last] else [])
  }

  /** Exactly the keywords that occur are found, each as a substring, in
      the order of the keyword list. */
  lemma {:induction false} KeywordsInSound(keywords: seq<string>, message: string)
    ensures forall w :: w in KeywordsIn(keywords, message) <==> w in keywords && Contains(message, w)
    ensures Subsequence(KeywordsIn(keywords, message), keywords)
    decreases |keywords|
  {
    var r := KeywordsIn(keywords, message);
    if keywords == [] {
      assert EmbedsBy([], r, keywords);
    } else {
      var init := keywords[..|keywords| - 1];
      var last := keywords[|keywords| - 1];
      KeywordsInSound(init, message);
      var r0 := KeywordsIn(init, message);
      var f :| EmbedsBy(f, r0, init);
      assert keywords == init + [last];
      if Contains(message, last) {
        assert r == r0 + [last];
        var g := f + [|init|];
        assert EmbedsBy(g, r, keywords);
      } else {
        assert r == r0;
        assert EmbedsBy(f, r, keywords);
      }
    }
  }

  /** A keyword from a list without repetitions is reported at most once. */
  lemma SubsequenceNoDup<T>(a: seq<T>, b: seq<T>)
    requires Subsequence(a, b) && NoDup(b)
    ensures NoDup(a)
  {
    var f :| EmbedsBy(f, a, b);
    forall i, j | 0 <= i < j < |a| ensures a[i] != a[j] {
      assert f[i] < f[j];
    }
  }

  lemma KeywordListsDistinct()
    ensures NoDup(MoneyKeywords) && NoDup(UrgencyKeywords) && NoDup(PhishingKeywords)
    ensures NoDup(SocialKeywords) && NoDup(TechnicalKeywords)
  {
  }

  /** The buckets for a lower-cased, stripped message with `urls` URL
      matches: each category's occurring keywords, and one `contains_links`
      per URL after the phishing keywords. */
  function ContentCharacteristics(message: string, urls: nat): Characteristics {
    Characteristics(
      KeywordsIn(MoneyKeywords, message),
      KeywordsIn(UrgencyKeywords, message),
      KeywordsIn(PhishingKeywords, message) + Repeat(ContainsLinks, urls),
      KeywordsIn(SocialKeywords, message),
      KeywordsIn(TechnicalKeywords, message))
  }

  /** One keyword loop: appends every keyword that occurs in `message`. */
  method ScanKeywords(keywords: seq<string>, message: string) returns (found: seq<string>)
    ensures found == KeywordsIn(keywords, message)
  {
    found := [];
    var i := 0;
    while i < |keywords|
      invariant 0 <= i <= |keywords|
      invariant found == KeywordsIn(keywords[..i], message)
    {
      assert keywords[..i + 1][..i] == keywords[..i];
      if Contains(message, keywords[i]) {
        found := found + [keywords[i]];
      }
      i := i + 1;
    }
    assert keywords[..i] == keywords;
  }

  /** _analyze_content_characteristics. */
  method AnalyzeContent(message: string, urls: nat) returns (c: Characteristics)
    ensures c == ContentCharacteristics(message, urls)
  {
    var money := ScanKeywords(MoneyKeywords, message);
    var urgency := ScanKeywords(UrgencyKeywords, message);
    var phishing := ScanKeywords(PhishingKeywords, message);
    if urls > 0 {
      phishing := phishing + Repeat(ContainsLinks, urls);
    }
    var social := ScanKeywords(SocialKeywords, message);
    var technical := ScanKeywords(TechnicalKeywords, message);
    c := Characteristics(money, urgency, phishing, social, technical);
  }

  /** Keywords without the marker followed by `urls` markers: the markers
      are exactly the last `urls` entries. */
  lemma MarkersAtEnd(kw: seq<string>, urls: nat)
    requires ContainsLinks !in kw
    ensures var p := kw + Repeat(ContainsLinks, urls);
            |p| == |kw| + urls &&
            (forall k :: |p| - urls <= k < |p| ==> p[k] == ContainsLinks) &&
            (ContainsLinks in p <==> urls > 0)
  {
    var p := kw + Repeat(ContainsLinks, urls);
    if urls > 0 {
      assert p[|kw|] == ContainsLinks;
    }
  }

  /** The phishing bucket holds the phishing keywords found and one link
      marker per URL, and nothing else. */
  lemma PhishingBucket(message: string, urls: nat)
    ensures var p := ContentCharacteristics(message, urls).phishing;
            |p| == |KeywordsIn(PhishingKeywords, message)| + urls &&
            (forall k :: |p| - urls <= k < |p| ==> p[k] == ContainsLinks) &&
            (ContainsLinks in p <==> urls > 0)
  {
    var kw := KeywordsIn(PhishingKeywords, message);
    KeywordsInSound(PhishingKeywords, message);
    assert ContainsLinks !in PhishingKeywords;
    MarkersAtEnd(kw, urls);
  }

  const EmptyCharacteristics := Characteristics([], [], [], [], [])

  predicate AllEmpty(c: Characteristics) {
    c.money == [] && c.urgency == [] && c.phishing == [] && c.social == [] && c.technical == []
  }

  function NonEmptyCount(c: Characteristics): nat {
    (if c.money != [] then 1 else 0) + (if c.urgency != [] then 1 else 0)
    + (if c.phishing != [] then 1 else 0) + (if c.social != [] then 1 else 0)
    + (if c.technical != [] then 1 else 0)
  }

  // ------------------------------------------------------------- explanations

  /** The one-element list `[x]` when `b` holds, else the empty list. */
  function Opt<T>(b: bool, x: T): (r: seq<T>)
    ensures |r| == (if b then 1 else 0)
    ensures forall y :: y in r ==> y == x
  {
    if b then [x] else []
  }

  /** The lines _generate_smart_explanations can produce; ExplanationText
      gives each one's wording. */
  datatype Explanation =
    | ModelVerdict(classification: string, mlLabel: string, scoreText: string)
    | TypicalSpam | UnusualElements | NothingSuspicious
    | MoneyTerms(terms: seq<string>) | UrgencyTerms(terms: seq<string>)
    | PhishingTerms(terms: seq<string>) | SocialTerms(terms: seq<string>)
    | TechnicalTerms(terms: seq<string>)

  predicate IsGeneric(e: Explanation) {
    e.TypicalSpam? || e.UnusualElements? || e.NothingSuspicious?
  }

  function ExplanationText(e: Explanation): string {
    match e
    case ModelVerdict(classification, mlLabel, scoreText) =>
      "\U{1F916}" +
      if classification == "spam" then " AI model detected this as spam with " + scoreText + " confidence"
      else if classification == "suspicious" then
        if mlLabel == "Spam" then " AI model flagged as potentially spam (" + scoreText + " confidence)"
        else " AI model classified as safe but with moderate confidence (" + scoreText + ")"
      else " AI model classified as safe with " + scoreText + " confidence"
    case TypicalSpam => "\U{1F4E7} Message exhibits typical spam patterns"
    case UnusualElements => "\U{1F914} Message contains some unusual elements"
    case NothingSuspicious => "\U{2705} No suspicious characteristics detected"
    case MoneyTerms(terms) => "\U{1F4B0} Contains money-related terms: " + Join(terms, ", ")
    case UrgencyTerms(terms) => "\U{23F0} Creates false urgency with: " + Join(terms, ", ")
    case PhishingTerms(terms) => "\U{1F3A3} Phishing indicators: " + Join(terms, ", ")
    case SocialTerms(terms) => "\U{1F495} Social engineering tactics: " + Join(terms, ", ")
    case TechnicalTerms(terms) => "\U{1F6E0}\U{FE0F} Technical support scam indicators: " + Join(terms, ", ")
  }

  /** The emoji each line starts with. */
  function Lead(e: Explanation): char {
    match e
    case ModelVerdict(_, _, _) => '\U{1F916}'
    case TypicalSpam => '\U{1F4E7}'
    case UnusualElements => '\U{1F914}'
    case NothingSuspicious => '\U{2705}'
    case MoneyTerms(_) => '\U{1F4B0}'
    case UrgencyTerms(_) => '\U{23F0}'
    case PhishingTerms(_) => '\U{1F3A3}'
    case SocialTerms(_) => '\U{1F495}'
    case TechnicalTerms(_) => '\U{1F6E0}'
  }

  lemma LeadStartsText(e: Explanation)
    ensures ExplanationText(e) != [] && ExplanationText(e)[0] == Lead(e)
  {
    match e {
      case ModelVerdict(_, _, _) =>
      case TypicalSpam =>
      case UnusualElements =>
      case NothingSuspicious =>
      case MoneyTerms(_) =>
      case UrgencyTerms(_) =>
      case PhishingTerms(_) =>
      case SocialTerms(_) =>
      case TechnicalTerms(_) =>
    }
  }

  /** The rendered lines tell the generic sentences apart from the others
      by their first character, so the text of a generic sentence is never
      the text of another line. */
  lemma GenericTextsStandApart(e: Explanation, g: Explanation)
    requires IsGeneric(g) && !IsGeneric(e)
    ensures ExplanationText(e) != ExplanationText(g)
  {
    LeadStartsText(e);
    LeadStartsText(g);
  }

  function GenericExplanation(classification: string): (e: Explanation)
    ensures IsGeneric(e)
  {
    if classification == "spam" then TypicalSpam
    else if classification == "suspicious" then UnusualElements
    else NothingSuspicious
  }

  /** Every term of `p` except the link marker. */
  function WithoutLinks(p: seq<string>): (r: seq<string>)
    ensures ContainsLinks !in r
    ensures forall w :: w in r ==> w in p
  {
    if p == [] then []
    else (if p[0] == ContainsLinks then [] else [p[0]]) + WithoutLinks(p[1..])
  }

  /** "suspicious links" when the link marker is present, then at most two
      phishing keywords. */
  function PhishingIndicators(p: seq<string>): (r: seq<string>)
    ensures |r| == (if ContainsLinks in p then 1 else 0) + Min(2, |WithoutLinks(p)|)
    ensures ContainsLinks in p ==> r[0] == "suspicious links"
  {
    (if ContainsLinks in p then ["suspicious links"] else []) + Take(WithoutLinks(p), 2)
  }

  /** One line per non-empty bucket, in the order money, urgency, phishing,
      social engineering, technical support; none of them is generic. */
  function TermLines(c: Characteristics): (r: seq<Explanation>)
    ensures |r| == NonEmptyCount(c)
  {
    Opt(c.money != [], MoneyTerms(Take(c.money, 3)))
    + Opt(c.urgency != [], UrgencyTerms(Take(c.urgency, 2)))
    + Opt(c.phishing != [], PhishingTerms(PhishingIndicators(c.phishing)))
    + Opt(c.social != [], SocialTerms(Take(c.social, 2)))
    + Opt(c.technical != [], TechnicalTerms(Take(c.technical, 2)))
  }

  /** None of the bucket lines is generic. */
  lemma TermLinesNotGeneric(c: Characteristics)
    ensures forall e :: e in TermLines(c) ==> !IsGeneric(e)
  {
  }

  /** _generate_smart_explanations: the model's verdict first, one line per
      non-empty bucket, a generic sentence exactly when every bucket is
      empty, and never more than 5 lines. */
  function Explanations(classification: string, mlLabel: string, scoreText: string,
                        c: Characteristics): (r: seq<Explanation>)
    ensures 1 <= |r| <= 5
    ensures r[0] == ModelVerdict(classification, mlLabel, scoreText)
    ensures AllEmpty(c) ==> r == [r[0], GenericExplanation(classification)]
    ensures !AllEmpty(c) ==> |r| == Min(5, 1 + NonEmptyCount(c))
    ensures !AllEmpty(c) ==> forall e :: e in r ==> !IsGeneric(e)
  {
    var t := TermLines(c);
    TermLinesNotGeneric(c);
    var lines := [ModelVerdict(classification, mlLabel, scoreText)] + t
                 + Opt(AllEmpty(c), GenericExplanation(classification));
    TakeKeeps(lines, 5);
    Take(lines, 5)
  }

  // ---------------------------------------------------------- recommendations

  /** The recommendations the second _get_recommendations can give;
      AdviceText gives each one's wording. */
  datatype Advice =
    | SpamAlert | DeleteNow | SuspiciousAlert | VerifySender | SafeNote
    | MoneyAdvice | PhishingAdvice | UrgencyAdvice | SocialAdvice | TechnicalAdvice
    | CheckUrls | FinancialCaution | SensitiveInfo

  function AdviceText(a: Advice): string {
    match a
    case SpamAlert => "\U{1F6A8} This message appears to be spam. Do not respond or click any links."
    case DeleteNow => "\U{1F5D1}\U{FE0F} Delete this message immediately."
    case SuspiciousAlert => "\U{26A0}\U{FE0F} This message contains suspicious elements. Exercise caution."
    case VerifySender => "\U{1F50D} Verify the sender's identity before taking any action."
    case SafeNote => "\U{2705} This message appears to be safe, but always stay vigilant."
    case MoneyAdvice => "\U{1F4B0} Never share financial information or send money to unknown contacts."
    case PhishingAdvice => "\U{1F3A3} This appears to be a phishing attempt. Don't click links or provide credentials."
    case UrgencyAdvice => "\U{23F0} Scammers create false urgency - take time to verify before acting."
    case SocialAdvice => "\U{1F495} Be cautious of romantic advances or personal stories from unknown contacts."
    case TechnicalAdvice => "\U{1F6E0}\U{FE0F} Never give remote access to your computer or pay for unsolicited tech support."
    case CheckUrls => "\U{1F3A3} Check URLs carefully and avoid clicking suspicious links."
    case FinancialCaution => "\U{1F4B0} Be extremely cautious with any financial requests."
    case SensitiveInfo => "\U{1F512} Even in safe messages, never share sensitive information."
  }

  /** The recommendation list before the cap of 4. */
  function RecommendationLines(classification: string, c: Characteristics): seq<Advice> {
    if classification == "spam" then
      [SpamAlert, DeleteNow]
      + Opt(c.money != [], MoneyAdvice)
      + Opt(c.phishing != [], PhishingAdvice)
      + Opt(c.urgency != [], UrgencyAdvice)
      + Opt(c.social != [], SocialAdvice)
      + Opt(c.technical != [], TechnicalAdvice)
    else if classification == "suspicious" then
      [SuspiciousAlert, VerifySender]
      + Opt(c.phishing != [], CheckUrls)
      + Opt(c.money != [], FinancialCaution)
    else
      [SafeNote] + Opt(c.phishing != [] || c.money != [], SensitiveInfo)
  }

  /** The recommendations: between 1 and 4, starting with the fixed lines of
      the classification; every classification other than spam and
      suspicious is treated as safe. */
  function Recommendations(classification: string, c: Characteristics): (r: seq<Advice>)
    ensures 1 <= |r| <= 4
    ensures classification == "spam" ==>
              |r| == Min(4, 2 + NonEmptyCount(c)) && r[0] == SpamAlert && r[1] == DeleteNow
    ensures classification == "suspicious" ==>
              |r| == 2 + (if c.phishing != [] then 1 else 0) + (if c.money != [] then 1 else 0) &&
              r[0] == SuspiciousAlert && r[1] == VerifySender
    ensures classification != "spam" && classification != "suspicious" ==>
              r[0] == SafeNote && (|r| == 2 <==> c.phishing != [] || c.money != [])
  {
    Take(RecommendationLines(classification, c), 4)
  }

  // ------------------------------------------------------------ the analysis

  /** _create_result with a bucket dictionary: no threats, and the
      recommendations for the classification. */
  function CreateResult(risk: int, classification: string, confidence: real,
                        c: Characteristics, details: Details, now: string): (a: Analysis)
    ensures a.threats == [] && a.riskScore == risk && a.classification == classification
    ensures a.recommendations == Recommendations(classification, c)
  {
    Analysis(risk, classification, confidence, [], details, Recommendations(classification, c), now)
  }

  /** analyze_message with the empty-bucket dictionary passed on the paths
      that have no content analysis (see AnalyzeAsWritten for the code as
      it stands). */
  function Analyze(message: string, o: Oracle): Analysis {
    var lower := Strip(Lower(message));
    if lower == [] then CreateResult(0, "safe", 0.0, EmptyCharacteristics, NoDetails, o.now)
    else match o.classifier
      case None => NotAvailable(o.now)
      case Some(classify) => Classified(lower, classify(message), o)
  }

  function NotAvailable(now: string): Analysis {
    CreateResult(0, "error", 0.0, EmptyCharacteristics, ErrorDetails("ML model not available"), now)
  }

  /** The result for a non-blank message once the pipeline has answered;
      `lower` is the lower-cased, stripped message. */
  function Classified(lower: string, p: Prediction, o: Oracle): (a: Analysis)
    ensures 0 <= a.riskScore <= 100 && a.threats == [] && 1 <= |a.recommendations| <= 4
    ensures a.classification == "spam" ==> 80 <= a.riskScore <= 100 && a.details.MlDetails?
    ensures p.PredictionFailed? ==> a.classification == "error" && a.riskScore == 0 && a.confidence == 0.0
  {
    match p
    case PredictionFailed(e) =>
      CreateResult(0, "error", 0.0, EmptyCharacteristics, ErrorDetails("ML prediction failed: " + e), o.now)
    case Predicted(mlLabel, score) =>
      var b := ScoreBucket(mlLabel, score);
      var c := ContentCharacteristics(lower, o.countUrls(lower));
      var ex := Explanations(b.classification, mlLabel, o.percent(score), c);
      CreateResult(b.riskScore, b.classification, score, c, MlDetails(mlLabel, score, ex), o.now)
  }

  /** analyze_message, computed with the keyword loops. */
  method AnalyzeMessage(message: string, o: Oracle) returns (a: Analysis)
    ensures a == Analyze(message, o)
  {
    var lower := Strip(Lower(message));
    if lower == [] {
      return CreateResult(0, "safe", 0.0, EmptyCharacteristics, NoDetails, o.now);
    }
    if o.classifier.None? {
      return NotAvailable(o.now);
    }
    var prediction := o.classifier.value(message);
    if prediction.PredictionFailed? {
      return CreateResult(0, "error", 0.0, EmptyCharacteristics,
                          ErrorDetails("ML prediction failed: " + prediction.reason), o.now);
    }
    var b := ScoreBucket(prediction.mlLabel, prediction.score);
    var c := AnalyzeContent(lower, o.countUrls(lower));
    var ex := Explanations(b.classification, prediction.mlLabel, o.percent(prediction.score), c);
    a := CreateResult(b.riskScore, b.classification, prediction.score, c,
                      MlDetails(prediction.mlLabel, prediction.score, ex), o.now);
  }

  /** A blank message is safe with risk 0 and confidence 0. */
  lemma BlankMessageIsSafe(message: string, o: Oracle)
    requires AllSpace(Lower(message))
    ensures var a := Analyze(message, o);
            a.classification == "safe" && a.riskScore == 0 && a.confidence == 0.0 &&
            a.recommendations == [SafeNote]
  {
    StripEmptyIff(Lower(message));
  }

  /** A missing classifier or a failing prediction gives classification
      `error` with risk 0 and confidence 0. */
  lemma FailureIsError(message: string, o: Oracle)
    requires !AllSpace(Lower(message))
    requires o.classifier.None? || o.classifier.value(message).PredictionFailed?
    ensures var a := Analyze(message, o);
            a.classification == "error" && a.riskScore == 0 && a.confidence == 0.0 && a.details.ErrorDetails?
  {
    StripEmptyIff(Lower(message));
  }

  /** Every analysis has a risk score in 0..100, no threats and between one
      and four recommendations; a spam verdict has a risk of at least 80. */
  lemma AnalysisBounds(message: string, o: Oracle)
    ensures var a := Analyze(message, o);
            0 <= a.riskScore <= 100 && a.threats == [] && 1 <= |a.recommendations| <= 4 &&
            (a.classification == "spam" ==> 80 <= a.riskScore && a.details.MlDetails?)
  {
    var lower := Strip(Lower(message));
    if lower != [] && o.classifier.Some? {
      var a := Classified(lower, o.classifier.value(message), o);
      assert Analyze(message, o) == a;
    }
  }

  // ---------------------------------------------- the code as it stands

  /** The content_analysis argument: the bucket dictionary, or the list
      literal `[]` that the no-analysis paths pass. */
  datatype ContentArg = Buckets(c: Characteristics) | EmptyList

  const ListIndexError := "TypeError: list indices must be integers or slices, not str"

  /** The second _get_recommendations as written: every branch indexes its
      argument by a string key, which raises on a list. */
  function RecommendationsAsWritten(classification: string, arg: ContentArg): (r: Result<seq<Advice>, string>)
    ensures arg.EmptyList? <==> r.Err?
  {
    match arg
    case EmptyList => Err(ListIndexError)
    case Buckets(c) => Ok(Recommendations(classification, c))
  }

  function CreateResultAsWritten(risk: int, classification: string, confidence: real,
                                 arg: ContentArg, details: Details, now: string): Result<Analysis, string>
  {
    match RecommendationsAsWritten(classification, arg)
    case Err(e) => Err(e)
    case Ok(recs) => Ok(Analysis(risk, classification, confidence, [], details, recs, now))
  }

  /** analyze_message as written: the no-analysis paths pass `[]`, the outer
      handler calls _create_result with `[]` again, and that error escapes. */
  function AnalyzeAsWritten(message: string, o: Oracle): Result<Analysis, string> {
    var lower := Strip(Lower(message));
    var first :=
      if lower == [] then CreateResultAsWritten(0, "safe", 0.0, EmptyList, NoDetails, o.now)
      else match o.classifier
        case None =>
          CreateResultAsWritten(0, "error", 0.0, EmptyList, ErrorDetails("ML model not available"), o.now)
        case Some(classify) => ClassifiedAsWritten(lower, classify(message), o);
    match first
    case Ok(a) => Ok(a)
    case Err(e) => CreateResultAsWritten(0, "error", 0.0, EmptyList, ErrorDetails(e), o.now)
  }

  function ClassifiedAsWritten(lower: string, p: Prediction, o: Oracle): (r: Result<Analysis, string>)
    ensures p.Predicted? ==> r == Ok(Classified(lower, p, o))
    ensures p.PredictionFailed? ==> r.Err?
  {
    match p
    case PredictionFailed(e) =>
      CreateResultAsWritten(0, "error", 0.0, EmptyList, ErrorDetails("ML prediction failed: " + e), o.now)
    case Predicted(mlLabel, score) =>
      var b := ScoreBucket(mlLabel, score);
      var c := ContentCharacteristics(lower, o.countUrls(lower));
      var ex := Explanations(b.classification, mlLabel, o.percent(score), c);
      CreateResultAsWritten(b.riskScore, b.classification, score, Buckets(c), MlDetails(mlLabel, score, ex), o.now)
  }

  /** As written, a blank message, a missing classifier and a failed
      prediction all raise out of analyze_message instead of returning the
      `safe` or `error` result. */
  lemma AsWrittenRaises(message: string, o: Oracle)
    requires AllSpace(Lower(message)) || o.classifier.None? || o.classifier.value(message).PredictionFailed?
    ensures AnalyzeAsWritten(message, o) == Err(ListIndexError)
  {
    StripEmptyIff(Lower(message));
  }

  /** Where the code as written returns, it agrees with Analyze. */
  lemma AsWrittenAgrees(message: string, o: Oracle)
    ensures AnalyzeAsWritten(message, o).Ok? ==> AnalyzeAsWritten(message, o).value == Analyze(message, o)
  {
    StripEmptyIff(Lower(message));
    if !AllSpace(Lower(message)) && o.classifier.Some? && o.classifier.value(message).Predicted? {
      AsWrittenReturns(message, o);
    } else {
      AsWrittenRaises(message, o);
    }
  }

  /** When the pipeline answers a message that is not blank, the code as
      written returns what Analyze returns. */
  lemma AsWrittenReturns(message: string, o: Oracle)
    requires !AllSpace(Lower(message)) && o.classifier.Some? && o.classifier.value(message).Predicted?
    ensures AnalyzeAsWritten(message, o) == Ok(Analyze(message, o))
  {
    StripEmptyIff(Lower(message));
    var lower := Strip(Lower(message));
    var p := o.classifier.value(message);
    assert AnalyzeAsWritten(message, o) == ClassifiedAsWritten(lower, p, o);
  }

}
