/** The in-browser test suite: sixteen fixed messages sent to /analyze one
    after another, a correctness verdict per test, the accuracy figure shown
    when the run ends, and the statistics panel. */
module TestSuite {
  import opened Text

  /** A fixed test message; its text is TestText(id). */
  datatype TestCase = TestCase(id: nat, category: string, kind: string, expectedSpam: bool)

  const TestCases: seq<TestCase> := [
    TestCase(1, "Financial Scam", "SPAM", true),
    TestCase(2, "Prize Scam", "SPAM", true),
    TestCase(3, "Phishing", "SPAM", true),
    TestCase(4, "Crypto Scam", "SPAM", true),
    TestCase(5, "Romance Scam", "SPAM", true),
    TestCase(6, "Tech Support Scam", "SPAM", true),
    TestCase(7, "Personal", "SAFE", false),
    TestCase(8, "Business", "SAFE", false),
    TestCase(9, "Delivery", "SAFE", false),
    TestCase(10, "Banking (Legitimate)", "SAFE", false),
    TestCase(11, "Marketing", "SUSPICIOUS", false),
    TestCase(12, "Survey Request", "SUSPICIOUS", true),
    TestCase(13, "Investment", "SUSPICIOUS", true),
    TestCase(14, "Social Media", "SUSPICIOUS", true),
    TestCase(15, "Mixed Content", "EDGE_CASE", false),
    TestCase(16, "Caps Heavy", "EDGE_CASE", false)
  ]

  /** The message sent for each test. */
  function TestText(id: nat): string {
    match id
    case 1 => "URGENT: Your bank account has been suspended. Click here to verify: bit.ly/verify123 or call 555-SCAM now!"
    case 2 => "CONGRATULATIONS! You've WON $10,000 CASH PRIZE! Claim NOW at winner-site.com before it expires!"
    case 3 => "Your PayPal account needs verification. Login here: paypal-secure-login.fake.com to avoid suspension."
    case 4 => "BITCOIN GIVEAWAY! Send 0.1 BTC to get 2 BTC back! Limited time offer from Elon Musk! crypto-giveaway.scam"
    case 5 => "Hi beautiful, I saw your profile and fell in love. I'm a US soldier deployed overseas. Can you help me with $500 for emergency?"
    case 6 => "WARNING! Your computer is infected with 15 viruses! Call Microsoft Support at 1-800-FAKE-TECH immediately!"
    case 7 => "Hey, are we still meeting for lunch tomorrow at 12pm? Let me know if you need to reschedule."
    case 8 => "Thank you for your presentation today. The board was impressed with the quarterly results. Looking forward to our next meeting."
    case 9 => "Your Amazon package will be delivered between 2-6 PM today. Track your order: amazon.com/track"
    case 10 => "Your Wells Fargo account statement is now available. Log in to your account or visit wellsfargo.com to view."
    case 11 => "FLASH SALE! 50% OFF everything today only! Shop now at our website and save big! Limited time offer!"
    case 12 => "You've been selected for a $100 gift card survey! Complete in 5 minutes: survey-rewards.com"
    case 13 => "Make $5000/week working from home! No experience needed. Click here to start your new career!"
    case 14 => "Someone tagged you in a photo! Click to see: social-photos.net/view?id=12345"
    case 15 => "Hi Mom, I won a contest at school! $100 prize for my science project. Can you pick me up at 3pm?"
    case 16 => "HAPPY BIRTHDAY!!! Hope you have the BEST day ever! Can't wait to celebrate with you!"
    case _ => ""
  }

  /** The ids increase along the list, so the results object, keyed by id
      and filled in list order, lists its values in list order too. */
  lemma TestIdsIncrease()
    ensures forall i, j :: 0 <= i < j < |TestCases| ==> TestCases[i].id < TestCases[j].id
  {
    assert forall i :: 0 <= i < |TestCases| ==> TestCases[i].id == i + 1;
  }

  /** The `analysis` of a successful answer; `explanations` is None when
      `analysis_details.model_explanations` is missing, so that mapping
      over it raises. */
  datatype TestAnalysis = TestAnalysis(
    classification: string, confidence: real, riskScore: int, threats: seq<string>,
    explanations: Option<seq<string>>)

  /** What /analyze answered for one test, or the message of the exception
      the request raised. */
  datatype TestResponse =
    | Answered(success: bool, error: Option<string>, analysis: TestAnalysis)
    | Threw(message: string)

  /** The message of the TypeError raised by mapping over a missing list. */
  const MissingListError := "Cannot read properties of undefined (reading 'map')"

  datatype TestReason = MlReason(explanation: string) | ThreatsReason(threats: string)

  function TestReasonText(r: TestReason): string {
    match r
    case MlReason(e) => "ML: " + e
    case ThreatsReason(t) => "Threats: " + t
  }

  /** A test's `result`: the analysis with its verdict, or the error (whose
      `isCorrect` is false). */
  datatype TestResult =
    | Completed(classification: string, confidence: int, riskScore: int, threats: seq<string>,
                isCorrect: bool, reasons: seq<TestReason>)
    | Errored(error: string)

  datatype TestEntry = TestEntry(test: TestCase, result: TestResult)

  function Correct(r: TestResult): bool {
    r.Completed? && r.isCorrect
  }

  /** `response.error || 'Analysis failed'`. */
  function FailureMessage(error: Option<string>): (m: string)
    ensures m != ""
  {
    if error.Some? && error.value != "" then error.value else "Analysis failed"
  }

  /** runSingleTest: a readable successful answer is correct exactly when
      "is it spam" agrees with the expectation; everything else is an error
      with its message. */
  function RunSingleTest(t: TestCase, response: TestResponse): (e: TestEntry)
    ensures e.test == t
    ensures e.result.Completed? <==>
              response.Answered? && response.success && response.analysis.explanations.Some?
    ensures e.result.Completed? ==>
              && e.result.classification == response.analysis.classification
              && (e.result.isCorrect <==> ((response.analysis.classification == "spam") == t.expectedSpam))
              && |e.result.reasons| == |response.analysis.explanations.value| + (if response.analysis.threats != [] then 1 else 0)
    ensures response.Threw? ==> e.result == Errored(response.message)
    ensures response.Answered? && !response.success ==> e.result == Errored(FailureMessage(response.error))
    ensures Correct(e.result) <==>
              e.result.Completed? && response.Answered? && ((response.analysis.classification == "spam") == t.expectedSpam)
  {
    match response
    case Threw(message) => TestEntry(t, Errored(message))
    case Answered(success, error, a) =>
      if !success then TestEntry(t, Errored(FailureMessage(error)))
      else match a.explanations
        case None => TestEntry(t, Errored(MissingListError))
        case Some(ex) =>
          var reasons := seq(|ex|, i requires 0 <= i < |ex| => MlReason(ex[i]))
                         + (if a.threats != [] then [ThreatsReason(Join(a.threats, ", "))] else []);
          TestEntry(t, Completed(a.classification, RoundHalfUp(a.confidence * 100.0), a.riskScore, a.threats,
                                 (a.classification == "spam") == t.expectedSpam, reasons))
  }

  /** The entries of a run over `tests` with the answers `responses`. */
  function RunAll(tests: seq<TestCase>, responses: seq<TestResponse>): (es: seq<TestEntry>)
    requires |responses| == |tests|
    ensures |es| == |tests| && forall i :: 0 <= i < |tests| ==> es[i] == RunSingleTest(tests[i], responses[i])
  {
    seq(|tests|, i requires 0 <= i < |tests| => RunSingleTest(tests[i], responses[i]))
  }

  /** What one result adds to `resultHash`: the length of its
      classification, 0 for an error. */
  function HashOf(e: TestEntry): nat {
    if e.result.Completed? then |e.result.classification| else 0
  }

  /** `resultHash`: the classifications' lengths summed. */
  function ResultHash(es: seq<TestEntry>): nat {
    if es == [] then 0 else ResultHash(es[..|es| - 1]) + HashOf(es[|es| - 1])
  }

  /** The accuracy shown, in hundredths of a percent:
      93 + (hash mod 500) / 100. */
  function Accuracy(es: seq<TestEntry>): (a: int)
    ensures 9300 <= a < 9800
    ensures a - 9300 == ResultHash(es) % 500
  {
    9300 + ResultHash(es) % 500
  }

  lemma ResultHashSnoc(es: seq<TestEntry>, x: TestEntry)
    ensures ResultHash(es + [x]) == ResultHash(es) + HashOf(x)
  {
    assert (es + [x])[..|es|] == es;
  }

  /** The hash never counts an errored test, whatever its position. */
  lemma {:induction false} ResultHashCompleted(es: seq<TestEntry>)
    ensures ResultHash(es) == ResultHash(Filter(es, IsCompletedEntry))
  {
    if es != [] {
      var init, x := es[..|es| - 1], es[|es| - 1];
      ResultHashCompleted(init);
      var f := Filter(init, IsCompletedEntry);
      if IsCompletedEntry(x) {
        assert Filter(es, IsCompletedEntry) == f + [x];
        ResultHashSnoc(f, x);
      } else {
        assert Filter(es, IsCompletedEntry) == f + [];
        assert f + [] == f;
      }
    }
  }

  predicate IsCompletedEntry(e: TestEntry) {
    e.result.Completed?
  }

  // ---------------------------------------------------------------- the panel

  /** "Completed" is `r.result && !r.result.error`: an error whose message
      is empty counts as completed. */
  predicate IsCompleted(e: TestEntry) {
    !(e.result.Errored? && e.result.error != "")
  }

  predicate IsCorrect(e: TestEntry) { Correct(e.result) }
  predicate ExpectsSpam(e: TestEntry) { e.test.expectedSpam }
  predicate ExpectsSafe(e: TestEntry) { !e.test.expectedSpam }

  /** A rate as shown: `hits/of*100` to one decimal, or the text '0'. */
  datatype Rate = Percent(hits: nat, of: nat) | ZeroText

  datatype Stats = Stats(overall: Rate, spam: Rate, safe: Rate, completed: nat, total: nat)

  /** getAccuracyStats over the values of the results object. */
  function AccuracyStats(es: seq<TestEntry>): (s: Option<Stats>)
    ensures s.None? <==> es == []
    ensures s.Some? ==> s.value.total == |TestCases| && s.value.completed == |Filter(es, IsCompleted)|
    ensures s.Some? ==> s.value.overall == Percent(|Filter(Filter(es, IsCompleted), IsCorrect)|, s.value.completed)
    ensures s.Some? ==> (s.value.spam == ZeroText <==> Filter(Filter(es, IsCompleted), ExpectsSpam) == [])
    ensures s.Some? ==> (s.value.safe == ZeroText <==> Filter(Filter(es, IsCompleted), ExpectsSafe) == [])
  {
    if es == [] then None
    else
      var completed := Filter(es, IsCompleted);
      var correct := Filter(completed, IsCorrect);
      var spamTests := Filter(completed, ExpectsSpam);
      var safeTests := Filter(completed, ExpectsSafe);
      Some(Stats(
        Percent(|correct|, |completed|),
        if |spamTests| > 0 then Percent(|Filter(spamTests, IsCorrect)|, |spamTests|) else ZeroText,
        if |safeTests| > 0 then Percent(|Filter(safeTests, IsCorrect)|, |safeTests|) else ZeroText,
        |completed|, |TestCases|))
  }

  /** The spam and safe tests partition the completed ones, and so do
      their correct ones the correct completed tests; no test is correct
      without being completed. */
  lemma AccuracyPartition(es: seq<TestEntry>)
    ensures var completed := Filter(es, IsCompleted);
            |Filter(completed, ExpectsSpam)| + |Filter(completed, ExpectsSafe)| == |completed|
    ensures var completed := Filter(es, IsCompleted);
            |Filter(Filter(completed, ExpectsSpam), IsCorrect)| + |Filter(Filter(completed, ExpectsSafe), IsCorrect)|
            == |Filter(completed, IsCorrect)|
    ensures var correct := Filter(Filter(es, IsCompleted), IsCorrect);
            forall i :: 0 <= i < |correct| ==> correct[i] in es && IsCompleted(correct[i]) && IsCorrect(correct[i])
  {
    var completed := Filter(es, IsCompleted);
    FilterPartition(completed, ExpectsSpam, ExpectsSafe);
    FilterCommute(completed, ExpectsSpam, IsCorrect);
    FilterCommute(completed, ExpectsSafe, IsCorrect);
    FilterPartition(Filter(completed, IsCorrect), ExpectsSpam, ExpectsSafe);
    FilterMembers(es, IsCompleted);
    FilterMembers(completed, IsCorrect);
  }

  /** The page's test-results state. */
  class SuiteRunner {
    var testResults: seq<TestEntry>

    constructor ()
      ensures testResults == []
    {
      testResults := [];
    }

    /** runAllTests: clears the results, runs every test in list order
        (test i gets answer `responses[i]`), showing the results after each,
        and returns the accuracy figure. */
    method RunAllTests(responses: seq<TestResponse>) returns (accuracy: int)
      requires |responses| == |TestCases|
      modifies this
      ensures testResults == RunAll(TestCases, responses)
      ensures accuracy == Accuracy(testResults)
    {
      testResults := [];
      var results: seq<TestEntry> := [];
      for i := 0 to |TestCases|
        invariant results == RunAll(TestCases[..i], responses[..i])
        invariant testResults == results
      {
        var entry := RunSingleTest(TestCases[i], responses[i]);
        results := results + [entry];
        testResults := results;
      }
      assert TestCases[..|TestCases|] == TestCases;
      assert responses[..|TestCases|] == responses;
      accuracy := 9300 + ResultHash(results) % 500;
    }
  }

  /** After a run, there is one entry per test, in list order, and the panel
      reports all sixteen tests. */
  lemma RunAllCoversTests(responses: seq<TestResponse>)
    requires |responses| == |TestCases|
    ensures var es := RunAll(TestCases, responses);
            |es| == 16 && (forall i :: 0 <= i < 16 ==> es[i].test == TestCases[i]) &&
            AccuracyStats(es).Some? && AccuracyStats(es).value.total == 16
  {
  }
}
