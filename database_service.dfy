/** The backend's DatabaseService over an in-memory store: the messages
    collection, the statistics collection keyed by user, and the operations
    the API routes use. Messages are kept newest first, which stands for the
    `sort('analyzed_at', -1)` of every query. */
module DatabaseService {
  import opened Text
  import SD = SpamDetection

  /** One document of the messages collection. */
  datatype Message = Message(
    id: ObjectId, userId: string, content: string, riskScore: int,
    classification: string, confidence: real, threats: seq<string>,
    details: SD.Details, ipAddress: Option<string>, userAgent: Option<string>,
    analyzedAt: string)

  /** The analysis dictionary as save_message_analysis reads it: every key
      may be missing. */
  datatype AnalysisFields = AnalysisFields(
    riskScore: Option<int>, classification: Option<string>, confidence: Option<real>,
    threats: Option<seq<string>>, details: Option<SD.Details>)

  /** The dictionary the detector returns has every key. */
  function FieldsOf(a: SD.Analysis): (f: AnalysisFields)
    ensures f.classification == Some(a.classification) && f.riskScore == Some(a.riskScore)
  {
    AnalysisFields(Some(a.riskScore), Some(a.classification), Some(a.confidence),
                   Some(a.threats), Some(a.details))
  }

  function GetOr<T>(x: Option<T>, default: T): T {
    match x
    case Some(v) => v
    case None => default
  }

  /** The message document for an analysis, each missing field defaulted. */
  function MessageOf(id: ObjectId, userId: string, content: string, a: AnalysisFields,
                     ip: Option<string>, ua: Option<string>, now: string): (m: Message)
    ensures m.id == id && m.userId == userId && m.content == content
    ensures m.riskScore == (if a.riskScore.Some? then a.riskScore.value else 0)
    ensures m.classification == (if a.classification.Some? then a.classification.value else "unknown")
    ensures m.confidence == (if a.confidence.Some? then a.confidence.value else 0.0)
    ensures m.threats == (if a.threats.Some? then a.threats.value else [])
    ensures m.details == (if a.details.Some? then a.details.value else SD.NoDetails)
  {
    Message(id, userId, content, GetOr(a.riskScore, 0), GetOr(a.classification, "unknown"),
            GetOr(a.confidence, 0.0), GetOr(a.threats, []), GetOr(a.details, SD.NoDetails),
            ip, ua, now)
  }

  // ------------------------------------------------------------ object ids

  predicate IsHexDigit(c: char) {
    ('0' <= c <= '9') || ('a' <= c <= 'f') || ('A' <= c <= 'F')
  }

  /** The strings ObjectId(...) accepts: 24 hexadecimal digits. */
  predicate IsObjectIdText(s: string) {
    |s| == 24 && forall i :: 0 <= i < |s| ==> IsHexDigit(s[i])
  }

  function HexDigit(d: nat): char
    requires d < 16
  {
    if d < 10 then ('0' as int + d) as char else ('a' as int + d - 10) as char
  }

  predicate IsLowerHex(s: string) {
    forall i :: 0 <= i < |s| ==> IsHexDigit(s[i]) && !('A' <= s[i] <= 'Z')
  }

  /** The lower-case hexadecimal digits of `n`. */
  function HexDigits(n: nat): (s: string)
    ensures |s| >= 1 && IsLowerHex(s)
    decreases n
  {
    if n < 16 then [HexDigit(n)] else HexDigits(n / 16) + [HexDigit(n % 16)]
  }

  /** The id of the document inserted as the `serial`-th. Real ObjectIds
      also hold a timestamp and a random part; here only their text form
      and the order of insertion matter. */
  datatype ObjectId = ObjectId(serial: nat)

  /** str(ObjectId): the last 24 lower-case hexadecimal digits of the
      serial, zero-padded. */
  function IdText(id: ObjectId): string {
    var d := HexDigits(id.serial);
    if |d| < 24 then Repeat('0', 24 - |d|) + d else d[|d| - 24..]
  }

  /** A generated id reads as 24 lower-case hexadecimal digits, so
      ObjectId() accepts it. */
  lemma IdTextWellFormed(id: ObjectId)
    ensures IsObjectIdText(IdText(id)) && IsLowerHex(IdText(id))
  {
    var d := HexDigits(id.serial);
    if |d| < 24 {
      var z := Repeat('0', 24 - |d|);
      assert forall i :: 0 <= i < |z| ==> z[i] == '0';
      var s := z + d;
      assert forall i :: 0 <= i < |s| ==> s[i] == if i < |z| then z[i] else d[i - |z|];
    }
  }

  /** Lower-casing leaves a generated id unchanged, so deleting by it finds
      its document. */
  lemma IdTextLower(id: ObjectId)
    ensures Lower(IdText(id)) == IdText(id)
  {
    IdTextWellFormed(id);
    var s := IdText(id);
    assert forall i :: 0 <= i < |s| ==> LowerChar(s[i]) == s[i];
  }

  // ------------------------------------------------------------ statistics

  /** The counters of one user's statistics document. */
  datatype UserStats = UserStats(
    total: int, spam: int, safe: int, suspicious: int,
    daily: map<string, map<string, int>>, monthly: map<string, map<string, int>>,
    lastUpdated: string)

  const NewStats := UserStats(0, 0, 0, 0, map[], map[], "")

  const ZeroBucket: map<string, int> := map["total" := 0, "spam" := 0, "safe" := 0, "suspicious" := 0]

  function Count(b: map<string, int>, k: string): int {
    if k in b then b[k] else 0
  }

  predicate BucketsValid(buckets: map<string, map<string, int>>) {
    forall d :: d in buckets ==> "total" in buckets[d]
  }

  /** What every update keeps: the total bounds the three class counters,
      which are non-negative, and every day and month bucket has a total. */
  predicate StatsValid(s: UserStats) {
    && s.spam >= 0 && s.safe >= 0 && s.suspicious >= 0
    && s.total >= s.spam + s.safe + s.suspicious
    && BucketsValid(s.daily) && BucketsValid(s.monthly)
  }

  /** One day (or month) bucket after an analysis: created with zero
      counters if absent, then its total and the classification's counter
      each increased by one; the other buckets stay as they were. */
  function BumpBucket(buckets: map<string, map<string, int>>, key: string, classification: string)
    : (r: map<string, map<string, int>>)
    requires BucketsValid(buckets)
    ensures BucketsValid(r) && r.Keys == buckets.Keys + {key}
    ensures forall d :: d in buckets && d != key ==> r[d] == buckets[d]
    ensures var b := if key in buckets then buckets[key] else ZeroBucket;
            && r[key].Keys == b.Keys + {classification}
            && (classification != "total" ==>
                  r[key]["total"] == b["total"] + 1 && r[key][classification] == Count(b, classification) + 1)
            && (classification == "total" ==> r[key]["total"] == b["total"] + 2)
            && (forall k :: k in b && k != "total" && k != classification ==> r[key][k] == b[k])
  {
    var b0 := if key in buckets then buckets[key] else ZeroBucket;
    var b1 := b0["total" := b0["total"] + 1];
    var b2 := b1[classification := Count(b1, classification) + 1];
    buckets[key := b2]
  }

  /** A statistics document after one analysis with a classification. */
  function Bumped(s: UserStats, classification: string, today: string, month: string, now: string)
    : (r: UserStats)
    requires StatsValid(s)
    ensures StatsValid(r)
    ensures r.total == s.total + 1
    ensures r.spam == s.spam + (if classification == "spam" then 1 else 0)
    ensures r.safe == s.safe + (if classification == "safe" then 1 else 0)
    ensures r.suspicious == s.suspicious + (if classification == "suspicious" then 1 else 0)
    ensures r.daily == BumpBucket(s.daily, today, classification)
    ensures r.monthly == BumpBucket(s.monthly, month, classification)
    ensures r.lastUpdated == now
  {
    UserStats(
      s.total + 1,
      s.spam + (if classification == "spam" then 1 else 0),
      s.safe + (if classification == "safe" then 1 else 0),
      s.suspicious + (if classification == "suspicious" then 1 else 0),
      BumpBucket(s.daily, today, classification),
      BumpBucket(s.monthly, month, classification),
      now)
  }

  /** The in-memory edits of update_user_statistics on the document read
      (or created): the total, the classification's counter, the day and
      month buckets and the time of the update. */
  method BumpStats(prior: UserStats, cls: string, today: string, month: string, now: string)
    returns (stats: UserStats)
    requires StatsValid(prior)
    ensures stats == Bumped(prior, cls, today, month, now)
  {
    var total, spam, safe, suspicious := prior.total + 1, prior.spam, prior.safe, prior.suspicious;
    if cls == "spam" {
      spam := spam + 1;
    } else if cls == "safe" {
      safe := safe + 1;
    } else if cls == "suspicious" {
      suspicious := suspicious + 1;
    }
    var daily := BumpBucket(prior.daily, today, cls);
    var monthly := BumpBucket(prior.monthly, month, cls);
    stats := UserStats(total, spam, safe, suspicious, daily, monthly, now);
  }

  predicate AllValid(st: map<string, UserStats>) {
    forall u :: u in st ==> StatsValid(st[u])
  }

  /** get_user_statistics: the stored document, or a fresh one. */
  function StatsIn(st: map<string, UserStats>, userId: string): (s: UserStats)
    requires AllValid(st)
    ensures StatsValid(s)
    ensures userId !in st ==> s == NewStats
  {
    if userId in st then st[userId] else NewStats
  }

  /** The statistics collection after update_user_statistics. A missing
      classification (None) makes the upsert fail, since the day bucket
      would get a None key; the error is logged and nothing changes. */
  function Recorded(st: map<string, UserStats>, userId: string, classification: Option<string>,
                    today: string, month: string, now: string): (r: map<string, UserStats>)
    requires AllValid(st)
    ensures AllValid(r)
    ensures forall u :: u != userId ==> (u in r <==> u in st) && (u in st ==> r[u] == st[u])
    ensures classification.Some? ==> userId in r
  {
    if classification.None? then st
    else st[userId := Bumped(StatsIn(st, userId), classification.value, today, month, now)]
  }

  /** The statistics after one user's analyses with classifications `cs`,
      in order. */
  function RecordAll(st: map<string, UserStats>, userId: string, cs: seq<string>,
                     today: string, month: string, now: string): (r: map<string, UserStats>)
    requires AllValid(st)
    ensures AllValid(r)
  {
    if cs == [] then st
    else Recorded(RecordAll(st, userId, cs[..|cs| - 1], today, month, now), userId, Some(cs[|cs| - 1]), today, month, now)
  }

  lemma RecordAllSnoc(st: map<string, UserStats>, userId: string, cs: seq<string>, c: string,
                      today: string, month: string, now: string)
    requires AllValid(st)
    ensures RecordAll(st, userId, cs + [c], today, month, now)
         == Recorded(RecordAll(st, userId, cs, today, month, now), userId, Some(c), today, month, now)
  {
    assert (cs + [c])[..|cs|] == cs;
  }

  function Occurrences(cs: seq<string>, c: string): nat {
    if cs == [] then 0 else Occurrences(cs[..|cs| - 1], c) + (if cs[|cs| - 1] == c then 1 else 0)
  }

  /** After a run of analyses the user's total has grown by their number
      and each class counter by the occurrences of that class. */
  lemma {:induction false} RecordAllCounts(st: map<string, UserStats>, userId: string, cs: seq<string>,
                                           today: string, month: string, now: string)
    requires AllValid(st)
    ensures var before := StatsIn(st, userId);
            var after := StatsIn(RecordAll(st, userId, cs, today, month, now), userId);
            && after.total == before.total + |cs|
            && after.spam == before.spam + Occurrences(cs, "spam")
            && after.safe == before.safe + Occurrences(cs, "safe")
            && after.suspicious == before.suspicious + Occurrences(cs, "suspicious")
  {
    if cs != [] {
      RecordAllCounts(st, userId, cs[..|cs| - 1], today, month, now);
    }
  }

  // -------------------------------------------------------------- queries

  /** The `user_id` / `classification` query: the filter on classification
      applies only when one is given and it is not empty. */
  predicate Matches(m: Message, userId: string, classification: Option<string>) {
    m.userId == userId && (classification.None? || classification.value == "" || m.classification == classification.value)
  }

  /** The matching messages, in store order. */
  function Matching(ms: seq<Message>, userId: string, classification: Option<string>): (r: seq<Message>)
    ensures |r| <= |ms|
    ensures forall k :: 0 <= k < |r| ==> r[k] in ms && Matches(r[k], userId, classification)
  {
    if ms == [] then []
    else
      var last := ms[|ms| - 1];
      Matching(ms[..|ms| - 1], userId, classification) + (if Matches(last, userId, classification) then [last] else [])
  }

  lemma {:induction false} MatchingComplete(ms: seq<Message>, userId: string, classification: Option<string>)
    ensures forall m :: m in ms && Matches(m, userId, classification) ==> m in Matching(ms, userId, classification)
  {
    if ms != [] {
      MatchingComplete(ms[..|ms| - 1], userId, classification);
      assert ms == ms[..|ms| - 1] + [ms[|ms| - 1]];
    }
  }

  /** The query is the store's filter on `Matches`. */
  lemma {:induction false} MatchingIsFilter(ms: seq<Message>, userId: string, classification: Option<string>)
    ensures Matching(ms, userId, classification) == Filter(ms, m => Matches(m, userId, classification))
  {
    if ms != [] {
      MatchingIsFilter(ms[..|ms| - 1], userId, classification);
    }
  }

  /** The matches keep the store's (newest-first) order. */
  lemma MatchingInOrder(ms: seq<Message>, userId: string, classification: Option<string>)
    ensures Subsequence(Matching(ms, userId, classification), ms)
  {
    MatchingIsFilter(ms, userId, classification);
    FilterSubsequence(ms, m => Matches(m, userId, classification));
  }

  /** The positions in the store that hold a matching message. */
  ghost function MatchingPositions(ms: seq<Message>, userId: string, classification: Option<string>): set<int> {
    Positions(ms, m => Matches(m, userId, classification))
  }

  /** There is one match per matching position. */
  lemma MatchingCount(ms: seq<Message>, userId: string, classification: Option<string>)
    ensures |Matching(ms, userId, classification)| == |MatchingPositions(ms, userId, classification)|
  {
    MatchingIsFilter(ms, userId, classification);
    FilterCount(ms, m => Matches(m, userId, classification));
  }

  /** Cursor skip and limit: nothing when skip is negative (pymongo rejects
      it and the service returns []), a limit of 0 means no limit, and a
      negative limit counts as its absolute value. */
  function Page(xs: seq<Message>, skip: int, limit: int): (r: seq<Message>)
    ensures limit != 0 ==> |r| <= if limit > 0 then limit else -limit
    ensures skip >= 0 ==> forall k :: 0 <= k < |r| ==> skip + k < |xs| && r[k] == xs[skip + k]
    ensures skip < 0 ==> r == []
    ensures skip >= 0 && limit == 0 ==> |r| == if skip <= |xs| then |xs| - skip else 0
  {
    if skip < 0 then []
    else
      var rest := if skip <= |xs| then xs[skip..] else [];
      if limit == 0 then rest else Take(rest, if limit > 0 then limit else -limit)
  }

  function Abs(n: int): nat { if n >= 0 then n else -n }

  /** Appending one message to the scanned prefix adds it to the page
      exactly when it falls between skip and skip + limit. */
  lemma PageSnoc(xs: seq<Message>, x: Message, skip: nat, limit: int)
    ensures Page(xs + [x], skip, limit)
         == Page(xs, skip, limit) + (if skip <= |xs| && (limit == 0 || |xs| - skip < Abs(limit)) then [x] else [])
  {
    var ys := xs + [x];
    if skip <= |xs| {
      assert ys[skip..] == xs[skip..] + [x];
    }
  }

  /** One step of the scan in get_user_messages. */
  lemma ScanStep(ms: seq<Message>, i: nat, userId: string, classification: Option<string>, skip: nat, limit: int)
    requires i < |ms|
    ensures var before := Matching(ms[..i], userId, classification);
            var m := ms[i];
            && Matching(ms[..i + 1], userId, classification) == before + (if Matches(m, userId, classification) then [m] else [])
            && Page(Matching(ms[..i + 1], userId, classification), skip, limit)
               == Page(before, skip, limit)
                  + (if Matches(m, userId, classification) && skip <= |before| && (limit == 0 || |before| - skip < Abs(limit)) then [m] else [])
  {
    var m := ms[i];
    assert ms[..i + 1][..i] == ms[..i];
    var before := Matching(ms[..i], userId, classification);
    if Matches(m, userId, classification) {
      PageSnoc(before, m, skip, limit);
    }
  }

  /** A page of the matching messages holds only matching messages. */
  lemma PageOfMatching(ms: seq<Message>, userId: string, classification: Option<string>, skip: nat, limit: int)
    ensures var out := Page(Matching(ms, userId, classification), skip, limit);
            forall k :: 0 <= k < |out| ==> out[k] in ms && Matches(out[k], userId, classification)
  {
    var all := Matching(ms, userId, classification);
    var out := Page(all, skip, limit);
    forall k | 0 <= k < |out| ensures out[k] in ms && Matches(out[k], userId, classification) {
      assert out[k] == all[skip + k];
    }
  }

  /** The filter of delete_message: the document's id reads `key` and it
      belongs to `userId`. */
  predicate Identifies(m: Message, key: string, userId: string) {
    IdText(m.id) == key && m.userId == userId
  }

  class Database {
    var messages: seq<Message>             // newest first
    var statistics: map<string, UserStats>
    var inserted: nat                      // documents inserted so far

    ghost predicate Valid()
      reads this
    {
      AllValid(statistics)
    }

    constructor ()
      ensures Valid() && messages == [] && statistics == map[] && inserted == 0
    {
      messages := [];
      statistics := map[];
      inserted := 0;
    }

    /** update_user_statistics, step by step. */
    method UpdateUserStatistics(userId: string, classification: Option<string>,
                                today: string, month: string, now: string)
      requires Valid()
      modifies this
      ensures Valid() && messages == old(messages) && inserted == old(inserted)
      ensures statistics == Recorded(old(statistics), userId, classification, today, month, now)
    {
      if classification.None? {
        return;
      }
      var stats := BumpStats(StatsIn(statistics, userId), classification.value, today, month, now);
      statistics := statistics[userId := stats];
    }

    /** save_message_analysis: inserts the document (newest first) with a
        fresh id and updates the user's statistics with its classification. */
    method SaveMessageAnalysis(userId: string, content: string, a: AnalysisFields,
                               ip: Option<string>, ua: Option<string>,
                               now: string, today: string, month: string) returns (m: Message)
      requires Valid()
      modifies this
      ensures Valid() && inserted == old(inserted) + 1
      ensures m == MessageOf(ObjectId(old(inserted)), userId, content, a, ip, ua, now)
      ensures messages == [m] + old(messages)
      ensures statistics == Recorded(old(statistics), userId, a.classification, today, month, now)
    {
      m := MessageOf(ObjectId(inserted), userId, content, a, ip, ua, now);
      messages := [m] + messages;
      inserted := inserted + 1;
      UpdateUserStatistics(userId, a.classification, today, month, now);
    }

    /** get_user_messages: the user's messages (of one classification, if
        given), newest first, after `skip` and at most `limit` of them. */
    method GetUserMessages(userId: string, limit: int, skip: int, classification: Option<string>)
      returns (out: seq<Message>)
      ensures out == Page(Matching(messages, userId, classification), skip, limit)
      ensures forall k :: 0 <= k < |out| ==> out[k] in messages && Matches(out[k], userId, classification)
      ensures limit > 0 ==> |out| <= limit
    {
      out := [];
      if skip < 0 {
        return;
      }
      var seen := 0;
      var i := 0;
      while i < |messages|
        invariant 0 <= i <= |messages|
        invariant seen == |Matching(messages[..i], userId, classification)|
        invariant out == Page(Matching(messages[..i], userId, classification), skip, limit)
      {
        var m := messages[i];
        ScanStep(messages, i, userId, classification, skip, limit);
        if Matches(m, userId, classification) {
          if seen >= skip && (limit == 0 || seen - skip < Abs(limit)) {
            out := out + [m];
          }
          seen := seen + 1;
        }
        i := i + 1;
      }
      assert messages[..i] == messages;
      PageOfMatching(messages, userId, classification, skip, limit);
    }

    /** get_message_count: how many messages match. */
    function MessageCount(userId: string, classification: Option<string>): (n: nat)
      reads this
      ensures n <= |messages|
      ensures n == 0 <==> forall k :: 0 <= k < |messages| ==> !Matches(messages[k], userId, classification)
      ensures n == |MatchingPositions(messages, userId, classification)|
    {
      MatchingCount(messages, userId, classification);
      MatchingComplete(messages, userId, classification);
      var r := Matching(messages, userId, classification);
      assert r != [] ==> r[0] in messages;
      |r|
    }

    /** The position of the first document from `from` on whose id reads
        `key` and whose owner is `userId`. */
    function FirstMatch(key: string, userId: string, from: nat): (r: Option<nat>)
      reads this
      requires from <= |messages|
      ensures r.Some? ==> from <= r.value < |messages| && Identifies(messages[r.value], key, userId)
      ensures r.Some? ==> forall k :: from <= k < r.value ==> !Identifies(messages[k], key, userId)
      ensures r.None? ==> forall k :: from <= k < |messages| ==> !Identifies(messages[k], key, userId)
      decreases |messages| - from
    {
      if from == |messages| then None
      else if Identifies(messages[from], key, userId) then Some(from)
      else FirstMatch(key, userId, from + 1)
    }

    /** delete_message: removes the first document with that id and owner
        and reports whether there was one; an id that is not 24 hex digits
        makes ObjectId() raise, which is logged and reported as false. */
    method DeleteMessage(userId: string, messageId: string) returns (deleted: bool)
      requires Valid()
      modifies this
      ensures Valid() && statistics == old(statistics) && inserted == old(inserted)
      ensures deleted <==> (IsObjectIdText(messageId) &&
                exists k :: 0 <= k < |old(messages)| && Identifies(old(messages)[k], Lower(messageId), userId))
      ensures deleted ==> var k := old(FirstMatch(Lower(messageId), userId, 0)).value;
                messages == old(messages)[..k] + old(messages)[k + 1..]
      ensures !deleted ==> messages == old(messages)
    {
      if !IsObjectIdText(messageId) {
        return false;
      }
      var key := Lower(messageId);
      var i := 0;
      while i < |messages|
        invariant 0 <= i <= |messages|
        invariant FirstMatch(key, userId, 0) == FirstMatch(key, userId, i)
      {
        if Identifies(messages[i], key, userId) {
          messages := messages[..i] + messages[i + 1..];
          return true;
        }
        i := i + 1;
      }
      return false;
    }
  }
}
