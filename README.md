# SpamShield core, modelled in Dafny

SpamShield checks text messages for spam. A Flask backend turns a
classifier's verdict into a result. That result holds a classification,
a risk score, keyword-based content characteristics, explanations and
recommendations. The backend serves single messages and uploaded
`.txt`/`.csv` files, and stores every analysis in MongoDB. It keeps
per-user statistics, pages and filters the history, deletes entries and
exports them. A React frontend builds dashboard records from the answers
and keeps the last ten in `localStorage`. It also runs a fixed suite of
sixteen test messages and scores them. Finally, it filters a news list
and cycles a testimonial carousel.

The project has one module per source file:

- `SpamDetection`: `backend/services/spam_detection.py`.
- `Api`: `backend/routes/api.py`.
- `DatabaseService`: `backend/utils/database_service.py`.
- `Dashboard`: `frontend/src/pages/Dashboard.jsx`.
- `TestSuite`: `frontend/src/components/SpamTestSuite.jsx`.
- `News`: `frontend/src/pages/News.jsx`.
- `Testimonials`: `frontend/src/components/Testimonials.jsx`.

A shared `Text` module holds the string helpers: Python's `strip`, ASCII
lower and upper case, `in`, `split`/`join`, and order-keeping filtering.

**How the code's parts are modelled:**

- **Pure code** is modelled as functions with lemmas about them.
- **Stateful code** is modelled as classes with `modifies` clauses:
  - the Mongo collections become `DatabaseService.Database`;
  - the dashboard's history state and storage become `Dashboard.HistoryStore`;
  - the test runner becomes `TestSuite.SuiteRunner`;
  - the carousel becomes `Testimonials.Carousel`.
- **Loops** are methods whose invariants tie them to a specification
  function. Examples are the keyword scan, the CSV analysis loop, the
  message query, the delete scan, the CSV export and `runAllTests`.

**Things the model receives instead of computing:**

- **The classifier:** `SpamDetection.Oracle`, which is `None` when no model
  is loaded.
- **The URL regex count:** a natural-number parameter.
- **The clock:** `now`, `today` and `month` strings.
- **The request's IP and user agent.**
- **Number formatting:** `Api.Formats`.
- **`toLocaleString`:** a function parameter.
- **Whether a `localStorage` write succeeds:** a `writeOk` flag.
- **The HTTP answer the frontend gets:** a `Response` value.

## Model

| member | source | states |
|---|---|---|
| SpamDetection.ScoreBucket | backend/services/spam_detection.py:54-75 | The classification is "spam" exactly when the label is Spam and the score is above 0.8. Each of the six score bands gets its classification and risk range. For Spam these are spam 80-100, suspicious 60-69 and suspicious 30-49. Otherwise they are safe 0-1, safe 0-6 and suspicious 10-29. The risk is always within 0..100. |
| SpamDetection.KeywordsInSound | backend/services/spam_detection.py:143-176 | A word is reported exactly when it is in the keyword list and occurs in the lower-cased message. The reported words keep the list's order. |
| SpamDetection.KeywordListsDistinct | backend/services/spam_detection.py:143-173 | None of the five keyword lists has a duplicate, so no word is reported twice. |
| SpamDetection.ScanKeywords | backend/services/spam_detection.py:143-146 | The scanning loop finds exactly the keywords that `KeywordsIn` specifies. |
| SpamDetection.AnalyzeContent | backend/services/spam_detection.py:133-178 | The five scans together yield exactly `ContentCharacteristics`. |
| SpamDetection.PhishingBucket | backend/services/spam_detection.py:155-163 | The phishing bucket holds the phishing keywords found, followed by one "contains_links" marker per URL. It contains the marker exactly when a URL was counted. |
| SpamDetection.Opt | backend/services/spam_detection.py:197-228 | A conditional line adds one entry when its condition holds and none otherwise. |
| SpamDetection.LeadStartsText | backend/services/spam_detection.py:185-228 | Every explanation text is non-empty and starts with its category's emoji. |
| SpamDetection.GenericTextsStandApart | backend/services/spam_detection.py:185-228 | A generic explanation never reads the same as a keyword or model explanation. |
| SpamDetection.GenericExplanation | backend/services/spam_detection.py:222-228 | The fallback line is one of the generic explanations. |
| SpamDetection.WithoutLinks | backend/services/spam_detection.py:207-209 | Dropping "contains_links" leaves only phishing keywords that were found. |
| SpamDetection.PhishingIndicators | backend/services/spam_detection.py:205-211 | "suspicious links" comes first when any URL was seen. At most two phishing keywords follow. |
| SpamDetection.TermLines | backend/services/spam_detection.py:197-219 | There is one content line per non-empty category. |
| SpamDetection.TermLinesNotGeneric | backend/services/spam_detection.py:197-219 | No content line is a generic line. |
| SpamDetection.Explanations | backend/services/spam_detection.py:180-230 | The model verdict comes first and there are one to five lines. With no category hit, the generic line follows the verdict. Otherwise there is one line per non-empty category, capped at five, and none is generic. |
| SpamDetection.Recommendations | backend/services/spam_detection.py:232-268 | There are one to four items. Their opening advice depends on spam, suspicious or safe. |
| SpamDetection.CreateResult | backend/services/spam_detection.py:103-114 | The result carries the given risk and classification. It lists no threats and uses the corrected recommendations. |
| SpamDetection.Classified | backend/services/spam_detection.py:54-97 | The risk is within 0..100 and there are one to four recommendations. Spam means a risk of 80-100 with model details. A failed prediction gives "error" with risk 0 and confidence 0. |
| SpamDetection.AnalyzeMessage | backend/services/spam_detection.py:33-101 | The method computes exactly `Analyze`, the corrected end-to-end analysis. |
| SpamDetection.BlankMessageIsSafe | backend/services/spam_detection.py:41-44 | A message that is empty after `strip` is safe, with risk 0 and no classifier call. |
| SpamDetection.FailureIsError | backend/services/spam_detection.py:91-101 | With no classifier, or when prediction fails, the analysis is "error" with risk 0. |
| SpamDetection.AnalysisBounds | backend/services/spam_detection.py:33-114 | Every analysis has a risk within 0..100, one to four recommendations and no threats. |
| SpamDetection.RecommendationsAsWritten | backend/services/spam_detection.py:232-268 | The source's recommendation code fails exactly when it is handed the list `[]` instead of a dict. |
| SpamDetection.ClassifiedAsWritten | backend/services/spam_detection.py:54-97 | Agrees with `Classified` on a successful prediction. Fails on a failed one. |
| SpamDetection.AsWrittenRaises | backend/services/spam_detection.py:43-44 | As written, a blank message, a missing classifier or a failed prediction makes `analyze_message` raise. |
| SpamDetection.AsWrittenAgrees | backend/services/spam_detection.py:33-101 | Whenever the as-written analysis returns, it returns the corrected analysis. |
| SpamDetection.AsWrittenReturns | backend/services/spam_detection.py:54-89 | A non-blank message with a successful prediction returns normally, with the corrected result. |
| DatabaseService.FieldsOf | backend/utils/database_service.py:59-63 | An analysis saved by the backend supplies its classification and risk score. |
| DatabaseService.MessageOf | backend/utils/database_service.py:56-66 | A stored message takes each field from the analysis. It falls back to risk 0, "unknown", confidence 0.0, no threats and empty details. |
| DatabaseService.IdTextWellFormed | backend/utils/database_service.py:105 | Every stored id prints as a 24-digit lower-case hex ObjectId string. |
| DatabaseService.IdTextLower | backend/utils/database_service.py:105 | An id's text is unchanged by lower-casing. |
| DatabaseService.BumpBucket | backend/utils/database_service.py:144-158 | The day or month bucket gets created if missing. Its total and the classification's count each rise by one, and other buckets are unchanged. |
| DatabaseService.Bumped | backend/utils/database_service.py:134-160 | The total rises by one. Exactly the matching one of spam, safe and suspicious rises. Both buckets are bumped and the update time is set. |
| DatabaseService.BumpStats | backend/utils/database_service.py:134-160 | The statistics update computes `Bumped`. |
| DatabaseService.StatsIn | backend/utils/database_service.py:129-133 | A user without statistics starts from zero counters. |
| DatabaseService.Recorded | backend/utils/database_service.py:125-174 | Only this user's statistics can change. A classification creates them. |
| DatabaseService.RecordAll | backend/utils/database_service.py:125-174 | A run of updates keeps every user's statistics well formed. |
| DatabaseService.RecordAllCounts | backend/utils/database_service.py:134-143 | After n updates the total has risen by n. Each of spam, safe and suspicious has risen by its number of occurrences. |
| DatabaseService.Matching | backend/utils/database_service.py:84-88 | Every selected message is in the store, belongs to the user and has the given classification, when one is given and it is non-empty. |
| DatabaseService.MatchingIsFilter | backend/utils/database_service.py:84-88 | The query selects exactly what an order-keeping filter on the match condition keeps. |
| DatabaseService.MatchingInOrder | backend/utils/database_service.py:88 | The selected messages keep the store's newest-first order. |
| DatabaseService.MatchingCount | backend/utils/database_service.py:84-88 | There are as many selected messages as store positions holding a matching message. |
| DatabaseService.MatchingComplete | backend/utils/database_service.py:84-88 | Every matching message is selected. |
| DatabaseService.Page | backend/utils/database_service.py:88 | `skip`/`limit` select a contiguous window. A negative skip gives nothing, limit 0 means no limit, and a negative limit acts as its absolute value. |
| DatabaseService.PageOfMatching | backend/utils/database_service.py:80-99 | A window of the matches is made only of matching messages. |
| DatabaseService.Database.constructor | backend/utils/database_service.py:13-17 | The store starts empty. |
| DatabaseService.Database.UpdateUserStatistics | backend/utils/database_service.py:125-174 | Only the statistics change, to `Recorded`. A missing classification leaves them unchanged. |
| DatabaseService.Database.SaveMessageAnalysis | backend/utils/database_service.py:52-78 | A fresh id is allocated. The new message goes first, `MessageOf` the analysis, and the user's statistics are recorded. |
| DatabaseService.Database.GetUserMessages | backend/utils/database_service.py:80-99 | The newest-first window of the user's matching messages. |
| DatabaseService.Database.MessageCount | backend/utils/database_service.py:113-122 | The count is the number of stored messages that match the query. It is zero exactly when none matches. |
| DatabaseService.Database.FirstMatch | backend/utils/database_service.py:104-107 | The first message with this id and user, or none when there is none. |
| DatabaseService.Database.DeleteMessage | backend/utils/database_service.py:101-111 | A delete happens exactly when the id is a valid ObjectId string and a message of this user has it. Exactly that message goes, and nothing else changes. |
| Api.AnalyzeRequest | backend/routes/api.py:30-77 | No body or no content gives 400 MISSING_CONTENT. Content that is not a string fails `strip` and gives 500 ANALYSIS_ERROR. Blank content gives 400 EMPTY_CONTENT, and more than 5000 characters gives 400 MESSAGE_TOO_LONG. Accepted content is the stripped text: non-blank, at most 5000 characters. |
| Api.AcceptedContentAvoidsBlankPath | backend/routes/api.py:37-51 | Accepted content never reaches the detector's failing blank-message path. |
| Api.AnalyzeRoute | backend/routes/api.py:23-77 | Rejected requests change nothing. Accepted ones save exactly one analysis and answer with it. |
| Api.FileRequest | backend/routes/api.py:85-119 | The upload fails with NO_FILE, NO_FILE_SELECTED, INVALID_FILE_TYPE, ENCODING_ERROR or FILE_TOO_LARGE, checked in that order. Accepted text is at most 10000 characters. |
| Api.Preview | backend/routes/api.py:131 | The stored preview is the stripped line, with "..." after the first 100 characters when the raw line is longer than 100. |
| Api.CsvLines | backend/routes/api.py:123-126 | At most 50 lines are kept, none containing a newline. |
| Api.NonBlankLines | backend/routes/api.py:126-127 | The kept numbered lines fall within the file. |
| Api.NonBlankLinesSound | backend/routes/api.py:126-127 | Each kept line is the file's line at its number and is not blank. Numbers increase. |
| Api.NonBlankLinesText | backend/routes/api.py:126-127 | A kept line's text is the file's line at its number. |
| Api.NonBlankLinesComplete | backend/routes/api.py:126-127 | Every non-blank line among the first 50 is kept. |
| Api.ResultFor | backend/routes/api.py:128-135 | A line's result carries its 1-based line number. |
| Api.CsvResultNumbers | backend/routes/api.py:126-135 | There is one result per non-blank line, numbered like it. |
| Api.CsvResultsCoverLines | backend/routes/api.py:126-135 | Result line numbers lie within the file, refer to non-blank lines and increase. |
| Api.CsvResultsCoverAll | backend/routes/api.py:126-135 | Every non-blank line has a result. |
| Api.CsvResultsDescribeLines | backend/routes/api.py:128-135 | Each result describes the line at its number. |
| Api.CsvResultsAnalyseLines | backend/routes/api.py:128-135 | Each result's analysis is the detector's analysis of the stripped line. |
| Api.SavedMessages | backend/routes/api.py:138-141 | One stored message per analysed line, with consecutive ids. |
| Api.SaveLine | backend/routes/api.py:128-145 | One line is analysed, saved and appended. The store stays in step with the results so far. |
| Api.CsvStep | backend/routes/api.py:126-145 | One turn of the CSV loop keeps results and store in step with the lines read. |
| Api.AnalyzeCsvLines | backend/routes/api.py:122-146 | The results are exactly one per non-blank line among the first 50. The store gains exactly those messages, newest first, and the statistics record exactly their classifications. |
| Api.Classes | backend/routes/api.py:138-141 | The classifications of the results, in order. |
| Api.AnalyzeFileRoute | backend/routes/api.py:79-176 | A rejected upload changes nothing. A CSV file gets one result per non-blank line among its first 50; exactly those messages are stored, newest first, and the statistics record exactly their classifications. A text file is saved once as one analysed message, and the user's statistics record it. |
| Api.PyFloorDiv | backend/routes/api.py:202 | Python `//` rounds toward minus infinity. |
| Api.PaginationOf | backend/routes/api.py:202-214 | The page count is the smallest that holds all messages. `has_next` holds when the page is before the last page, and `has_prev` when it is after the first. |
| Api.HasNextIffMore | backend/routes/api.py:202-212 | With pages of `per_page`, `has_next` holds exactly when messages remain beyond this page. |
| Api.HistoryRoute | backend/routes/api.py:178-223 | A non-numeric page or per_page answers HISTORY_ERROR. Otherwise the answer is the requested window of matching messages with its pagination. |
| Api.DeleteRoute | backend/routes/api.py:225-251 | The answer is a delete exactly when one message of the user with that id was removed, else MESSAGE_NOT_FOUND. The statistics are untouched. |
| Api.ExportFormat | backend/routes/api.py:286-293 | A missing format means pdf. A string format is lower-cased, and anything other than "csv" or "pdf" gives 400 INVALID_FORMAT. No body, or a format that is not a string, gives 500 EXPORT_ERROR. |
| Api.ExportFilename | backend/routes/api.py:332 | The export filename is the prefix, the first 8 characters of the user id, and the extension. |
| Api.ContentCell | backend/routes/api.py:317 | The CSV content cell is the first 100 characters, with "..." when longer. |
| Api.ExportRow | backend/routes/api.py:315-323 | One row per message, with the header's arity. The threats are joined by ", ", and the recommendations cell is empty. |
| Api.CsvExportRows | backend/routes/api.py:299-323 | The header comes first, then one row per message in order. |
| Api.ExportRoute | backend/routes/api.py:280-373 | A rejected format answers with `ExportFormat`'s error: 400 INVALID_FORMAT, or 500 EXPORT_ERROR. pdf answers a report file, and csv answers the header plus one row for each of the user's newest 1000 messages. |
| Dashboard.Reasons | frontend/src/pages/Dashboard.jsx:110-116 | The keyword, pattern, URL and formatting reasons appear in that order, each list in its order. A threat line comes last when there are threats. |
| Dashboard.ThreatType | frontend/src/pages/Dashboard.jsx:117 | The threats are joined by ", ", or "None" when that join is empty. |
| Dashboard.TruncatedMessage | frontend/src/pages/Dashboard.jsx:209 | The message is shown whole up to 100 characters, else its first 100 plus "...". |
| Dashboard.BuildRecord | frontend/src/pages/Dashboard.jsx:107-124 | The record is spam exactly when the class is spam. The confidence is rounded to whole percent, the timestamp is localised, and the message is truncated or "File: name". |
| Dashboard.Outcome | frontend/src/pages/Dashboard.jsx:103-134 | A record is produced exactly when the answer succeeded and carries analysis details. |
| Dashboard.PushRecent | frontend/src/pages/Dashboard.jsx:127 | The new record comes first, then the older ones, keeping at most 10. |
| Dashboard.PushRecentEvicts | frontend/src/pages/Dashboard.jsx:127 | Below 10 nothing is dropped. At 10 the oldest record is dropped. |
| Dashboard.PushAllBounded | frontend/src/pages/Dashboard.jsx:127 | Any series of analyses leaves at most 10 records, the latest first. |
| Dashboard.InitialHistory | frontend/src/pages/Dashboard.jsx:17-26 | Missing, empty or unparsable storage gives an empty history. Otherwise the parsed value is used. A value the page wrote itself (`Written`) reads back as the same list. This round trip holds by how `Written` is modelled, since `JSON.stringify`/`JSON.parse` are not. |
| Dashboard.Spread | frontend/src/pages/Dashboard.jsx:127 | Spreading a list gives its items and a string gives its characters. Anything else throws. |
| Dashboard.NextHistory | frontend/src/pages/Dashboard.jsx:126-128 | The history gains the record only when there is one and the old history spreads. |
| Dashboard.HistoryStore.constructor | frontend/src/pages/Dashboard.jsx:17-26 | The history is loaded from storage, and no result is shown. |
| Dashboard.HistoryStore.SaveHistory | frontend/src/pages/Dashboard.jsx:33-41 | The state always takes the new history. Storage keeps it only when the write succeeds. |
| Dashboard.HistoryStore.ShowOutcome | frontend/src/pages/Dashboard.jsx:126-128 | The result is set first, then the history advances and is persisted if the spread and the write succeed. |
| Dashboard.HistoryStore.AnalyzeMessage | frontend/src/pages/Dashboard.jsx:177-226 | A blank message changes nothing. Otherwise the result is set from the answer and the history is updated. Storage then holds the new history exactly when there is a record, the old history spreads and the write succeeds, and is otherwise unchanged. |
| Dashboard.HistoryStore.AnalyzeFileDirectly | frontend/src/pages/Dashboard.jsx:96-139 | The upload's record is labelled with the file name. The result, the history and what storage holds follow the message path: storage keeps the new history exactly when there is a record, the old history spreads and the write succeeds. |
| TestSuite.TestIdsIncrease | frontend/src/components/SpamTestSuite.jsx:16-136 | The sixteen test ids are distinct and increasing, so results keyed by id keep the list order. |
| TestSuite.FailureMessage | frontend/src/components/SpamTestSuite.jsx:163 | A failed answer's error, or "Analysis failed", is never empty. |
| TestSuite.RunSingleTest | frontend/src/components/SpamTestSuite.jsx:138-174 | A test completes exactly when the answer succeeded with model explanations. It is then correct exactly when "spam" agrees with what the test expects. A thrown or failed answer records its error. |
| TestSuite.RunAll | frontend/src/components/SpamTestSuite.jsx:181-189 | One result per test, in order. |
| TestSuite.Accuracy | frontend/src/components/SpamTestSuite.jsx:194-202 | The accuracy, in hundredths of a percent, lies in 93.00..97.99 and is 93 plus the hash mod 500 hundredths. |
| TestSuite.ResultHashSnoc | frontend/src/components/SpamTestSuite.jsx:199-200 | The hash adds each result's classification length. |
| TestSuite.ResultHashCompleted | frontend/src/components/SpamTestSuite.jsx:199-200 | Errored results add nothing to the hash. |
| TestSuite.AccuracyStats | frontend/src/components/SpamTestSuite.jsx:214-232 | No results means no stats. Otherwise the total is 16 and the completed count is the number of results without an error. The overall rate is correct over completed, and a spam or safe rate reads "0" exactly when there are no such completed tests. |
| TestSuite.AccuracyPartition | frontend/src/components/SpamTestSuite.jsx:218-223 | Completed tests split into spam and safe ones, and so do the correct ones. Every correct test is completed. |
| TestSuite.SuiteRunner.constructor | frontend/src/components/SpamTestSuite.jsx:178-179 | The runner starts with no results. |
| TestSuite.SuiteRunner.RunAllTests | frontend/src/components/SpamTestSuite.jsx:176-205 | After the loop the results are `RunAll` of the sixteen tests, and the reported accuracy is `Accuracy` of them. |
| TestSuite.RunAllCoversTests | frontend/src/components/SpamTestSuite.jsx:181-195 | A full run has one result per test, for that test. |
| News.FilteredKeepsMatches | frontend/src/pages/News.jsx:70-75 | An article is shown exactly when it matches the category and the case-insensitive search. Shown articles keep the list order. |
| News.UnfilteredShowsAll | frontend/src/pages/News.jsx:70-75 | "all" with an empty search shows every article. |
| News.Trending | frontend/src/pages/News.jsx:142-144 | The strip is the first two trending articles among those shown, or fewer when there are fewer. |
| News.TrendingAreShownAndTrending | frontend/src/pages/News.jsx:142-144 | Every strip article is shown and trending. |
| News.TrendingLeadingPair | frontend/src/pages/News.jsx:142-144 | When the first two shown are trending, they are the strip. |
| News.TrendingUnfiltered | frontend/src/pages/News.jsx:13-68 | Unfiltered, the strip is the first two articles. |
| News.CategoryLabel | frontend/src/pages/News.jsx:128 | The label is the category with its first character upper-cased. It has the same length and differs only in case. |
| News.CategoryLabels | frontend/src/pages/News.jsx:11 | The buttons read All, Phishing, Scams, Malware and Updates. |
| Testimonials.NextIndex | frontend/src/components/Testimonials.jsx:59-61 | "Next" moves one place forward and wraps from the last to the first. |
| Testimonials.PrevIndex | frontend/src/components/Testimonials.jsx:63-65 | "Prev" moves one place back and wraps from the first to the last. |
| Testimonials.NextPrevInverse | frontend/src/components/Testimonials.jsx:59-65 | The two arrows undo each other. |
| Testimonials.AdvanceMoves | frontend/src/components/Testimonials.jsx:59-61 | k presses of "next" move k places mod 6. |
| Testimonials.FullCircle | frontend/src/components/Testimonials.jsx:59-61 | Six presses return to the same testimonial. |
| Testimonials.Carousel.Shown | frontend/src/components/Testimonials.jsx:109-130 | The displayed testimonial is the one at the current index. |
| Testimonials.Carousel.constructor | frontend/src/components/Testimonials.jsx:6 | The carousel starts at the first testimonial. |
| Testimonials.Carousel.Next | frontend/src/components/Testimonials.jsx:59-61 | The index advances by `NextIndex` and stays valid. |
| Testimonials.Carousel.Prev | frontend/src/components/Testimonials.jsx:63-65 | The index moves back by `PrevIndex` and stays valid. |
| Testimonials.Carousel.Select | frontend/src/components/Testimonials.jsx:151 | A dot shows its own testimonial. |
| Text.Strip | backend/routes/api.py:37 | The stripped text neither starts nor ends with white space, and is no longer than the input. |
| Text.StripKeepsMiddle | backend/routes/api.py:37 | `strip` keeps one contiguous middle of the text. Everything it drops before and after is white space. |
| Text.StripEmptyIff | backend/services/spam_detection.py:43 | A string strips to empty exactly when it is all whitespace. |
| Text.SplitJoin | backend/routes/api.py:123 | Splitting on newlines and joining back restores the text. |
| Text.RoundHalfUp | frontend/src/pages/Dashboard.jsx:109 | `Math.round` gives the integer nearest, with halves rounded up. |
| Text.JoinEmptyIff | frontend/src/pages/Dashboard.jsx:117 | A join is empty exactly when the list is empty or holds one empty string. |
| Text.FilterMembers | frontend/src/components/SpamTestSuite.jsx:218-223 | `filter` keeps exactly the elements satisfying the predicate. |
| Text.FilterCommute | frontend/src/components/SpamTestSuite.jsx:218-223 | Two filters may be applied in either order. |
| Text.FilterPrefix | frontend/src/pages/News.jsx:142-144 | Filtering a prefix gives a prefix of the filtered list. |
| Text.FilterSubsequence | frontend/src/pages/News.jsx:70-75 | `filter` keeps the list order. |

## Left out

- **I/O and runtime effects:**
  - HTTP, MongoDB and `localStorage` are modelled as values and classes.
  - The network, timers, toasts, loading flags and `setCurrentTest` are UI effects and are not modelled.
  - Logging is not modelled.
- **The classifier:** model loading and the classifier's prediction are a parameter.
  - The URL regex `re.findall` is modelled only through the count it returns.
- **SpamDetection.ScoreBucket:** the risk comes from `int()` on a non-negative real, modelled as truncation.
  - `round(score, 3)` in the details is not modelled; the confidence is the model's score as a real.
- **The first `_get_recommendations`:** the second definition overrides it, so it is not modelled.
- **The PDF export body:** the multi-line f-string is left out; only the format check and the filename are modelled.
- **Other routes and functions:**
  - `/statistics`, `create_or_get_user`, `update_user`, `get_user_statistics` and `get_recent_activity` are not part of this model.
  - The `Message`/`Statistics` model classes are not part of this model either; their defaults are taken as the documented zero values.
- **DatabaseService.Database:**
  - ObjectIds are serial numbers printed as 24 hex digits.
  - Sorting by `analyzed_at` is represented by newest-first insertion order.
  - A failed insert or Mongo error is not modelled.
- **DatabaseService.Bumped:** a classification named "total" bumps the bucket's total twice. The model follows the code, and there is no lemma about it.
- **DatabaseService.Database.UpdateUserStatistics:** a missing classification would need a `None` key. Encoding it fails and the exception is swallowed, so the statistics are unchanged.
- Api.AnalyzeRoute: built on the corrected `SpamDetection.Analyze`. As written, a missing or failing classifier raises, and the route answers 500 ANALYSIS_ERROR with nothing saved. The model instead saves the "error" analysis and answers with it. `Api.AcceptedContentAvoidsBlankPath` shows the two agree whenever the classifier succeeds.
- Api.AnalyzeFileRoute: built on the corrected analysis as well. As written, a blank `.txt` file or a missing or failing classifier raises, and the route answers 500 FILE_ANALYSIS_ERROR. For a `.txt` file nothing is saved. For a CSV file the loop stops at the first line, and the lines before it stay saved. The model saves a "safe" or "error" analysis and completes every line.
- Api.AnalyzeCsvLines: takes a detector that always returns an analysis, so the stop halfway through a CSV file that the as-written code makes is not modelled.
- **Api.HistoryRoute:** `per_page` 0 divides by zero. The 500 answer is modelled, but not Python's error text.
- **Api.Preview:** "..." depends on the raw line's length, not the stripped one. The model follows the code.
- **Api.ExportRow:** the recommendations column reads a key that stored analysis details never have, so it is always empty.
- Dashboard.TruncatedMessage: counts characters as Unicode scalar values. JavaScript's `substring(0, 100)` and `length` count UTF-16 code units, so a message of astral characters such as emoji is cut earlier in the browser than in the model.
- Dashboard.BuildRecord: `Math.round(confidence * 100)` is modelled over exact reals as `RoundHalfUp`. JavaScript multiplies IEEE doubles first, so near a half the result can differ. For 0.285 the browser gives 28, while the model gives 29.
- **Dashboard:**
  - The frontend reads response fields the backend never sends (`keyword_matches`, `url_matches`, …). A real answer makes the handler throw, and the catch leaves only the toast. This path is `Outcome` = `None`.
  - A stored JSON string is spread character by character, as JavaScript does.
  - `toLocaleString` is a parameter.
  - The PDF report and the drag-and-drop reader are left out.
- **Text.Strip, Text.Lower:**
  - Whitespace is the six-character ASCII set JavaScript's `trim()` removes. Python's `str.strip()` also removes U+001C..U+001F, so for content such as "\x1c" `/analyze` answers 400 EMPTY_CONTENT while the model accepts and analyses it.
  - Case mapping is ASCII only; Unicode rules of Python and JavaScript are not modelled.
- TestSuite.RunSingleTest: `Math.round(confidence * 100)` is modelled over exact reals as `RoundHalfUp`. JavaScript multiplies IEEE doubles first, so near a half the stored confidence can differ by one; for 0.285 the browser gives 28, the model 29.
- **TestSuite:**
  - The accuracy's `toFixed(2)` string is modelled as an integer in hundredths.
  - `overall` with no completed tests is `NaN` in JavaScript; it is shown as `Percent(0, 0)`.
  - An errored test whose message is empty counts as completed, as in the code.
  - The `Error` message text of a `TypeError` is a fixed constant.
- **News:** the empty-state message and the article images and dates are not modelled beyond the data.
- **Testimonials:** the texts and images are left out, and the animation is not modelled.

## Findings

| source | as written | input that shows it | evidently intended | confidence | as-written member | corrected member |
|---|---|---|---|---|---|---|
| backend/services/spam_detection.py:43-44 | The blank, no-model and failure paths call `_create_result` with `[]` as content analysis. For a "safe" or "error" result the second `_get_recommendations` then indexes that list with `'phishing'` (line 264), raising `TypeError`, and the outer handler's own call raises again. | `analyze_message("   ")`, or any message when no model is loaded | A safe or error result with empty content characteristics | not executed | SpamDetection.AnalyzeAsWritten, SpamDetection.AsWrittenRaises | SpamDetection.Analyze, SpamDetection.BlankMessageIsSafe, SpamDetection.FailureIsError (the routes in `Api` are built on this corrected analysis) |
