# Visen career app: session state machine, upload pipeline and score banding

Visen is a React front end. A user uploads a resume PDF with a target job and gets a model-written review. The user also practises interview questions, which the model writes and then scores answer by answer. This project models the logic in that front end:

- **Interview session page** (`InterviewSession` module, class `SessionPage`).
  - It holds an ordered list of questions, the index of the question on screen, an answer buffer and a seconds timer.
  - Submitting an answer has the model score it. The page then rewrites exactly that one question in place, recomputes `questionsAnswered` and `averageScore`, and re-persists the session.
  - Previous/Next clamp the index and reset the answer and the timer.
  - A "new" page generates questions from a stored resume; any other page loads a stored session.
- **Model output decoding** (`ModelOutput`, `Text`).
  - Text is pulled from a reply whose content is either a string or a list of parts.
  - `` ```json `` and `` ``` `` markers are stripped, then the text is trimmed with JavaScript's whitespace set.
  - `JSON.parse` is a parameter of the model.
- **Resume upload pipeline** (`Upload`, class `UploadPage`).
  - The steps are: upload the PDF, convert it, upload the image, write a draft record, call the model, write the final record, navigate.
  - Each step shows a fixed status line. The first failing step shows its error and stops the chain.
  - `Run` is the specification of the handler as a trace, and `UploadPage.HandleAnalyze` is proved to perform exactly that trace.
- **Standalone interview preparation** (`InterviewPrep`, class `PrepPage`).
  - Creation first validates the form. It then decorates the generated questions with ids and defaults, and stores the session under `interview:<id>`.
  - Listing parses every stored session.
- **Score banding** (`ScoreBands`, `Summary`, `Ats`).
  - The threshold conditionals (`> 69`, `> 49`) pick badge texts, styles, colours, gradients, borders and icons.
  - Each one is proved to agree with one reference band function.
- **Store** (`Records`).
  - The key-value store is a class over a `map` with a ghost write log.
  - Its invariant keeps resume records off `interview:` keys and session records off `resume:` keys.

Outside calls are parameters of the operations that make them:
- the file/image uploads and the PDF conversion;
- the model call;
- `JSON.parse` and `JSON.stringify`;
- the UUID generator, passed as "the k-th generated id";
- the clock, passed as the creation timestamp;
- the browser's microphone permission.

## Behaviour worth knowing

- **Average denominator.** The average divides the sum of truthy scores by the number of questions with a non-empty answer (app/routes/InterviewSession.tsx:286-290). It is not a mean over the scored questions only: an answered question without a score pulls the average down. `DenominatorCountsAnswered` shows an input where the two differ.
- **Listing.** One stored entry that fails to parse makes the whole listing throw (app/routes/InterviewPrep-Standalone.tsx:52-54). The loading flag stays set and the list is unchanged. It is not a listing that skips malformed entries: `MalformedEntryAborts` and `ListingParses` state this.
- **Score validation.** Scores returned by the model are not range-checked. The range property stated in `AverageInRange` is therefore conditional on in-range scores.

Behaviour modelled as written:
- In question generation, a missing resume record returns before the loading flag is cleared (app/routes/InterviewSession.tsx:92).
- In question generation, a resume record that does not parse throws outside the `try` (app/routes/InterviewSession.tsx:94). Both cases leave the flag set.
- The upload page never clears `isProcessing`.
- In the upload pipeline, a model reply whose text cannot be read or parsed throws after the draft write. The status stays on "Get Ready...".

## Model

| member | source | states |
|---|---|---|
| Text.Trim | app/routes/InterviewSession.tsx:224 | the result is the slice of the input that starts after its leading whitespace, with only whitespace before and after it and a non-whitespace character at each end; empty exactly when the input is all whitespace |
| Text.BlankIffTrimEmpty | app/routes/InterviewPrep-Standalone.tsx:62 | a text is blank (all whitespace) exactly when it trims to the empty string |
| Text.TrimIdempotent | app/routes/InterviewSession.tsx:141 | trimming a trimmed text changes nothing |
| Text.PadStart | app/routes/InterviewSession.tsx:310 | the result has length max(width, len), ends with the input, and is filled in front with the pad character |
| Text.ParseNatToString | app/routes/InterviewSession.tsx:308-310 | reading back the decimal numeral of n gives n |
| ModelOutput.ReplyTextShapeAgnostic | app/routes/InterviewSession.tsx:135-138 | a string content and a parts list whose first part holds the same text yield the same text |
| ModelOutput.ReplyText | app/routes/InterviewSession.tsx:131-138 | a text comes only from a reply with a message and content; from a parts list it is the first part's text, which must exist |
| ModelOutput.ReplyTextFailures | app/routes/InterviewSession.tsx:131-133 | a missing reply, message or content, an empty parts list or a part without text yields no text |
| ModelOutput.StripFences | app/routes/InterviewSession.tsx:141 | removing the markers never lengthens the text and keeps a first character that is not a backtick |
| ModelOutput.StripFencesLeavesNoFence | app/routes/InterviewSession.tsx:141 | after the global replace no three-backtick run remains |
| ModelOutput.StripFencesIdentity | app/routes/InterviewSession.tsx:141 | text without a three-backtick run is left as it is |
| ModelOutput.StripFencesIdempotent | app/routes/InterviewSession.tsx:141 | stripping twice is stripping once |
| ModelOutput.StripFencesAppend | app/routes/InterviewSession.tsx:141 | a backtick-free prefix passes through the replace untouched |
| ModelOutput.CleanJsonIgnoresFences | app/routes/InterviewSession.tsx:141 | a payload wrapped in a json fence or a plain fence cleans to the same text as the bare payload |
| ModelOutput.CleanJson | app/routes/InterviewSession.tsx:141 | the cleaned text is no longer than the reply, is already trimmed, and is blank only when empty |
| ModelOutput.StripClosedFence | app/routes/InterviewSession.tsx:141 | a backtick-free payload followed by a closing fence strips to the payload |
| ModelOutput.StripJsonFence | app/routes/InterviewSession.tsx:141 | a backtick-free payload inside a json fence strips to the payload |
| ModelOutput.StripPlainFence | app/routes/InterviewSession.tsx:141 | a backtick-free payload not starting with json inside a plain fence strips to the payload |
| ModelOutput.Decode | app/routes/InterviewSession.tsx:131-142 | no readable text fails; a cleaned text that is empty fails, since JSON.parse("") throws; any other cleaned text gives exactly the parser's verdict on it, so a success parsed non-empty cleaned text |
| Records.Decorate | app/routes/InterviewSession.tsx:144-147 | one question per draft, in order, each keeping the draft's fields, carrying the i-th id and the given answer/score/feedback |
| Records.DecorateIdsDistinct | app/routes/InterviewSession.tsx:144-147 | distinct ids give questions with distinct ids |
| Records.KeysOfNamespaces | app/routes/InterviewSession.tsx:91 | resume and interview keys carry their own prefix, never collide, and determine their id |
| Records.KvStore.Set | app/routes/upload.tsx:64 | replaces the one key's value and logs the write; a read of that key then gives the new value, a read of any other key what it gave before; every record stays in its namespace |
| ScoreBands.BandsPartition | app/component/Summary.tsx:4-5 | high exactly above 69, medium exactly for 50..69, low exactly at 49 or below |
| ScoreBands.BandMonotone | app/component/Summary.tsx:4-5 | a higher score never has a lower band |
| Summary.BadgeText | app/component/Summary.tsx:4-5 | "Strong", "Good Start", "Needs Work" exactly for the high, medium and low band |
| Summary.BadgeStyle | app/component/Summary.tsx:7-24 | green, yellow and red style exactly for the high, medium and low band |
| Summary.CategoryTextColor | app/component/Summary.tsx:34-39 | green, yellow and red text exactly for the high, medium and low band |
| Summary.CategoryOf | app/component/Summary.tsx:33-52 | a category row keeps its title and score, and its colour, badge text and badge style are exactly the literals of the score's band (any other string decodes to no band) |
| Summary.BadgeAgreement | app/component/Summary.tsx:4-39 | badge text, badge style and score colour are each the one literal that decodes to the score's band |
| Summary.SummaryOf | app/component/Summary.tsx:56-74 | the overall score and exactly four rows: Tone & Style, Content, Structure, Skills, with their scores; each row's colour, badge text and badge style are the literals of its score's band |
| Ats.GradientClass | app/component/ATS.tsx:10-15 | green, yellow and red gradient exactly for the high, medium and low band |
| Ats.BorderClass | app/component/ATS.tsx:17-22 | green, yellow and red border exactly for the high, medium and low band |
| Ats.ScoreIcon | app/component/ATS.tsx:38-44 | good, warning and bad icon exactly for the high, medium and low band |
| Ats.AtsSelectionsAgree | app/component/ATS.tsx:10-44 | gradient, border and icon are each the one literal that decodes to the score's band |
| Ats.TipIcon | app/component/ATS.tsx:63-67 | the check icon exactly for type "good", the warning icon otherwise |
| Ats.Rows | app/component/ATS.tsx:60-73 | one row per suggestion, in input order, with its tip and its type's icon |
| Ats.CardOf | app/component/ATS.tsx:3-78 | the card shows the score; its gradient, border and icon are exactly the literals of the score's band (any other string decodes to no band); one row per suggestion in order |
| InterviewSession.AnsweredCount | app/routes/InterviewSession.tsx:286 | the count of questions with a non-empty answer, at most the list length |
| InterviewSession.ScoreSum | app/routes/InterviewSession.tsx:287-290 | 0 when no question has a truthy score; non-negative when every truthy score is |
| InterviewSession.RoundHalfUp | app/routes/InterviewSession.tsx:294 | the result lies within one half of num/den, halves rounding up |
| InterviewSession.RoundHalfUpUnique | app/routes/InterviewSession.tsx:294 | exactly one integer meets those bounds |
| InterviewSession.AverageScore | app/routes/InterviewSession.tsx:287-290 | 0 when nothing is answered; otherwise the rounded quotient of the truthy-score sum by the answered count |
| InterviewSession.AnsweredCountUpdate | app/routes/InterviewSession.tsx:271-277 | replacing one question changes the count by that question's contribution only |
| InterviewSession.ScoreSumUpdate | app/routes/InterviewSession.tsx:271-277 | replacing one question changes the sum by that question's contribution only |
| InterviewSession.AnsweredCountPositive | app/routes/InterviewSession.tsx:286 | one answered question makes the count positive |
| InterviewSession.UntouchedAggregates | app/routes/InterviewSession.tsx:286-290 | with no truthy answer or score both aggregates are 0 (the NaN guard) |
| InterviewSession.ScoreSumBounds | app/routes/InterviewSession.tsx:287-290 | with scores in 0..100 only on answered questions, the sum lies in 0..100 times the answered count |
| InterviewSession.AverageInRange | app/routes/InterviewSession.tsx:287-294 | under the same conditions the average lies in 0..100 |
| InterviewSession.AggregateExample | app/routes/InterviewSession.tsx:286-294 | scores 80, 60, unanswered, 100 give 3 answered and average 80 |
| InterviewSession.DenominatorCountsAnswered | app/routes/InterviewSession.tsx:286-290 | an answered question without a score still counts in the denominator: 80 and an unscored answer average 40 |
| InterviewSession.Rescored | app/routes/InterviewSession.tsx:271-277 | same length, every other entry unchanged; the entry keeps id, question, category, difficulty and tips and gets the answer, the evaluation's score and the serialised evaluation |
| InterviewSession.SessionPage.Rescore | app/routes/InterviewSession.tsx:271-281 | the shown list becomes the rescored list, whose answered count is positive |
| InterviewSession.RescoredAggregates | app/routes/InterviewSession.tsx:271-286 | the rescored list counts the new answer, so its answered count is positive |
| InterviewSession.RescoredKeepsInvariants | app/routes/InterviewSession.tsx:271-277 | rescoring keeps "scored questions are answered" and, for an in-range score, "scores lie in 0..100" |
| InterviewSession.FirstAnswer | app/routes/InterviewSession.tsx:271-294 | answering one question of an untouched session gives one answered question and that score as the average |
| InterviewSession.AfterScoring | app/routes/InterviewSession.tsx:292-294 | the stored session gets the new questions and both aggregates and keeps every other field |
| InterviewSession.GeneratedSession | app/routes/InterviewSession.tsx:152-163 | a resume-linked session with the resume's title and company, zero answered, zero average, and total = the number of questions |
| InterviewSession.FirstIds | app/routes/InterviewSession.tsx:144-147 | the i-th question gets the i-th generated id |
| InterviewSession.GeneratedAggregates | app/routes/InterviewSession.tsx:144-163 | generated questions have no answer or score, so the stored zeros are the aggregates |
| InterviewSession.TwoDigits | app/routes/InterviewSession.tsx:309-310 | the seconds part is exactly two digits that read back as the seconds |
| InterviewSession.TwoDigitsIsPadStart | app/routes/InterviewSession.tsx:310 | those two digits are the seconds' numeral padded in front with "0" to width 2 |
| InterviewSession.FormatTime | app/routes/InterviewSession.tsx:307-311 | the display is the minutes numeral, a colon and two digits that read as the remaining seconds |
| InterviewSession.ParseTimeOf | app/routes/InterviewSession.tsx:310 | an m:ss display with two-digit seconds below 60 reads back as minutes times 60 plus seconds |
| InterviewSession.FormatTimeRoundTrip | app/routes/InterviewSession.tsx:307-311 | the m:ss display of s reads back as s: minutes = s/60 and two-digit seconds = s%60 |
| InterviewSession.SessionPage.constructor | app/routes/InterviewSession.tsx:42-49 | the initial page state: no questions, index 0, empty answer, flags off, timer 0 |
| InterviewSession.SessionPage.EditAnswer | app/routes/InterviewSession.tsx:487 | the answer buffer becomes the typed text |
| InterviewSession.SessionPage.AnalyzeAnswer | app/routes/InterviewSession.tsx:223-305 | a blank answer changes nothing; a failed decode alerts and changes neither the questions nor the store; success rewrites the current question (`Rescored`) and, on a saved page with a stored session, writes that session with the new questions and aggregates; the analysing flag ends cleared |
| InterviewSession.SessionPage.Persist | app/routes/InterviewSession.tsx:282-299 | on a saved page with a stored session, writes that session with the shown questions and both aggregates; a stored text that does not parse is alerted; otherwise nothing is written |
| InterviewSession.SessionPage.Previous | app/routes/InterviewSession.tsx:577-584 | index max(0, i-1); answer "", timer 0 and stopped; questions untouched; an index in range stays in range |
| InterviewSession.SessionPage.Next | app/routes/InterviewSession.tsx:591-598 | index min(len-1, i+1); answer "", timer 0 and stopped; questions untouched; an index in range stays in range |
| InterviewSession.SessionPage.ResetTimer | app/routes/InterviewSession.tsx:449-452 | timer 0 and stopped, nothing else changes |
| InterviewSession.SessionPage.Tick | app/routes/InterviewSession.tsx:73-85 | one second counts only while the timer runs |
| InterviewSession.SessionPage.StartRecording | app/routes/InterviewSession.tsx:190-210 | granted microphone access starts recording and the timer; a refusal changes nothing |
| InterviewSession.SessionPage.StopRecording | app/routes/InterviewSession.tsx:212-221 | stops recording and the timer if recording, else nothing |
| InterviewSession.SessionPage.LoadSession | app/routes/InterviewSession.tsx:180-188 | a stored session shows its questions; nothing or an empty value stored keeps them; another parsed value shows none; unparsable text throws with the loading flag left set |
| InterviewSession.SessionPage.GenerateQuestions | app/routes/InterviewSession.tsx:87-178 | no resume record leaves the flag set and nothing changed; a failed model call alerts and goes back to the preparation page; success shows the decorated questions, stores the new session under its fresh id and moves to it |
| InterviewSession.SessionPage.LoadOrGenerate | app/routes/InterviewSession.tsx:58-70 | "new" with a resume id has exactly the effect of generation from that resume; "new" without one changes nothing; another id has exactly the effect of loading that session and writes, alerts and navigates nothing |
| InterviewPrep.ValidFormIffContent | app/routes/InterviewPrep-Standalone.tsx:62-65 | the form passes exactly when both fields trim to something non-empty, so neither field is empty |
| InterviewPrep.WithDefaults | app/routes/InterviewPrep-Standalone.tsx:108-114 | each question keeps its fields and order and gains the i-th id, answer "", score 0, feedback "" |
| InterviewPrep.DefaultsAreUnanswered | app/routes/InterviewPrep-Standalone.tsx:108-126 | those defaults are falsy, so the stored zeros agree with the computed aggregates |
| InterviewPrep.NewSession | app/routes/InterviewPrep-Standalone.tsx:117-136 | id, title, description, time and questions as given; not completed; zero answered and zero average; the requested count |
| InterviewPrep.ParseAll | app/routes/InterviewPrep-Standalone.tsx:51-55 | succeeds exactly when every entry parses, giving one session per entry in list order |
| InterviewPrep.MalformedEntryAborts | app/routes/InterviewPrep-Standalone.tsx:52-54 | one malformed entry anywhere makes the whole listing fail |
| InterviewPrep.ListingParses | app/routes/InterviewPrep-Standalone.tsx:49-55 | over a listing of a namespaced store, the listing fails exactly when some stored interview entry does not parse, and otherwise every stored session is in the result |
| InterviewPrep.StatusBadge | app/routes/InterviewPrep-Standalone.tsx:362-370 | "Completed" exactly when completed is true, "In Progress" otherwise |
| InterviewPrep.ShowsAverageAfterScoring | app/routes/InterviewPrep-Standalone.tsx:353-357 | a session re-persisted after scoring shows its average on the card exactly when its score total is at least half its answered count |
| InterviewPrep.NewSessionListing | app/routes/InterviewPrep-Standalone.tsx:353-370 | a new standalone session lists as in progress and shows no average |
| InterviewPrep.PrepPage.constructor | app/routes/InterviewPrep-Standalone.tsx:32-39 | empty form, no sessions, flags off, and the default count 10, which is one of the offered counts |
| InterviewPrep.PrepPage.SetJobTitle | app/routes/InterviewPrep-Standalone.tsx:238 | the title field becomes the typed text |
| InterviewPrep.PrepPage.SetJobDescription | app/routes/InterviewPrep-Standalone.tsx:256 | the description field becomes the typed text |
| InterviewPrep.PrepPage.SelectCount | app/routes/InterviewPrep-Standalone.tsx:276-295 | the count becomes the chosen option, one of 5, 10, 15, 20 |
| InterviewPrep.PrepPage.LoadSessions | app/routes/InterviewPrep-Standalone.tsx:49-57 | an absent list gives []; given the store's listing, the flag stays set and the list is unchanged exactly when some stored interview entry does not parse; otherwise one session per entry in order, holding every stored session |
| InterviewPrep.PrepPage.CreateSession | app/routes/InterviewPrep-Standalone.tsx:59-146 | an invalid form alerts with no write; a failed generation alerts, writes nothing, does not navigate and clears the flag; success stores the new session with its questions under interview:id and navigates to the same id |
| InterviewPrep.PrepPage.StoreSession | app/routes/InterviewPrep-Standalone.tsx:106-139 | stores the new session, with the requested count and the decorated questions, under interview: and the id after the questions' ids, and navigates to it |
| Upload.DraftRecord | app/routes/upload.tsx:55-63 | the id, both uploaded paths, the three form fields and no feedback |
| Upload.FeedbackOf | app/routes/upload.tsx:72-77 | no readable text or a blank text gives no feedback; a readable non-blank text gives exactly the parser's verdict on it (a feedback object or any other JSON value), and any feedback comes from that verdict |
| Upload.Scoring | app/routes/upload.tsx:52-82 | after the uploads: the gathering and get-ready statuses, then the draft write first; at most one more status and one more write |
| Upload.Run | app/routes/upload.tsx:27-83 | two to six statuses starting with "Uploading File..."; at most two writes, all to resume:uuid; navigation to /resume/uuid exactly after two writes, with the completion status last |
| Upload.FullSuccess | app/routes/upload.tsx:39-82 | every step succeeding shows the six statuses in order, writes twice and navigates |
| Upload.FirstFailureHalts | app/routes/upload.tsx:42-72 | each failing step shows its own error right after the statuses before it; navigation happens exactly when no step fails |
| Upload.NoWriteBeforeImage | app/routes/upload.tsx:40-64 | nothing is written exactly when an upload or the conversion fails |
| Upload.DraftBeforeModel | app/routes/upload.tsx:54-68 | the first write is the draft, whatever the model replies |
| Upload.FinalWriteUpdatesDraft | app/routes/upload.tsx:77-78 | the final write uses the draft's key, carries the feedback parsed from the reply, and differs from the draft only in that feedback |
| Upload.OtherJsonStored | app/routes/upload.tsx:77-81 | a reply that parses to JSON other than a feedback object is still stored as the record's feedback, the status ends on completion and the page navigates to the record |
| Upload.ScoringFailureKeepsDraft | app/routes/upload.tsx:64-77 | a failed or unreadable model reply leaves exactly one write, the draft, and no navigation |
| Upload.EmptyFeedbackFails | app/routes/upload.tsx:72-76 | an empty model reply throws at the parse: five statuses, only the draft written, no navigation |
| Upload.NavigationMatchesKey | app/routes/upload.tsx:64-82 | the page navigated to is named by the same id as the written key |
| Upload.UploadPage.constructor | app/routes/upload.tsx:19-21 | not processing, no status, no file |
| Upload.UploadPage.SelectFile | app/routes/upload.tsx:23-25 | the selected file becomes the given one |
| Upload.UploadPage.HandleAnalyze | app/routes/upload.tsx:27-83 | shows exactly Run's statuses, performs exactly Run's writes on the store, navigates where Run does, and leaves the processing flag set |
| Upload.UploadPage.Score | app/routes/upload.tsx:52-82 | shows exactly Scoring's statuses, performs exactly its writes and navigates where it does |
| Upload.UploadPage.HandleSubmit | app/routes/upload.tsx:85-97 | with no file nothing changes; with a file the statuses, status line, writes and navigation are those of Run, and the processing flag is set |

## Left out

- Authentication redirects (app/routes/InterviewSession.tsx:54-56): plain router navigation on a flag of the auth service.
- Prompt texts: they are literal strings sent to the model, whose reply is a parameter.
- The audio itself: `getUserMedia` and `MediaRecorder` are browser APIs. Recording is modelled only through its effect on the recording and timer flags.
- The `setInterval` wall clock: time is one `Tick` per elapsed second.
- `JSON.parse`, `JSON.stringify`, the UUID generator and `Date`: they are parameters. `Records.KvStore` stores records as values rather than as JSON text; text that would not parse is its own value, and a model reply that parses to JSON other than a feedback object is kept as that JSON's text (`Records.OtherJson`).
- Failures of the store service itself (a `kv.get`/`kv.set` that rejects): not modelled.
- Reading the upload form from the DOM (app/routes/upload.tsx:87-93): the three fields are a parameter. A form element that is not found is not modelled.
- `formatSize` and the rest of app/lib/utils.ts: floating point and foreign calls, not part of this model.
- Fractional scores: scores are integers. A non-integer score from the model would make the JavaScript average fractional before rounding.
- InterviewSession.AverageScore: it requires a positive answered count or a zero score sum. With a non-zero sum and no answered question, JavaScript gives an infinite average. The handler never reaches that case, because the question just scored has a non-blank answer (`RescoredAggregates`).
- InterviewSession.SessionPage.AnalyzeAnswer: it requires the current index to lie inside the list. The page shows a different screen, without the submit button, when there is no current question (app/routes/InterviewSession.tsx:329).
- Re-entrancy: two overlapping async handlers, such as a second submit while one is analysing, are not modelled. The button is disabled while analysing.
- The route id of `SessionPage` is fixed. Navigation after generation is recorded in `navigatedTo` and does not re-run the page.
- Stored documents under the wrong prefix: the store invariant rules them out, so no listing of `interview:` keys holds a resume record. `InterviewPrep.ParseSession` does not model what `JSON.parse` would make of one, which would parse to an object without session fields.
- Markup without logic: the landing, privacy, home, resume and auth routes, the navbar and the header, and the per-category and difficulty style classes of the session view.
