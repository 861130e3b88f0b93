# synapse-server learning pipeline: a Dafny model of its core stages

synapse-server runs a spaced-repetition tutor over chat. Each inbound message
passes through a pipeline of stages. This project models five of them, each
with its contracts and the properties they promise:

- **Recording stage** (`PipeRecord`). After an answer has been graded, the
  stage brings the (user, note) record forward by one review. The new factor,
  interval and count come from the scheduler, the due date and review time are
  computed next, and one entry is appended to every history. The health is
  recomputed from the extended response history, and the record is written back
  to the note-record store: an update if it already exists, otherwise a create.
  `CalcNoteHealth` keeps the two loops of the original. The stage is a method
  on a `NoteRecordStore` class whose records map and write log it changes. It is
  proved against the functional `RecordStep`.
- **Quality scale** (`Eval`). The answer-quality scale [1.0, 5.0], the failure
  threshold and the evaluation status values.
- **Simulated evaluation** (`SimEval`). Instead of grading real input, the
  simulator draws a success with a probability. That probability grows with the
  number of earlier reviews of the note and is capped at 1.
- **Simulator note-record snapshot** (`SimNoteRecords`). A loop collects the
  counts and intervals of the user's records, plus a note-id-to-count map. It
  stores them in the session's record for the current simulation step, in place
  (a `SimSession` class).
- **Messenger parsing** (`FbMessenger`, over `JsString`). A Facebook Messenger
  webhook request becomes the message data that starts the pipeline. The input
  is classified as accept, reject, custom (text, choice number or raw payload)
  or unknown. `JsString` specifies the JavaScript string functions the parser
  calls: `split` on one character, `indexOf`, and `parseInt` with radix 10.

The effects of the original become parameters:

- the scheduler's `calcFactor`, `calcInterval`, `calcDueDate` and defaults
  (a `Scheduler` value the model knows nothing about)
- the clock (`now`)
- `Math.random()` (`draw`)
- `Answer.max` / `Answer.min` (an `AnswerScale`)
- the current note of the session (`currentNote`)
- the result of the note-record query (a sequence)

Qualities, factors, intervals, probabilities and health are `real`; counts, times and parsed integers are `int`.

Three details of the code that the model keeps:

- The health check tests for responses that are exactly `0`
  (`!== 0`, `src/controller/pipe_record.js:17`), and only when there are more
  than three responses (`length > 3`).
- Health is the plain mean of the raw qualities of the last four responses.
- The recording stage also returns the state unchanged when there is no
  evaluation context (`src/controller/pipe_record.js:129-131`).

## Model

| member | source | states |
|---|---|---|
| Eval.StatusValue | src/core/eval.js:9-12 | INVALID stands for "invalid" and SUCCESS for "success", in both directions |
| Eval.StatusValuesDistinct | src/core/eval.js:9-12 | there are exactly two statuses and their values tell them apart |
| Eval.IsFailResponse | src/core/eval.js:14-16 | a quality fails exactly when it is below 2.5, half the top of the scale |
| Eval.ScaleEnds | src/core/eval.js:1-2 | the scale runs from 1.0 up to 5.0; the bottom fails and the top does not |
| Eval.FailDownwardClosed | src/core/eval.js:14-16 | any quality at or below a failing quality fails too |
| PipeRecord.NoteHealth | src/controller/pipe_record.js:9-37 | an empty history has health 0; more than three responses ending in three exact zeros give 0 |
| PipeRecord.CalcNoteHealth | src/controller/pipe_record.js:9-38 | the early-exit `allBad` loop and the summing loop compute exactly `NoteHealth` |
| PipeRecord.SumBounds | src/controller/pipe_record.js:30-33 | entries in [lo, hi] give a sum in [n·lo, n·hi] |
| PipeRecord.MeanBounds | src/controller/pipe_record.js:36-37 | the mean lies between any lower and upper bound of the entries |
| PipeRecord.HealthWithinWindow | src/controller/pipe_record.js:28-37 | outside the three-zeros case, a non-empty history's health lies between the bounds of its last (at most) four entries |
| PipeRecord.HealthOnScale | src/controller/pipe_record.js:28-37 | a non-empty history of qualities on the scale [1, 5] has health on that scale |
| PipeRecord.HealthZeroAfterThreeZeros | src/controller/pipe_record.js:14-26 | a history ending in three zeros has health 0, whatever came before |
| PipeRecord.PipeSpaceRepVals | src/controller/pipe_record.js:42-70 | without a record the values start from the scheduler defaults; the count goes up by one; factor and interval histories each get the new value appended |
| PipeRecord.PipeDates | src/controller/pipe_record.js:72-84 | the due date comes from the new interval and the clock, and the review time is `now`; both histories get one entry appended (from empty without a record) |
| PipeRecord.PipeResponseHistory | src/controller/pipe_record.js:86-100 | the response history is the old one with the new quality appended, or just that quality without a record |
| PipeRecord.BuildRecordCtx | src/controller/pipe_record.js:103-108 | the stored health is the health of the response history that already holds the new quality |
| PipeRecord.ApplyUpdate | src/controller/pipe_record.js:163-164 | an update keeps the user, note id, note type and parent subject of the record |
| PipeRecord.NewRecord | src/controller/pipe_record.js:110-122 | a created record carries the computed fields plus userID, note id, note type and the first parent (`parent[0]`, absent when there is none) |
| PipeRecord.NextRecord | src/controller/pipe_record.js:42-122 | the record one review leaves in the store keeps the identity fields of the record found, or takes the user, note id, type and first parent for a new one; its count is the prior count plus one and its review time is `now` |
| PipeRecord.NextRecordAppends | src/controller/pipe_record.js:42-108 | one review adds one to the count and appends exactly one entry to each of the five histories, ending in the value just computed; earlier entries are unchanged |
| PipeRecord.NextRecordLockstep | src/controller/pipe_record.js:53-100 | a record whose histories all have `count` entries keeps that property after a review; so does a new record when the default count is 0 |
| PipeRecord.ReplayLockstep | src/controller/pipe_record.js:53-100 | N reviews of a note without a record (default count 0) give count N and N entries in every history |
| PipeRecord.ReplayResponses | src/controller/pipe_record.js:86-100 | after N reviews from no record, the response history is the N qualities in order |
| PipeRecord.ReplayClock | src/controller/pipe_record.js:72-84 | after N reviews from no record, the review-time history is the N clock readings in order |
| PipeRecord.SkippedIsNoOp | src/controller/pipe_record.js:129-144 | with no evaluation context, a DONE_QUEUE state or an empty queue, the state comes back unchanged and nothing is written |
| PipeRecord.StepWritesNextRecord | src/controller/pipe_record.js:146-180 | otherwise exactly one write happens, an update exactly when the record exists; the store then maps the note's key to the next record, nothing else changes, keys stay consistent, and the result is the input state plus `recordCtx` |
| PipeRecord.CreatedRecordIdentity | src/controller/pipe_record.js:110-122 | a created record has the user, the note's id, type and first parent, count default+1 and the single quality as its history |
| PipeRecord.RecordStep | src/controller/pipe_record.js:124-181 | skipped: the state unchanged and no write; an index outside the queue: an error and no write; otherwise the input state with only `recordCtx` set, and one write, an update exactly when the note's record exists |
| PipeRecord.NoteRecordStore.FindOne | src/controller/pipe_record.js:146-147 | the lookup returns the record stored under (userID, noteID), if there is one |
| PipeRecord.NoteRecordStore.Update | src/controller/pipe_record.js:163-164 | the computed fields are written over the stored record; one write is logged |
| PipeRecord.NoteRecordStore.Create | src/controller/pipe_record.js:110-122 | the new record is stored under its own key; one write is logged |
| PipeRecord.NoteRecordStore.Pipe | src/controller/pipe_record.js:124-181 | the stage returns what `RecordStep` returns, leaves the store as `RecordStep`'s single write (or none) makes it, and logs that write, keeping keys consistent |
| SimEval.GenerateSuccess | src/admin/simulator/pipe_sim_eval.js:5-7 | success exactly when the draw is below the probability; certain for a draw in [0, 1) when the probability is at least 1, impossible when it is 0 or less |
| SimEval.CountInfluence | src/admin/simulator/pipe_sim_eval.js:9-14 | no influence below 3 reviews, then 0.15 per review beyond 2; never negative |
| SimEval.CountInfluenceMonotone | src/admin/simulator/pipe_sim_eval.js:9-14 | more reviews never lower the influence |
| SimEval.NoteEntry | src/admin/simulator/pipe_sim_eval.js:21-24 | there is an entry exactly when the map exists and holds the note's id |
| SimEval.SuccessProbability | src/admin/simulator/pipe_sim_eval.js:17-32 | without a map or an entry the base probability is used as is; with an entry it is min(1, base + influence), so at most 1 and, for a base of at most 1, never below the base |
| SimEval.CalcSuccess | src/admin/simulator/pipe_sim_eval.js:17-32 | a graded note succeeds exactly when the draw is below its success probability |
| SimEval.Pipe | src/admin/simulator/pipe_sim_eval.js:34-56 | no current note: DONE_QUEUE gives an evaluation at the top of the scale and any other state is left alone; an info note gets the top; other notes get the top when the draw succeeds, else the bottom |
| SimEval.PipeOnlySetsEval | src/admin/simulator/pipe_sim_eval.js:39-55 | the stage either returns the state unchanged or sets only the evaluation, to the top or the bottom of the scale |
| SimEval.CertainSuccess | src/admin/simulator/pipe_sim_eval.js:17-32 | with a base probability of at least 1 and a draw in [0, 1), every graded note succeeds |
| SimNoteRecords.Kept | src/admin/simulator/pipe_sim_note_records.js:24-31 | the kept records are no more than the input and each has a note id |
| SimNoteRecords.KeptAppend | src/admin/simulator/pipe_sim_note_records.js:24-31 | keeping distributes over concatenation, so kept records stay in input order |
| SimNoteRecords.KeptMembers | src/admin/simulator/pipe_sim_note_records.js:26 | a record is kept exactly when it occurs in the input, is not null and has a note id |
| SimNoteRecords.CountsByNote | src/admin/simulator/pipe_sim_note_records.js:29 | no kept record gives the empty map; a kept last record maps its note id to its count |
| SimNoteRecords.CountsByNoteKeys | src/admin/simulator/pipe_sim_note_records.js:29 | the map's keys are exactly the note ids of the kept records |
| SimNoteRecords.CountsByNoteLastWins | src/admin/simulator/pipe_sim_note_records.js:29 | for a repeated id, the map holds the count of the last kept record with that id |
| SimNoteRecords.CollectNoteRecords | src/admin/simulator/pipe_sim_note_records.js:22-31 | the loop produces counts and intervals of equal length, one per kept record, the i-th from the i-th kept record, and the id-to-count map |
| SimNoteRecords.SimSession.Pipe | src/admin/simulator/pipe_sim_note_records.js:18-61 | without a record for the current step nothing changes; otherwise only that step's snapshot and the session's map are set, to the collected values, and every other record is untouched |
| JsString.Split | src/adapter/fbmessenger/fbmessenger.js:74 | `split` gives at least one piece, and no piece holds the separator |
| JsString.SplitJoin | src/adapter/fbmessenger/fbmessenger.js:74 | joining the pieces with the separator gives back the string |
| JsString.SplitWithoutSep | src/adapter/fbmessenger/fbmessenger.js:74 | a string without the separator splits into itself alone |
| JsString.SplitWithSep | src/adapter/fbmessenger/fbmessenger.js:74 | a string holding the separator splits into at least two pieces |
| JsString.SplitLastPiece | src/adapter/fbmessenger/fbmessenger.js:74-75 | the last piece is whatever follows the last separator |
| JsString.LastPiece | src/adapter/fbmessenger/fbmessenger.js:75 | the last piece holds no separator |
| JsString.LastPieceAfterSep | src/adapter/fbmessenger/fbmessenger.js:74-75 | text after a separator, itself without one, is the last piece |
| JsString.IndexOfFrom | src/adapter/fbmessenger/fbmessenger.js:103 | the search result is -1 with no occurrence from `from` on, or the first occurrence from there |
| JsString.IndexOf | src/adapter/fbmessenger/fbmessenger.js:103 | `indexOf` is -1 exactly when the pattern occurs nowhere; otherwise it is the first occurrence |
| JsString.TrimStart | src/adapter/fbmessenger/fbmessenger.js:75 | `parseInt` first drops exactly the leading JavaScript white space |
| JsString.DigitPrefix | src/adapter/fbmessenger/fbmessenger.js:75 | the digits read are the longest prefix of decimal digits |
| JsString.ParseInt | src/adapter/fbmessenger/fbmessenger.js:75 | `parseInt` is NaN exactly when no digits follow the leading white space and optional sign; otherwise it is the value of the digits read, negated after a '-' |
| JsString.Unsigned | src/adapter/fbmessenger/fbmessenger.js:75 | at most one leading '+' or '-' is dropped |
| JsString.ParseSigned | src/adapter/fbmessenger/fbmessenger.js:75 | NaN exactly when no digits follow the optional sign; otherwise the value of the digits read, negated after a '-' (and negative only then) |
| JsString.DigitPrefixOfDigits | src/adapter/fbmessenger/fbmessenger.js:75 | a string of digits is read whole |
| JsString.ParseIntOfDigits | src/adapter/fbmessenger/fbmessenger.js:75 | a non-empty string of digits parses to its decimal value |
| JsString.TrimStartSkipsSpace | src/adapter/fbmessenger/fbmessenger.js:75 | leading white space is removed and nothing after it |
| JsString.ParseIntSkipsSpace | src/adapter/fbmessenger/fbmessenger.js:75 | leading white space does not change what `parseInt` reads |
| JsString.NatToString | src/adapter/fbmessenger/fbmessenger.js:103-106 | the decimal form of a number is non-empty digits without a leading zero |
| JsString.DigitsValueOfNatToString | src/adapter/fbmessenger/fbmessenger.js:75 | reading the digits of the decimal form gives back the number |
| JsString.ParseIntOfNatToString | src/adapter/fbmessenger/fbmessenger.js:75 | `parseInt` inverts the decimal form |
| FbMessenger.GetMsgType | src/adapter/fbmessenger/fbmessenger.js:49-57 | TEXT exactly when a `message` key is present (even beside a `postback`), POSTBACK exactly when only `postback` is, UNKNOWN exactly when neither is |
| FbMessenger.ContentExtractor | src/adapter/fbmessenger/fbmessenger.js:61-71 | TEXT reads `message.text`, POSTBACK reads `postback.payload`, UNKNOWN gives null |
| FbMessenger.StripChoiceNum | src/adapter/fbmessenger/fbmessenger.js:73-77 | the result is the number `parseInt` reads from the last '-'-separated piece, and NaN exactly when it reads none |
| FbMessenger.StripChoiceNumAfterDash | src/adapter/fbmessenger/fbmessenger.js:73-77 | any prefix, a '-' and the decimal digits of n give back n |
| FbMessenger.StripChoiceNumRoundTrip | src/adapter/fbmessenger/fbmessenger.js:73-77 | "choice-" followed by the decimal digits of n gives n |
| FbMessenger.PostbackInput | src/adapter/fbmessenger/fbmessenger.js:93-119 | "accept" and "reject" give ACCEPT and REJECT with null data; other strings give CUSTOM, with the stripped choice number when "choice-" occurs and the whole payload otherwise; a payload that is not a string fails |
| FbMessenger.ContentInjector | src/adapter/fbmessenger/fbmessenger.js:81-131 | only the `input` field changes; TEXT gives CUSTOM with the content, UNKNOWN gives UNKNOWN with null, POSTBACK gives the postback input |
| FbMessenger.FirstEvent | src/adapter/fbmessenger/fbmessenger.js:136-137 | the first event of the first entry, and an error exactly when there is none |
| FbMessenger.Parse | src/adapter/fbmessenger/fbmessenger.js:135-153 | a parse copies the time stamp and sender of the first event, sets the subject to "crash-course-biology" and always sets an input; no entry is an error |
| FbMessenger.ParseText | src/adapter/fbmessenger/fbmessenger.js:82-91 | for any request whose first event is this one, a text message gives CUSTOM input carrying the text |
| FbMessenger.ParseAcceptReject | src/adapter/fbmessenger/fbmessenger.js:97-100 | for any request whose first event is this one, the "accept" and "reject" postbacks give ACCEPT and REJECT input with null data |
| FbMessenger.ParseChoice | src/adapter/fbmessenger/fbmessenger.js:103-106 | for any request whose first event is this one, a "choice-n" postback gives CUSTOM input carrying the number n |
| FbMessenger.ParsePostback | src/adapter/fbmessenger/fbmessenger.js:93-152 | for any request whose first event is a postback, the parse succeeds exactly when the payload's input does, carries that input with the event's time stamp and sender, and otherwise fails with the payload's error |
| FbMessenger.ParseOtherPostback | src/adapter/fbmessenger/fbmessenger.js:107-110 | for any request whose first event is this one, any other postback text without "choice-" gives CUSTOM input carrying the whole payload |
| FbMessenger.ParseUnknown | src/adapter/fbmessenger/fbmessenger.js:122-130 | for any request whose first event is this one, an event with neither a message nor a postback gives UNKNOWN input with null data |

## Left out

- The spaced-repetition calculations (`calcFactor`, `calcInterval`, `calcDueDate`) and their defaults: `src/core/spaced_repetition.js` is not part of this model, so they are parameters the model knows nothing about; `calcDueDate` is given the clock, which it reads inside in the source.
- `Answer.max` / `Answer.min`, `getCurrentNote`, `successEval` and `insertEval`: `src/core/answer.js`, `src/core/session_state.js` and `src/controller/pipe_eval.js` are not part of this model. The scale ends and the current note are parameters. Inserting an evaluation is modelled as setting `evalCtx` to the given quality.
- The database: `NoteRecord.findOne`, `update`, `create` and the filtered `find` become an in-memory map keyed by (userID, noteID), or the query result given as a sequence. `findOne` is taken to find at most one record per key. The query filter itself (subject, non-info notes) is not modelled.
- `new Date()` and `Math.random()` are parameters.
- PipeRecord.NoteRecordStore.Pipe: the in-place `push` onto an existing record's `responseHistory` (`src/controller/pipe_record.js:94-95`) is modelled by value. The persisted history is the old one plus the new quality. Aliasing of the loaded record object is not modelled.
- PipeRecord.NoteRecordStore.Pipe: the source reads `noteQueue[queueIndex]` before checking that the queue is empty. An index outside a non-empty queue makes `note._id` throw. This is modelled as the error `NoCurrentNote`. Three other TypeError paths are not modelled: a `null` noteQueue; an existing record without a `responseHistory`, where `push` throws (`src/controller/pipe_record.js:94-95`), while the model's records always carry one; and a note without a `parent` list, where `parent[0]` throws (`src/controller/pipe_record.js:115`), while the model's notes always carry one.
- SimNoteRecords.IsKept: the source's `rec.noteID` truthiness test (`src/admin/simulator/pipe_sim_note_records.js:26`) also skips an empty-string id, while the model keeps it; note ids are database object ids, which are always truthy.
- PipeRecord.RecordStep: the source tests only that the `evalCtx` key exists (`src/controller/pipe_record.js:129`); a key holding `undefined` passes and then throws at `:51`. The model's `None` stands only for a missing key.
- Missing factor, interval, due and review-time histories on an existing record (`|| []`, `src/controller/pipe_record.js:59-60, 75-76`) are modelled as empty sequences.
- PipeRecord.CalcNoteHealth: IEEE rounding of the sum and the division is not modelled.
- SimEval.SuccessProbability: the map written by the snapshot stage holds bare counts, while this stage reads `.count` from its entries (`src/admin/simulator/pipe_sim_eval.js:23-25`). Each file is modelled as written, with its own map type. The NaN that JavaScript produces from that mismatch, and the falsiness of a 0 entry, are not modelled.
- SimNoteRecords.SimSession.Pipe: an absent `simRecords` array is modelled as an empty sequence. The session's other fields and the other fields of a simulation record are outside the model.
- FbMessenger.Parse: several inputs throw a TypeError in JavaScript and are not modelled: a `message` or `postback` key whose value is null, a missing `sender`, and `request.entry` missing altogether. A missing entry or event, and a payload that is not a string, are modelled as errors.
- JsString.ParseInt: precision loss above 2^53 and the `-0` result for "-0" are not modelled. Only radix 10 is modelled.
- The orchestrators and the other pipeline stages (state machine, queue adjustment, paths, session save, student model) are only imported by the controllers; they are not part of this model.
- `src/adapter/fbmessenger/fbmessenger_response.js` (rendering and sending replies), and `senderToUser`, `createUser` and `sendMessage` in `fbmessenger.js` (account lookups and send stubs): external I/O.
- `src/admin/simulator/index.js`, the asynchronous simulation driver: concurrency and promise timing.
- `src/test/controller.test.js`: integration tests against a live database.
- Serialisation of concurrent pipeline runs for the same user: concurrency.
