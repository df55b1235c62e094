# Mail-merge sending engine

This project is a Dafny model of the sending engine of a small mail-merge
server (`server.js`). A user uploads a workbook and composes a subject and
an HTML body with `{{header}}` placeholders. The server then sends one
email per data row and reports its progress as a stream of events.

The model covers three parts:

- **The job registry** (`jobs.dfy`, module `Jobs`). `activeJobs` maps a
  job id to its record. `Jobs.JobRegistry` is a class over that map:
  - `CreateJob` checks the creation form and stores a pending record;
  - `ClaimJob` lets a stream start only on a pending record and marks it
    processing;
  - `FailJob` marks the record failed when the stream's outer `catch`
    runs;
  - `FinishJob` hands the record's attachment files to `unlink` and
    deletes the record;
  - `Stream` is the whole stream handler. It is built on `RunLoaded`,
    the part after the workbook is loaded.
- **The row loop** (`rows.dfy`, module `Rows`). `ProcessRows` walks the
  data rows strictly in order. For each row, `HandleRow` does the
  following:
  - it validates the address, or paces, renders and sends the message;
  - it updates `successCount`, `failCount`, `errors` and
    `emailsAttemptedThisRun`;
  - it writes the `status` and `send_time` cells at sheet row `i + 1`;
  - it emits `progress`.

  After each row the loop flushes the workbook when a batch of twenty is
  complete or the row is the last one. A skipped row is the exception.

  Each method is proved against a specification function:
  - `Handle` says how one row is disposed of;
  - `Apply` and `Run` fold those handlings over the rows;
  - the lemmas about `Run` state the counter, pacing, event-order and
    cell properties.
- **Pure helpers.**
  - `Template`: placeholder substitution and the title override.
  - `InlineImages`: rewriting base64 `data:` images to `cid:` references,
    each with an inline attachment part.
  - `Rows.FailureMarker`: the `Failed: ` status text.
  - `Sheets.ShouldFlush`: the flush predicate.
  - `Jobs.DownloadName`: the suggested download name, with its
    `^(\d+)-(.*)$` fallback.
  - `JsText`: the JavaScript string primitives these helpers rely on.

The outside world is passed in as parameters (`Rows.Env`, `Jobs.Load`):
- the mail transport, an oracle answering attempt `k` of a run;
- the clock, read once per data row;
- whether a transporter was created at start-up;
- the sender identity;
- the HTML normaliser, as a function from a body to tokens;
- the loaded workbook;
- the file-existence test;
- the generated id.

Sleeps, transport calls, workbook writes and stream events are recorded,
in order, as a log of `Rows.Effect` values.

### Code versus design

The model follows what the code does, including these places where it
departs from the evident design:

- **Skipped rows.** A skipped row emits `progress` twice: once before its
  `continue` and again from the `finally`. It also leaves by `continue`,
  so it bypasses the flush check: a skipped last row is never followed by
  the final flush. See `Rows.RunProgress` and `Rows.SkippedLastRowNotFlushed`.
- **Fatal errors.** A workbook without rows or without an `email` header
  is reported by two `error` events: the handler's own, then the one from
  the outer `catch` (`Jobs.StreamOfUnusable`).
- **The title check.** The title override tests the *substituted* subject
  for the title placeholder. A subject template that uses `{{title}}` is
  therefore still replaced by the bare title
  (`Template.TitleOverridesTemplatedSubject`).
- **Substitution order.** Substitution runs header by header, so a value
  that contains a later header's placeholder is expanded again
  (`Template.LaterHeaderReexpandsValue`).
- **The download-name fallback.** A record made by the creation handler
  always has a non-empty original name, so the stream never reaches the
  fallback (`Jobs.CreatedJobKeepsName`).

## Model

| member | source | states |
|---|---|---|
| JsText.Take | server.js:515 | `substring(0, n)`: the first `n` characters, or the whole string when it is shorter |
| JsText.ToLower | server.js:438 | lower-casing keeps the length and maps each character on its own |
| JsText.TrimEmptyIffBlank | server.js:449-450 | a trimmed address is empty exactly when every character is whitespace |
| JsText.ReplaceAllNoMatch | server.js:469-470 | replacing a placeholder that does not occur leaves the text unchanged |
| JsText.ReplaceAllFirst | server.js:469-470 | the first occurrence is replaced and the scan resumes after it |
| JsText.ParseIntRoundTrip | server.js:359 | `parseInt` reads back a decimal numeral, whatever non-digit text follows it |
| JsText.ParseIntNegativeRoundTrip | server.js:359 | `parseInt` reads back a negative numeral |
| JsText.ParseIntNoDigits | server.js:359 | text without digits parses as `NaN` |
| JsText.NatToStringInjective | server.js:486 | distinct row and image numbers print differently |
| JsText.LeadingDigitsOf | server.js:533 | `\d+` at the start of a name takes exactly the run of digits before the first non-digit |
| Sheets.CellText | server.js:438 | `String(rowData[h] \|\| '')` is the cell text, or `""` when the key is missing |
| Sheets.IndexOf | server.js:418-419 | `indexOf` gives the first position of the header, or -1 exactly when it is absent |
| Sheets.FindIndex | server.js:420-421 | the position of the first header that equals the name once trimmed and lower-cased, or -1 exactly when none does |
| Sheets.FindHeader | server.js:420-421 | `find` gives that first matching header, or nothing exactly when no header matches |
| Sheets.WriteCell | server.js:455-456 | a cell write behind the `!== -1` guard sets exactly one cell, and a -1 column changes nothing |
| Sheets.ShouldFlush | server.js:523 | the last row always flushes; before it, a row flushes exactly when it completes a batch of twenty |
| Sheets.FlushesBeforeLast | server.js:523 | before the last row, only complete batches of twenty flush |
| Sheets.FlushCount | server.js:523 | `n` rows with none skipped flush `ceil(n / 20)` times |
| Sheets.FlushWithinBatch | server.js:523 | every row is followed within its batch of twenty by a flushing row |
| Template.Placeholder | server.js:467 | the placeholder is `{{`, the header and `}}` |
| Template.Substitute | server.js:465-472 | the loop rewrites subject and body together, header by header in list order, passing over empty headers |
| Template.SubstitutedWithoutPlaceholders | server.js:465-472 | a template without `{{` comes out unchanged, whatever the row holds |
| Template.HelloExample | server.js:465-472 | `Hello {{name}}` renders with the cell text, or with `""` when the cell is missing |
| Template.LaterHeaderReexpandsValue | server.js:465-472 | a value holding a later header's placeholder is expanded again by that header's pass |
| Template.ApplyTitle | server.js:473-474 | a non-blank trimmed title replaces the subject unless the substituted subject still shows the title placeholder; otherwise the subject is kept |
| Template.TitleOverridesTemplatedSubject | server.js:473-474 | a subject template that uses `{{title}}` is still replaced by the bare title |
| InlineImages.ExtractImages | server.js:480-494 | the callback loop gives the rewritten body and the static attachments, unchanged, followed by one part per image |
| InlineImages.ExtractedParts | server.js:484-494 | the `k`-th part carries the `k`-th image's payload and type under `emb_<jobId>_<row>_<k>`, counting from 1 |
| InlineImages.NoImagesUntouched | server.js:484-494 | a body without data images is sent as it was, with no extra parts |
| InlineImages.OnePngExample | server.js:480-494 | one PNG between two pieces of text becomes one `cid:` tag and one matching PNG part |
| InlineImages.ContentIdInjective | server.js:486 | content ids never collide for job ids without `_` |
| Rows.Classify | server.js:437-450 | a row is skipped exactly when the status column exists and its cell is `success` once trimmed and lower-cased; otherwise it is invalid exactly when the trimmed address is empty or lacks `@` |
| Rows.FailureMarker | server.js:515 | `Failed: ` followed by the message when it is at most 100 characters, else its first 100 characters |
| Rows.Handle | server.js:435-521 | the disposition of one row: an error entry exactly on failure, status texts `Success`, `Format Error` or the failure marker, a sleep only before a send attempt that follows an earlier attempt with a positive interval, and a transport call exactly when a transporter exists; the message handed to the transport is the composed mail, a send attempt succeeds exactly when the transport accepts it, and a failed send carries the transport's message as its error |
| Rows.Handlings | server.js:428-459 | one handling per row, taken in order |
| Rows.BuildMail | server.js:461-502 | the message for the trimmed address from the configured sender, with the static attachments first |
| Rows.HandleRow | server.js:449-520 | the loop body for a row that is not skipped performs exactly the handling that `Handle` specifies |
| Rows.DeliverRow | server.js:458-515 | the send branch and its `catch` count the attempt, pace, send the composed mail and settle the row exactly as `Handle` says, writing the status cell and adding any error entry |
| Rows.ProcessRows | server.js:428-527 | the loop's final counters, errors, cells and log are the run of all rows; `\|errors\| == failCount`, successes, failures and skips add up to the row count, and `emailsAttemptedThisRun` counts the rows with a deliverable address; `successCount` counts the rows whose send the transport accepted |
| Rows.AttemptedSoFar | server.js:458-459 | after `k` rows, the attempt counter equals the number of those rows with a deliverable address |
| Rows.HandlingsWellFormed | server.js:451-454 | every handling has the well-formed shape, and its error entry names its own row |
| Rows.HandlingAt | server.js:437-450 | row `i` is skipped, or has a send attempted, exactly as `Classify` says |
| Rows.HandlingsClassified | server.js:437-450 | all handlings of a run follow `Classify` |
| Rows.SkipsOfHandlings | server.js:444-446 | the skipped handlings are exactly the rows `Classify` skips |
| Rows.AttemptsOfHandlings | server.js:458-459 | the send attempts are exactly the rows with a deliverable address |
| Rows.HandlingsPaced | server.js:458-459 | each attempt sleeps first exactly when an earlier attempt exists and the interval is positive |
| Rows.RunErrorCount | server.js:451-454 | every failure adds exactly one error entry, so `\|errors\| == failCount` |
| Rows.RunOutcomeCount | server.js:506 | every row is counted once as a success or a failure, or is skipped |
| Rows.RunAttemptCount | server.js:459 | `emailsAttemptedThisRun` counts the send attempts |
| Rows.HandlingsAccepted | server.js:504-507 | a row's handling is a success exactly when its address is deliverable and the transport accepts its mail |
| Rows.SuccessesOfHandlings | server.js:506 | the successful handlings are exactly the rows whose send was accepted |
| Rows.RunSuccessCount | server.js:506 | `successCount` counts the successful handlings |
| Rows.RunSuccesses | server.js:504-507 | after the loop, `successCount` is the number of rows whose send the transport accepted |
| Rows.RunErrorsOrdered | server.js:454 | error entries name processed rows, strictly in row order |
| Rows.RunPacing | server.js:458-459 | the sleeps and transport calls of a run are exactly those its attempts call for |
| Rows.ExpectedPaceAlternates | server.js:458-459 | with a transporter and a positive interval, calls and sleeps alternate, with no sleep before the first call |
| Rows.ExpectedPauses | server.js:458-459 | `a` attempts incur `a - 1` sleeps with a positive interval, and none otherwise |
| Rows.RunSleeps | server.js:458-459 | the whole loop sleeps one time fewer than the number of deliverable rows when the interval is positive, and never otherwise |
| Rows.RunProgress | server.js:444-520 | the `progress` events of a run are exactly the expected ones, row by row: for a skipped row two with status `skipped_previously_success` and no error, for any other row one with its status and error |
| Rows.ExpectedProgressCount | server.js:444-520 | the expected `progress` events number one per row plus one per skipped row, and each names a processed row |
| Rows.RunSaves | server.js:523-526 | the row counts of the `batch_save` events are exactly those of the non-skipped rows that end a batch or the sheet, in order |
| Rows.RunMilestones | server.js:520-526 | the `progress` events, workbook writes and `batch_save` events of a run come row by row: each row's `progress` events, then, for a non-skipped row that ends a batch or the sheet, a write of the sheet as it stands after that row and its `batch_save` |
| Rows.FlushPointsWithoutSkips | server.js:523-526 | with no skipped rows, the flushes are those of the flush schedule |
| Rows.SkippedLastRowNotFlushed | server.js:446 | a skipped last row is not followed by the final flush |
| Rows.RunCellsFrame | server.js:455-456 | no cell changes except the status and send-time cells of rows that are not skipped |
| Rows.RowCellsAfterRun | server.js:515-519 | after the loop, each handled row holds the status text and time it wrote |
| Rows.RerunClassification | server.js:437-442 | on the next run a row marked `Success` is skipped, and one marked `Format Error` or `Failed: …` is retried |
| Rows.NoTransporterFailsEverySend | server.js:504 | without a transporter, every deliverable row fails with the not-configured message and makes no transport call |
| Jobs.UploadPaths | server.js:341-348 | the paths of the uploaded files, in order: what a refused request unlinks |
| Jobs.FileAttachments | server.js:360-368 | one file attachment per upload, with its name and path |
| Jobs.IntervalMs | server.js:359 | the stored interval is a whole number of seconds in milliseconds; it is positive exactly when the text parses to a positive number, and 0 exactly when it does not parse or parses to 0 |
| Jobs.IntervalMsOfSeconds | server.js:359 | an interval of `n` seconds is stored as `n * 1000` ms |
| Jobs.IntervalMsOfNegative | server.js:359 | a negative interval is stored as it is |
| Jobs.IntervalMsWithoutDigits | server.js:359 | a missing or non-numeric interval is stored as 0 |
| Jobs.UploadsUnlinked | server.js:558-563 | the `finally` unlinks exactly the uploaded files, in order |
| Jobs.ClaimedOnce | server.js:380-386 | a newly created record is claimable; once claimed, failed or deleted it is not claimable again |
| Jobs.JobRegistry.constructor | server.js:137 | the registry starts empty |
| Jobs.JobRegistry.CreateJob | server.js:334-375 | a request with a missing field gets 400 and a missing workbook gets 404; both unlink the uploads and store nothing; otherwise a pending record is stored under the new id |
| Jobs.JobRegistry.ClaimJob | server.js:380-386 | the claim succeeds exactly for a pending record, which becomes processing; otherwise nothing changes |
| Jobs.JobRegistry.FailJob | server.js:555 | the `catch` marks the record failed |
| Jobs.JobRegistry.FinishJob | server.js:557-564 | the `finally` unlinks the record's attachment files and deletes the record |
| Jobs.JobRegistry.Stream | server.js:378-566 | a stream is refused, changing nothing, unless the record is pending; otherwise it produces exactly the specified event log, unlinks the attachments and leaves the registry without the record |
| Jobs.RunLoaded | server.js:411-550 | after loading, with no rows or no `email` header, the handler reports an error and throws; otherwise it runs the loop and emits `complete` |
| Jobs.StreamLogIgnoresStatus | server.js:380-386 | the events of a stream do not depend on the record's status |
| Jobs.StreamOfUnreadable | server.js:405-406 | an unreadable workbook gives `job_started` and then the `catch`'s error |
| Jobs.StreamOfUnusable | server.js:411-426 | no rows or no `email` header give `job_started`, `data_loaded` and two `error` events |
| Jobs.StreamCompletes | server.js:541-550 | a stream that reaches the loop starts with `job_started` and `data_loaded` and ends with `complete`; `complete` reports counts that add up, one error entry per failure, the `/uploads/` path and the suggested name |
| Jobs.LoopLog | server.js:393-550 | a stream that reaches the loop logs `job_started`, `data_loaded`, the loop's effects and `complete`, and no `catch` runs |
| Jobs.FinalCounts | server.js:428-547 | the loop's final counters add up to the row count, with one error entry per failure, in row order |
| Jobs.CreatedJobKeepsName | server.js:530-532 | a record from the creation handler is suggested under its original name |
| Jobs.DownloadName | server.js:529-539 | the original name when there is one; otherwise a suffix of the stored name, empty only when the stored name is |
| Jobs.DownloadNameRoundTrip | server.js:530-539 | the fallback recovers a non-empty, one-line name from `<timestamp>-<name>` |
| Jobs.DownloadNameMultiline | server.js:533 | a name that spans lines does not match, so the whole stored name is suggested |
| Jobs.DownloadNameWithoutTimestamp | server.js:533-537 | a stored name that does not start with a digit is suggested as it is |

## Left out

- HTTP and server-sent-event plumbing: routing, headers and response framing are not modelled. Events are records appended to a log.
- Start-up configuration, environment variables and transporter creation: the model keeps only whether a transporter exists and the sender identity.
- Upload storage: the Latin-1 to UTF-8 file-name repair and the file-type filter are not modelled. Stored names and original names are taken as given.
- Mail delivery: the transport is an oracle. Only its answer per attempt and the message handed to it are modelled.
- Workbook codec: reading is a parameter (`Jobs.Load`), and a flush is a recorded `SaveSheet` with the cells at that moment. A failing write of the workbook is not modelled.
- Cell types: cells are text, and a missing key is `""`. Numbers, dates, `0` and other falsy or non-string values are not modelled; headers are likewise strings.
- HTML normalisation: the Quill-to-email conversion is a function parameter that yields the body already split into tokens.
- Template.Substitute: literal substitution of `{{header}}`. The escape at server.js:469 closes its character class early, so it only rewrites a metacharacter followed by `\]` and the placeholder reaches `RegExp` unescaped. A plain placeholder such as `{{name}}` still matches itself, because a brace that does not form a quantifier is a literal character. The model does not capture headers whose placeholder is not a literal pattern: headers with metacharacters such as `.`, `(` or `+`; all-digit headers such as `2024`, where `{2024}` quantifies the first brace; and `n,m` or `n,` headers such as `1,3`. The source leaves `{{2024}}` in the text, while the model replaces it. Values containing `$` replacement patterns are also outside the model.
- InlineImages.ExtractImages: works on the token sequence. Matching the image regular expression against raw HTML is not modelled.
- Jobs.JoinPath: `path.join` normalisation is not modelled; the path is the directory, `/` and the relative name.
- Jobs.JobRegistry.CreateJob: the id generator is a parameter, so freshness is not modelled and an existing id is overwritten as in a plain assignment. A `headers` field that is not valid JSON, which makes the handler throw, is not modelled.
- Time: `new Date()` and `Date.now()` come from a clock parameter.
- Sleeps and `fs.unlink`: recorded as effects and path lists. Their completion, timing and errors are not modelled.
- JsText.Take: strings are sequences of Unicode characters, while `substring(0, 100)` counts UTF-16 code units. Rows.FailureMarker, built on it, therefore keeps more of a message with characters outside the Basic Multilingual Plane than the source does: for 60 copies of U+1F600 the source keeps 50 characters and the model all 60. The two agree on messages within that plane.
- Rows.FailureMarker: truncates the message to 100 Unicode characters, while `substring(0, 100)` counts UTF-16 code units; for messages with characters outside the Basic Multilingual Plane the model keeps more text than the source (see the JsText.Take line).
- Jobs.IntervalMs: integers are unbounded, while `parseInt` and the multiplication by 1000 work on doubles; above 2^53 the source stores a rounded value (and `Infinity` for very long numerals) where the model stores exactly `n * 1000`.
- JsText.ToLower: covers the ASCII letters only. This is exact for the comparisons with `success`, `email` and `title`.
- Event messages: the fixed `message` texts of `job_started`, `batch_save` and `complete` are not carried. The skipped row's first `progress` event has no `error` key; the model gives it `None`, like the `null` of the second.
- Concurrency: two streams interleaving on one registry are not modelled; each handler runs to completion.
- The browser client (`public/script.js`) is not part of this model.
