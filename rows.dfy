/** The row loop of the sending stream: rows are taken strictly in order,
    each is classified (skipped, invalid address, delivered or failed), the
    counters, the error list and the status and send-time cells are updated,
    progress events are emitted and the sheet is flushed every twenty rows.
    The mail transport, the clock and the HTML normaliser are parameters. */
module Rows {
  import opened JsText
  import opened Sheets
  import opened Template
  import opened InlineImages

  /** The per-row status reported in `progress` events. */
  datatype RowStatus = SkippedPreviouslySuccess | ValidationFailed | Success | SendFailed

  /** The status string on the wire. */
  function StatusName(s: RowStatus): string {
    match s
    case SkippedPreviouslySuccess => "skipped_previously_success"
    case ValidationFailed => "validation_failed"
    case Success => "success"
    case SendFailed => "send_failed"
  }

  /** One entry of the job's `errors` list. */
  datatype ErrorEntry = ErrorEntry(rowIndex: nat, email: string, error: string)

  /** The named events of the progress stream, with their data fields. */
  datatype Event =
    | JobStarted(jobId: string)
    | DataLoaded(totalRows: nat)
    | Progress(jobId: string, rowIndex: nat, email: Option<string>, status: RowStatus, error: Option<string>)
    | BatchSave(jobId: string, rowsProcessed: nat)
    | Complete(jobId: string, totalRows: nat, successCount: nat, failCount: nat,
               errors: seq<ErrorEntry>, outputFilePath: string, suggestedDownloadName: string)
    | Error(errorJobId: Option<string>, message: string)

  /** The `mailOptions` handed to the transport. */
  datatype Mail = Mail(from: string, to: string, subject: string, html: string, attachments: seq<Attachment>)

  /** What `transporter.sendMail` does: resolves, or throws an error with a
      message. */
  datatype SendResult = Accepted | Thrown(message: string)

  /** Everything the handler does to the outside world, in order: a stream
      event, a `sleep`, a call of the transport, or a write of the whole
      workbook with the cells it holds at that moment. */
  datatype Effect = Emit(event: Event) | Sleep(ms: int) | SendMail(mail: Mail) | SaveSheet(cells: Cells)

  /** What the loop needs from the job record and the header lookups. */
  datatype Plan = Plan(
    jobId: string,
    headers: seq<string>,
    subjectTemplate: string,
    bodyTemplate: string,
    intervalMs: int,
    staticAttachments: seq<Attachment>,
    statusCol: ColIndex,
    sendTimeCol: ColIndex,
    emailHeader: string,
    titleHeader: Option<string>)

  /** The outside world: the sender identity, whether a transporter was
      created at start-up, the transport's answer to attempt `k` of this run,
      the time read for data row `i`, and the email-safe conversion of a
      body, already split into tokens. */
  datatype Env = Env(
    from: string,
    transporterReady: bool,
    transport: (nat, Mail) -> SendResult,
    clock: nat -> int,
    emailSafe: string -> seq<Token>)

  /** The loop's mutable state. `attempted` is `emailsAttemptedThisRun`. */
  datatype RunState = RunState(
    successCount: nat,
    failCount: nat,
    errors: seq<ErrorEntry>,
    attempted: nat,
    cells: Cells,
    log: seq<Effect>)

  const NotConfiguredMessage: string := "Nodemailer transporter is not configured."

  /** The status cell text that marks a row as already sent. */
  predicate IsPreviousSuccess(status: string) {
    ToLower(Trim(status)) == "success"
  }

  /** The three ways a row is handled. */
  datatype RowClass = Skip | Invalid(email: string) | Deliver(email: string)

  /** A row is skipped when the status column exists and its cell says
      success; otherwise its trimmed address must be non-empty and hold an
      `@` for a send to be attempted. */
  function Classify(p: Plan, row: Row): (r: RowClass)
    ensures r.Skip? <==> p.statusCol != -1 && IsPreviousSuccess(CellText(row, "status"))
    ensures !r.Skip? ==> r.email == Trim(CellText(row, p.emailHeader))
    ensures r.Deliver? ==> r.email != "" && '@' in r.email
    ensures r.Invalid? ==> r.email == "" || '@' !in r.email
  {
    if p.statusCol != -1 && IsPreviousSuccess(CellText(row, "status")) then Skip
    else
      var email := Trim(CellText(row, p.emailHeader));
      if email == "" || '@' !in email then Invalid(email) else Deliver(email)
  }

  /** The error text of an invalid address. */
  function InvalidEmailMessage(rowIndex: nat, email: string): string {
    "Row " + NatToString(rowIndex) + " (" + (if email == "" then "empty email" else email)
      + "): invalid or empty email address."
  }

  /** The status cell of a failed send: `Failed: ` and at most the first
      100 characters of the error message. */
  function FailureMarker(message: string): (r: string)
    ensures 8 <= |r| <= 108
    ensures r[..8] == "Failed: "
    ensures |message| <= 100 ==> r == "Failed: " + message
    ensures |message| > 100 ==> r == "Failed: " + message[..100]
  {
    "Failed: " + Take(message, 100)
  }

  /** `rowData[emailColHeader] || 'N/A'`. */
  function OrNotAvailable(v: Option<string>): string {
    if v.Some? && v.value != "" then v.value else "N/A"
  }

  /** The message built for a deliverable row: the rendered subject, the
      substituted body made email-safe with its data images cut out, and the
      static attachments followed by the image parts. */
  function ComposeMail(p: Plan, env: Env, i: nat, row: Row, email: string): Mail {
    var subject := RenderSubject(p.subjectTemplate, p.headers, p.titleHeader, row);
    var body := Substituted(p.bodyTemplate, p.headers, row);
    var extraction := Extracted(env.emailSafe(body), p.jobId, i);
    Mail(env.from, email, subject, extraction.html, p.staticAttachments + extraction.parts)
  }

  /** How the `try` and `catch` of the loop body dispose of one row: skipped,
      or handled with a reported status and error, the entry pushed onto
      `errors`, the status cell text, the time read, whether it slept first
      and the message it handed to the transport, if any. */
  datatype Handling =
    | Skipped
    | Handled(status: RowStatus, error: Option<string>, entry: Option<ErrorEntry>,
              statusText: string, time: int, paused: bool, sent: Option<Mail>)

  /** The shape every handling has: an error entry exactly on failure, and
      neither a pause nor a send for an invalid address. */
  predicate WellFormed(h: Handling) {
    h.Handled? ==>
      && h.status != SkippedPreviouslySuccess
      && (h.entry.Some? <==> h.status != Success)
      && (h.status == ValidationFailed ==> !h.paused && h.sent.None?)
  }

  /** The transport's answer for attempt `attempted`; without a transporter
      the send throws before the transport is reached. */
  function Outcome(env: Env, attempted: nat, mail: Mail): SendResult {
    if env.transporterReady then env.transport(attempted, mail) else Thrown(NotConfiguredMessage)
  }

  /** One row, given the number of sends attempted before it in this run. */
  function Handle(p: Plan, env: Env, attempted: nat, i: nat, row: Row): (h: Handling)
    ensures WellFormed(h)
    ensures h.Skipped? <==> Classify(p, row).Skip?
    ensures h.Handled? ==> (h.status == ValidationFailed <==> Classify(p, row).Invalid?) && h.time == env.clock(i)
    ensures h.Handled? && h.entry.Some? ==> h.entry.value.rowIndex == i + 1 && h.error == Some(h.entry.value.error)
    ensures h.Handled? && h.status == Success ==> h.error == None && h.statusText == "Success"
    ensures h.Handled? && h.status == ValidationFailed ==> h.statusText == "Format Error"
    ensures h.Handled? && h.status == SendFailed ==> h.error.Some? && h.statusText == FailureMarker(h.error.value)
    ensures h.Handled? && h.status != ValidationFailed ==>
              h.paused == (attempted > 0 && p.intervalMs > 0) && (h.sent.Some? <==> env.transporterReady)
    ensures h.Handled? && h.status != ValidationFailed ==>
              var outcome := Outcome(env, attempted, ComposeMail(p, env, i, row, Classify(p, row).email));
              && (h.status == Success <==> outcome.Accepted?)
              && (h.status == SendFailed ==> h.error == Some(outcome.message))
    ensures h.Handled? && h.sent.Some? ==> h.sent.value == ComposeMail(p, env, i, row, Classify(p, row).email)
  {
    match Classify(p, row)
    case Skip => Skipped
    case Invalid(email) =>
      var msg := InvalidEmailMessage(i + 1, email);
      Handled(ValidationFailed, Some(msg), Some(ErrorEntry(i + 1, email, msg)), "Format Error", env.clock(i), false, None)
    case Deliver(email) =>
      var mail := ComposeMail(p, env, i, row, email);
      var paused := attempted > 0 && p.intervalMs > 0;
      var sent := if env.transporterReady then Some(mail) else None;
      match Outcome(env, attempted, mail)
      case Accepted => Handled(Success, None, None, "Success", env.clock(i), paused, sent)
      case Thrown(msg) =>
        Handled(SendFailed, Some(msg), Some(ErrorEntry(i + 1, OrNotAvailable(RawCell(row, p.emailHeader)), msg)),
                FailureMarker(msg), env.clock(i), paused, sent)
  }

  /** The `progress` event of row `i`. */
  function ProgressOf(p: Plan, i: nat, row: Row, status: RowStatus, error: Option<string>): Effect {
    Emit(Progress(p.jobId, i + 1, RawCell(row, p.emailHeader), status, error))
  }

  /** The `try`, `catch` and `finally` of a row that is not skipped, with
      effects appended in the order the handler performs them. */
  function Settle(p: Plan, st: RunState, i: nat, row: Row, h: Handling): RunState
    requires h.Handled?
  {
    RunState(if h.status == Success then st.successCount + 1 else st.successCount,
             if h.status == Success then st.failCount else st.failCount + 1,
             if h.entry.Some? then st.errors + [h.entry.value] else st.errors,
             if h.status == ValidationFailed then st.attempted else st.attempted + 1,
             Marked(p, st.cells, i, h),
             Attempted(p, st.log, h) + [ProgressOf(p, i, row, h.status, h.error)])
  }

  /** The log after the `try` of a row that is not skipped: the pause, then
      the transport call. */
  function Attempted(p: Plan, log: seq<Effect>, h: Handling): seq<Effect>
    requires h.Handled?
  {
    var slept := if h.paused then log + [Sleep(p.intervalMs)] else log;
    if h.sent.Some? then slept + [SendMail(h.sent.value)] else slept
  }

  /** The sheet after the `finally` of row `i`: its status cell, then its
      send-time cell. */
  function Marked(p: Plan, cells: Cells, i: nat, h: Handling): Cells
    requires h.Handled?
  {
    WriteCell(WriteCell(cells, p.statusCol, i + 1, CellValue.Text(h.statusText)), p.sendTimeCol, i + 1, Timestamp(h.time))
  }

  /** One row of the loop. A skipped row reports `progress` once before
      `continue` and once from `finally` and, having left by `continue`,
      never reaches the flush test; any other row is settled and then
      flushed when `ShouldFlush` holds. */
  function Apply(p: Plan, n: nat, st: RunState, i: nat, row: Row, h: Handling): RunState {
    if h.Skipped? then
      var ev := ProgressOf(p, i, row, SkippedPreviouslySuccess, None);
      st.(log := st.log + [ev] + [ev])
    else
      Flush(p, n, i, Settle(p, st, i, row, h))
  }

  /** The save after row `i` of `n`: when `ShouldFlush` holds, the sheet is
      written out and a `batch_save` for `i + 1` rows follows. */
  function Flush(p: Plan, n: nat, i: nat, s: RunState): RunState {
    if ShouldFlush(i, n) then s.(log := s.log + [SaveSheet(s.cells)] + [Emit(BatchSave(p.jobId, i + 1))]) else s
  }

  /** The state after the first `k` rows, row `i` being disposed of as
      `hs[i]` says. */
  function Run(p: Plan, rows: seq<Row>, cells0: Cells, hs: seq<Handling>, k: nat): RunState
    requires k <= |rows| == |hs|
  {
    if k == 0 then RunState(0, 0, [], 0, cells0, [])
    else Apply(p, |rows|, Run(p, rows, cells0, hs, k - 1), k - 1, rows[k - 1], hs[k - 1])
  }

  /** The number of skipped rows among the first `k`. */
  function SkippedCount(p: Plan, rows: seq<Row>, k: nat): nat
    requires k <= |rows|
  {
    if k == 0 then 0 else SkippedCount(p, rows, k - 1) + (if Classify(p, rows[k - 1]).Skip? then 1 else 0)
  }

  /** The number of rows among the first `k` for which a send is attempted. */
  function DeliverCount(p: Plan, rows: seq<Row>, k: nat): nat
    requires k <= |rows|
  {
    if k == 0 then 0 else DeliverCount(p, rows, k - 1) + (if Classify(p, rows[k - 1]).Deliver? then 1 else 0)
  }

  /** How the rows are handled when taken in order: row `i` comes after as
      many attempted sends as there are earlier rows with a deliverable
      address. */
  function Handlings(p: Plan, env: Env, rows: seq<Row>): (hs: seq<Handling>)
    ensures |hs| == |rows|
  {
    seq(|rows|, i requires 0 <= i < |rows| => Handle(p, env, DeliverCount(p, rows, i), i, rows[i]))
  }

  /** The message of a deliverable row: placeholders substituted in subject
      and body, the title override applied, the body made email-safe and its
      data images cut out into parts after the static attachments. */
  method BuildMail(p: Plan, env: Env, i: nat, rowData: Row, recipientEmail: string) returns (mail: Mail)
    ensures mail == ComposeMail(p, env, i, rowData, recipientEmail)
    ensures mail.to == recipientEmail && mail.from == env.from
    ensures mail.attachments[..|p.staticAttachments|] == p.staticAttachments
  {
    var mailSubject, mailBody := Substitute(p.subjectTemplate, p.bodyTemplate, p.headers, rowData);
    mailSubject := ApplyTitle(mailSubject, p.titleHeader, rowData);
    var html, attachments := ExtractImages(env.emailSafe(mailBody), p.jobId, i, p.staticAttachments);
    mail := Mail(env.from, recipientEmail, mailSubject, html, attachments);
  }

  /** The send branch of the `try` and its `catch`: pace, count the
      attempt, build the message and hand it to the transport; a send that
      resolves counts a success and marks the row `Success`, one that
      throws counts a failure, pushes its error and marks the row with the
      failure marker. */
  method DeliverRow(p: Plan, env: Env, i: nat, rowData: Row, recipientEmail: string,
                    successCount0: nat, failCount0: nat, errors0: seq<ErrorEntry>, attempted0: nat,
                    worksheet0: Cells, log0: seq<Effect>)
    returns (successCount: nat, failCount: nat, errors: seq<ErrorEntry>, emailsAttemptedThisRun: nat,
             worksheet: Cells, log: seq<Effect>, currentRowStatus: RowStatus, currentRowError: Option<string>)
    requires Classify(p, rowData) == Deliver(recipientEmail)
    ensures var h := Handle(p, env, attempted0, i, rowData);
      && h.Handled? && currentRowStatus == h.status && currentRowError == h.error
      && successCount == (if h.status == Success then successCount0 + 1 else successCount0)
      && failCount == (if h.status == Success then failCount0 else failCount0 + 1)
      && errors == (if h.entry.Some? then errors0 + [h.entry.value] else errors0)
      && emailsAttemptedThisRun == attempted0 + 1
      && worksheet == WriteCell(worksheet0, p.statusCol, i + 1, CellValue.Text(h.statusText))
      && log == Attempted(p, log0, h)
  {
    successCount, failCount, errors, emailsAttemptedThisRun, worksheet, log
      := successCount0, failCount0, errors0, attempted0, worksheet0, log0;
    var rowIndexForDisplay := i + 1;
    if emailsAttemptedThisRun > 0 && p.intervalMs > 0 {
      log := log + [Sleep(p.intervalMs)];
    }
    var attempt := emailsAttemptedThisRun;
    emailsAttemptedThisRun := emailsAttemptedThisRun + 1;
    var mail := BuildMail(p, env, i, rowData, recipientEmail);
    var result: SendResult;
    if !env.transporterReady {
      result := Thrown(NotConfiguredMessage);
    } else {
      log := log + [SendMail(mail)];
      result := env.transport(attempt, mail);
    }
    match result {
      case Accepted =>
        successCount := successCount + 1;
        currentRowStatus, currentRowError := Success, None;
        worksheet := WriteCell(worksheet, p.statusCol, rowIndexForDisplay, CellValue.Text("Success"));
      case Thrown(message) =>
        failCount := failCount + 1;
        currentRowStatus, currentRowError := SendFailed, Some(message);
        errors := errors + [ErrorEntry(rowIndexForDisplay, OrNotAvailable(RawCell(rowData, p.emailHeader)), message)];
        worksheet := WriteCell(worksheet, p.statusCol, rowIndexForDisplay, CellValue.Text(FailureMarker(message)));
    }
  }

  /** The `try`, `catch` and `finally` of the loop body for a row that is
      not skipped: validate the address, or pace, render, extract the
      images and send, then record the outcome in the counters, the error
      list and the status and send-time cells, and report `progress`. */
  method HandleRow(p: Plan, env: Env, i: nat, rowData: Row,
                   successCount0: nat, failCount0: nat, errors0: seq<ErrorEntry>, attempted0: nat,
                   worksheet0: Cells, log0: seq<Effect>)
    returns (successCount: nat, failCount: nat, errors: seq<ErrorEntry>, emailsAttemptedThisRun: nat,
             worksheet: Cells, log: seq<Effect>)
    requires !Classify(p, rowData).Skip?
    ensures RunState(successCount, failCount, errors, emailsAttemptedThisRun, worksheet, log)
            == Settle(p, RunState(successCount0, failCount0, errors0, attempted0, worksheet0, log0), i, rowData,
                      Handle(p, env, attempted0, i, rowData))
  {
    successCount, failCount, errors, emailsAttemptedThisRun, worksheet, log
      := successCount0, failCount0, errors0, attempted0, worksheet0, log0;
    var rowIndexForDisplay := i + 1;
    var email := RawCell(rowData, p.emailHeader);
    var currentRowStatus: RowStatus;
    var currentRowError: Option<string> := None;
    var recipientEmail := Trim(CellText(rowData, p.emailHeader));
    if recipientEmail == "" || '@' !in recipientEmail {
      assert Classify(p, rowData) == Invalid(recipientEmail);
      failCount := failCount + 1;
      currentRowStatus := ValidationFailed;
      var message := InvalidEmailMessage(rowIndexForDisplay, recipientEmail);
      currentRowError := Some(message);
      errors := errors + [ErrorEntry(rowIndexForDisplay, recipientEmail, message)];
      worksheet := WriteCell(worksheet, p.statusCol, rowIndexForDisplay, CellValue.Text("Format Error"));
      worksheet := WriteCell(worksheet, p.sendTimeCol, rowIndexForDisplay, Timestamp(env.clock(i)));
      assert Handle(p, env, attempted0, i, rowData)
             == Handled(ValidationFailed, currentRowError, Some(errors[|errors| - 1]), "Format Error", env.clock(i), false, None);
    } else {
      assert Classify(p, rowData) == Deliver(recipientEmail);
      successCount, failCount, errors, emailsAttemptedThisRun, worksheet, log, currentRowStatus, currentRowError
        := DeliverRow(p, env, i, rowData, recipientEmail, successCount, failCount, errors, emailsAttemptedThisRun,
                      worksheet, log);
      worksheet := WriteCell(worksheet, p.sendTimeCol, rowIndexForDisplay, Timestamp(env.clock(i)));
    }
    log := log + [Emit(Progress(p.jobId, rowIndexForDisplay, email, currentRowStatus, currentRowError))];
  }

  /** The loop of the stream handler over all data rows. */
  method ProcessRows(p: Plan, env: Env, rows: seq<Row>, cells0: Cells)
    returns (successCount: nat, failCount: nat, errors: seq<ErrorEntry>, emailsAttemptedThisRun: nat,
             worksheet: Cells, log: seq<Effect>)
    ensures RunState(successCount, failCount, errors, emailsAttemptedThisRun, worksheet, log)
            == Run(p, rows, cells0, Handlings(p, env, rows), |rows|)
    ensures |errors| == failCount
    ensures successCount + failCount + SkippedCount(p, rows, |rows|) == |rows|
    ensures emailsAttemptedThisRun == DeliverCount(p, rows, |rows|)
    ensures successCount == AcceptedCount(p, env, rows, |rows|)
  {
    ghost var hs := Handlings(p, env, rows);
    successCount, failCount, errors, emailsAttemptedThisRun, worksheet, log := 0, 0, [], 0, cells0, [];
    for i := 0 to |rows|
      invariant RunState(successCount, failCount, errors, emailsAttemptedThisRun, worksheet, log)
                == Run(p, rows, cells0, hs, i)
    {
      AttemptedSoFar(p, env, rows, cells0, i);
      var rowData := rows[i];
      if p.statusCol != -1 && IsPreviousSuccess(CellText(rowData, "status")) {
        var email := RawCell(rowData, p.emailHeader);
        log := log + [Emit(Progress(p.jobId, i + 1, email, SkippedPreviouslySuccess, None))];
        log := log + [Emit(Progress(p.jobId, i + 1, email, SkippedPreviouslySuccess, None))];
        continue;
      }
      successCount, failCount, errors, emailsAttemptedThisRun, worksheet, log
        := HandleRow(p, env, i, rowData, successCount, failCount, errors, emailsAttemptedThisRun, worksheet, log);
      if ShouldFlush(i, |rows|) {
        log := log + [SaveSheet(worksheet)];
        log := log + [Emit(BatchSave(p.jobId, i + 1))];
      }
    }
    HandlingsWellFormed(p, env, rows);
    RunErrorCount(p, rows, cells0, hs, |rows|);
    RunOutcomeCount(p, rows, cells0, hs, |rows|);
    HandlingsClassified(p, env, rows);
    SkipsOfHandlings(p, rows, hs, |rows|);
    AttemptedSoFar(p, env, rows, cells0, |rows|);
    RunSuccesses(p, env, rows, cells0);
  }

  /** After `k` rows, `emailsAttemptedThisRun` is the number of rows among
      them with a deliverable address. */
  lemma AttemptedSoFar(p: Plan, env: Env, rows: seq<Row>, cells0: Cells, k: nat)
    requires k <= |rows|
    ensures Run(p, rows, cells0, Handlings(p, env, rows), k).attempted == DeliverCount(p, rows, k)
  {
    HandlingsClassified(p, env, rows);
    RunAttemptCount(p, rows, cells0, Handlings(p, env, rows), k);
    AttemptsOfHandlings(p, rows, Handlings(p, env, rows), k);
  }

  // ----- The handlings of a run -----

  /** The number of skipped handlings among the first `k`. */
  function Skips(hs: seq<Handling>, k: nat): nat
    requires k <= |hs|
  {
    if k == 0 then 0 else Skips(hs, k - 1) + (if hs[k - 1].Skipped? then 1 else 0)
  }

  /** The number of send attempts among the first `k` handlings. */
  function Attempts(hs: seq<Handling>, k: nat): nat
    requires k <= |hs|
  {
    if k == 0 then 0
    else Attempts(hs, k - 1) + (if hs[k - 1].Handled? && hs[k - 1].status != ValidationFailed then 1 else 0)
  }

  /** Every handling has the shape `WellFormed` describes. */
  predicate AllWellFormed(hs: seq<Handling>) {
    forall i :: 0 <= i < |hs| ==> WellFormed(hs[i])
  }

  /** The error entry of handling `i`, if any, names row `i + 1`. */
  predicate EntriesNamed(hs: seq<Handling>) {
    forall i :: 0 <= i < |hs| && hs[i].Handled? && hs[i].entry.Some? ==> hs[i].entry.value.rowIndex == i + 1
  }

  /** Among the first `k` handlings, an attempt pauses exactly when an
      attempt came before it and pacing is on, and calls the transport
      exactly when one is ready. */
  predicate PacedAsAttempted(hs: seq<Handling>, ready: bool, paced: bool, k: nat)
    requires k <= |hs|
  {
    k == 0 ||
    (&& PacedAsAttempted(hs, ready, paced, k - 1)
     && (hs[k - 1].Handled? && hs[k - 1].status != ValidationFailed ==>
           hs[k - 1].paused == (Attempts(hs, k - 1) > 0 && paced) && (hs[k - 1].sent.Some? <==> ready)))
  }

  /** `PacedAsAttempted` holds of a prefix whose every attempt is paced. */
  lemma {:induction false} PacedPrefix(hs: seq<Handling>, ready: bool, paced: bool, k: nat)
    requires k <= |hs|
    requires forall i :: 0 <= i < k && hs[i].Handled? && hs[i].status != ValidationFailed ==>
               hs[i].paused == (Attempts(hs, i) > 0 && paced) && (hs[i].sent.Some? <==> ready)
    ensures PacedAsAttempted(hs, ready, paced, k)
  {
    if k > 0 {
      PacedPrefix(hs, ready, paced, k - 1);
    }
  }

  /** The handlings of the rows in order are well formed and name their
      rows. */
  lemma HandlingsWellFormed(p: Plan, env: Env, rows: seq<Row>)
    ensures AllWellFormed(Handlings(p, env, rows))
    ensures EntriesNamed(Handlings(p, env, rows))
  {
    var hs := Handlings(p, env, rows);
    forall i | 0 <= i < |hs|
      ensures WellFormed(hs[i])
      ensures hs[i].Handled? && hs[i].entry.Some? ==> hs[i].entry.value.rowIndex == i + 1
    {
      assert hs[i] == Handle(p, env, DeliverCount(p, rows, i), i, rows[i]);
    }
  }

  /** Row `i` is skipped exactly when `Classify` says so, and a send is
      attempted for it exactly when `Classify` finds it deliverable. */
  lemma HandlingAt(p: Plan, env: Env, rows: seq<Row>, i: nat)
    requires i < |rows|
    ensures Handlings(p, env, rows)[i].Skipped? <==> Classify(p, rows[i]).Skip?
    ensures Handlings(p, env, rows)[i].Handled? && Handlings(p, env, rows)[i].status != ValidationFailed
            <==> Classify(p, rows[i]).Deliver?
  {
    assert Handlings(p, env, rows)[i] == Handle(p, env, DeliverCount(p, rows, i), i, rows[i]);
  }

  /** Handlings that skip exactly the rows `Classify` skips and attempt a
      send exactly for the rows it finds deliverable. */
  predicate ClassifiedAs(p: Plan, rows: seq<Row>, hs: seq<Handling>) {
    |hs| == |rows|
    && forall i :: 0 <= i < |hs| ==>
         && (hs[i].Skipped? <==> Classify(p, rows[i]).Skip?)
         && (hs[i].Handled? && hs[i].status != ValidationFailed <==> Classify(p, rows[i]).Deliver?)
  }

  /** The handlings of the rows in order follow `Classify`. */
  lemma HandlingsClassified(p: Plan, env: Env, rows: seq<Row>)
    ensures ClassifiedAs(p, rows, Handlings(p, env, rows))
  {
    forall i | 0 <= i < |rows|
      ensures Handlings(p, env, rows)[i].Skipped? <==> Classify(p, rows[i]).Skip?
      ensures Handlings(p, env, rows)[i].Handled? && Handlings(p, env, rows)[i].status != ValidationFailed
              <==> Classify(p, rows[i]).Deliver?
    {
      HandlingAt(p, env, rows, i);
    }
  }

  /** A row is skipped exactly when `Classify` says so. */
  lemma {:induction false} SkipsOfHandlings(p: Plan, rows: seq<Row>, hs: seq<Handling>, k: nat)
    requires k <= |rows|
    requires ClassifiedAs(p, rows, hs)
    ensures Skips(hs, k) == SkippedCount(p, rows, k)
  {
    if k > 0 {
      SkipsOfHandlings(p, rows, hs, k - 1);
    }
  }

  /** A send is attempted exactly for the rows `Classify` finds
      deliverable. */
  lemma {:induction false} AttemptsOfHandlings(p: Plan, rows: seq<Row>, hs: seq<Handling>, k: nat)
    requires k <= |rows|
    requires ClassifiedAs(p, rows, hs)
    ensures Attempts(hs, k) == DeliverCount(p, rows, k)
  {
    if k > 0 {
      AttemptsOfHandlings(p, rows, hs, k - 1);
    }
  }

  /** The sleeps and transport calls of the rows in order follow the
      attempts. */
  lemma HandlingsPaced(p: Plan, env: Env, rows: seq<Row>)
    ensures PacedAsAttempted(Handlings(p, env, rows), env.transporterReady, p.intervalMs > 0, |rows|)
  {
    var hs := Handlings(p, env, rows);
    HandlingsClassified(p, env, rows);
    forall i | 0 <= i < |hs| && hs[i].Handled? && hs[i].status != ValidationFailed
      ensures hs[i].paused == (Attempts(hs, i) > 0 && p.intervalMs > 0) && (hs[i].sent.Some? <==> env.transporterReady)
    {
      AttemptsOfHandlings(p, rows, hs, i);
      assert hs[i] == Handle(p, env, DeliverCount(p, rows, i), i, rows[i]);
    }
    PacedPrefix(hs, env.transporterReady, p.intervalMs > 0, |hs|);
  }

  // ----- Counters -----

  /** One row adds an error entry exactly when it adds a failure. */
  lemma ErrorCountStep(p: Plan, rows: seq<Row>, hs: seq<Handling>, k: nat, st: RunState)
    requires 0 < k <= |rows| == |hs|
    requires WellFormed(hs[k - 1])
    requires |st.errors| == st.failCount
    ensures |Apply(p, |rows|, st, k - 1, rows[k - 1], hs[k - 1]).errors|
            == Apply(p, |rows|, st, k - 1, rows[k - 1], hs[k - 1]).failCount
  {
  }

  /** Each failure of a run has exactly one error entry. */
  lemma {:induction false} RunErrorCount(p: Plan, rows: seq<Row>, cells0: Cells, hs: seq<Handling>, k: nat)
    requires k <= |rows| == |hs|
    requires AllWellFormed(hs)
    ensures |Run(p, rows, cells0, hs, k).errors| == Run(p, rows, cells0, hs, k).failCount
  {
    if k > 0 {
      RunErrorCount(p, rows, cells0, hs, k - 1);
      ErrorCountStep(p, rows, hs, k, Run(p, rows, cells0, hs, k - 1));
    }
  }

  /** A skipped row changes neither count; any other row adds exactly one
      success or one failure. */
  lemma OutcomeCountStep(p: Plan, rows: seq<Row>, hs: seq<Handling>, k: nat, st: RunState)
    requires 0 < k <= |rows| == |hs|
    requires WellFormed(hs[k - 1])
    requires st.successCount + st.failCount + Skips(hs, k - 1) == k - 1
    ensures Apply(p, |rows|, st, k - 1, rows[k - 1], hs[k - 1]).successCount
            + Apply(p, |rows|, st, k - 1, rows[k - 1], hs[k - 1]).failCount + Skips(hs, k) == k
  {
  }

  /** Every row is skipped, failed or sent. */
  lemma {:induction false} RunOutcomeCount(p: Plan, rows: seq<Row>, cells0: Cells, hs: seq<Handling>, k: nat)
    requires k <= |rows| == |hs|
    requires AllWellFormed(hs)
    ensures Run(p, rows, cells0, hs, k).successCount + Run(p, rows, cells0, hs, k).failCount + Skips(hs, k) == k
  {
    if k > 0 {
      RunOutcomeCount(p, rows, cells0, hs, k - 1);
      OutcomeCountStep(p, rows, hs, k, Run(p, rows, cells0, hs, k - 1));
    }
  }

  /** Only a row that gets past validation counts as an attempt. */
  lemma AttemptCountStep(p: Plan, rows: seq<Row>, hs: seq<Handling>, k: nat, st: RunState)
    requires 0 < k <= |rows| == |hs|
    requires st.attempted == Attempts(hs, k - 1)
    ensures Apply(p, |rows|, st, k - 1, rows[k - 1], hs[k - 1]).attempted == Attempts(hs, k)
  {
  }

  /** `emailsAttemptedThisRun` counts the attempts. */
  lemma {:induction false} RunAttemptCount(p: Plan, rows: seq<Row>, cells0: Cells, hs: seq<Handling>, k: nat)
    requires k <= |rows| == |hs|
    ensures Run(p, rows, cells0, hs, k).attempted == Attempts(hs, k)
  {
    if k > 0 {
      RunAttemptCount(p, rows, cells0, hs, k - 1);
      AttemptCountStep(p, rows, hs, k, Run(p, rows, cells0, hs, k - 1));
    }
  }

  /** The transport accepts the message of row `i`: the row has a
      deliverable address and the answer to its attempt, numbered by the
      deliverable rows before it, is a resolve. */
  predicate Accepts(p: Plan, env: Env, rows: seq<Row>, i: nat)
    requires i < |rows|
  {
    Classify(p, rows[i]).Deliver?
    && Outcome(env, DeliverCount(p, rows, i), ComposeMail(p, env, i, rows[i], Classify(p, rows[i]).email)).Accepted?
  }

  /** The number of rows among the first `k` whose message the transport
      accepts. */
  function AcceptedCount(p: Plan, env: Env, rows: seq<Row>, k: nat): nat
    requires k <= |rows|
  {
    if k == 0 then 0 else AcceptedCount(p, env, rows, k - 1) + (if Accepts(p, env, rows, k - 1) then 1 else 0)
  }

  /** The number of successful handlings among the first `k`. */
  function Successes(hs: seq<Handling>, k: nat): nat
    requires k <= |hs|
  {
    if k == 0 then 0 else Successes(hs, k - 1) + (if hs[k - 1].Handled? && hs[k - 1].status == Success then 1 else 0)
  }

  /** Handlings that succeed exactly for the rows whose message the
      transport accepts. */
  predicate AcceptedAs(p: Plan, env: Env, rows: seq<Row>, hs: seq<Handling>) {
    |hs| == |rows|
    && forall i :: 0 <= i < |hs| ==> (hs[i].Handled? && hs[i].status == Success <==> Accepts(p, env, rows, i))
  }

  /** A row succeeds exactly when the transport accepts its message. */
  lemma HandlingsAccepted(p: Plan, env: Env, rows: seq<Row>)
    ensures AcceptedAs(p, env, rows, Handlings(p, env, rows))
  {
    var hs := Handlings(p, env, rows);
    forall i | 0 <= i < |hs|
      ensures hs[i].Handled? && hs[i].status == Success <==> Accepts(p, env, rows, i)
    {
      assert hs[i] == Handle(p, env, DeliverCount(p, rows, i), i, rows[i]);
    }
  }

  /** Counting successes is counting accepted messages. */
  lemma {:induction false} SuccessesOfHandlings(p: Plan, env: Env, rows: seq<Row>, hs: seq<Handling>, k: nat)
    requires k <= |rows|
    requires AcceptedAs(p, env, rows, hs)
    ensures Successes(hs, k) == AcceptedCount(p, env, rows, k)
  {
    if k > 0 {
      SuccessesOfHandlings(p, env, rows, hs, k - 1);
    }
  }

  /** Only a successful row adds to `successCount`. */
  lemma SuccessCountStep(p: Plan, rows: seq<Row>, hs: seq<Handling>, k: nat, st: RunState)
    requires 0 < k <= |rows| == |hs|
    requires st.successCount == Successes(hs, k - 1)
    ensures Apply(p, |rows|, st, k - 1, rows[k - 1], hs[k - 1]).successCount == Successes(hs, k)
  {
  }

  /** `successCount` counts the successful handlings. */
  lemma {:induction false} RunSuccessCount(p: Plan, rows: seq<Row>, cells0: Cells, hs: seq<Handling>, k: nat)
    requires k <= |rows| == |hs|
    ensures Run(p, rows, cells0, hs, k).successCount == Successes(hs, k)
  {
    if k > 0 {
      RunSuccessCount(p, rows, cells0, hs, k - 1);
      var st := Run(p, rows, cells0, hs, k - 1);
      assert Run(p, rows, cells0, hs, k) == Apply(p, |rows|, st, k - 1, rows[k - 1], hs[k - 1]);
      SuccessCountStep(p, rows, hs, k, st);
    }
  }

  /** At the end of the loop `successCount` is the number of rows whose
      message the transport accepted; every other attempt is a failure. */
  lemma RunSuccesses(p: Plan, env: Env, rows: seq<Row>, cells0: Cells)
    ensures Run(p, rows, cells0, Handlings(p, env, rows), |rows|).successCount == AcceptedCount(p, env, rows, |rows|)
  {
    var hs := Handlings(p, env, rows);
    RunSuccessCount(p, rows, cells0, hs, |rows|);
    HandlingsAccepted(p, env, rows);
    SuccessesOfHandlings(p, env, rows, hs, |rows|);
  }

  /** Error entries name rows between 1 and `k`, in strictly increasing
      order. */
  predicate ErrorsOrdered(errors: seq<ErrorEntry>, k: nat) {
    && (forall a :: 0 <= a < |errors| ==> 1 <= errors[a].rowIndex <= k)
    && (forall a, b :: 0 <= a < b < |errors| ==> errors[a].rowIndex < errors[b].rowIndex)
  }

  /** Row `k` adds at most one error entry, and it names row `k`. */
  lemma ErrorsOrderedStep(p: Plan, rows: seq<Row>, hs: seq<Handling>, k: nat, st: RunState)
    requires 0 < k <= |rows| == |hs|
    requires hs[k - 1].Handled? && hs[k - 1].entry.Some? ==> hs[k - 1].entry.value.rowIndex == k
    requires ErrorsOrdered(st.errors, k - 1)
    ensures ErrorsOrdered(Apply(p, |rows|, st, k - 1, rows[k - 1], hs[k - 1]).errors, k)
  {
  }

  /** Error entries appear in row order, one row at most once, each naming
      a row already processed. */
  lemma {:induction false} RunErrorsOrdered(p: Plan, rows: seq<Row>, cells0: Cells, hs: seq<Handling>, k: nat)
    requires k <= |rows| == |hs|
    requires EntriesNamed(hs)
    ensures ErrorsOrdered(Run(p, rows, cells0, hs, k).errors, k)
  {
    if k > 0 {
      RunErrorsOrdered(p, rows, cells0, hs, k - 1);
      ErrorsOrderedStep(p, rows, hs, k, Run(p, rows, cells0, hs, k - 1));
    }
  }

  // ----- Projections of the effect log -----

  datatype Pace = Pause | Call

  /** What one effect contributes to the pacing trace. */
  function PaceStep(e: Effect): seq<Pace> {
    match e
    case Sleep(_) => [Pause]
    case SendMail(_) => [Call]
    case _ => []
  }

  /** What one effect contributes to the `progress` events. */
  function ProgressStep(e: Effect): seq<Event> {
    if e.Emit? && e.event.Progress? then [e.event] else []
  }

  /** What one effect contributes to the `batch_save` row counts. */
  function SaveStep(e: Effect): seq<int> {
    if e.Emit? && e.event.BatchSave? then [e.event.rowsProcessed] else []
  }

  /** The part of a log that `f` picks out, effect by effect. */
  function Project<T>(log: seq<Effect>, f: Effect -> seq<T>): seq<T> {
    if log == [] then [] else Project(log[..|log| - 1], f) + f(log[|log| - 1])
  }

  /** The sleeps and transport calls of a log, in order. */
  function PaceOf(log: seq<Effect>): seq<Pace> {
    Project(log, PaceStep)
  }

  /** The `progress` events of a log, in order. */
  function ProgressEvents(log: seq<Effect>): seq<Event> {
    Project(log, ProgressStep)
  }

  /** The row counts of the `batch_save` events of a log, in order. */
  function SavePoints(log: seq<Effect>): seq<int> {
    Project(log, SaveStep)
  }

  /** The projection of a log with one more effect. */
  lemma Snoc<T>(a: seq<Effect>, e: Effect, f: Effect -> seq<T>)
    ensures Project(a + [e], f) == Project(a, f) + f(e)
  {
    assert (a + [e])[..|a|] == a;
  }

  /** What a skipped row contributes to a projection: its two `progress`
      events. */
  lemma SkipProject<T>(p: Plan, n: nat, st: RunState, i: nat, row: Row, h: Handling, f: Effect -> seq<T>)
    requires h.Skipped?
    ensures var ev := ProgressOf(p, i, row, SkippedPreviouslySuccess, None);
      Project(Apply(p, n, st, i, row, h).log, f) == Project(st.log, f) + f(ev) + f(ev)
  {
    var ev := ProgressOf(p, i, row, SkippedPreviouslySuccess, None);
    Snoc(st.log, ev, f);
    Snoc(st.log + [ev], ev, f);
  }

  /** The `try` of a row adds its pause and its transport call to the
      pacing trace, in that order. */
  lemma AttemptedPace(p: Plan, log: seq<Effect>, h: Handling)
    requires h.Handled?
    ensures PaceOf(Attempted(p, log, h))
            == PaceOf(log) + (if h.paused then [Pause] else []) + (if h.sent.Some? then [Call] else [])
  {
    var slept := if h.paused then log + [Sleep(p.intervalMs)] else log;
    var pause: seq<Pace> := if h.paused then [Pause] else [];
    var call: seq<Pace> := if h.sent.Some? then [Call] else [];
    if h.paused { Snoc(log, Sleep(p.intervalMs), PaceStep); } else { assert PaceOf(log) + pause == PaceOf(log); }
    if h.sent.Some? { Snoc(slept, SendMail(h.sent.value), PaceStep); } else { assert PaceOf(slept) + call == PaceOf(slept); }
  }

  /** Settling a row adds its pause and its transport call to the pacing
      trace, in that order. */
  lemma SettlePace(p: Plan, st: RunState, i: nat, row: Row, h: Handling)
    requires h.Handled?
    ensures PaceOf(Settle(p, st, i, row, h).log)
            == PaceOf(st.log) + (if h.paused then [Pause] else []) + (if h.sent.Some? then [Call] else [])
  {
    var tried := Attempted(p, st.log, h);
    AttemptedPace(p, st.log, h);
    Snoc(tried, ProgressOf(p, i, row, h.status, h.error), PaceStep);
    assert PaceOf(tried) + [] == PaceOf(tried);
  }

  /** A save adds nothing to the pacing trace. */
  lemma FlushPace(p: Plan, n: nat, i: nat, s: RunState)
    ensures PaceOf(Flush(p, n, i, s).log) == PaceOf(s.log)
  {
    if ShouldFlush(i, n) {
      Snoc(s.log, SaveSheet(s.cells), PaceStep);
      Snoc(s.log + [SaveSheet(s.cells)], Emit(BatchSave(p.jobId, i + 1)), PaceStep);
      assert PaceOf(s.log + [SaveSheet(s.cells)]) == PaceOf(s.log) + [];
    }
  }

  /** A row adds its pause and its transport call to the pacing trace, in
      that order, and nothing else. */
  lemma StepPace(p: Plan, n: nat, st: RunState, i: nat, row: Row, h: Handling)
    ensures PaceOf(Apply(p, n, st, i, row, h).log)
            == PaceOf(st.log) + (if h.Handled? && h.paused then [Pause] else [])
                              + (if h.Handled? && h.sent.Some? then [Call] else [])
  {
    if h.Skipped? {
      SkipProject(p, n, st, i, row, h, PaceStep);
      assert PaceOf(st.log) + [] + [] == PaceOf(st.log);
    } else {
      SettlePace(p, st, i, row, h);
      FlushPace(p, n, i, Settle(p, st, i, row, h));
    }
  }

  /** The `try` of a row adds no `progress`. */
  lemma AttemptedProgress(p: Plan, log: seq<Effect>, h: Handling)
    requires h.Handled?
    ensures ProgressEvents(Attempted(p, log, h)) == ProgressEvents(log)
  {
    var slept := if h.paused then log + [Sleep(p.intervalMs)] else log;
    if h.paused { Snoc(log, Sleep(p.intervalMs), ProgressStep); }
    if h.sent.Some? { Snoc(slept, SendMail(h.sent.value), ProgressStep); }
  }

  /** Settling a row adds exactly its own `progress`, with its status and
      error. */
  lemma SettleProgress(p: Plan, st: RunState, i: nat, row: Row, h: Handling)
    requires h.Handled?
    ensures ProgressEvents(Settle(p, st, i, row, h).log)
            == ProgressEvents(st.log) + [ProgressOf(p, i, row, h.status, h.error).event]
  {
    AttemptedProgress(p, st.log, h);
    Snoc(Attempted(p, st.log, h), ProgressOf(p, i, row, h.status, h.error), ProgressStep);
  }

  /** A save adds no `progress`. */
  lemma FlushProgress(p: Plan, n: nat, i: nat, s: RunState)
    ensures ProgressEvents(Flush(p, n, i, s).log) == ProgressEvents(s.log)
  {
    if ShouldFlush(i, n) {
      Snoc(s.log, SaveSheet(s.cells), ProgressStep);
      Snoc(s.log + [SaveSheet(s.cells)], Emit(BatchSave(p.jobId, i + 1)), ProgressStep);
      assert ProgressEvents(s.log + [SaveSheet(s.cells)]) == ProgressEvents(s.log) + [];
    }
  }

  /** A row adds the `progress` events `RowProgress` gives for it. */
  lemma StepProgress(p: Plan, n: nat, st: RunState, i: nat, row: Row, h: Handling)
    ensures ProgressEvents(Apply(p, n, st, i, row, h).log) == ProgressEvents(st.log) + RowProgress(p, i, row, h)
  {
    if h.Skipped? {
      SkipProject(p, n, st, i, row, h, ProgressStep);
    } else {
      SettleProgress(p, st, i, row, h);
      FlushProgress(p, n, i, Settle(p, st, i, row, h));
    }
  }

  /** The `try` of a row adds no `batch_save`. */
  lemma AttemptedSaves(p: Plan, log: seq<Effect>, h: Handling)
    requires h.Handled?
    ensures SavePoints(Attempted(p, log, h)) == SavePoints(log)
  {
    var slept := if h.paused then log + [Sleep(p.intervalMs)] else log;
    if h.paused { Snoc(log, Sleep(p.intervalMs), SaveStep); }
    if h.sent.Some? { Snoc(slept, SendMail(h.sent.value), SaveStep); }
  }

  /** Settling a row adds no `batch_save`. */
  lemma SettleSaves(p: Plan, st: RunState, i: nat, row: Row, h: Handling)
    requires h.Handled?
    ensures SavePoints(Settle(p, st, i, row, h).log) == SavePoints(st.log)
  {
    var tried := Attempted(p, st.log, h);
    AttemptedSaves(p, st.log, h);
    Snoc(tried, ProgressOf(p, i, row, h.status, h.error), SaveStep);
    assert SavePoints(tried) + [] == SavePoints(tried);
  }

  /** A save after row `i` adds one `batch_save` for `i + 1` rows. */
  lemma FlushSaves(p: Plan, n: nat, i: nat, s: RunState)
    ensures SavePoints(Flush(p, n, i, s).log) == SavePoints(s.log) + (if ShouldFlush(i, n) then [i + 1] else [])
  {
    if ShouldFlush(i, n) {
      Snoc(s.log, SaveSheet(s.cells), SaveStep);
      Snoc(s.log + [SaveSheet(s.cells)], Emit(BatchSave(p.jobId, i + 1)), SaveStep);
      assert SavePoints(s.log + [SaveSheet(s.cells)]) == SavePoints(s.log) + [];
    } else {
      assert SavePoints(s.log) + [] == SavePoints(s.log);
    }
  }

  /** A row that is not skipped and ends a batch or the sheet adds one
      `batch_save` for `i + 1` rows; any other row adds none. */
  lemma StepSaves(p: Plan, n: nat, st: RunState, i: nat, row: Row, h: Handling)
    ensures SavePoints(Apply(p, n, st, i, row, h).log)
            == SavePoints(st.log) + (if h.Handled? && ShouldFlush(i, n) then [i + 1] else [])
  {
    if h.Skipped? {
      SkipProject(p, n, st, i, row, h, SaveStep);
      assert SavePoints(st.log) + [] + [] == SavePoints(st.log) + [];
    } else {
      SettleSaves(p, st, i, row, h);
      FlushSaves(p, n, i, Settle(p, st, i, row, h));
    }
  }

  // ----- Pacing -----

  /** The pacing that `a` attempts should show: a pause before every attempt
      but the first when pacing is on, and a transport call per attempt when
      a transporter exists. */
  function ExpectedPace(a: nat, ready: bool, paced: bool): seq<Pace> {
    if a == 0 then []
    else ExpectedPace(a - 1, ready, paced) + (if a > 1 && paced then [Pause] else []) + (if ready then [Call] else [])
  }

  /** One more attempt adds its pause, if any, and its call, if any; a row
      that makes no attempt adds neither. */
  lemma ExpectedPaceNext(pr: seq<Pace>, pr': seq<Pace>, a: nat, ready: bool, paced: bool,
                         attempt: bool, pause: bool, call: bool)
    requires pr == ExpectedPace(a, ready, paced)
    requires pr' == pr + (if pause then [Pause] else []) + (if call then [Call] else [])
    requires attempt ==> pause == (a > 0 && paced) && call == ready
    requires !attempt ==> !pause && !call
    ensures pr' == ExpectedPace(if attempt then a + 1 else a, ready, paced)
  {
    if !attempt {
      assert pr' == pr + [] + [];
    }
  }

  /** A row after `a` attempts keeps the pacing trace in step: an attempt
      adds its pause and call, anything else adds neither. */
  lemma ApplyPace(p: Plan, n: nat, st: RunState, i: nat, row: Row, h: Handling, a: nat, ready: bool)
    requires WellFormed(h)
    requires h.Handled? && h.status != ValidationFailed ==>
               h.paused == (a > 0 && p.intervalMs > 0) && (h.sent.Some? <==> ready)
    requires PaceOf(st.log) == ExpectedPace(a, ready, p.intervalMs > 0)
    ensures PaceOf(Apply(p, n, st, i, row, h).log)
            == ExpectedPace(if h.Handled? && h.status != ValidationFailed then a + 1 else a, ready, p.intervalMs > 0)
  {
    StepPace(p, n, st, i, row, h);
    ExpectedPaceNext(PaceOf(st.log), PaceOf(Apply(p, n, st, i, row, h).log), a, ready, p.intervalMs > 0,
                     h.Handled? && h.status != ValidationFailed, h.Handled? && h.paused, h.Handled? && h.sent.Some?);
  }

  /** A row keeps the pacing trace of the run in step with the attempts. */
  lemma PacingStep(p: Plan, rows: seq<Row>, cells0: Cells, hs: seq<Handling>, k: nat, ready: bool)
    requires 0 < k <= |rows| == |hs|
    requires WellFormed(hs[k - 1])
    requires hs[k - 1].Handled? && hs[k - 1].status != ValidationFailed ==>
               hs[k - 1].paused == (Attempts(hs, k - 1) > 0 && p.intervalMs > 0) && (hs[k - 1].sent.Some? <==> ready)
    requires PaceOf(Run(p, rows, cells0, hs, k - 1).log) == ExpectedPace(Attempts(hs, k - 1), ready, p.intervalMs > 0)
    ensures PaceOf(Run(p, rows, cells0, hs, k).log) == ExpectedPace(Attempts(hs, k), ready, p.intervalMs > 0)
  {
    var st := Run(p, rows, cells0, hs, k - 1);
    assert Run(p, rows, cells0, hs, k) == Apply(p, |rows|, st, k - 1, rows[k - 1], hs[k - 1]);
    ApplyPace(p, |rows|, st, k - 1, rows[k - 1], hs[k - 1], Attempts(hs, k - 1), ready);
    assert Attempts(hs, k)
           == if hs[k - 1].Handled? && hs[k - 1].status != ValidationFailed then Attempts(hs, k - 1) + 1 else Attempts(hs, k - 1);
  }

  /** The sleeps and calls of a run are exactly those its send attempts
      call for: skipped and invalid rows add neither, and the pause depends
      on the attempts made before, not on the rows. */
  lemma {:induction false} RunPacing(p: Plan, rows: seq<Row>, cells0: Cells, hs: seq<Handling>, k: nat, ready: bool)
    requires k <= |rows| == |hs|
    requires AllWellFormed(hs)
    requires PacedAsAttempted(hs, ready, p.intervalMs > 0, k)
    ensures PaceOf(Run(p, rows, cells0, hs, k).log) == ExpectedPace(Attempts(hs, k), ready, p.intervalMs > 0)
  {
    if k > 0 {
      RunPacing(p, rows, cells0, hs, k - 1, ready);
      assert WellFormed(hs[k - 1]);
      PacingStep(p, rows, cells0, hs, k, ready);
    }
  }

  /** With a transporter and a positive interval, `a` attempts give call,
      pause, call, …, call: `2a - 1` entries, no pause before the first
      call and exactly one between consecutive calls. */
  lemma {:induction false} ExpectedPaceAlternates(a: nat)
    requires a > 0
    ensures |ExpectedPace(a, true, true)| == 2 * a - 1
    ensures forall j :: 0 <= j < 2 * a - 1 ==> ExpectedPace(a, true, true)[j] == if j % 2 == 0 then Call else Pause
  {
    if a > 1 {
      ExpectedPaceAlternates(a - 1);
    }
  }

  /** The number of pauses in a pacing trace. */
  function Pauses(ps: seq<Pace>): nat {
    if ps == [] then 0 else Pauses(ps[..|ps| - 1]) + (if ps[|ps| - 1] == Pause then 1 else 0)
  }

  lemma {:induction false} PausesAppend(a: seq<Pace>, b: seq<Pace>)
    ensures Pauses(a + b) == Pauses(a) + Pauses(b)
    decreases |b|
  {
    if b != [] {
      assert (a + b)[..|a + b| - 1] == a + b[..|b| - 1];
      PausesAppend(a, b[..|b| - 1]);
    } else {
      assert a + b == a;
    }
  }

  /** `a` attempts incur `a - 1` sleeps when the interval is positive and
      none otherwise, whether or not the sends then succeed. */
  lemma {:induction false} ExpectedPauses(a: nat, ready: bool, paced: bool)
    ensures Pauses(ExpectedPace(a, ready, paced)) == if paced && a > 0 then a - 1 else 0
  {
    if a > 0 {
      ExpectedPauses(a - 1, ready, paced);
      var pause: seq<Pace> := if a > 1 && paced then [Pause] else [];
      var call: seq<Pace> := if ready then [Call] else [];
      PausesAppend(ExpectedPace(a - 1, ready, paced), pause);
      PausesAppend(ExpectedPace(a - 1, ready, paced) + pause, call);
      assert Pauses(pause) == (if a > 1 && paced then 1 else 0) by {
        if a > 1 && paced { assert pause[..0] == []; }
      }
      assert Pauses(call) == 0 by {
        if ready { assert call[..0] == []; }
      }
    }
  }

  /** The sleeps of the loop over all rows: one fewer than the rows with a
      deliverable address when the interval is positive, none otherwise. */
  lemma RunSleeps(p: Plan, env: Env, rows: seq<Row>, cells0: Cells)
    ensures var a := DeliverCount(p, rows, |rows|);
      Pauses(PaceOf(Run(p, rows, cells0, Handlings(p, env, rows), |rows|).log))
      == if p.intervalMs > 0 && a > 0 then a - 1 else 0
  {
    var hs := Handlings(p, env, rows);
    HandlingsWellFormed(p, env, rows);
    HandlingsPaced(p, env, rows);
    RunPacing(p, rows, cells0, hs, |rows|, env.transporterReady);
    HandlingsClassified(p, env, rows);
    AttemptsOfHandlings(p, rows, hs, |rows|);
    ExpectedPauses(Attempts(hs, |rows|), env.transporterReady, p.intervalMs > 0);
  }

  // ----- Progress events and flushes -----

  /** The `progress` events of row `i`: for a skipped row, the one sent
      before `continue` and the one from `finally`, neither with an error;
      otherwise the one from `finally`, with the row's status and error. */
  function RowProgress(p: Plan, i: nat, row: Row, h: Handling): seq<Event> {
    if h.Skipped? then
      var ev := ProgressOf(p, i, row, SkippedPreviouslySuccess, None).event;
      [ev, ev]
    else [ProgressOf(p, i, row, h.status, h.error).event]
  }

  /** The `progress` events the first `k` rows should send, row by row. */
  function ExpectedProgress(p: Plan, rows: seq<Row>, hs: seq<Handling>, k: nat): seq<Event>
    requires k <= |rows| == |hs|
  {
    if k == 0 then [] else ExpectedProgress(p, rows, hs, k - 1) + RowProgress(p, k - 1, rows[k - 1], hs[k - 1])
  }

  /** Row `k` appends its own `progress` events. */
  lemma ProgressStepExact(p: Plan, rows: seq<Row>, hs: seq<Handling>, k: nat, st: RunState)
    requires 0 < k <= |rows| == |hs|
    requires ProgressEvents(st.log) == ExpectedProgress(p, rows, hs, k - 1)
    ensures ProgressEvents(Apply(p, |rows|, st, k - 1, rows[k - 1], hs[k - 1]).log) == ExpectedProgress(p, rows, hs, k)
  {
    StepProgress(p, |rows|, st, k - 1, rows[k - 1], hs[k - 1]);
    assert ExpectedProgress(p, rows, hs, k)
           == ExpectedProgress(p, rows, hs, k - 1) + RowProgress(p, k - 1, rows[k - 1], hs[k - 1]);
  }

  /** The `progress` events of a run are exactly those of its rows, in row
      order: two for a skipped row, one with its status and error for any
      other. */
  lemma {:induction false} RunProgress(p: Plan, rows: seq<Row>, cells0: Cells, hs: seq<Handling>, k: nat)
    requires k <= |rows| == |hs|
    ensures ProgressEvents(Run(p, rows, cells0, hs, k).log) == ExpectedProgress(p, rows, hs, k)
  {
    if k > 0 {
      RunProgress(p, rows, cells0, hs, k - 1);
      var st := Run(p, rows, cells0, hs, k - 1);
      assert Run(p, rows, cells0, hs, k) == Apply(p, |rows|, st, k - 1, rows[k - 1], hs[k - 1]);
      ProgressStepExact(p, rows, hs, k, st);
    }
  }

  /** One `progress` event per row and a second one per skipped row; the
      `j`-th row's events name row `j + 1`. */
  lemma {:induction false} ExpectedProgressCount(p: Plan, rows: seq<Row>, hs: seq<Handling>, k: nat)
    requires k <= |rows| == |hs|
    ensures |ExpectedProgress(p, rows, hs, k)| == k + Skips(hs, k)
    ensures forall a :: 0 <= a < |ExpectedProgress(p, rows, hs, k)| ==>
              ExpectedProgress(p, rows, hs, k)[a].Progress? && 1 <= ExpectedProgress(p, rows, hs, k)[a].rowIndex <= k
  {
    if k > 0 {
      ExpectedProgressCount(p, rows, hs, k - 1);
      var prev := ExpectedProgress(p, rows, hs, k - 1);
      var cur := ExpectedProgress(p, rows, hs, k);
      var own := RowProgress(p, k - 1, rows[k - 1], hs[k - 1]);
      assert cur == prev + own;
      assert forall a :: 0 <= a < |own| ==> own[a].Progress? && own[a].rowIndex == k;
      assert forall a :: 0 <= a < |cur| ==> cur[a] == if a < |prev| then prev[a] else own[a - |prev|];
    }
  }

  /** The rows after which the sheet is written: the handled rows that end
      a batch of twenty or are the last row. */
  function FlushPoints(hs: seq<Handling>, k: nat): seq<int>
    requires k <= |hs|
  {
    if k == 0 then []
    else FlushPoints(hs, k - 1) + (if hs[k - 1].Handled? && ShouldFlush(k - 1, |hs|) then [k] else [])
  }

  /** Row `k` adds its flush point, if it has one, to the `batch_save`
      events. */
  lemma SavesStep(p: Plan, rows: seq<Row>, hs: seq<Handling>, k: nat, st: RunState)
    requires 0 < k <= |rows| == |hs|
    requires SavePoints(st.log) == FlushPoints(hs, k - 1)
    ensures SavePoints(Apply(p, |rows|, st, k - 1, rows[k - 1], hs[k - 1]).log) == FlushPoints(hs, k)
  {
    StepSaves(p, |rows|, st, k - 1, rows[k - 1], hs[k - 1]);
    assert FlushPoints(hs, k)
           == FlushPoints(hs, k - 1) + (if hs[k - 1].Handled? && ShouldFlush(k - 1, |hs|) then [k] else []);
  }

  /** The `batch_save` events of a run are exactly its flush points. */
  lemma {:induction false} RunSaves(p: Plan, rows: seq<Row>, cells0: Cells, hs: seq<Handling>, k: nat)
    requires k <= |rows| == |hs|
    ensures SavePoints(Run(p, rows, cells0, hs, k).log) == FlushPoints(hs, k)
  {
    if k > 0 {
      RunSaves(p, rows, cells0, hs, k - 1);
      var st := Run(p, rows, cells0, hs, k - 1);
      assert Run(p, rows, cells0, hs, k) == Apply(p, |rows|, st, k - 1, rows[k - 1], hs[k - 1]);
      SavesStep(p, rows, hs, k, st);
    }
  }

  // ----- Saves in the order of the stream -----

  /** What one effect contributes to the save milestones: `progress` and
      `batch_save` events and workbook writes, in log order. */
  function MilestoneStep(e: Effect): seq<Effect> {
    if e.SaveSheet? || (e.Emit? && (e.event.Progress? || e.event.BatchSave?)) then [e] else []
  }

  /** The `progress` events, workbook writes and `batch_save` events of a
      log, in order. */
  function Milestones(log: seq<Effect>): seq<Effect> {
    Project(log, MilestoneStep)
  }

  /** The milestones of row `i` of `n`, `cells` being the sheet once the row
      is written: its `progress` events and then, for a row that is not
      skipped and ends a batch or the sheet, the write of exactly those
      cells followed by the `batch_save` for `i + 1` rows. */
  function RowMilestones(p: Plan, n: nat, i: nat, row: Row, h: Handling, cells: Cells): seq<Effect> {
    if h.Skipped? then
      var ev := ProgressOf(p, i, row, SkippedPreviouslySuccess, None);
      [ev, ev]
    else
      [ProgressOf(p, i, row, h.status, h.error)]
      + (if ShouldFlush(i, n) then [SaveSheet(cells), Emit(BatchSave(p.jobId, i + 1))] else [])
  }

  /** The milestones the first `k` rows should produce, row by row; a save
      after row `i` writes the sheet as it stands after the first `i + 1`
      rows. */
  function ExpectedMilestones(p: Plan, rows: seq<Row>, cells0: Cells, hs: seq<Handling>, k: nat): seq<Effect>
    requires k <= |rows| == |hs|
  {
    if k == 0 then []
    else ExpectedMilestones(p, rows, cells0, hs, k - 1)
         + RowMilestones(p, |rows|, k - 1, rows[k - 1], hs[k - 1], Run(p, rows, cells0, hs, k).cells)
  }

  /** The `try` of a row adds no milestone. */
  lemma AttemptedMilestones(p: Plan, log: seq<Effect>, h: Handling)
    requires h.Handled?
    ensures Milestones(Attempted(p, log, h)) == Milestones(log)
  {
    var slept := if h.paused then log + [Sleep(p.intervalMs)] else log;
    if h.paused { Snoc(log, Sleep(p.intervalMs), MilestoneStep); }
    if h.sent.Some? { Snoc(slept, SendMail(h.sent.value), MilestoneStep); }
  }

  /** Settling a row adds its own `progress` event. */
  lemma SettleMilestones(p: Plan, st: RunState, i: nat, row: Row, h: Handling)
    requires h.Handled?
    ensures Milestones(Settle(p, st, i, row, h).log) == Milestones(st.log) + [ProgressOf(p, i, row, h.status, h.error)]
  {
    AttemptedMilestones(p, st.log, h);
    Snoc(Attempted(p, st.log, h), ProgressOf(p, i, row, h.status, h.error), MilestoneStep);
  }

  /** A save writes the current cells and then announces itself. */
  lemma FlushMilestones(p: Plan, n: nat, i: nat, s: RunState)
    ensures Milestones(Flush(p, n, i, s).log)
            == Milestones(s.log) + (if ShouldFlush(i, n) then [SaveSheet(s.cells), Emit(BatchSave(p.jobId, i + 1))] else [])
  {
    if ShouldFlush(i, n) {
      Snoc(s.log, SaveSheet(s.cells), MilestoneStep);
      Snoc(s.log + [SaveSheet(s.cells)], Emit(BatchSave(p.jobId, i + 1)), MilestoneStep);
    } else {
      assert Milestones(s.log) + [] == Milestones(s.log);
    }
  }

  /** A skipped row adds its two `progress` events. */
  lemma SkipMilestones(p: Plan, n: nat, st: RunState, i: nat, row: Row, h: Handling)
    requires h.Skipped?
    ensures Milestones(Apply(p, n, st, i, row, h).log) == Milestones(st.log) + RowMilestones(p, n, i, row, h, st.cells)
  {
    var ev := ProgressOf(p, i, row, SkippedPreviouslySuccess, None);
    SkipProject(p, n, st, i, row, h, MilestoneStep);
    assert MilestoneStep(ev) == [ev];
    assert RowMilestones(p, n, i, row, h, st.cells) == [ev, ev];
    assert Milestones(st.log) + [ev] + [ev] == Milestones(st.log) + [ev, ev];
  }

  /** A row that is not skipped adds its `progress` event and, when it ends
      a batch or the sheet, the write of the cells it leaves behind and the
      `batch_save`. */
  lemma SettledMilestones(p: Plan, n: nat, st: RunState, i: nat, row: Row, h: Handling)
    requires h.Handled?
    ensures Milestones(Apply(p, n, st, i, row, h).log)
            == Milestones(st.log) + RowMilestones(p, n, i, row, h, Settle(p, st, i, row, h).cells)
  {
    var settled := Settle(p, st, i, row, h);
    var ev := ProgressOf(p, i, row, h.status, h.error);
    var tail: seq<Effect> := if ShouldFlush(i, n) then [SaveSheet(settled.cells), Emit(BatchSave(p.jobId, i + 1))] else [];
    assert Milestones(settled.log) == Milestones(st.log) + [ev] by {
      SettleMilestones(p, st, i, row, h);
    }
    assert Milestones(Apply(p, n, st, i, row, h).log) == Milestones(settled.log) + tail by {
      assert Apply(p, n, st, i, row, h) == Flush(p, n, i, settled);
      FlushMilestones(p, n, i, settled);
    }
    assert RowMilestones(p, n, i, row, h, settled.cells) == [ev] + tail;
    assert Milestones(st.log) + [ev] + tail == Milestones(st.log) + ([ev] + tail);
  }

  /** A row adds the milestones `RowMilestones` gives for it, with the cells
      it leaves behind. */
  lemma StepMilestones(p: Plan, n: nat, st: RunState, i: nat, row: Row, h: Handling)
    ensures Milestones(Apply(p, n, st, i, row, h).log)
            == Milestones(st.log) + RowMilestones(p, n, i, row, h, Apply(p, n, st, i, row, h).cells)
  {
    if h.Skipped? {
      SkipMilestones(p, n, st, i, row, h);
      assert Apply(p, n, st, i, row, h).cells == st.cells;
    } else {
      SettledMilestones(p, n, st, i, row, h);
      assert Apply(p, n, st, i, row, h).cells == Settle(p, st, i, row, h).cells;
    }
  }

  /** Row `k` appends its milestones to those of the rows before it. */
  lemma MilestonesStep(p: Plan, rows: seq<Row>, cells0: Cells, hs: seq<Handling>, k: nat)
    requires 0 < k <= |rows| == |hs|
    requires Milestones(Run(p, rows, cells0, hs, k - 1).log) == ExpectedMilestones(p, rows, cells0, hs, k - 1)
    ensures Milestones(Run(p, rows, cells0, hs, k).log) == ExpectedMilestones(p, rows, cells0, hs, k)
  {
    var st := Run(p, rows, cells0, hs, k - 1);
    var st' := Apply(p, |rows|, st, k - 1, rows[k - 1], hs[k - 1]);
    assert Run(p, rows, cells0, hs, k) == st';
    StepMilestones(p, |rows|, st, k - 1, rows[k - 1], hs[k - 1]);
    assert ExpectedMilestones(p, rows, cells0, hs, k)
           == ExpectedMilestones(p, rows, cells0, hs, k - 1) + RowMilestones(p, |rows|, k - 1, rows[k - 1], hs[k - 1], st'.cells);
  }

  /** In the stream, each `batch_save` comes right after its row's
      `progress` event and the workbook write before it, and that write
      holds the sheet as it stands after the first `i + 1` rows: a crash
      loses at most the rows of one unfinished batch. */
  lemma {:induction false} RunMilestones(p: Plan, rows: seq<Row>, cells0: Cells, hs: seq<Handling>, k: nat)
    requires k <= |rows| == |hs|
    ensures Milestones(Run(p, rows, cells0, hs, k).log) == ExpectedMilestones(p, rows, cells0, hs, k)
  {
    if k > 0 {
      RunMilestones(p, rows, cells0, hs, k - 1);
      MilestonesStep(p, rows, cells0, hs, k);
    }
  }

  /** When no row is skipped, `n` rows give `ceil(n / 20)` flushes: for 25
      rows, one after row 20 and one after row 25. */
  lemma {:induction false} FlushPointsWithoutSkips(hs: seq<Handling>, k: nat)
    requires k <= |hs|
    requires forall j :: 0 <= j < |hs| ==> hs[j].Handled?
    ensures |FlushPoints(hs, k)| == FlushesBefore(k, |hs|)
  {
    if k > 0 {
      FlushPointsWithoutSkips(hs, k - 1);
    }
  }

  lemma {:induction false} FlushPointsBounded(hs: seq<Handling>, k: nat)
    requires k <= |hs|
    ensures forall x :: x in FlushPoints(hs, k) ==> 1 <= x <= k
  {
    if k > 0 {
      FlushPointsBounded(hs, k - 1);
    }
  }

  /** Because a skipped row leaves by `continue`, a skipped last row is not
      followed by the final flush. */
  lemma SkippedLastRowNotFlushed(hs: seq<Handling>)
    requires |hs| > 0 && hs[|hs| - 1].Skipped?
    ensures |hs| !in FlushPoints(hs, |hs|)
  {
    FlushPointsBounded(hs, |hs| - 1);
  }

  // ----- Sheet cells -----

  /** The cells the first `k` rows may write: the status and send-time
      columns of sheet rows `1..k` whose rows were not skipped. */
  predicate Written(p: Plan, hs: seq<Handling>, k: nat, key: (nat, nat))
    requires k <= |hs|
  {
    (key.0 == p.statusCol || key.0 == p.sendTimeCol) && 1 <= key.1 <= k && hs[key.1 - 1].Handled?
  }

  /** One row writes only its own status and send-time cells, and none when
      it is skipped. */
  lemma StepCells(p: Plan, n: nat, st: RunState, i: nat, row: Row, h: Handling, key: (nat, nat))
    requires (key.0 != p.statusCol && key.0 != p.sendTimeCol) || key.1 != i + 1 || h.Skipped?
    ensures key in Apply(p, n, st, i, row, h).cells <==> key in st.cells
    ensures key in st.cells ==> Apply(p, n, st, i, row, h).cells[key] == st.cells[key]
  {
  }

  /** Row `k` leaves alone a cell it may not write. */
  lemma CellsFrameStep(p: Plan, rows: seq<Row>, hs: seq<Handling>, k: nat, st: RunState, cells0: Cells, key: (nat, nat))
    requires 0 < k <= |rows| == |hs|
    requires !Written(p, hs, k, key)
    requires key in st.cells <==> key in cells0
    requires key in cells0 ==> st.cells[key] == cells0[key]
    ensures key in Apply(p, |rows|, st, k - 1, rows[k - 1], hs[k - 1]).cells <==> key in cells0
    ensures key in cells0 ==> Apply(p, |rows|, st, k - 1, rows[k - 1], hs[k - 1]).cells[key] == cells0[key]
  {
    StepCells(p, |rows|, st, k - 1, rows[k - 1], hs[k - 1], key);
  }

  /** Every other cell, header row included, is as it was loaded. */
  lemma {:induction false} RunCellsFrame(p: Plan, rows: seq<Row>, cells0: Cells, hs: seq<Handling>, k: nat, key: (nat, nat))
    requires k <= |rows| == |hs|
    requires !Written(p, hs, k, key)
    ensures key in Run(p, rows, cells0, hs, k).cells <==> key in cells0
    ensures key in cells0 ==> Run(p, rows, cells0, hs, k).cells[key] == cells0[key]
  {
    if k > 0 {
      assert !Written(p, hs, k - 1, key);
      RunCellsFrame(p, rows, cells0, hs, k - 1, key);
      CellsFrameStep(p, rows, hs, k, Run(p, rows, cells0, hs, k - 1), cells0, key);
    }
  }

  /** The cells a handled row writes: its status text and its time. */
  predicate RowCells(p: Plan, cells: Cells, j: nat, h: Handling)
    requires h.Handled?
  {
    && (p.statusCol != -1 ==> (p.statusCol as nat, j + 1) in cells
                              && cells[(p.statusCol as nat, j + 1)] == CellValue.Text(h.statusText))
    && (p.sendTimeCol != -1 ==> (p.sendTimeCol as nat, j + 1) in cells
                                && cells[(p.sendTimeCol as nat, j + 1)] == Timestamp(h.time))
  }

  /** Marking row `i + 1` writes its status text and its time. */
  lemma MarkedCells(p: Plan, cells: Cells, i: nat, h: Handling)
    requires h.Handled?
    requires p.statusCol != -1 ==> p.statusCol != p.sendTimeCol
    ensures RowCells(p, Marked(p, cells, i, h), i, h)
  {
  }

  /** A row that is not skipped writes its own cells. */
  lemma RowCellsWritten(p: Plan, n: nat, st: RunState, i: nat, row: Row, h: Handling)
    requires h.Handled?
    requires p.statusCol != -1 ==> p.statusCol != p.sendTimeCol
    ensures RowCells(p, Apply(p, n, st, i, row, h).cells, i, h)
  {
    MarkedCells(p, st.cells, i, h);
  }

  /** A later row keeps the cells of row `j + 1`. */
  lemma RowCellsKept(p: Plan, n: nat, st: RunState, i: nat, row: Row, h: Handling, j: nat, hj: Handling)
    requires j < i && hj.Handled?
    requires RowCells(p, st.cells, j, hj)
    ensures RowCells(p, Apply(p, n, st, i, row, h).cells, j, hj)
  {
    if p.statusCol != -1 {
      StepCells(p, n, st, i, row, h, (p.statusCol as nat, j + 1));
    }
    if p.sendTimeCol != -1 {
      StepCells(p, n, st, i, row, h, (p.sendTimeCol as nat, j + 1));
    }
  }

  /** After the first `k` rows, a handled row `j + 1` among them still holds
      the status text and the time it wrote. */
  lemma {:induction false} RowCellsAfterRun(p: Plan, rows: seq<Row>, cells0: Cells, hs: seq<Handling>, j: nat, k: nat)
    requires j < k <= |rows| == |hs|
    requires hs[j].Handled?
    requires p.statusCol != -1 ==> p.statusCol != p.sendTimeCol
    ensures RowCells(p, Run(p, rows, cells0, hs, k).cells, j, hs[j])
  {
    var st := Run(p, rows, cells0, hs, k - 1);
    assert Run(p, rows, cells0, hs, k) == Apply(p, |rows|, st, k - 1, rows[k - 1], hs[k - 1]);
    if k > j + 1 {
      RowCellsAfterRun(p, rows, cells0, hs, j, k - 1);
      RowCellsKept(p, |rows|, st, k - 1, rows[k - 1], hs[k - 1], j, hs[j]);
    } else {
      RowCellsWritten(p, |rows|, st, k - 1, rows[k - 1], hs[k - 1]);
    }
  }

  // ----- Re-runs and the missing transporter -----

  /** What the loop writes into the status cell decides the next run over
      the same sheet: a row marked `Success` is skipped, a row marked
      `Format Error` or with a failure marker is tried again. */
  lemma RerunClassification(p: Plan, row: Row, message: string)
    requires p.statusCol != -1
    ensures Classify(p, row["status" := "Success"]).Skip?
    ensures !Classify(p, row["status" := "Format Error"]).Skip?
    ensures !Classify(p, row["status" := FailureMarker(message)]).Skip?
  {
    assert TrimStart("Success") == "Success";
    assert TrimEnd("Success") == "Success";
    assert ToLower("Success") == "success";
    NotSuccessStartingWithF("Format Error");
    NotSuccessStartingWithF(FailureMarker(message));
  }

  /** Text starting with `F` is not a success mark. */
  lemma NotSuccessStartingWithF(s: string)
    requires |s| > 0 && s[0] == 'F'
    ensures !IsPreviousSuccess(s)
  {
    assert TrimStart(s) == s;
    TrimEndFacts(s);
    var u := Trim(s);
    if |u| > 0 {
      assert u[0] == s[0];
      assert ToLower(u)[0] == 'f';
    }
  }

  /** Without a transporter every deliverable row fails with the
      not-configured message and no transport call, yet still counts as an
      attempt. */
  lemma NoTransporterFailsEverySend(p: Plan, env: Env, attempted: nat, i: nat, row: Row)
    requires !env.transporterReady
    requires Classify(p, row).Deliver?
    ensures var h := Handle(p, env, attempted, i, row);
      h.Handled? && h.status == SendFailed && h.error == Some(NotConfiguredMessage) && h.sent.None?
  {
  }
}
