/** The job registry and the stream handler around the row loop: creating a
    job record from the upload form, claiming it exactly once, streaming the
    events of one run and removing the record and its uploaded attachment
    files whatever happens. Reading the workbook, the file system, the id
    generator and the clock are parameters. */
module Jobs {
  import opened JsText
  import opened Sheets
  import opened InlineImages
  import opened Rows

  /** The life of a job record while it is in the registry. */
  datatype JobStatus = Pending | Processing | Failed

  /** An attachment file as the upload middleware stored it: its original
      name and the path of the temporary copy. */
  datatype Upload = Upload(originalName: string, path: string)

  /** A job record of `activeJobs`. */
  datatype Job = Job(
    relativeXlsFilePath: string,
    actualXlsFilePath: string,
    originalXlsName: string,
    subjectTemplate: string,
    bodyTemplate: string,
    receivedHeaders: seq<string>,
    sendIntervalMs: int,
    nodemailerAttachments: seq<Attachment>,
    status: JobStatus,
    creationTime: int)

  /** The form fields of a job creation request. A missing text field is
      `""`, which the handler treats like an empty one. `headers` is the
      parsed `headers` field: a missing field parses as the empty list, and
      `None` stands for a JSON value that is falsy, such as `null`. */
  datatype InitRequest = InitRequest(
    filePath: string,
    subjectTemplate: string,
    bodyTemplate: string,
    headers: Option<seq<string>>,
    sendInterval: string,
    originalXlsName: string)

  /** The answer to a creation request: the new job id, or an HTTP status
      with its message. */
  datatype CreateResult = Created(jobId: string) | Refused(code: nat, message: string)

  /** The workbook as the stream handler reads it: the data rows and the
      cells of the first sheet, or the message of the error `readFile`
      threw. */
  datatype Load = Loaded(rows: seq<Row>, cells: Cells) | LoadFailed(message: string)

  const MissingParametersMessage: string := "Missing required parameters (XLS file, templates, headers, original XLS name)"
  const InvalidJobMessage: string := "Invalid job ID or job already processed/processing"
  const NoDataMessage: string := "No data to process in XLS file."
  const NoEmailHeaderMessage: string := "Could not find \"email\" header in XLS file."
  const InternalErrorPrefix: string := "Internal server error: "

  // ----- Creating a job -----

  /** A required field is missing or empty. */
  predicate MissingParameters(req: InitRequest) {
    req.filePath == "" || req.subjectTemplate == "" || req.bodyTemplate == ""
    || req.headers.None? || req.originalXlsName == ""
  }

  /** `path.join(uploadsDir, relativeXlsFilePath)`. */
  function JoinPath(dir: string, rel: string): string {
    dir + "/" + rel
  }

  /** `(parseInt(sendInterval, 10) || 0) * 1000`: seconds to milliseconds,
      `NaN` and zero counting as no pause. */
  function IntervalMs(sendInterval: string): (ms: int)
    ensures ms % 1000 == 0
    ensures ms > 0 <==> ParseInt(sendInterval).Some? && ParseInt(sendInterval).value > 0
    ensures ms == 0 <==> ParseInt(sendInterval).None? || ParseInt(sendInterval) == Some(0)
  {
    match ParseInt(sendInterval)
    case None => 0
    case Some(seconds) => seconds * 1000
  }

  /** The paths of the uploaded attachment files. */
  function UploadPaths(uploads: seq<Upload>): (r: seq<string>)
    ensures |r| == |uploads|
    ensures forall j :: 0 <= j < |r| ==> r[j] == uploads[j].path
  {
    if uploads == [] then [] else UploadPaths(uploads[..|uploads| - 1]) + [uploads[|uploads| - 1].path]
  }

  /** The attachment list of the record: one file attachment per upload. */
  function FileAttachments(uploads: seq<Upload>): (r: seq<Attachment>)
    ensures |r| == |uploads|
    ensures forall j :: 0 <= j < |r| ==> r[j] == FileAttachment(uploads[j].originalName, uploads[j].path)
  {
    if uploads == [] then []
    else FileAttachments(uploads[..|uploads| - 1]) + [FileAttachment(uploads[|uploads| - 1].originalName, uploads[|uploads| - 1].path)]
  }

  /** The paths of the files behind a list of attachments. */
  function FilePaths(attachments: seq<Attachment>): seq<string> {
    if attachments == [] then []
    else
      var a := attachments[|attachments| - 1];
      FilePaths(attachments[..|attachments| - 1]) + (if a.FileAttachment? then [a.path] else [])
  }

  /** The record stored for a valid request. */
  function NewJob(req: InitRequest, uploads: seq<Upload>, actualPath: string, now: int): Job
    requires req.headers.Some?
  {
    Job(req.filePath, actualPath, req.originalXlsName, req.subjectTemplate, req.bodyTemplate,
        req.headers.value, IntervalMs(req.sendInterval), FileAttachments(uploads), Pending, now)
  }

  // ----- Claiming and finishing -----

  /** A stream may start on `jobId` only while its record is pending. */
  predicate Claimable(jobs: map<string, Job>, jobId: string) {
    jobId in jobs && jobs[jobId].status == Pending
  }

  /** The registry once the record of `jobId` is marked processing. */
  function Claimed(jobs: map<string, Job>, jobId: string): map<string, Job>
    requires jobId in jobs
  {
    jobs[jobId := jobs[jobId].(status := Processing)]
  }

  /** Reading back the interval field: `n` seconds, possibly followed by
      text that does not start with a digit, give `n * 1000` ms. */
  lemma IntervalMsOfSeconds(n: nat, tail: string)
    requires tail == [] || !IsDigit(tail[0])
    ensures IntervalMs(NatToString(n) + tail) == n * 1000
  {
    ParseIntRoundTrip(n, tail);
  }

  /** A negative interval is kept as it is; the loop never pauses on it. */
  lemma IntervalMsOfNegative(n: nat, tail: string)
    requires tail == [] || !IsDigit(tail[0])
    ensures IntervalMs("-" + NatToString(n) + tail) == -(n as int) * 1000
  {
    ParseIntNegativeRoundTrip(n, tail);
  }

  /** A missing, empty or non-numeric interval means no pause. */
  lemma IntervalMsWithoutDigits(sendInterval: string)
    requires forall j :: 0 <= j < |sendInterval| ==> !IsDigit(sendInterval[j])
    ensures IntervalMs(sendInterval) == 0
  {
    ParseIntNoDigits(sendInterval);
  }

  /** Every uploaded file becomes an attachment of the record, so the
      `finally` of the stream hands each of them to `unlink`, in upload
      order. */
  lemma {:induction false} UploadsUnlinked(uploads: seq<Upload>)
    ensures FilePaths(FileAttachments(uploads)) == UploadPaths(uploads)
  {
    if uploads != [] {
      var init := uploads[..|uploads| - 1];
      UploadsUnlinked(init);
      assert FileAttachments(uploads)[..|uploads| - 1] == FileAttachments(init);
    }
  }

  /** A record just created can be claimed, is claimed at most once, and
      can no longer be claimed once marked failed or deleted. */
  lemma ClaimedOnce(jobs: map<string, Job>, req: InitRequest, uploads: seq<Upload>, actualPath: string,
                    now: int, uuid: string)
    requires req.headers.Some?
    ensures var created := jobs[uuid := NewJob(req, uploads, actualPath, now)];
      && Claimable(created, uuid)
      && !Claimable(Claimed(created, uuid), uuid)
      && !Claimable(Claimed(created, uuid)[uuid := created[uuid].(status := Failed)], uuid)
      && !Claimable(Claimed(created, uuid) - {uuid}, uuid)
  {
  }

  /** `activeJobs`, with the operations of the two handlers on it. */
  class JobRegistry {
    var activeJobs: map<string, Job>

    constructor()
      ensures activeJobs == map[]
    {
      activeJobs := map[];
    }

    /** The creation handler: refuses a request with a missing field (400)
        or naming a workbook that does not exist (404), handing back the
        uploaded files to delete; otherwise stores a pending record under
        the generated id. */
    method CreateJob(req: InitRequest, uploads: seq<Upload>, uploadsDir: string, fileExists: string -> bool,
                     uuid: string, now: int)
      returns (r: CreateResult, unlinked: seq<string>)
      modifies this
      ensures MissingParameters(req) ==>
                r == Refused(400, MissingParametersMessage) && unlinked == UploadPaths(uploads)
                && activeJobs == old(activeJobs)
      ensures !MissingParameters(req) && !fileExists(JoinPath(uploadsDir, req.filePath)) ==>
                r == Refused(404, "XLS file not found: " + JoinPath(uploadsDir, req.filePath))
                && unlinked == UploadPaths(uploads) && activeJobs == old(activeJobs)
      ensures !MissingParameters(req) && fileExists(JoinPath(uploadsDir, req.filePath)) ==>
                r == Created(uuid) && unlinked == []
                && activeJobs == old(activeJobs)[uuid := NewJob(req, uploads, JoinPath(uploadsDir, req.filePath), now)]
    {
      if MissingParameters(req) {
        unlinked := UploadPaths(uploads);
        return Refused(400, MissingParametersMessage), unlinked;
      }
      var actualXlsFilePath := JoinPath(uploadsDir, req.filePath);
      if !fileExists(actualXlsFilePath) {
        unlinked := UploadPaths(uploads);
        return Refused(404, "XLS file not found: " + actualXlsFilePath), unlinked;
      }
      activeJobs := activeJobs[uuid := Job(req.filePath, actualXlsFilePath, req.originalXlsName,
                                           req.subjectTemplate, req.bodyTemplate, req.headers.value,
                                           IntervalMs(req.sendInterval), FileAttachments(uploads), Pending, now)];
      r, unlinked := Created(uuid), [];
    }

    /** The guard of the stream handler: only a pending job is taken, and
        it is marked processing. */
    method ClaimJob(jobId: string) returns (ok: bool)
      modifies this
      ensures ok == Claimable(old(activeJobs), jobId)
      ensures ok ==> activeJobs == Claimed(old(activeJobs), jobId)
      ensures !ok ==> activeJobs == old(activeJobs)
    {
      if jobId !in activeJobs || activeJobs[jobId].status != Pending {
        return false;
      }
      activeJobs := activeJobs[jobId := activeJobs[jobId].(status := Processing)];
      ok := true;
    }

    /** The outer `catch`: the record is marked failed. */
    method FailJob(jobId: string)
      requires jobId in activeJobs
      modifies this
      ensures activeJobs == old(activeJobs)[jobId := old(activeJobs)[jobId].(status := Failed)]
    {
      activeJobs := activeJobs[jobId := activeJobs[jobId].(status := Failed)];
    }

    /** The `finally`: every attachment file of the record is handed to
        `unlink` and the record is deleted. */
    method FinishJob(jobId: string) returns (unlinked: seq<string>)
      requires jobId in activeJobs
      modifies this
      ensures unlinked == FilePaths(old(activeJobs)[jobId].nodemailerAttachments)
      ensures activeJobs == old(activeJobs) - {jobId}
    {
      unlinked := FilePaths(activeJobs[jobId].nodemailerAttachments);
      activeJobs := activeJobs - {jobId};
    }

    /** The stream handler: claims the job, emits `job_started`, loads the
        workbook, checks it has rows and an `email` header, runs the row
        loop and emits `complete`; any failure after the claim is reported
        by the `catch` and marks the record failed; the `finally` deletes
        the attachment files and the record. */
    method Stream(jobId: string, load: Load, env: Env) returns (accepted: bool, log: seq<Effect>, unlinked: seq<string>)
      modifies this
      ensures accepted == Claimable(old(activeJobs), jobId)
      ensures !accepted ==> log == [] && unlinked == [] && activeJobs == old(activeJobs)
      ensures accepted ==> log == StreamLog(jobId, old(activeJobs)[jobId], load, env)
      ensures accepted ==> unlinked == FilePaths(old(activeJobs)[jobId].nodemailerAttachments)
      ensures accepted ==> activeJobs == old(activeJobs) - {jobId}
    {
      accepted := ClaimJob(jobId);
      if !accepted {
        return false, [], [];
      }
      ghost var claimed := activeJobs;
      var job := activeJobs[jobId];
      ghost var record := old(activeJobs)[jobId];
      StreamLogIgnoresStatus(jobId, record, Processing, load, env);
      log := [Emit(JobStarted(jobId))];
      var failure: Option<string>;
      match load {
        case LoadFailed(message) =>
          failure := Some(message);
        case Loaded(dataObjects, worksheet) =>
          var events;
          events, failure := RunLoaded(jobId, job, dataObjects, worksheet, env);
          log := log + ([Emit(DataLoaded(|dataObjects|))] + events);
      }
      assert failure == StreamFailure(job, load);
      assert log == [Emit(JobStarted(jobId))] + LoadLog(jobId, job, load, env);
      if failure.Some? {
        log := log + [Abort(jobId, failure.value)];
        FailJob(jobId);
      } else {
        log := log + [];
      }
      ghost var settled := activeJobs;
      unlinked := FinishJob(jobId);
      DeleteUpdated(old(activeJobs), jobId, claimed[jobId]);
      DeleteUpdated(claimed, jobId, settled[jobId]);
    }
  }

  /** Deleting a key forgets whatever was last stored under it. */
  lemma DeleteUpdated(jobs: map<string, Job>, jobId: string, job: Job)
    ensures jobs[jobId := job] - {jobId} == jobs - {jobId}
  {
  }

  // ----- The stream -----

  /** What the row loop needs from the record and the header lookups done
      once per stream. */
  function PlanOf(jobId: string, job: Job, emailHeader: string): Plan {
    Plan(jobId, job.receivedHeaders, job.subjectTemplate, job.bodyTemplate, job.sendIntervalMs,
         job.nodemailerAttachments, IndexOf(job.receivedHeaders, "status"), IndexOf(job.receivedHeaders, "send_time"),
         emailHeader, FindHeader(job.receivedHeaders, "title"))
  }

  /** The `try` after `data_loaded`: with no rows or no `email` header it
      emits an `error` and throws; otherwise it runs the row loop and
      emits `complete`. */
  method RunLoaded(jobId: string, job: Job, dataObjects: seq<Row>, worksheet: Cells, env: Env)
    returns (events: seq<Effect>, failure: Option<string>)
    ensures events == LoadedEvents(jobId, job, dataObjects, worksheet, env)
    ensures failure == LoadedFailure(job, dataObjects)
  {
    if |dataObjects| == 0 {
      return [Emit(Error(None, NoDataMessage))], Some(NoDataMessage);
    }
    var emailColHeader := FindHeader(job.receivedHeaders, "email");
    if emailColHeader.None? {
      return [Emit(Error(None, NoEmailHeaderMessage))], Some(NoEmailHeaderMessage);
    }
    var plan := PlanOf(jobId, job, emailColHeader.value);
    var successCount, failCount, errors, attempted, cells, rowLog := ProcessRows(plan, env, dataObjects, worksheet);
    var suggestedDownloadName := DownloadName(job.originalXlsName, job.relativeXlsFilePath);
    events := rowLog + [Emit(Complete(jobId, |dataObjects|, successCount, failCount, errors,
                                      "/uploads/" + job.relativeXlsFilePath, suggestedDownloadName))];
    failure := None;
  }

  /** Why the `try` after `data_loaded` throws, if it does. */
  function LoadedFailure(job: Job, rows: seq<Row>): Option<string> {
    if |rows| == 0 then Some(NoDataMessage)
    else if FindHeader(job.receivedHeaders, "email").None? then Some(NoEmailHeaderMessage)
    else None
  }

  /** The `complete` event of a run of the loop. */
  function CompleteOf(jobId: string, job: Job, rows: seq<Row>, st: RunState): Effect {
    Emit(Complete(jobId, |rows|, st.successCount, st.failCount, st.errors,
                  "/uploads/" + job.relativeXlsFilePath, DownloadName(job.originalXlsName, job.relativeXlsFilePath)))
  }

  /** The loop's state at the end of a stream that reaches it. */
  function FinalState(jobId: string, job: Job, rows: seq<Row>, cells: Cells, env: Env): RunState
    requires FindHeader(job.receivedHeaders, "email").Some?
  {
    var plan := PlanOf(jobId, job, FindHeader(job.receivedHeaders, "email").value);
    Run(plan, rows, cells, Handlings(plan, env, rows), |rows|)
  }

  /** The effects of the `try` after `data_loaded`, before the `catch`. */
  function LoadedEvents(jobId: string, job: Job, rows: seq<Row>, cells: Cells, env: Env): seq<Effect> {
    match LoadedFailure(job, rows)
    case Some(message) => [Emit(Error(None, message))]
    case None =>
      var st := FinalState(jobId, job, rows, cells, env);
      st.log + [CompleteOf(jobId, job, rows, st)]
  }

  /** The `error` event of the outer `catch`. */
  function Abort(jobId: string, message: string): Effect {
    Emit(Error(Some(jobId), InternalErrorPrefix + message))
  }

  /** Why a stream on a claimed job fails, if it does. */
  function StreamFailure(job: Job, load: Load): Option<string> {
    match load
    case LoadFailed(message) => Some(message)
    case Loaded(rows, _) => LoadedFailure(job, rows)
  }

  /** The effects between `job_started` and the `catch`. */
  function LoadLog(jobId: string, job: Job, load: Load, env: Env): seq<Effect> {
    match load
    case LoadFailed(_) => []
    case Loaded(rows, cells) => [Emit(DataLoaded(|rows|))] + LoadedEvents(jobId, job, rows, cells, env)
  }

  /** The effects of a stream on a claimed job, in order. */
  function StreamLog(jobId: string, job: Job, load: Load, env: Env): seq<Effect> {
    var failure := StreamFailure(job, load);
    [Emit(JobStarted(jobId))] + LoadLog(jobId, job, load, env)
    + (if failure.Some? then [Abort(jobId, failure.value)] else [])
  }

  /** A workbook that cannot be read ends the stream right after
      `job_started` with the `catch`'s error. */
  lemma StreamOfUnreadable(jobId: string, job: Job, message: string, env: Env)
    ensures StreamLog(jobId, job, LoadFailed(message), env)
            == [Emit(JobStarted(jobId)), Emit(Error(Some(jobId), InternalErrorPrefix + message))]
  {
  }

  /** A workbook without rows, or without an `email` header, is reported
      twice: by the handler's own `error` and again by the `catch`. */
  lemma StreamOfUnusable(jobId: string, job: Job, rows: seq<Row>, cells: Cells, env: Env)
    requires |rows| == 0 || FindHeader(job.receivedHeaders, "email").None?
    ensures var message := if |rows| == 0 then NoDataMessage else NoEmailHeaderMessage;
      StreamLog(jobId, job, Loaded(rows, cells), env)
      == [Emit(JobStarted(jobId)), Emit(DataLoaded(|rows|)), Emit(Error(None, message)),
          Emit(Error(Some(jobId), InternalErrorPrefix + message))]
  {
  }

  /** A stream that reaches the loop starts with `job_started` and
      `data_loaded`, ends with `complete`, and `complete` reports every row
      as sent, failed or skipped, one error entry per failure, the workbook
      under `/uploads/` and the suggested download name. */
  lemma StreamCompletes(jobId: string, job: Job, rows: seq<Row>, cells: Cells, env: Env)
    requires |rows| > 0 && FindHeader(job.receivedHeaders, "email").Some?
    ensures var log := StreamLog(jobId, job, Loaded(rows, cells), env);
      && |log| >= 3
      && log[0] == Emit(JobStarted(jobId))
      && log[1] == Emit(DataLoaded(|rows|))
      && log[|log| - 1].Emit? && log[|log| - 1].event.Complete?
      && var c := log[|log| - 1].event;
         && c.jobId == jobId && c.totalRows == |rows|
         && c.successCount + c.failCount
            + SkippedCount(PlanOf(jobId, job, FindHeader(job.receivedHeaders, "email").value), rows, |rows|) == |rows|
         && |c.errors| == c.failCount
         && ErrorsOrdered(c.errors, |rows|)
         && c.outputFilePath == "/uploads/" + job.relativeXlsFilePath
         && c.suggestedDownloadName == DownloadName(job.originalXlsName, job.relativeXlsFilePath)
  {
    var st := FinalState(jobId, job, rows, cells, env);
    LoopLog(jobId, job, rows, cells, env);
    FinalCounts(jobId, job, rows, cells, env);
    var log := StreamLog(jobId, job, Loaded(rows, cells), env);
    assert log[|log| - 1] == CompleteOf(jobId, job, rows, st);
  }

  /** The loop's final counters add up to the rows, with one error entry
      per failure, in row order. */
  lemma FinalCounts(jobId: string, job: Job, rows: seq<Row>, cells: Cells, env: Env)
    requires FindHeader(job.receivedHeaders, "email").Some?
    ensures var st := FinalState(jobId, job, rows, cells, env);
      && st.successCount + st.failCount
         + SkippedCount(PlanOf(jobId, job, FindHeader(job.receivedHeaders, "email").value), rows, |rows|) == |rows|
      && |st.errors| == st.failCount
      && ErrorsOrdered(st.errors, |rows|)
  {
    var plan := PlanOf(jobId, job, FindHeader(job.receivedHeaders, "email").value);
    var hs := Handlings(plan, env, rows);
    HandlingsWellFormed(plan, env, rows);
    RunErrorCount(plan, rows, cells, hs, |rows|);
    RunOutcomeCount(plan, rows, cells, hs, |rows|);
    RunErrorsOrdered(plan, rows, cells, hs, |rows|);
    HandlingsClassified(plan, env, rows);
    SkipsOfHandlings(plan, rows, hs, |rows|);
  }

  /** A stream that reaches the loop logs `job_started`, `data_loaded`, the
      loop's effects and `complete`, and no `catch` runs. */
  lemma LoopLog(jobId: string, job: Job, rows: seq<Row>, cells: Cells, env: Env)
    requires |rows| > 0 && FindHeader(job.receivedHeaders, "email").Some?
    ensures var st := FinalState(jobId, job, rows, cells, env);
      StreamLog(jobId, job, Loaded(rows, cells), env)
      == [Emit(JobStarted(jobId))] + ([Emit(DataLoaded(|rows|))] + (st.log + [CompleteOf(jobId, job, rows, st)]))
  {
    assert LoadedFailure(job, rows) == None;
    assert StreamFailure(job, Loaded(rows, cells)) == None;
  }

  /** A record made by the creation handler always has its original name,
      so the stream suggests exactly that name. */
  lemma CreatedJobKeepsName(req: InitRequest, uploads: seq<Upload>, actualPath: string, now: int)
    requires !MissingParameters(req)
    ensures var job := NewJob(req, uploads, actualPath, now);
      DownloadName(job.originalXlsName, job.relativeXlsFilePath) == req.originalXlsName
  {
  }

  /** The events of a stream do not depend on the record's status, which
      the claim changes before they are produced. */
  lemma StreamLogIgnoresStatus(jobId: string, job: Job, status: JobStatus, load: Load, env: Env)
    ensures StreamLog(jobId, job.(status := status), load, env) == StreamLog(jobId, job, load, env)
  {
    match load {
      case LoadFailed(_) =>
      case Loaded(rows, cells) =>
        assert LoadedFailure(job.(status := status), rows) == LoadedFailure(job, rows);
        assert LoadLog(jobId, job.(status := status), load, env) == LoadLog(jobId, job, load, env) by {
          assert LoadedEvents(jobId, job.(status := status), rows, cells, env) == LoadedEvents(jobId, job, rows, cells, env);
        }
    }
  }

  // ----- The download name -----

  /** The characters `.` does not match in a regular expression without the
      `s` flag. */
  predicate IsLineTerminator(c: char) {
    c == '\n' || c == '\r' || c == '\U{2028}' || c == '\U{2029}'
  }

  /** The second group of `^(\d+)-(.*)$` on a stored file name: what follows
      the leading digits and the dash, when the name has that shape. */
  function TimestampedTail(path: string): Option<string> {
    var d := LeadingDigits(path);
    if d != [] && |d| < |path| && path[|d|] == '-'
       && forall j :: |d| < j < |path| ==> !IsLineTerminator(path[j])
    then Some(path[|d| + 1..])
    else None
  }

  /** The suggested download name: the original name when there is one,
      otherwise the part of the stored name after its timestamp prefix,
      otherwise the stored name itself. */
  function DownloadName(originalXlsName: string, relativeXlsFilePath: string): (r: string)
    ensures originalXlsName != "" ==> r == originalXlsName
    ensures originalXlsName == "" ==>
              && |r| <= |relativeXlsFilePath| && r == relativeXlsFilePath[|relativeXlsFilePath| - |r|..]
              && (r == "" ==> relativeXlsFilePath == "")
  {
    if originalXlsName != "" then originalXlsName
    else
      match TimestampedTail(relativeXlsFilePath)
      case Some(tail) => if tail != "" then tail else relativeXlsFilePath
      case None => relativeXlsFilePath
  }

  /** The stored name of an upload is `<timestamp>-<original name>`; the
      fallback gives the original name back when it is non-empty and on one
      line. */
  lemma DownloadNameRoundTrip(timestamp: nat, name: string)
    requires name != []
    requires forall j :: 0 <= j < |name| ==> !IsLineTerminator(name[j])
    ensures DownloadName("", NatToString(timestamp) + "-" + name) == name
  {
    var d := NatToString(timestamp);
    var rel := d + "-" + name;
    LeadingDigitsOf(d, "-" + name);
    assert rel == d + ("-" + name);
    assert LeadingDigits(rel) == d;
    assert rel[|d|] == '-';
    assert rel[|d| + 1..] == name;
    assert forall k :: |d| < k < |rel| ==> rel[k] == name[k - |d| - 1];
    assert TimestampedTail(rel) == Some(name);
  }

  /** An original name that spans lines does not match `.*`, so the whole
      stored name is suggested. */
  lemma DownloadNameMultiline(timestamp: nat, name: string, j: nat)
    requires j < |name| && IsLineTerminator(name[j])
    ensures DownloadName("", NatToString(timestamp) + "-" + name) == NatToString(timestamp) + "-" + name
  {
    var d := NatToString(timestamp);
    var rel := d + "-" + name;
    LeadingDigitsOf(d, "-" + name);
    assert rel == d + ("-" + name);
    assert LeadingDigits(rel) == d;
    assert rel[|d| + 1 + j] == name[j];
    assert TimestampedTail(rel) == None;
  }

  /** A stored name that does not start with a digit is suggested as it
      is. */
  lemma DownloadNameWithoutTimestamp(rel: string)
    requires rel == [] || !IsDigit(rel[0])
    ensures DownloadName("", rel) == rel
  {
  }
}
