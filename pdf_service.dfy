/**
 * `PDFService` (celery_tasks/services/pdf_service.py): starting the download task, reading its
 * status, forgetting it, and the name and URL of a generated download.
 */
module PdfService {
  import opened Wrappers
  import opened Text
  import opened Sessions
  import opened Celery

  const PdfTaskIdKey := "pdf_task_id"

  /** `{'success': True, 'task_id': id}` or `{'error': msg}`. */
  datatype PdfStartResult = PdfStarted(taskId: string) | PdfStartError(error: string)

  /** The four dictionary shapes `check_pdf_status` returns. */
  datatype PdfStatus =
    | PdfReady(downloadUrl: Value)
    | PdfPending(message: string)
    | PdfFailed(message: string)
    | PdfStatusError(error: string)

  /** `{'success': True, 'download_url': url, 'filename': name}`. */
  datatype Download = Download(downloadUrl: string, filename: string)

  /**
   * `check_pdf_status`: SUCCESS is ready with the payload's `download_url` (`''` when absent),
   * PENDING is pending, every other state, PROGRESS included, is a failure, and an exception
   * while asking is reported with its message.
   */
  function CheckPdfStatus(poll: Poll): (r: PdfStatus)
    ensures r.PdfReady? <==> poll.Polled? && poll.state == Success
    ensures r.PdfReady? ==> r.downloadUrl == Get(poll.result, "download_url", Str(""))
    ensures r.PdfPending? <==> poll.Polled? && poll.state == Pending
    ensures r.PdfPending? ==> r.message == "PDF generation in progress..."
    ensures r.PdfFailed? <==> poll.Polled? && poll.state != Success && poll.state != Pending
    ensures r.PdfFailed? ==> r.message == "PDF generation failed"
    ensures r.PdfStatusError? <==> poll.PollRaised?
    ensures r.PdfStatusError? ==> r.error == poll.message
  {
    match poll
    case PollRaised(msg) => PdfStatusError(msg)
    case Polled(state, result) =>
      if state == Success then PdfReady(Get(result, "download_url", Str("")))
      else if state == Pending then PdfPending("PDF generation in progress...")
      else PdfFailed("PDF generation failed")
  }

  /** `start_pdf_generation`: the session gains the Celery task id only when the Celery task was queued. */
  function StartPdfGenerationOutcome(m: map<string, Value>, enqueue: Enqueue): (r: Step<PdfStartResult>)
    ensures r.result.PdfStarted? <==> enqueue.Queued?
    ensures r.result.PdfStarted? ==> r.result.taskId == enqueue.taskId
    ensures r.session.Keys == if enqueue.Queued? then m.Keys + {PdfTaskIdKey} else m.Keys
    ensures forall k :: k in m && k != PdfTaskIdKey ==> r.session[k] == m[k]
    ensures enqueue.Queued? ==> r.session[PdfTaskIdKey] == Str(enqueue.taskId)
    ensures enqueue.EnqueueRaised? ==> r == Step(PdfStartError(enqueue.message), m)
  {
    match enqueue
    case Queued(id) => Step(PdfStarted(id), m[PdfTaskIdKey := Str(id)])
    case EnqueueRaised(msg) => Step(PdfStartError(msg), m)
  }

  /** `clear_pdf_session`: only the Celery task id goes. */
  function WithoutPdfTask(m: map<string, Value>): (r: map<string, Value>)
    ensures r.Keys == m.Keys - {PdfTaskIdKey}
    ensures forall k :: k in r ==> r[k] == m[k]
  {
    m - {PdfTaskIdKey}
  }

  lemma ClearPdfSessionIdempotent(m: map<string, Value>)
    ensures WithoutPdfTask(WithoutPdfTask(m)) == WithoutPdfTask(m)
  {
  }

  method StartPdfGeneration(session: Session, enqueue: Enqueue) returns (r: PdfStartResult)
    modifies session
    ensures Step(r, session.data) == StartPdfGenerationOutcome(old(session.data), enqueue)
  {
    match enqueue
    case Queued(id) =>
      session.Set(PdfTaskIdKey, Str(id));
      r := PdfStarted(id);
    case EnqueueRaised(msg) =>
      r := PdfStartError(msg);
  }

  method ClearPdfSession(session: Session)
    modifies session
    ensures session.data == WithoutPdfTask(old(session.data))
  {
    var _ := session.Pop(PdfTaskIdKey, Null);
  }

  /** `f"cv_{cv_id}_{unique_id}.pdf"` with `unique_id = str(uuid.uuid4())[:8]`. */
  function DownloadFilename(cvId: nat, uuid: string): string {
    "cv_" + NatToString(cvId) + "_" + Take(uuid, 8) + ".pdf"
  }

  /** `f"/media/downloads/{filename}"`. */
  function DownloadUrl(filename: string): string {
    "/media/downloads/" + filename
  }

  /**
   * `generate_cv_pdf_download` for CV `cvId` with the uuid the call draws; `failure` is the
   * message of the exception raised while loading the CV, rendering or writing the file, if any.
   */
  function GenerateCvPdfDownload(cvId: nat, uuid: string, failure: Option<string>): (r: Result<Download, string>)
    ensures r.Err? <==> failure.Some?
    ensures r.Err? ==> r.error == failure.value
    ensures r.Ok? ==> r.value.downloadUrl == DownloadUrl(r.value.filename)
    ensures r.Ok? && |uuid| >= 8 ==> ParseDownloadFilename(r.value.filename) == Some((cvId, uuid[..8]))
  {
    match failure
    case Some(msg) => Err(msg)
    case None =>
      var name := DownloadFilename(cvId, uuid);
      assert |uuid| >= 8 ==> ParseDownloadFilename(name) == Some((cvId, uuid[..8])) by {
        if |uuid| >= 8 { ParseDownloadFilenameInverse(cvId, uuid); }
      }
      Ok(Download(DownloadUrl(name), name))
  }

  /** Reads a download filename back into the CV id and the eight-character unique id. */
  function ParseDownloadFilename(f: string): Option<(nat, string)> {
    if |f| < 17 || f[..3] != "cv_" || f[|f| - 13] != '_' || f[|f| - 4..] != ".pdf" then None
    else
      var digits := f[3..|f| - 13];
      if forall k :: 0 <= k < |digits| ==> IsDigit(digits[k]) then Some((ParseNat(digits), f[|f| - 12..|f| - 4]))
      else None
  }

  /** The filename determines the CV and the unique id it was made from. */
  lemma ParseDownloadFilenameInverse(cvId: nat, uuid: string)
    requires |uuid| >= 8
    ensures ParseDownloadFilename(DownloadFilename(cvId, uuid)) == Some((cvId, uuid[..8]))
  {
    var digits := NatToString(cvId);
    var f := DownloadFilename(cvId, uuid);
    assert f == "cv_" + digits + "_" + uuid[..8] + ".pdf";
    assert |f| == |digits| + 16;
    assert f[..3] == "cv_";
    assert f[3..|f| - 13] == digits;
    assert f[|f| - 13] == '_';
    assert f[|f| - 12..|f| - 4] == uuid[..8];
    assert f[|f| - 4..] == ".pdf";
    ParseNatToString(cvId);
  }

  /** Two downloads get the same filename only for the same CV and the same unique id. */
  lemma DownloadFilenameInjective(a: nat, u: string, b: nat, v: string)
    requires |u| >= 8 && |v| >= 8
    requires DownloadFilename(a, u) == DownloadFilename(b, v)
    ensures a == b && u[..8] == v[..8]
  {
    ParseDownloadFilenameInverse(a, u);
    ParseDownloadFilenameInverse(b, v);
  }
}
