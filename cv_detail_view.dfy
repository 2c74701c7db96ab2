/**
 * The CV pages of the web front end (main/web/views.py): `CVDetailView`'s POST dispatch, its
 * asynchronous PDF download request and the PDF progress shown on the page, and the ownership
 * rule of `CVUpdateView` and `CVDeleteView`.
 */
module CvDetailView {
  import opened Wrappers
  import opened Text
  import opened Sessions
  import opened Celery
  import opened Models
  import Enums
  import Services
  import AnalysisService
  import PdfService
  import ViewHandlers
  import Seqs

  const PdfTaskIdKey := PdfService.PdfTaskIdKey
  const PdfProcessingKey := "pdf_processing"

  // ---------------------------------------------------------------------------------------
  // _get_pdf_progress_context
  // ---------------------------------------------------------------------------------------

  /** `pdf_processing`, `pdf_progress`, `pdf_status` and `pdf_download_url` of the page. */
  datatype PdfProgressContext = PdfProgressContext(processing: bool, progress: Value, status: Value, downloadUrl: Value)

  /** The context when there is no task to report on. */
  const IdleProgress := PdfProgressContext(false, Int(0), Str(""), Null)

  /** The session once both PDF keys have been popped. */
  function WithoutPdfState(m: map<string, Value>): (r: map<string, Value>)
    ensures r.Keys == m.Keys - {PdfTaskIdKey, PdfProcessingKey}
    ensures forall k :: k in r ==> r[k] == m[k]
  {
    m - {PdfTaskIdKey, PdfProcessingKey}
  }

  /** Whether the Celery task the context reports on is still running as far as the page can tell. */
  predicate StillRunning(poll: Poll) {
    poll.PollRaised? || poll.state == Pending || poll.state == Progress
  }

  /**
   * `_get_pdf_progress_context`, given what `AsyncResult(pdf_task_id)` reports. A task still
   * running (or that cannot be asked about) is shown as processing and kept; a finished one
   * is shown as ready or failed and both PDF keys are removed.
   */
  function PdfProgressOutcome(m: map<string, Value>, poll: Poll): (r: Step<PdfProgressContext>)
    ensures !Truthy(Get(m, PdfTaskIdKey, Null)) ==> r == Step(IdleProgress, m)
    ensures Truthy(Get(m, PdfTaskIdKey, Null)) ==>
              && (r.result.processing <==> StillRunning(poll))
              && r.session == (if StillRunning(poll) then m else WithoutPdfState(m))
    ensures poll.PollRaised? && Truthy(Get(m, PdfTaskIdKey, Null)) ==>
              r.result == PdfProgressContext(true, Int(50), Str("Processing..."), Null)
    ensures poll.Polled? && Truthy(Get(m, PdfTaskIdKey, Null)) ==>
              r.result ==
                match poll.state
                case Pending => PdfProgressContext(true, Int(0), Str("Starting PDF generation..."), Null)
                case Progress =>
                  PdfProgressContext(true, Get(poll.result, "current", Int(0)), Get(poll.result, "status", Str("Processing...")), Null)
                case Success =>
                  if Get(poll.result, "status", Null) == Str("success")
                  then IdleProgress.(downloadUrl := Get(poll.result, "download_url", Null))
                  else IdleProgress.(status := Str("PDF generation failed"))
                case _ => IdleProgress.(status := Str("PDF generation failed"))
  {
    if !Truthy(Get(m, PdfTaskIdKey, Null)) then Step(IdleProgress, m)
    else
      match poll
      case PollRaised(_) => Step(PdfProgressContext(true, Int(50), Str("Processing..."), Null), m)
      case Polled(state, result) =>
        if state == Success then
          if Get(result, "status", Null) == Str("success") then
            Step(IdleProgress.(downloadUrl := Get(result, "download_url", Null)), WithoutPdfState(m))
          else
            Step(IdleProgress.(status := Str("PDF generation failed")), WithoutPdfState(m))
        else if state == Pending then
          Step(PdfProgressContext(true, Int(0), Str("Starting PDF generation..."), Null), m)
        else if state == Progress then
          Step(PdfProgressContext(true, Get(result, "current", Int(0)), Get(result, "status", Str("Processing...")), Null), m)
        else
          Step(IdleProgress.(status := Str("PDF generation failed")), WithoutPdfState(m))
  }

  method GetPdfProgressContext(session: Session, poll: Poll) returns (ctx: PdfProgressContext)
    modifies session
    ensures Step(ctx, session.data) == PdfProgressOutcome(old(session.data), poll)
  {
    ctx := IdleProgress;
    if !Truthy(session.Lookup(PdfTaskIdKey, Null)) {
      return;
    }
    match poll
    case PollRaised(_) =>
      ctx := ctx.(processing := true, progress := Int(50), status := Str("Processing..."));
    case Polled(state, result) =>
      if state == Success {
        if Get(result, "status", Null) == Str("success") {
          ctx := ctx.(downloadUrl := Get(result, "download_url", Null));
        } else {
          ctx := ctx.(status := Str("PDF generation failed"));
        }
        var _ := session.Pop(PdfTaskIdKey, Null);
        var _ := session.Pop(PdfProcessingKey, Null);
      } else if state == Pending {
        ctx := ctx.(processing := true, progress := Int(0), status := Str("Starting PDF generation..."));
      } else if state == Progress {
        ctx := ctx.(processing := true, progress := Get(result, "current", Int(0)),
                    status := Get(result, "status", Str("Processing...")));
      } else {
        ctx := ctx.(status := Str("PDF generation failed"));
        var _ := session.Pop(PdfTaskIdKey, Null);
        var _ := session.Pop(PdfProcessingKey, Null);
      }
  }

  /** Once a task has been reported finished, later page views report nothing, whatever is polled. */
  lemma FinishedTaskReportedOnce(m: map<string, Value>, poll: Poll, later: Poll)
    requires !PdfProgressOutcome(m, poll).result.processing
    ensures var s := PdfProgressOutcome(m, poll).session;
            PdfProgressOutcome(s, later) == Step(IdleProgress, s)
  {
  }

  /**
   * The page and `PDFService.check_pdf_status` read a PROGRESS task differently: the page
   * shows it as running, the service reports it as failed.
   */
  lemma ProgressReadDifferently(m: map<string, Value>, meta: map<string, Value>)
    requires Truthy(Get(m, PdfTaskIdKey, Null))
    ensures PdfProgressOutcome(m, Polled(Progress, meta)).result.processing
    ensures PdfService.CheckPdfStatus(Polled(Progress, meta)) == PdfService.PdfFailed("PDF generation failed")
  {
  }

  // ---------------------------------------------------------------------------------------
  // get_context_data
  // ---------------------------------------------------------------------------------------

  /**
   * What `get_context_data` adds to `DetailView`'s own context: the popped translation, the
   * analysis progress, the PDF progress and the values of the translation drop-down.
   */
  datatype PageContext = PageContext(
    translation: ViewHandlers.TranslationContext,
    analysis: AnalysisService.AnalysisContext,
    pdf: PdfProgressContext,
    languages: seq<string>)

  /**
   * What only this application writes under `cv_translations` and `analysis_last_check`: a
   * dictionary (or nothing falsy) and a number. The page reads both as such.
   */
  predicate SessionWellFormed(m: map<string, Value>) {
    ViewHandlers.TranslationsWellFormed(m) && AnalysisService.LastCheckIsNumber(m)
  }

  /** The translation and PDF keys lie outside the analysis keys, the poll timestamp and each other. */
  lemma PageKeysDistinct()
    ensures ViewHandlers.TranslationsKey !in AnalysisService.AnalysisKeys
    ensures PdfTaskIdKey !in AnalysisService.AnalysisKeys && PdfProcessingKey !in AnalysisService.AnalysisKeys
    ensures AnalysisService.LastCheckKey != ViewHandlers.TranslationsKey
    ensures AnalysisService.LastCheckKey != PdfTaskIdKey && AnalysisService.LastCheckKey != PdfProcessingKey
    ensures ViewHandlers.TranslationsKey != PdfTaskIdKey && ViewHandlers.TranslationsKey != PdfProcessingKey
  {
    assert ViewHandlers.TranslationsKey[0] == 'c' && PdfTaskIdKey[0] == 'p' && PdfProcessingKey[0] == 'p';
    assert forall k | k in AnalysisService.AnalysisKeys + {AnalysisService.LastCheckKey} :: k[0] == 'a';
  }

  /** The PDF keys, as the POST handlers leave them: none of them writes either. */
  predicate PdfKeysKept(m: map<string, Value>, s: map<string, Value>) {
    SameAt(s, m, PdfTaskIdKey) && SameAt(s, m, PdfProcessingKey)
  }

  /** The PDF keys after a render: both gone once the task is seen finished, untouched otherwise. */
  predicate PdfKeysAfterRender(m: map<string, Value>, s: map<string, Value>, poll: Poll) {
    if Truthy(Get(m, PdfTaskIdKey, Null)) && !StillRunning(poll)
    then PdfTaskIdKey !in s && PdfProcessingKey !in s
    else PdfKeysKept(m, s)
  }

  /**
   * `get_context_data` on session `m`, computing its parts in the source's order: the stored
   * translation is popped, then the analysis is polled at time `now`, then the PDF task is
   * checked. `analysisPoll` and `pdfPoll` are what the result backend reports for each task.
   */
  function ContextDataOutcome(m: map<string, Value>, now: real, analysisPoll: Poll, pdfPoll: Poll,
                              languages: seq<Enums.Member>): (r: Step<PageContext>)
    requires SessionWellFormed(m)
    // Each part is what it would be if computed alone on `m`: the three read disjoint keys.
    ensures r.result.translation == ViewHandlers.TranslationContextOutcome(m).result
    ensures r.result.analysis == AnalysisService.GetAnalysisContextOutcome(m, now, analysisPoll).result
    ensures r.result.pdf == PdfProgressOutcome(m, pdfPoll).result
    ensures r.result.languages == Enums.Values(languages)
    // The translation is shown once; the PDF keys go when the task is seen finished.
    ensures ViewHandlers.TranslationsKey !in r.session
    ensures PdfKeysAfterRender(m, r.session, pdfPoll)
    // With no analysis state, none appears.
    ensures AnalysisService.AnalysisKeys !! m.Keys ==> AnalysisService.AnalysisKeys !! r.session.Keys
    ensures SessionWellFormed(r.session)
  {
    PageKeysDistinct();
    var t := ViewHandlers.TranslationContextOutcome(m);
    AnalysisService.AnalysisContextIgnoresOtherKeys(m, ViewHandlers.TranslationsKey, now, analysisPoll);
    var a := AnalysisService.GetAnalysisContextOutcome(t.session, now, analysisPoll);
    AnalysisService.AnalysisContextFrame(t.session, now, analysisPoll);
    assert SameAt(a.session, t.session, PdfTaskIdKey) && SameAt(a.session, t.session, PdfProcessingKey);
    assert SameAt(a.session, t.session, ViewHandlers.TranslationsKey);
    var p := PdfProgressOutcome(a.session, pdfPoll);
    Step(PageContext(t.result, a.result, p.result, Enums.Values(languages)), p.session)
  }

  method GetContextData(session: Session, now: real, analysisPoll: Poll, pdfPoll: Poll,
                        languages: seq<Enums.Member>) returns (ctx: PageContext)
    requires SessionWellFormed(session.data)
    modifies session
    ensures Step(ctx, session.data) == ContextDataOutcome(old(session.data), now, analysisPoll, pdfPoll, languages)
  {
    PageKeysDistinct();
    var translation := ViewHandlers.GetTranslationContext(session);
    var analysis := AnalysisService.GetAnalysisContext(session, now, analysisPoll);
    var pdf := GetPdfProgressContext(session, pdfPoll);
    ctx := PageContext(translation, analysis, pdf, Enums.Values(languages));
  }

  /** A page showing no analysis state shows the empty analysis context. */
  lemma NoAnalysisStateShowsNothing(m: map<string, Value>, now: real, analysisPoll: Poll, pdfPoll: Poll,
                                    languages: seq<Enums.Member>)
    requires SessionWellFormed(m) && AnalysisService.AnalysisKeys !! m.Keys
    ensures ContextDataOutcome(m, now, analysisPoll, pdfPoll, languages).result.analysis == AnalysisService.EmptyContext
  {
    assert AnalysisService.CompleteKey !in m && AnalysisService.TaskIdKey !in m;
  }

  // ---------------------------------------------------------------------------------------
  // POST handling
  // ---------------------------------------------------------------------------------------

  /** A `messages.error` or `messages.success` entry. */
  datatype Message = ErrorMessage(text: string) | SuccessMessage(text: string)

  /**
   * What `post` answers: a redirect, an exception that propagates out of the view, or the
   * page rendered by `self.get` with the messages queued on the way.
   */
  datatype Response = Redirect(path: string) | Raised(message: string) | Rendered(messages: seq<Message>, context: PageContext)

  /**
   * `_handle_async_pdf_download_request`: the Celery task id and the processing flag are stored and
   * the browser is sent back to the page; if `.delay` raises, nothing is stored.
   */
  function AsyncPdfOutcome(m: map<string, Value>, enqueue: Enqueue, path: string): (r: Step<Response>)
    ensures enqueue.Queued? ==>
              && r.result == Redirect(path)
              && r.session.Keys == m.Keys + {PdfTaskIdKey, PdfProcessingKey}
              && r.session[PdfTaskIdKey] == Str(enqueue.taskId)
              && r.session[PdfProcessingKey] == Bool(true)
    ensures enqueue.EnqueueRaised? ==> r == Step(Raised(enqueue.message), m)
    ensures forall k :: k in m && k != PdfTaskIdKey && k != PdfProcessingKey ==> k in r.session && r.session[k] == m[k]
  {
    match enqueue
    case Queued(id) => Step(Redirect(path), m[PdfTaskIdKey := Str(id)][PdfProcessingKey := Bool(true)])
    case EnqueueRaised(msg) => Step(Raised(msg), m)
  }

  method HandleAsyncPdfDownloadRequest(session: Session, enqueue: Enqueue, path: string) returns (r: Response)
    modifies session
    ensures Step(r, session.data) == AsyncPdfOutcome(old(session.data), enqueue, path)
  {
    match enqueue
    case EnqueueRaised(msg) =>
      r := Raised(msg);
    case Queued(id) =>
      session.Set(PdfTaskIdKey, Str(id));
      session.Set(PdfProcessingKey, Bool(true));
      r := Redirect(path);
  }

  /** After the request, the page shows the queued task as starting and keeps it. */
  lemma AsyncRequestShowsStarting(m: map<string, Value>, id: string, path: string, result: map<string, Value>)
    requires id != ""
    ensures var s := AsyncPdfOutcome(m, Queued(id), path).session;
            PdfProgressOutcome(s, Polled(Pending, result))
              == Step(PdfProgressContext(true, Int(0), Str("Starting PDF generation..."), Null), s)
  {
  }

  /**
   * `PDFService.clear_pdf_session` removes only the Celery task id, so after an asynchronous request
   * it leaves the processing flag behind; the page's own clearing removes both.
   */
  lemma ServiceClearLeavesProcessingFlag(m: map<string, Value>, id: string, path: string)
    ensures var s := AsyncPdfOutcome(m, Queued(id), path).session;
            && PdfService.WithoutPdfTask(s)[PdfProcessingKey] == Bool(true)
            && PdfProcessingKey !in WithoutPdfState(s)
  {
  }

  /**
   * Everything `post` is handed besides the session and the form: the outcomes of the
   * three `.delay` calls and of the direct email send, the `Language` members, the
   * translation provider, and for the render the clock and what the result backend reports
   * for the analysis and the PDF tasks.
   */
  datatype PostInputs = PostInputs(
    pdfEnqueue: Enqueue,
    emailEnqueue: Enqueue,
    fallbackSent: bool,
    analysisEnqueue: Enqueue,
    languages: seq<Enums.Member>,
    translator: Services.TranslationProvider,
    now: real,
    analysisPoll: Poll,
    pdfPoll: Poll)

  /** The message `_handle_email_request` queues for a handler reply. */
  function ReplyMessage(reply: ViewHandlers.Reply): Message {
    match reply
    case ReplyOk(message) => SuccessMessage(message)
    case ReplyError(error) => ErrorMessage(error)
  }

  /** `_handle_email_request`: one message when the form has an `email` field. */
  function EmailMessages(form: map<string, string>, cvId: nat, inputs: PostInputs): (r: seq<Message>)
    ensures |r| == if "email" in form then 1 else 0
  {
    if "email" in form then
      [ReplyMessage(ViewHandlers.HandleEmailRequest(Some(form["email"]), inputs.emailEnqueue, inputs.fallbackSent).reply)]
    else []
  }

  /** The translation the form asks for, when it names a listed language. */
  function PostedTranslation(form: map<string, string>, cv: Cv, inputs: PostInputs): Option<map<string, Value>> {
    if "lang" in form then ViewHandlers.HandleTranslationRequest(form["lang"], inputs.languages, cv, inputs.translator)
    else None
  }

  /** A posted translation carries a `lang` entry and no `warning` entry. */
  lemma PostedTranslationShape(form: map<string, string>, cv: Cv, inputs: PostInputs)
    ensures var posted := PostedTranslation(form, cv, inputs);
            posted.Some? ==> "lang" in posted.value && "warning" !in posted.value
  {
    if "lang" in form {
      ViewHandlers.TranslationDictHasNoWarning(Strip(form["lang"]), cv, inputs.translator);
    }
  }

  /**
   * `_handle_translation_request`, given the `PostedTranslation`: a successful translation is
   * stored in the session, where the render at the end of the same request pops it.
   */
  function TranslationStep(m: map<string, Value>, posted: Option<map<string, Value>>): (r: map<string, Value>)
    ensures posted.Some? ==> ViewHandlers.TranslationsKey in r && r[ViewHandlers.TranslationsKey] == Dict(posted.value)
    ensures posted.None? ==> r == m
    ensures forall k :: k != ViewHandlers.TranslationsKey ==> SameAt(r, m, k)
    ensures ViewHandlers.TranslationsWellFormed(m) ==> ViewHandlers.TranslationsWellFormed(r)
  {
    match posted
    case None => m
    case Some(t) =>
      StoreTranslationFrame(m, t);
      m[ViewHandlers.TranslationsKey := Dict(t)]
  }

  /** Storing a translation dictionary changes `cv_translations` alone and keeps it a dictionary. */
  lemma StoreTranslationFrame(m: map<string, Value>, t: map<string, Value>)
    ensures var r := m[ViewHandlers.TranslationsKey := Dict(t)];
            (forall k :: k != ViewHandlers.TranslationsKey ==> SameAt(r, m, k)) && ViewHandlers.TranslationsWellFormed(r)
  {
  }

  /** `_handle_analysis_request`: its error, if any, becomes a message. */
  function AnalysisStep(m: map<string, Value>, form: map<string, string>, inputs: PostInputs): (r: Step<seq<Message>>)
    ensures "start_analysis" !in form ==> r == Step([], m)
    ensures |r.result| <= 1
  {
    if "start_analysis" !in form then Step([], m)
    else
      var question := if "analysis_question" in form then form["analysis_question"] else "";
      var s := ViewHandlers.HandleAnalysisRequestOutcome(m, question, inputs.analysisEnqueue);
      Step(if s.result.StartError? then [ErrorMessage(s.result.error)] else [], s.session)
  }

  /** `_handle_clear_analysis_request`. */
  function ClearStep(m: map<string, Value>, form: map<string, string>): (r: map<string, Value>)
    ensures "clear_analysis" in form ==> AnalysisService.AnalysisKeys !! r.Keys
    ensures "clear_analysis" !in form ==> r == m
    ensures forall k :: k !in AnalysisService.AnalysisKeys ==> SameAt(r, m, k)
  {
    if "clear_analysis" in form then AnalysisService.WithoutAnalysis(m) else m
  }

  /** The analysis handler changes only the analysis keys. */
  lemma AnalysisStepFrame(m: map<string, Value>, form: map<string, string>, inputs: PostInputs)
    ensures var s := AnalysisStep(m, form, inputs).session;
            forall k :: k !in AnalysisService.AnalysisKeys ==> SameAt(s, m, k)
  {
    if "start_analysis" in form {
      var question := if "analysis_question" in form then form["analysis_question"] else "";
      HandledStartFrame(m, question, inputs.analysisEnqueue);
    }
  }

  /** `handle_analysis_request` changes only the analysis keys, whatever it answers. */
  lemma HandledStartFrame(m: map<string, Value>, question: string, enqueue: Enqueue)
    ensures var s := ViewHandlers.HandleAnalysisRequestOutcome(m, question, enqueue).session;
            forall k :: k !in AnalysisService.AnalysisKeys ==> SameAt(s, m, k)
  {
    var st := ViewHandlers.HandleAnalysisRequestOutcome(m, question, enqueue);
    if st.result.StartOk? {
      var q := Strip(question);
      assert st.session == AnalysisService.WithTaskInfo(m, st.result.taskId, q);
      TaskInfoFrame(m, st.result.taskId, q);
    } else {
      assert st.session == m;
    }
  }

  /** Recording a started task leaves every key outside the analysis keys as it was. */
  lemma TaskInfoFrame(m: map<string, Value>, id: string, q: string)
    ensures var t := AnalysisService.WithTaskInfo(m, id, q);
            forall k :: k !in AnalysisService.AnalysisKeys ==> SameAt(t, m, k)
  {
    var t := AnalysisService.WithTaskInfo(m, id, q);
    forall k | k !in AnalysisService.AnalysisKeys
      ensures SameAt(t, m, k)
    {
      assert k != AnalysisService.TaskIdKey && k != AnalysisService.QuestionKey;
      assert k != AnalysisService.ProcessingKey;
    }
  }

  /**
   * The email, translation, analysis and clearing handlers, run in that order: the messages
   * they queue and the session they leave for the render.
   */
  function HandlersOutcome(m: map<string, Value>, form: map<string, string>, posted: Option<map<string, Value>>,
                           cvId: nat, inputs: PostInputs): (r: Step<seq<Message>>)
    ensures |r.result| <= 2
    ensures PdfKeysKept(m, r.session)
    ensures posted.Some? ==> Get(r.session, ViewHandlers.TranslationsKey, Null) == Dict(posted.value)
    ensures posted.None? ==> SameAt(r.session, m, ViewHandlers.TranslationsKey)
    ensures "clear_analysis" in form ==> AnalysisService.AnalysisKeys !! r.session.Keys
    ensures SessionWellFormed(m) ==> SessionWellFormed(r.session)
  {
    var emails := EmailMessages(form, cvId, inputs);
    var translated := TranslationStep(m, posted);
    var analysed := AnalysisStep(translated, form, inputs);
    var cleared := ClearStep(analysed.session, form);
    AfterTranslationFrame(translated, form, inputs);
    HandlersKeepPageKeys(m, translated, cleared);
    Step(emails + analysed.result, cleared)
  }

  /**
   * A step that changes only `cv_translations`, keeping it well formed, followed by steps that
   * change only the analysis keys, keeps the PDF keys and the poll timestamp.
   */
  lemma HandlersKeepPageKeys(m: map<string, Value>, translated: map<string, Value>, cleared: map<string, Value>)
    requires forall k :: k != ViewHandlers.TranslationsKey ==> SameAt(translated, m, k)
    requires ViewHandlers.TranslationsWellFormed(m) ==> ViewHandlers.TranslationsWellFormed(translated)
    requires forall k :: k !in AnalysisService.AnalysisKeys ==> SameAt(cleared, translated, k)
    ensures PdfKeysKept(m, cleared)
    ensures SameAt(cleared, translated, ViewHandlers.TranslationsKey)
    ensures SessionWellFormed(m) ==> SessionWellFormed(cleared)
  {
    PageKeysDistinct();
    assert SameAt(translated, m, AnalysisService.LastCheckKey) && SameAt(cleared, translated, AnalysisService.LastCheckKey);
    assert SameAt(translated, m, PdfTaskIdKey) && SameAt(cleared, translated, PdfTaskIdKey);
    assert SameAt(translated, m, PdfProcessingKey) && SameAt(cleared, translated, PdfProcessingKey);
  }

  /** After the translation step, the analysis and clearing handlers change only the analysis keys. */
  lemma AfterTranslationFrame(t: map<string, Value>, form: map<string, string>, inputs: PostInputs)
    ensures var cleared := ClearStep(AnalysisStep(t, form, inputs).session, form);
            forall k :: k !in AnalysisService.AnalysisKeys ==> SameAt(cleared, t, k)
  {
    AnalysisStepFrame(t, form, inputs);
  }

  /**
   * The translation a re-rendered page shows: the one posted with the form, whose dictionary
   * has no warning entry, or else the one stored before.
   */
  function ShownTranslation(m: map<string, Value>, posted: Option<map<string, Value>>): ViewHandlers.TranslationContext
    requires ViewHandlers.TranslationsWellFormed(m)
  {
    match posted
    case Some(t) => ViewHandlers.Translated(Dict(t), Str(""))
    case None => ViewHandlers.TranslationContextOutcome(m).result
  }

  /**
   * `post`, for a form given as the fields present with the value `request.POST.get` gives
   * for each. An asynchronous download request is handled alone; otherwise the handlers run
   * and `self.get` renders the page with their messages. Only the render reads the session as
   * the application keeps it, so only then is that required.
   */
  function PostOutcome(m: map<string, Value>, form: map<string, string>, cv: Cv, path: string, inputs: PostInputs)
    : (r: Step<Response>)
    requires "download_pdf_async" !in form ==> SessionWellFormed(m)
    ensures "download_pdf_async" in form ==>
              && !r.result.Rendered?
              && forall k :: k in m && k != PdfTaskIdKey && k != PdfProcessingKey ==> k in r.session && r.session[k] == m[k]
    ensures "download_pdf_async" !in form ==>
              && r.result.Rendered?
              && |r.result.messages| <= 2
              && ViewHandlers.TranslationsKey !in r.session
              && SessionWellFormed(r.session)
    // No handler touches the PDF task: the page reports on it as a plain view would.
    ensures "download_pdf_async" !in form ==>
              && r.result.context.pdf == PdfProgressOutcome(m, inputs.pdfPoll).result
              && PdfKeysAfterRender(m, r.session, inputs.pdfPoll)
    // A translation posted with the form is shown in this same response, with no warning;
    // otherwise the one stored before, if any, is.
    ensures "download_pdf_async" !in form ==>
              r.result.context.translation == ShownTranslation(m, PostedTranslation(form, cv, inputs))
    // Clearing shows an empty analysis and leaves no analysis key behind.
    ensures "download_pdf_async" !in form && "clear_analysis" in form ==>
              && r.result.context.analysis == AnalysisService.EmptyContext
              && AnalysisService.AnalysisKeys !! r.session.Keys
  {
    if "download_pdf_async" in form then AsyncPdfOutcome(m, inputs.pdfEnqueue, path)
    else
      var posted := PostedTranslation(form, cv, inputs);
      PostedTranslationShape(form, cv, inputs);
      var handled := HandlersOutcome(m, form, posted, cv.id, inputs);
      var page := ContextDataOutcome(handled.session, inputs.now, inputs.analysisPoll, inputs.pdfPoll, inputs.languages);
      PostRenderFacts(m, form, posted, cv.id, inputs);
      Step(Rendered(handled.result, page.result), page.session)
  }

  /** What the render shows of the handlers' session, in terms of the session `post` was given. */
  lemma PostRenderFacts(m: map<string, Value>, form: map<string, string>, posted: Option<map<string, Value>>,
                        cvId: nat, inputs: PostInputs)
    requires SessionWellFormed(m)
    requires posted.Some? ==> "lang" in posted.value && "warning" !in posted.value
    ensures var handled := HandlersOutcome(m, form, posted, cvId, inputs).session;
            var page := ContextDataOutcome(handled, inputs.now, inputs.analysisPoll, inputs.pdfPoll, inputs.languages);
            && page.result.pdf == PdfProgressOutcome(m, inputs.pdfPoll).result
            && PdfKeysAfterRender(m, page.session, inputs.pdfPoll)
            && page.result.translation == ShownTranslation(m, posted)
            && ("clear_analysis" in form ==> page.result.analysis == AnalysisService.EmptyContext)
  {
    var handled := HandlersOutcome(m, form, posted, cvId, inputs).session;
    RenderKeepsPdfReport(m, handled, inputs.now, inputs.analysisPoll, inputs.pdfPoll, inputs.languages);
    RenderShowsTranslation(m, handled, posted, inputs.now, inputs.analysisPoll, inputs.pdfPoll, inputs.languages);
    if "clear_analysis" in form {
      NoAnalysisStateShowsNothing(handled, inputs.now, inputs.analysisPoll, inputs.pdfPoll, inputs.languages);
    }
  }

  /** A render after steps that kept the PDF keys reports on the PDF task as a render of `m` would. */
  lemma RenderKeepsPdfReport(m: map<string, Value>, handled: map<string, Value>, now: real, analysisPoll: Poll,
                             pdfPoll: Poll, languages: seq<Enums.Member>)
    requires SessionWellFormed(handled) && PdfKeysKept(m, handled)
    ensures var page := ContextDataOutcome(handled, now, analysisPoll, pdfPoll, languages);
            page.result.pdf == PdfProgressOutcome(m, pdfPoll).result && PdfKeysAfterRender(m, page.session, pdfPoll)
  {
    assert Get(handled, PdfTaskIdKey, Null) == Get(m, PdfTaskIdKey, Null);
  }

  /** A render shows the translation the handlers stored, or the one `m` held when they stored none. */
  lemma RenderShowsTranslation(m: map<string, Value>, handled: map<string, Value>, posted: Option<map<string, Value>>,
                               now: real, analysisPoll: Poll, pdfPoll: Poll, languages: seq<Enums.Member>)
    requires SessionWellFormed(m) && SessionWellFormed(handled)
    requires posted.Some? ==> "lang" in posted.value && "warning" !in posted.value
    requires posted.Some? ==> Get(handled, ViewHandlers.TranslationsKey, Null) == Dict(posted.value)
    requires posted.None? ==> SameAt(handled, m, ViewHandlers.TranslationsKey)
    ensures ContextDataOutcome(handled, now, analysisPoll, pdfPoll, languages).result.translation == ShownTranslation(m, posted)
  {
    match posted
    case Some(t) =>
      assert Truthy(Dict(t)) && Get(t, "warning", Str("")) == Str("");
    case None =>
      assert Get(handled, ViewHandlers.TranslationsKey, Null) == Get(m, ViewHandlers.TranslationsKey, Null);
  }

  /**
   * Once an analysis is stored the processing flag is gone, so a new question is accepted and
   * its Celery task recorded; yet without clearing, the page rendered by the same request still
   * shows the stored answer, and `get_analysis_context` never polls the new task while it stays.
   */
  lemma StoredAnswerHidesNewQuestion(m: map<string, Value>, form: map<string, string>, cv: Cv, path: string,
                                     inputs: PostInputs)
    requires SessionWellFormed(m)
    requires "download_pdf_async" !in form && "clear_analysis" !in form && "start_analysis" in form
    requires "analysis_question" in form && Strip(form["analysis_question"]) != ""
    requires inputs.analysisEnqueue.Queued?
    requires Truthy(Get(m, AnalysisService.CompleteKey, Null)) && !Truthy(Get(m, AnalysisService.ProcessingKey, Null))
    ensures var r := PostOutcome(m, form, cv, path, inputs);
            && r.result.messages == EmailMessages(form, cv.id, inputs)
            && Get(r.session, AnalysisService.TaskIdKey, Null) == Str(inputs.analysisEnqueue.taskId)
            && r.result.context.analysis == AnalysisService.EmptyContext.(complete := m[AnalysisService.CompleteKey])
  {
    var started := AcceptedStartHandlers(m, form, PostedTranslation(form, cv, inputs), cv.id, inputs);
    StoredAnswerRender(started, inputs.now, inputs.analysisPoll, inputs.pdfPoll, inputs.languages, inputs.analysisEnqueue.taskId);
  }

  /** The render's part of `StoredAnswerHidesNewQuestion`: the stored answer is shown and the new task kept. */
  lemma StoredAnswerRender(s: map<string, Value>, now: real, analysisPoll: Poll, pdfPoll: Poll,
                           languages: seq<Enums.Member>, id: string)
    requires SessionWellFormed(s)
    requires AnalysisService.TaskIdKey in s && s[AnalysisService.TaskIdKey] == Str(id)
    requires AnalysisService.CompleteKey in s && Truthy(s[AnalysisService.CompleteKey])
    ensures var page := ContextDataOutcome(s, now, analysisPoll, pdfPoll, languages);
            && page.result.analysis == AnalysisService.EmptyContext.(complete := s[AnalysisService.CompleteKey])
            && Get(page.session, AnalysisService.TaskIdKey, Null) == Str(id)
  {
    PageKeysDistinct();
    AnalysisService.KeysDistinct();
    var popped := s - {ViewHandlers.TranslationsKey};
    AnalysisService.AnalysisContextIgnoresOtherKeys(s, ViewHandlers.TranslationsKey, now, analysisPoll);
    assert popped[AnalysisService.CompleteKey] == s[AnalysisService.CompleteKey];
    AnalysisService.CompletedIsShownWithoutPolling(popped, now, analysisPoll);
    assert Get(PdfProgressOutcome(popped, pdfPoll).session, AnalysisService.TaskIdKey, Null) == Str(id);
  }

  /** The handlers' part of `StoredAnswerHidesNewQuestion`: the start is accepted and nothing is queued. */
  lemma AcceptedStartHandlers(m: map<string, Value>, form: map<string, string>, posted: Option<map<string, Value>>,
                              cvId: nat, inputs: PostInputs)
    returns (started: map<string, Value>)
    requires SessionWellFormed(m)
    requires "clear_analysis" !in form && "start_analysis" in form
    requires "analysis_question" in form && Strip(form["analysis_question"]) != ""
    requires inputs.analysisEnqueue.Queued?
    requires Truthy(Get(m, AnalysisService.CompleteKey, Null)) && !Truthy(Get(m, AnalysisService.ProcessingKey, Null))
    ensures HandlersOutcome(m, form, posted, cvId, inputs) == Step(EmailMessages(form, cvId, inputs), started)
    ensures SessionWellFormed(started)
    ensures AnalysisService.TaskIdKey in started && started[AnalysisService.TaskIdKey] == Str(inputs.analysisEnqueue.taskId)
    ensures AnalysisService.CompleteKey in started && started[AnalysisService.CompleteKey] == m[AnalysisService.CompleteKey]
  {
    var translated := TranslationStep(m, posted);
    TranslationKeepsAnalysisKeys(m, posted);
    started := AcceptedStartStep(translated, form, inputs);
    HandlersWithoutClear(m, form, posted, cvId, inputs);
    var emails := EmailMessages(form, cvId, inputs);
    assert emails + [] == emails;
  }

  /** Without `clear_analysis`, the handlers leave the session as the analysis handler left it. */
  lemma HandlersWithoutClear(m: map<string, Value>, form: map<string, string>, posted: Option<map<string, Value>>,
                             cvId: nat, inputs: PostInputs)
    requires "clear_analysis" !in form
    ensures var analysed := AnalysisStep(TranslationStep(m, posted), form, inputs);
            HandlersOutcome(m, form, posted, cvId, inputs) == Step(EmailMessages(form, cvId, inputs) + analysed.result, analysed.session)
  {
  }

  /** Storing a translation leaves the analysis keys as they were. */
  lemma TranslationKeepsAnalysisKeys(m: map<string, Value>, posted: Option<map<string, Value>>)
    ensures var translated := TranslationStep(m, posted);
            SameAt(translated, m, AnalysisService.CompleteKey) && SameAt(translated, m, AnalysisService.ProcessingKey)
  {
    assert ViewHandlers.TranslationsKey[0] == 'c';
    assert AnalysisService.CompleteKey[0] == 'a' && AnalysisService.ProcessingKey[0] == 'a';
  }

  /** A non-blank question with no analysis running is accepted without a message. */
  lemma AcceptedStartStep(m: map<string, Value>, form: map<string, string>, inputs: PostInputs)
    returns (started: map<string, Value>)
    requires "start_analysis" in form && "analysis_question" in form && Strip(form["analysis_question"]) != ""
    requires inputs.analysisEnqueue.Queued? && !Truthy(Get(m, AnalysisService.ProcessingKey, Null))
    ensures AnalysisStep(m, form, inputs) == Step([], started)
    ensures started == AnalysisService.WithTaskInfo(m, inputs.analysisEnqueue.taskId, Strip(form["analysis_question"]))
    ensures SameAt(started, m, AnalysisService.CompleteKey)
  {
    StripIdempotent(form["analysis_question"]);
    started := AnalysisService.WithTaskInfo(m, inputs.analysisEnqueue.taskId, Strip(form["analysis_question"]));
    AnalysisService.KeysDistinct();
  }

  method HandleTranslationRequest(session: Session, form: map<string, string>, cv: Cv, inputs: PostInputs)
    modifies session
    ensures session.data == TranslationStep(old(session.data), PostedTranslation(form, cv, inputs))
  {
    if "lang" in form {
      var t := ViewHandlers.HandleTranslationRequest(form["lang"], inputs.languages, cv, inputs.translator);
      assert t == PostedTranslation(form, cv, inputs);
      if t.Some? {
        session.Set(ViewHandlers.TranslationsKey, Dict(t.value));
      }
    }
  }

  method HandleAnalysisRequest(session: Session, form: map<string, string>, inputs: PostInputs)
    returns (messages: seq<Message>)
    modifies session
    ensures Step(messages, session.data) == AnalysisStep(old(session.data), form, inputs)
  {
    messages := [];
    if "start_analysis" in form {
      var question := if "analysis_question" in form then form["analysis_question"] else "";
      var started := ViewHandlers.HandleAnalysisRequest(session, question, inputs.analysisEnqueue);
      if started.StartError? {
        messages := [ErrorMessage(started.error)];
      }
    }
  }

  method HandleClearAnalysisRequest(session: Session, form: map<string, string>)
    modifies session
    ensures session.data == ClearStep(old(session.data), form)
  {
    if "clear_analysis" in form {
      var _ := AnalysisService.ClearAnalysis(session);
    }
  }

  method Post(session: Session, form: map<string, string>, cv: Cv, path: string, inputs: PostInputs)
    returns (r: Response)
    requires "download_pdf_async" !in form ==> SessionWellFormed(session.data)
    modifies session
    ensures Step(r, session.data) == PostOutcome(old(session.data), form, cv, path, inputs)
  {
    if "download_pdf_async" in form {
      r := HandleAsyncPdfDownloadRequest(session, inputs.pdfEnqueue, path);
      return;
    }
    ghost var handled := HandlersOutcome(session.data, form, PostedTranslation(form, cv, inputs), cv.id, inputs);
    var emails := EmailMessages(form, cv.id, inputs);
    HandleTranslationRequest(session, form, cv, inputs);
    var analysisMessages := HandleAnalysisRequest(session, form, inputs);
    HandleClearAnalysisRequest(session, form);
    assert Step(emails + analysisMessages, session.data) == handled;
    var context := GetContextData(session, inputs.now, inputs.analysisPoll, inputs.pdfPoll, inputs.languages);
    r := Rendered(emails + analysisMessages, context);
  }

  // ---------------------------------------------------------------------------------------
  // CVUpdateView.get_queryset / CVDeleteView.get_queryset
  // ---------------------------------------------------------------------------------------

  /** Whether `user` may edit or delete `cv`. */
  predicate MayEdit(user: User, cv: Cv) {
    user.isSuperuser || cv.ownerId == user.id
  }

  /**
   * The CVs an update or delete may act on, in the order given: all of them for a
   * superuser, otherwise those the user owns. Both views require a logged-in user.
   */
  function EditableCvs(user: User, cvs: seq<Cv>): (r: seq<Cv>)
    requires user.isAuthenticated && user.id.Some?
    ensures user.isSuperuser ==> r == cvs
    ensures forall c :: c in r <==> c in cvs && MayEdit(user, c)
    ensures forall c :: multiset(r)[c] == if MayEdit(user, c) then multiset(cvs)[c] else 0
    ensures Seqs.SubsequenceOf(r, cvs)
  {
    var editable := (c: Cv) => MayEdit(user, c);
    if user.isSuperuser then
      Seqs.FilterAllPass(cvs, editable);
      Seqs.Filter(cvs, editable)
    else Seqs.Filter(cvs, editable)
  }

  /** A CV whose owner was deleted can be edited by superusers only. */
  lemma OwnerlessCvOnlyForSuperusers(user: User, cvs: seq<Cv>, cv: Cv)
    requires user.isAuthenticated && user.id.Some?
    requires cv in cvs && cv.ownerId.None?
    ensures cv in EditableCvs(user, cvs) <==> user.isSuperuser
  {
  }
}
