/**
 * `AnalysisService` (celery_tasks/services/analysis_service.py): starting an AI analysis task,
 * polling it and keeping its progress in the session under five keys.
 *
 * Each operation is given twice: as an outcome function from the old session map to the result
 * and the new map, and as a method that performs the same writes and pops on a `Session`, step by
 * step, proved equal to that function.
 */
module AnalysisService {
  import opened Wrappers
  import opened Text
  import opened Sessions
  import opened Celery

  const TaskIdKey := "analysis_task_id"
  const QuestionKey := "analysis_question"
  const ProcessingKey := "analysis_processing"
  const CompleteKey := "analysis_complete"
  const LastCheckKey := "analysis_last_check"

  /** The keys `_clear_analysis_session` removes (the poll timestamp is not among them). */
  const AnalysisKeys: set<string> := {TaskIdKey, QuestionKey, ProcessingKey, CompleteKey}

  /** The five session keys differ from each other (they differ at their tenth character). */
  lemma KeysDistinct()
    ensures TaskIdKey != QuestionKey && TaskIdKey != ProcessingKey && TaskIdKey != CompleteKey
    ensures QuestionKey != ProcessingKey && QuestionKey != CompleteKey && ProcessingKey != CompleteKey
    ensures LastCheckKey != TaskIdKey && LastCheckKey != QuestionKey
    ensures LastCheckKey != ProcessingKey && LastCheckKey != CompleteKey
  {
    assert TaskIdKey[9] == 't' && QuestionKey[9] == 'q' && ProcessingKey[9] == 'p';
    assert CompleteKey[9] == 'c' && LastCheckKey[9] == 'l';
  }

  /** Seconds that must pass between two polls of the result backend. */
  const Cooldown: real := 2.0

  /** `{'success': True, 'task_id': id}` or `{'error': msg}`. */
  datatype StartResult = StartOk(taskId: string) | StartError(error: string)

  /** The four dictionary shapes `check_analysis_status` returns. */
  datatype StatusResult =
    | StatusPending(message: string)
    | StatusSuccess(analysis: Value, question: Value, isEnabled: Value)
    | StatusFailed(message: string)
    | StatusError(error: string)

  /**
   * The dictionary `get_analysis_context` returns; `error` is `analysis_error`, a key present only
   * when a poll saw the Celery task fail.
   */
  datatype AnalysisContext = AnalysisContext(
    warning: string,
    complete: Value,
    processing: bool,
    question: Value,
    error: Option<string>)

  /** What `_handle_pending_task` returns to be merged into the context. */
  datatype PendingUpdate =
    | StillProcessing(question: Value)
    | Completed(data: Value)
    | Failed(error: string)

  /** The context before any poll: nothing complete, nothing processing. */
  const EmptyContext := AnalysisContext("", Null, false, Str(""), None)

  /** Values the poll timestamp may hold: Python compares ints, floats and bools with floats. */
  predicate IsNumber(v: Value) {
    v.Int? || v.Float? || v.Bool?
  }

  function AsReal(v: Value): real
    requires IsNumber(v)
  {
    match v
    case Int(i) => i as real
    case Float(f) => f
    case Bool(b) => if b then 1.0 else 0.0
  }

  /** The session keeps a number (or nothing) under the poll timestamp key; only this service writes it. */
  predicate LastCheckIsNumber(m: map<string, Value>) {
    LastCheckKey in m ==> IsNumber(m[LastCheckKey])
  }

  /** `session.get('analysis_last_check', 0)`. */
  function LastCheck(m: map<string, Value>): real
    requires LastCheckIsNumber(m)
  {
    if LastCheckKey in m then AsReal(m[LastCheckKey]) else 0.0
  }

  /** The question remembered in the session, `''` when there is none. */
  function StoredQuestion(m: map<string, Value>): Value {
    Get(m, QuestionKey, Str(""))
  }

  /** `_store_task_info`: the map after recording a started task. */
  function WithTaskInfo(m: map<string, Value>, taskId: string, question: string): (r: map<string, Value>)
    ensures r.Keys == m.Keys + {TaskIdKey, QuestionKey, ProcessingKey}
    ensures r[TaskIdKey] == Str(taskId) && r[QuestionKey] == Str(question) && r[ProcessingKey] == Bool(true)
    ensures forall k :: k in m && k != TaskIdKey && k != QuestionKey && k != ProcessingKey ==> r[k] == m[k]
  {
    m[TaskIdKey := Str(taskId)][QuestionKey := Str(question)][ProcessingKey := Bool(true)]
  }

  /**
   * The `analysis_complete` entry built from a SUCCESS payload: the question comes from the
   * session, the answer and the flag from the payload; a missing payload key raises `KeyError`.
   */
  function CompletedData(m: map<string, Value>, result: map<string, Value>): (r: Result<Value, string>)
    ensures r.Ok? <==> "analysis" in result && "is_enabled" in result
    ensures r.Ok? ==> r.value == Dict(map[
      "question" := StoredQuestion(m), "analysis" := result["analysis"], "is_enabled" := result["is_enabled"]])
  {
    if "analysis" !in result then Err(KeyErrorMessage("analysis"))
    else if "is_enabled" !in result then Err(KeyErrorMessage("is_enabled"))
    else Ok(Dict(map[
      "question" := StoredQuestion(m), "analysis" := result["analysis"], "is_enabled" := result["is_enabled"]]))
  }

  /** `_store_completed_analysis` after the entry was built: the map with the result stored. */
  function WithCompletedAnalysis(m: map<string, Value>, data: Value): (r: map<string, Value>)
    ensures r.Keys == (m.Keys + {CompleteKey}) - {TaskIdKey, ProcessingKey}
    ensures r[CompleteKey] == data
    ensures forall k :: k in m && k != CompleteKey && k != TaskIdKey && k != ProcessingKey ==> r[k] == m[k]
  {
    m[CompleteKey := data] - {TaskIdKey, ProcessingKey}
  }

  /** `_clear_analysis_session`: the map without the four analysis keys. */
  function WithoutAnalysis(m: map<string, Value>): (r: map<string, Value>)
    ensures r.Keys == m.Keys - AnalysisKeys
    ensures forall k :: k in r ==> r[k] == m[k]
  {
    m - AnalysisKeys
  }

  /** `start_analysis`. */
  function StartAnalysisOutcome(m: map<string, Value>, question: string, enqueue: Enqueue): (r: Step<StartResult>)
    ensures r.result.StartOk? <==> Strip(question) != "" && !Truthy(Get(m, ProcessingKey, Null)) && enqueue.Queued?
    ensures r.result.StartOk? ==> r.result.taskId == enqueue.taskId && r.session == WithTaskInfo(m, enqueue.taskId, question)
    ensures r.result.StartError? ==> r.session == m
  {
    if Strip(question) == "" then Step(StartError("Question is required"), m)
    else if Truthy(Get(m, ProcessingKey, Null)) then Step(StartError("Analysis already in progress"), m)
    else
      match enqueue
      case Queued(id) => Step(StartOk(id), WithTaskInfo(m, id, question))
      case EnqueueRaised(msg) => Step(StartError(msg), m)
  }

  /** `check_analysis_status`. */
  function CheckAnalysisStatusOutcome(m: map<string, Value>, poll: Poll): (r: Step<StatusResult>)
    // Only the four analysis keys ever change, and the only one ever added is the completed result.
    ensures forall k :: k !in AnalysisKeys ==> (k in r.session <==> k in m) && (k in m ==> r.session[k] == m[k])
    ensures r.session.Keys <= m.Keys + {CompleteKey}
    // A report of success always comes with the result stored and the Celery task forgotten.
    ensures r.result.StatusSuccess? ==> CompleteKey in r.session && TaskIdKey !in r.session && ProcessingKey !in r.session
    ensures r.result.StatusPending? ==> r.session == m
    // Which reply each poll gives.
    ensures poll.PollRaised? ==> r == Step(StatusError(poll.message), m)
    ensures poll.Polled? && poll.state == Pending ==> r == Step(StatusPending("Analysis in progress..."), m)
    ensures poll.Polled? && poll.state != Pending && poll.state != Success ==>
              r == Step(StatusFailed("Analysis failed"), WithoutAnalysis(m))
    ensures r.result.StatusSuccess? <==>
              poll.Polled? && poll.state == Success && CompletedData(m, poll.result).Ok? && "question" in poll.result
    ensures r.result.StatusSuccess? ==>
              && r.session == WithCompletedAnalysis(m, CompletedData(m, poll.result).value)
              && r.result == StatusSuccess(poll.result["analysis"], poll.result["question"], poll.result["is_enabled"])
    // A payload without the answer leaves the session as it was; one without the question does not.
    ensures poll.Polled? && poll.state == Success && CompletedData(m, poll.result).Err? ==>
              r == Step(StatusError(CompletedData(m, poll.result).error), m)
    ensures poll.Polled? && poll.state == Success && CompletedData(m, poll.result).Ok? && "question" !in poll.result ==>
              r == Step(StatusError(KeyErrorMessage("question")), WithCompletedAnalysis(m, CompletedData(m, poll.result).value))
  {
    match poll
    case PollRaised(msg) => Step(StatusError(msg), m)
    case Polled(state, result) =>
      if state == Pending then Step(StatusPending("Analysis in progress..."), m)
      else if state == Success then
        match CompletedData(m, result)
        case Err(e) => Step(StatusError(e), m)
        case Ok(data) =>
          var stored := WithCompletedAnalysis(m, data);
          // The reply reads `result['question']` only after the session was written.
          if "question" !in result then Step(StatusError(KeyErrorMessage("question")), stored)
          else Step(StatusSuccess(result["analysis"], result["question"], result["is_enabled"]), stored)
      else Step(StatusFailed("Analysis failed"), WithoutAnalysis(m))
  }

  /** `_handle_pending_task`: every exception, however raised, reads as "still processing". */
  function HandlePendingTaskOutcome(m: map<string, Value>, poll: Poll): (r: Step<PendingUpdate>)
    ensures r.result.StillProcessing? ==> r.session == m && r.result.question == StoredQuestion(m)
    ensures r.result.Completed? ==> r.session == WithCompletedAnalysis(m, r.result.data)
    ensures r.result.Failed? ==> r.session == WithoutAnalysis(m)
    // Which result each poll gives.
    ensures poll.PollRaised? ==> r == Step(StillProcessing(StoredQuestion(m)), m)
    ensures poll.Polled? && (poll.state == Pending || poll.state == Progress) ==> r == Step(StillProcessing(StoredQuestion(m)), m)
    ensures r.result.Failed? <==> poll.Polled? && poll.state != Success && poll.state != Pending && poll.state != Progress
    ensures r.result.Failed? ==> r.result.error == "Analysis failed. Please try again."
    ensures r.result.Completed? <==> poll.Polled? && poll.state == Success && CompletedData(m, poll.result).Ok?
    ensures r.result.Completed? ==> r.result.data == CompletedData(m, poll.result).value
  {
    match poll
    case PollRaised(_) => Step(StillProcessing(StoredQuestion(m)), m)
    case Polled(state, result) =>
      if state == Success then
        match CompletedData(m, result)
        case Err(_) => Step(StillProcessing(StoredQuestion(m)), m)
        case Ok(data) => Step(Completed(data), WithCompletedAnalysis(m, data))
      else if state == Pending || state == Progress then Step(StillProcessing(StoredQuestion(m)), m)
      else Step(Failed("Analysis failed. Please try again."), WithoutAnalysis(m))
  }

  /** `context.update(...)` with what `_handle_pending_task` returned. */
  function Merge(ctx: AnalysisContext, u: PendingUpdate): AnalysisContext {
    match u
    case StillProcessing(q) => ctx.(processing := true, question := q)
    case Completed(d) => ctx.(complete := d)
    case Failed(e) => ctx.(error := Some(e))
  }

  /**
   * `get_analysis_context` at time `now`, `poll` being what the result backend would report if
   * asked. `AnalysisService` inherits `is_enabled() == True`, so the warning is always empty.
   */
  function GetAnalysisContextOutcome(m: map<string, Value>, now: real, poll: Poll): (r: Step<AnalysisContext>)
    requires LastCheckIsNumber(m)
    // A completed analysis is shown as stored, without polling and without touching the session.
    ensures Truthy(Get(m, CompleteKey, Null)) ==> r.session == m && r.result.complete == m[CompleteKey]
    // The session changes only when the backend was polled, which needs a task and an elapsed cooldown,
    // and then the poll time is recorded.
    ensures r.session != m ==> Truthy(Get(m, TaskIdKey, Null)) && now - LastCheck(m) > Cooldown
    ensures r.session != m ==> LastCheckKey in r.session && r.session[LastCheckKey] == Float(now)
    ensures r.result.warning == ""
    ensures LastCheckIsNumber(r.session)
  {
    if Truthy(Get(m, CompleteKey, Null)) then Step(EmptyContext.(complete := m[CompleteKey]), m)
    else if !Truthy(Get(m, TaskIdKey, Null)) then Step(EmptyContext, m)
    else if now - LastCheck(m) > Cooldown then
      var s := HandlePendingTaskOutcome(m, poll);
      var polled := s.session[LastCheckKey := Float(now)];
      // Every outcome of the poll rewrites the timestamp, so the map does change.
      assert polled != m by {
        assert polled[LastCheckKey] == Float(now);
        if LastCheckKey in m { assert now != LastCheck(m); }
      }
      Step(Merge(EmptyContext, s.result), polled)
    else Step(EmptyContext.(processing := true, question := StoredQuestion(m)), m)
  }

  // ---------------------------------------------------------------------------------------------
  // The service's methods, acting on a session in place.

  method StoreTaskInfo(session: Session, taskId: string, question: string)
    modifies session
    ensures session.data == WithTaskInfo(old(session.data), taskId, question)
  {
    session.Set(TaskIdKey, Str(taskId));
    session.Set(QuestionKey, Str(question));
    session.Set(ProcessingKey, Bool(true));
  }

  /** Fails with the `KeyError` message, writing nothing, when the payload lacks a key. */
  method StoreCompletedAnalysis(session: Session, result: map<string, Value>) returns (outcome: Result<Value, string>)
    modifies session
    ensures outcome == CompletedData(old(session.data), result)
    ensures session.data == if outcome.Ok? then WithCompletedAnalysis(old(session.data), outcome.value) else old(session.data)
  {
    outcome := CompletedData(session.data, result);
    if outcome.Ok? {
      session.Set(CompleteKey, outcome.value);
      var _ := session.Pop(TaskIdKey, Null);
      var _ := session.Pop(ProcessingKey, Null);
    }
  }

  method ClearAnalysisSession(session: Session)
    modifies session
    ensures session.data == WithoutAnalysis(old(session.data))
  {
    var _ := session.Pop(TaskIdKey, Null);
    var _ := session.Pop(QuestionKey, Null);
    var _ := session.Pop(ProcessingKey, Null);
    var _ := session.Pop(CompleteKey, Null);
  }

  method StartAnalysis(session: Session, question: string, enqueue: Enqueue) returns (r: StartResult)
    modifies session
    ensures Step(r, session.data) == StartAnalysisOutcome(old(session.data), question, enqueue)
  {
    if Strip(question) == "" {
      return StartError("Question is required");
    }
    if Truthy(session.Lookup(ProcessingKey, Null)) {
      return StartError("Analysis already in progress");
    }
    match enqueue
    case EnqueueRaised(msg) =>
      r := StartError(msg);
    case Queued(id) =>
      StoreTaskInfo(session, id, question);
      r := StartOk(id);
  }

  method CheckAnalysisStatus(session: Session, poll: Poll) returns (r: StatusResult)
    modifies session
    ensures Step(r, session.data) == CheckAnalysisStatusOutcome(old(session.data), poll)
  {
    match poll
    case PollRaised(msg) =>
      r := StatusError(msg);
    case Polled(state, result) =>
      if state == Pending {
        r := StatusPending("Analysis in progress...");
      } else if state == Success {
        var stored := StoreCompletedAnalysis(session, result);
        if stored.Err? {
          r := StatusError(stored.error);
        } else if "question" !in result {
          r := StatusError(KeyErrorMessage("question"));
        } else {
          r := StatusSuccess(result["analysis"], result["question"], result["is_enabled"]);
        }
      } else {
        ClearAnalysisSession(session);
        r := StatusFailed("Analysis failed");
      }
  }

  /** `clear_analysis`: returns the confirmation message. */
  method ClearAnalysis(session: Session) returns (message: string)
    modifies session
    ensures session.data == WithoutAnalysis(old(session.data))
    ensures message == "Analysis state cleared"
  {
    ClearAnalysisSession(session);
    message := "Analysis state cleared";
  }

  method HandlePendingTask(session: Session, poll: Poll) returns (u: PendingUpdate)
    modifies session
    ensures Step(u, session.data) == HandlePendingTaskOutcome(old(session.data), poll)
  {
    match poll
    case PollRaised(_) =>
      u := StillProcessing(session.Lookup(QuestionKey, Str("")));
    case Polled(state, result) =>
      if state == Success {
        var data := CompletedData(session.data, result);
        if data.Err? {
          u := StillProcessing(session.Lookup(QuestionKey, Str("")));
        } else {
          session.Set(CompleteKey, data.value);
          var _ := session.Pop(TaskIdKey, Null);
          var _ := session.Pop(ProcessingKey, Null);
          u := Completed(data.value);
        }
      } else if state == Pending || state == Progress {
        u := StillProcessing(session.Lookup(QuestionKey, Str("")));
      } else {
        ClearAnalysisSession(session);
        u := Failed("Analysis failed. Please try again.");
      }
  }

  method GetAnalysisContext(session: Session, now: real, poll: Poll) returns (ctx: AnalysisContext)
    requires LastCheckIsNumber(session.data)
    modifies session
    ensures Step(ctx, session.data) == GetAnalysisContextOutcome(old(session.data), now, poll)
  {
    ctx := EmptyContext;
    var complete := session.Lookup(CompleteKey, Null);
    if Truthy(complete) {
      ctx := ctx.(complete := complete);
    } else {
      var taskId := session.Lookup(TaskIdKey, Null);
      if Truthy(taskId) {
        var lastCheck := LastCheck(session.data);
        if now - lastCheck > Cooldown {
          var u := HandlePendingTask(session, poll);
          ctx := Merge(ctx, u);
          session.Set(LastCheckKey, Float(now));
        } else {
          ctx := ctx.(processing := true, question := session.Lookup(QuestionKey, Str("")));
        }
      }
    }
  }

  // ---------------------------------------------------------------------------------------------
  // Properties of the flow.

  /** A blank question is refused before anything else is looked at. */
  lemma BlankQuestionRefused(m: map<string, Value>, question: string, enqueue: Enqueue)
    requires forall k :: 0 <= k < |question| ==> IsSpace(question[k])
    ensures StartAnalysisOutcome(m, question, enqueue) == Step(StartError("Question is required"), m)
  {
  }

  /** While an analysis is marked as processing, a new one is refused and the session kept. */
  lemma StartRefusedWhileProcessing(m: map<string, Value>, question: string, enqueue: Enqueue)
    requires Strip(question) != "" && Truthy(Get(m, ProcessingKey, Null))
    ensures StartAnalysisOutcome(m, question, enqueue) == Step(StartError("Analysis already in progress"), m)
  {
  }

  /** A successful start marks the session as processing, so starting again is refused. */
  lemma SecondStartRefused(m: map<string, Value>, q1: string, q2: string, id1: string, e2: Enqueue)
    requires Strip(q1) != "" && Strip(q2) != "" && !Truthy(Get(m, ProcessingKey, Null))
    ensures var s1 := StartAnalysisOutcome(m, q1, Queued(id1));
      s1.result == StartOk(id1)
      && StartAnalysisOutcome(s1.session, q2, e2) == Step(StartError("Analysis already in progress"), s1.session)
  {
  }

  /** Clearing removes exactly the four analysis keys, and clearing twice is clearing once. */
  lemma ClearIsIdempotent(m: map<string, Value>)
    ensures WithoutAnalysis(WithoutAnalysis(m)) == WithoutAnalysis(m)
    ensures LastCheckKey in m ==> WithoutAnalysis(m)[LastCheckKey] == m[LastCheckKey]
  {
  }

  /**
   * Within the cooldown (or exactly at it) nothing is polled: the page shows the stored question
   * as processing and the session is untouched.
   */
  lemma CooldownSkipsPoll(m: map<string, Value>, now: real, poll: Poll)
    requires LastCheckIsNumber(m)
    requires !Truthy(Get(m, CompleteKey, Null)) && Truthy(Get(m, TaskIdKey, Null))
    requires now - LastCheck(m) <= Cooldown
    ensures GetAnalysisContextOutcome(m, now, poll)
      == Step(EmptyContext.(processing := true, question := StoredQuestion(m)), m)
  {
  }

  /**
   * PENDING and PROGRESS differ between the two polling paths: the page context keeps a
   * PROGRESS task processing, `check_analysis_status` treats it as a failure and clears.
   */
  lemma ProgressReadDifferently(m: map<string, Value>, now: real, result: map<string, Value>)
    requires LastCheckIsNumber(m)
    requires !Truthy(Get(m, CompleteKey, Null)) && Truthy(Get(m, TaskIdKey, Null))
    requires now - LastCheck(m) > Cooldown
    ensures var c := GetAnalysisContextOutcome(m, now, Polled(Progress, result));
      c.result.processing && c.result.error.None? && c.session == m[LastCheckKey := Float(now)]
    ensures CheckAnalysisStatusOutcome(m, Polled(Progress, result))
      == Step(StatusFailed("Analysis failed"), WithoutAnalysis(m))
  {
  }

  /** A PENDING task seen past the cooldown keeps the page processing; only the poll time is written. */
  lemma PendingKeepsProcessing(m: map<string, Value>, now: real, result: map<string, Value>)
    requires LastCheckIsNumber(m)
    requires !Truthy(Get(m, CompleteKey, Null)) && Truthy(Get(m, TaskIdKey, Null))
    requires now - LastCheck(m) > Cooldown
    ensures var c := GetAnalysisContextOutcome(m, now, Polled(Pending, result));
      c.result.processing && c.result.question == StoredQuestion(m) && c.result.error.None?
      && c.session == m[LastCheckKey := Float(now)]
    ensures CheckAnalysisStatusOutcome(m, Polled(Pending, result))
      == Step(StatusPending("Analysis in progress..."), m)
  {
  }

  /** A poll past the cooldown that sees any state other than SUCCESS, PENDING or PROGRESS clears. */
  lemma FailedTaskClears(m: map<string, Value>, now: real, state: TaskState, result: map<string, Value>)
    requires LastCheckIsNumber(m)
    requires !Truthy(Get(m, CompleteKey, Null)) && Truthy(Get(m, TaskIdKey, Null))
    requires now - LastCheck(m) > Cooldown
    requires state != Success && state != Pending && state != Progress
    ensures var c := GetAnalysisContextOutcome(m, now, Polled(state, result));
      c.result.error == Some("Analysis failed. Please try again.") && !c.result.processing
      && c.session == WithoutAnalysis(m)[LastCheckKey := Float(now)]
  {
  }

  /** An exception while polling keeps the page processing; only the poll time is recorded. */
  lemma PollErrorKeepsProcessing(m: map<string, Value>, now: real, msg: string)
    requires LastCheckIsNumber(m)
    requires !Truthy(Get(m, CompleteKey, Null)) && Truthy(Get(m, TaskIdKey, Null))
    requires now - LastCheck(m) > Cooldown
    ensures GetAnalysisContextOutcome(m, now, PollRaised(msg))
      == Step(EmptyContext.(processing := true, question := StoredQuestion(m)), m[LastCheckKey := Float(now)])
  {
  }

  /**
   * The analysis task reports its own failures as a SUCCESS whose payload is
   * `{'status': 'error', 'error': ...}`; reading `result['analysis']` then raises, which the
   * handler takes for "still pending". Such a task is shown as processing on every page load and
   * polled again after each cooldown, and the session never leaves that state by itself.
   */
  lemma ErrorPayloadStaysProcessing(m: map<string, Value>, now: real, err: Value)
    requires LastCheckIsNumber(m)
    requires !Truthy(Get(m, CompleteKey, Null)) && Truthy(Get(m, TaskIdKey, Null))
    requires now - LastCheck(m) > Cooldown
    ensures var payload := map["status" := Str("error"), "error" := err];
      var c := GetAnalysisContextOutcome(m, now, Polled(Success, payload));
      c.result.processing && c.result.complete == Null && c.result.error.None?
      && c.session == m[LastCheckKey := Float(now)]
      && !Truthy(Get(c.session, CompleteKey, Null)) && Truthy(Get(c.session, TaskIdKey, Null))
  {
    var payload := map["status" := Str("error"), "error" := err];
    assert CompletedData(m, payload).Err?;
  }

  /** Once an analysis is stored, the page shows it as stored, whenever it is loaded and whatever the backend says. */
  lemma CompletedIsShownWithoutPolling(m: map<string, Value>, later: real, anyPoll: Poll)
    requires LastCheckIsNumber(m) && CompleteKey in m && Truthy(m[CompleteKey])
    ensures GetAnalysisContextOutcome(m, later, anyPoll) == Step(EmptyContext.(complete := m[CompleteKey]), m)
  {
  }

  /** A poll past the cooldown that sees SUCCESS with a complete payload stores the result. */
  lemma PollSuccessStores(m: map<string, Value>, now: real, result: map<string, Value>)
    requires LastCheckIsNumber(m)
    requires !Truthy(Get(m, CompleteKey, Null)) && Truthy(Get(m, TaskIdKey, Null))
    requires now - LastCheck(m) > Cooldown
    requires "analysis" in result && "is_enabled" in result
    ensures var data := CompletedData(m, result).value;
      GetAnalysisContextOutcome(m, now, Polled(Success, result))
        == Step(EmptyContext.(complete := data), WithCompletedAnalysis(m, data)[LastCheckKey := Float(now)])
  {
  }

  /**
   * The happy path: a started analysis, polled after the cooldown while its task reports
   * SUCCESS, is stored with the question that was asked; the Celery task id and the processing flag are
   * gone, the question stays and a new analysis may be started. From then on the page shows the
   * stored result without polling (`CompletedIsShownWithoutPolling`).
   */
  lemma StartThenCompleteKeepsQuestion(m: map<string, Value>, q: string, id: string, now: real,
                                       answer: Value, enabled: Value)
    returns (started: map<string, Value>, c: Step<AnalysisContext>)
    requires LastCheckIsNumber(m)
    requires Strip(q) != "" && id != ""
    requires !Truthy(Get(m, ProcessingKey, Null)) && !Truthy(Get(m, CompleteKey, Null))
    requires now - LastCheck(m) > Cooldown
    ensures started == StartAnalysisOutcome(m, q, Queued(id)).session && LastCheckIsNumber(started)
    ensures c == GetAnalysisContextOutcome(started, now, Polled(Success, map["analysis" := answer, "is_enabled" := enabled]))
    ensures c.result.complete == Dict(map["question" := Str(q), "analysis" := answer, "is_enabled" := enabled])
    ensures !c.result.processing
    ensures CompleteKey in c.session && c.session[CompleteKey] == c.result.complete && Truthy(c.result.complete)
    ensures QuestionKey in c.session && c.session[QuestionKey] == Str(q)
    ensures TaskIdKey !in c.session && ProcessingKey !in c.session
    ensures StartAnalysisOutcome(c.session, q, Queued(id)).result.StartOk?
  {
    KeysDistinct();
    started := WithTaskInfo(m, id, q);
    assert started == StartAnalysisOutcome(m, q, Queued(id)).session;
    assert LastCheck(started) == LastCheck(m);
    c := PollStoresAnswer(started, q, now, answer, enabled);
    StartAllowedWhenIdle(c.session, q, id);
  }

  /** Nothing processing and a non-blank question: a start is accepted. */
  lemma StartAllowedWhenIdle(m: map<string, Value>, q: string, id: string)
    requires ProcessingKey !in m && Strip(q) != ""
    ensures StartAnalysisOutcome(m, q, Queued(id)) == Step(StartOk(id), WithTaskInfo(m, id, q))
  {
  }

  /** A successful poll of a started analysis stores the question asked with the answer. */
  lemma PollStoresAnswer(s: map<string, Value>, q: string, now: real, answer: Value, enabled: Value)
    returns (c: Step<AnalysisContext>)
    requires LastCheckIsNumber(s)
    requires !Truthy(Get(s, CompleteKey, Null)) && Truthy(Get(s, TaskIdKey, Null))
    requires now - LastCheck(s) > Cooldown
    requires QuestionKey in s && s[QuestionKey] == Str(q)
    ensures c == GetAnalysisContextOutcome(s, now, Polled(Success, map["analysis" := answer, "is_enabled" := enabled]))
    ensures c.result.complete == Dict(map["question" := Str(q), "analysis" := answer, "is_enabled" := enabled])
    ensures !c.result.processing
    ensures CompleteKey in c.session && c.session[CompleteKey] == c.result.complete && Truthy(c.result.complete)
    ensures QuestionKey in c.session && c.session[QuestionKey] == Str(q)
    ensures TaskIdKey !in c.session && ProcessingKey !in c.session
  {
    var payload := map["analysis" := answer, "is_enabled" := enabled];
    var data := Dict(map["question" := Str(q), "analysis" := answer, "is_enabled" := enabled]);
    assert "question" in data.entries;
    assert CompletedData(s, payload).value == data;
    PollSuccessStores(s, now, payload);
    c := GetAnalysisContextOutcome(s, now, Polled(Success, payload));
    var stored := WithCompletedAnalysis(s, data);
    assert c.session == stored[LastCheckKey := Float(now)];
  }

  /** The page's analysis poll touches only the four analysis keys and the poll timestamp. */
  lemma AnalysisContextFrame(m: map<string, Value>, now: real, poll: Poll)
    requires LastCheckIsNumber(m)
    ensures var s := GetAnalysisContextOutcome(m, now, poll).session;
            forall k :: k !in AnalysisKeys && k != LastCheckKey ==> SameAt(s, m, k)
  {
    if !Truthy(Get(m, CompleteKey, Null)) && Truthy(Get(m, TaskIdKey, Null)) && now - LastCheck(m) > Cooldown {
      var p := HandlePendingTaskOutcome(m, poll);
      assert GetAnalysisContextOutcome(m, now, poll).session == p.session[LastCheckKey := Float(now)];
    }
  }

  /**
   * The page's analysis context reads nothing but the analysis keys and the poll timestamp:
   * removing any other key changes neither what is shown nor, outside that key, what is stored.
   */
  lemma AnalysisContextIgnoresOtherKeys(m: map<string, Value>, other: string, now: real, poll: Poll)
    requires LastCheckIsNumber(m)
    requires other !in AnalysisKeys && other != LastCheckKey
    ensures LastCheckIsNumber(m - {other})
    ensures GetAnalysisContextOutcome(m - {other}, now, poll).result == GetAnalysisContextOutcome(m, now, poll).result
  {
    var n := m - {other};
    assert Get(n, CompleteKey, Null) == Get(m, CompleteKey, Null);
    assert Get(n, TaskIdKey, Null) == Get(m, TaskIdKey, Null);
    assert StoredQuestion(n) == StoredQuestion(m);
    assert LastCheck(n) == LastCheck(m);
    assert HandlePendingTaskOutcome(n, poll).result == HandlePendingTaskOutcome(m, poll).result;
  }
}
