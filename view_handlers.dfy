/**
 * `CVDetailHandler` (main/web/view_handlers.py): the checks and service calls behind the CV
 * detail page's forms, and the translation context it reads back from the session.
 */
module ViewHandlers {
  import opened Wrappers
  import opened Text
  import opened Sessions
  import opened Celery
  import opened Models
  import Enums
  import Services
  import AnalysisService

  /** A handler's dictionary: `{'success': True, 'message': m}` or `{'error': e}`. */
  datatype Reply = ReplyOk(message: string) | ReplyError(error: string)

  // ---------------------------------------------------------------------------------------
  // handle_email_request
  // ---------------------------------------------------------------------------------------

  const InvalidEmail := "Please enter a valid email address"

  /** The format check: an `'@'`, and a `'.'` in the text after the last `'@'`. */
  predicate EmailFormatValid(recipient: string) {
    '@' in recipient && '.' in AfterLast(recipient, '@')
  }

  /** The enqueue errors taken for a lost Redis connection, which trigger the direct send. */
  predicate IsRedisError(msg: string) {
    Contains(msg, "Connection closed by server") || Contains(Lower(msg), "redis")
  }

  /**
   * What `handle_email_request` returns, with whether it called `.delay` on the email task
   * and whether it tried the direct send.
   */
  datatype EmailOutcome = EmailOutcome(reply: Reply, enqueued: bool, fellBack: bool)

  /**
   * `handle_email_request` for the posted `email` (`None` when absent). `enqueue` is what
   * `.delay` does and `fallbackSent` whether `_send_email_directly` reports `'success'`.
   */
  function HandleEmailRequest(recipient: Option<string>, enqueue: Enqueue, fallbackSent: bool): (r: EmailOutcome)
    ensures r.enqueued <==> recipient.Some? && EmailFormatValid(recipient.value)
    ensures !r.enqueued ==> r == EmailOutcome(ReplyError(InvalidEmail), false, false)
    ensures r.fellBack <==> r.enqueued && enqueue.EnqueueRaised? && IsRedisError(enqueue.message)
    ensures r.reply.ReplyOk? <==> r.enqueued && (enqueue.Queued? || (r.fellBack && fallbackSent))
    ensures r.enqueued && enqueue.Queued? ==>
              r.reply.message == "PDF will be sent to " + recipient.value + " shortly. Check your email in a few moments."
    ensures r.fellBack && fallbackSent ==>
              r.reply.message == "PDF sent to " + recipient.value + " successfully (fallback mode)."
    ensures r.enqueued && r.reply.ReplyError? ==> r.reply.error == "Failed to send email: " + enqueue.message
  {
    if recipient.None? || recipient.value == "" then EmailOutcome(ReplyError(InvalidEmail), false, false)
    else if !EmailFormatValid(recipient.value) then EmailOutcome(ReplyError(InvalidEmail), false, false)
    else
      var to := recipient.value;
      match enqueue
      case Queued(_) =>
        EmailOutcome(ReplyOk("PDF will be sent to " + to + " shortly. Check your email in a few moments."), true, false)
      case EnqueueRaised(msg) =>
        if IsRedisError(msg) && fallbackSent then
          EmailOutcome(ReplyOk("PDF sent to " + to + " successfully (fallback mode)."), true, true)
        else
          EmailOutcome(ReplyError("Failed to send email: " + msg), true, IsRedisError(msg))
  }

  // ---------------------------------------------------------------------------------------
  // handle_translation_request
  // ---------------------------------------------------------------------------------------

  /**
   * The dictionary stored for language value `lang`: the language, the provider's flag and
   * the five translated fields.
   */
  function TranslationDict(lang: string, cv: Cv, provider: Services.TranslationProvider): (r: map<string, Value>)
    ensures r.Keys == {"lang", "enabled"} + Services.TranslatedKeys
    ensures r["lang"] == Str(lang) && r["enabled"] == Bool(provider.enabled)
    ensures forall k :: k in Services.TranslatedKeys ==>
              r[k] == Str(provider.translate(Services.CvFields(cv)[k], lang))
  {
    var t := Services.TranslateCv(cv, lang, provider);
    map["lang" := Str(lang), "enabled" := Bool(t.1)] + map k | k in t.0 :: Str(t.0[k])
  }

  /**
   * `handle_translation_request` for the posted `lang` (`''` when absent) and the
   * `Language` members: a dictionary exactly when the stripped value is a non-empty member
   * value, and then the one for that value.
   */
  function HandleTranslationRequest(lang: string, languages: seq<Enums.Member>, cv: Cv,
                                    provider: Services.TranslationProvider): (r: Option<map<string, Value>>)
    ensures r.Some? <==> Strip(lang) != "" && Strip(lang) in Enums.Values(languages)
    ensures r.Some? ==> r.value == TranslationDict(Strip(lang), cv, provider)
  {
    var l := Strip(lang);
    Enums.ByValueFindsListedValues(languages, l);
    if l == "" then None
    else
      match Enums.ByValue(languages, l)
      case None => None
      case Some(i) => Some(TranslationDict(languages[i].value, cv, provider))
  }

  // ---------------------------------------------------------------------------------------
  // handle_analysis_request
  // ---------------------------------------------------------------------------------------

  /**
   * `handle_analysis_request` for the posted `analysis_question` (`''` when absent): a blank
   * question is refused here and the service is called with the stripped one.
   */
  function HandleAnalysisRequestOutcome(m: map<string, Value>, question: string, enqueue: Enqueue)
    : (r: Step<AnalysisService.StartResult>)
    ensures Strip(question) == "" ==>
              r == Step(AnalysisService.StartError("Please enter a question"), m)
    ensures Strip(question) != "" ==>
              r == AnalysisService.StartAnalysisOutcome(m, Strip(question), enqueue)
  {
    var q := Strip(question);
    if q == "" then Step(AnalysisService.StartError("Please enter a question"), m)
    else
      AnalysisService.StartAnalysisOutcome(m, q, enqueue)
  }

  /**
   * The errors the form can report: its own refusal of a blank question, the one for an analysis
   * already running, or the enqueue's own error; the service's "Question is required" cannot arise.
   */
  lemma AnalysisRequestErrors(m: map<string, Value>, question: string, enqueue: Enqueue)
    ensures var r := HandleAnalysisRequestOutcome(m, question, enqueue);
            r.result.StartError? ==>
              r.result.error in {"Please enter a question", "Analysis already in progress"}
              || enqueue == EnqueueRaised(r.result.error)
  {
    if Strip(question) != "" {
      StripIdempotent(question);
    }
  }

  method HandleAnalysisRequest(session: Session, question: string, enqueue: Enqueue)
    returns (r: AnalysisService.StartResult)
    modifies session
    ensures Step(r, session.data) == HandleAnalysisRequestOutcome(old(session.data), question, enqueue)
  {
    var q := Strip(question);
    if q == "" {
      return AnalysisService.StartError("Please enter a question");
    }
    r := AnalysisService.StartAnalysis(session, q, enqueue);
  }

  /** The question an accepted request leaves in the session is the stripped one. */
  lemma AnalysisQuestionStoredStripped(m: map<string, Value>, question: string, enqueue: Enqueue)
    requires HandleAnalysisRequestOutcome(m, question, enqueue).result.StartOk?
    ensures HandleAnalysisRequestOutcome(m, question, enqueue).session[AnalysisService.QuestionKey]
              == Str(Strip(question))
  {
    var q := Strip(question);
    var r := HandleAnalysisRequestOutcome(m, question, enqueue);
    assert r == AnalysisService.StartAnalysisOutcome(m, q, enqueue);
    assert r.session == AnalysisService.WithTaskInfo(m, enqueue.taskId, q);
  }

  // ---------------------------------------------------------------------------------------
  // get_translation_context
  // ---------------------------------------------------------------------------------------

  const TranslationsKey := "cv_translations"

  /** `{}`, or `{'translated': ..., 'translation_warning': ...}`. */
  datatype TranslationContext = NoTranslation | Translated(translated: Value, warning: Value)

  /** What the session may hold under `cv_translations`: nothing falsy or a dictionary. */
  predicate TranslationsWellFormed(m: map<string, Value>) {
    Truthy(Get(m, TranslationsKey, Null)) ==> Get(m, TranslationsKey, Null).Dict?
  }

  /**
   * `get_translation_context`: pops the stored translation; the warning is the stored
   * `warning` (default `''`) when the stored `enabled` is falsy, and `''` otherwise.
   */
  function TranslationContextOutcome(m: map<string, Value>): (r: Step<TranslationContext>)
    requires TranslationsWellFormed(m)
    ensures r.session == m - {TranslationsKey}
    ensures TranslationsWellFormed(r.session)
    ensures r.result.NoTranslation? <==> !Truthy(Get(m, TranslationsKey, Null))
    ensures r.result.Translated? ==> r.result.translated == m[TranslationsKey]
    ensures r.result.Translated? ==>
              var stored := m[TranslationsKey].entries;
              r.result.warning == if Truthy(Get(stored, "enabled", Null)) then Str("") else Get(stored, "warning", Str(""))
  {
    var stored := Get(m, TranslationsKey, Null);
    var rest := m - {TranslationsKey};
    if !Truthy(stored) then Step(NoTranslation, rest)
    else
      var warning := if !Truthy(Get(stored.entries, "enabled", Null)) then Get(stored.entries, "warning", Str("")) else Str("");
      Step(Translated(stored, warning), rest)
  }

  method GetTranslationContext(session: Session) returns (ctx: TranslationContext)
    requires TranslationsWellFormed(session.data)
    modifies session
    ensures Step(ctx, session.data) == TranslationContextOutcome(old(session.data))
  {
    var stored := session.Pop(TranslationsKey, Null);
    if !Truthy(stored) {
      return NoTranslation;
    }
    var warning := if !Truthy(Get(stored.entries, "enabled", Null)) then Get(stored.entries, "warning", Str("")) else Str("");
    ctx := Translated(stored, warning);
  }

  /** The translation is shown once: the next page view finds nothing to show. */
  lemma TranslationShownOnce(m: map<string, Value>)
    requires TranslationsWellFormed(m)
    ensures TranslationContextOutcome(TranslationContextOutcome(m).session).result == NoTranslation
  {
  }

  /**
   * A translation stored from the form has no `warning` entry, so the warning the page shows
   * for it is `''` whether or not the provider was enabled.
   */
  lemma StoredTranslationHasNoWarning(m: map<string, Value>, lang: string, cv: Cv,
                                      provider: Services.TranslationProvider)
    ensures var t := TranslationDict(lang, cv, provider);
            TranslationsWellFormed(m[TranslationsKey := Dict(t)]) &&
            TranslationContextOutcome(m[TranslationsKey := Dict(t)]).result == Translated(Dict(t), Str(""))
  {
    var t := TranslationDict(lang, cv, provider);
    TranslationDictHasNoWarning(lang, cv, provider);
    var stored := m[TranslationsKey := Dict(t)];
    assert Get(stored, TranslationsKey, Null) == Dict(t);
    assert Get(t, "warning", Str("")) == Str("");
  }

  /** The dictionary the form stores has a `lang` entry and no `warning` entry. */
  lemma TranslationDictHasNoWarning(lang: string, cv: Cv, provider: Services.TranslationProvider)
    ensures "lang" in TranslationDict(lang, cv, provider)
    ensures "warning" !in TranslationDict(lang, cv, provider)
  {
    assert "warning" !in Services.TranslatedKeys;
  }
}
