# CV library: decision logic in Dafny

This project models the request and session logic of a Django application for managing CVs, and
proves properties of that model. The application's own decision logic sits under its glue to the
ORM, Celery, OpenAI and SendGrid:

- **Analysis polling.** An AI analysis of a CV is started, polled with a two-second cooldown,
  stored and cleared through the keys `analysis_task_id`, `analysis_question`,
  `analysis_processing`, `analysis_complete` and `analysis_last_check` of the user's session.
- **PDF polling.** A PDF download is started, polled and finished through `pdf_task_id` and
  `pdf_processing`.
- **Request handlers.** The CV detail page's POST dispatch sends a CV by email (with a direct-send
  fallback when the queue's Redis connection fails), translates it, and asks and clears analysis
  questions.
- **Telemetry and search.** The request log has a time-window filter, and the CV list has a name
  search.
- **Translation.** The Celery task layer resolves a target language in stages, runs a first-success
  provider chain and looks up language codes.
- **Access control.** The REST API has permission classes, and the web views allow an update or
  delete by ownership.
- **Request logging.** A middleware writes one audit row per answered request.

The outside world enters as inputs:

- The session is a `map<string, Value>` over Python's value shapes, with Python truthiness. A
  `Session` class holds it, and the service methods mutate it in place.
- What a Celery task reports is a `Poll`: a state and a result payload, or the exception the
  lookup raised. What `.delay` does is an `Enqueue`: a task id, or the exception it raised.
- Timestamps are integers (reals where the source uses `time.time()`). Records are sequences of
  small datatypes. The members of the `Language`, `TimePreset` and `TimeOrder` enums are
  parameters.
- Translators, analysers and the date parser are function-valued parameters.

Each module follows one source file. Where the source mutates the session, a pure `...Outcome`
function says what the handler returns and which keys it writes or removes. The method that
mutates the `Session` must end in the state that function gives. Loops in the source (language
resolution, the provider chain) are methods with loop invariants, proved against a recursive
specification function.

Behaviour the proofs bring out, all stated as lemmas:

- When the analysis task fails, it reports SUCCESS with an error payload. Reading
  `result['analysis']` then raises, and the page context treats that as still pending, so the
  page stays "processing" for good (`AnalysisService.ErrorPayloadStaysProcessing`).
- The two analysis polling paths, and the PDF page and the PDF service, disagree on what PROGRESS
  means (the two `ProgressReadDifferently` lemmas).
- `PDFService.clear_pdf_session` leaves `pdf_processing` in the session
  (`CvDetailView.ServiceClearLeavesProcessingFlag`).
- A translation stored from the form has no `warning` entry, so the warning shown is always
  empty (`ViewHandlers.StoredTranslationHasNoWarning`).
- The email service's recipient check is strictly weaker than the form's
  (`EmailService.ServiceCheckIsWeaker`).
- In the Celery task layer's language resolution, the lookup by `target.upper()` can never decide
  anything for an ASCII target (`CeleryTranslation.UppercaseLookupIsRedundant`; the model's case
  mapping is ASCII only). A blank target resolves to the first
  language (`CeleryTranslation.BlankTargetResolvesToFirst`).
- The object-level owner check admits a user without an id on a CV without an owner, because
  `None == None`. Only `has_permission` stops that user (`Permissions.OwnerlessCvObjectCheck`).
- Once an analysis is stored, its processing flag is gone, so a new question is accepted and its
  Celery task recorded. Until the user clears the analysis, though, every page (the one rendered by
  that same POST included) shows the old answer and never polls the new task
  (`CvDetailView.StoredAnswerHidesNewQuestion`).
- Filtering request logs twice with only a preset reads the clock twice, which narrows the window
  (`TimeFilter.PresetFilteredTwice`).

## Model

| member | source | states |
|---|---|---|
| AnalysisService.WithTaskInfo | celery_tasks/services/analysis_service.py:191-196 | exactly the Celery task id, question and processing keys are added or overwritten; every other key keeps its value |
| AnalysisService.CompletedData | celery_tasks/services/analysis_service.py:198-205 | the stored entry exists iff the payload has `analysis` and `is_enabled`; it holds the session's question and the payload's answer and flag |
| AnalysisService.WithCompletedAnalysis | celery_tasks/services/analysis_service.py:198-208 | `analysis_complete` is set; the Celery task id and the processing flag are removed; the question and every other key are kept |
| AnalysisService.WithoutAnalysis | celery_tasks/services/analysis_service.py:210-216 | exactly the four analysis keys are removed; the rest keeps its values |
| AnalysisService.StartAnalysisOutcome | celery_tasks/services/analysis_service.py:18-41 | a start succeeds iff the stripped question is non-empty, nothing is processing and the enqueue returns an id; then the session is `WithTaskInfo`; every refusal leaves the session unchanged |
| AnalysisService.CheckAnalysisStatusOutcome | celery_tasks/services/analysis_service.py:43-72 | a raised lookup is reported as the error with the session unchanged; PENDING is "in progress" with the session unchanged; every state other than PENDING and SUCCESS clears the four analysis keys and reports `Analysis failed`; success iff SUCCESS with `analysis`, `is_enabled` and `question` in the payload, and then the result is stored and the Celery task forgotten; a payload without `analysis` or `is_enabled` is an error with the session unchanged, one without `question` an error after the store; keys outside the analysis keys are never touched |
| AnalysisService.HandlePendingTaskOutcome | celery_tasks/services/analysis_service.py:133-189 | a raised lookup, PENDING and PROGRESS keep the page processing with the stored question and the session unchanged; completed iff SUCCESS with a complete payload, storing its data; failed iff any other state, clearing the analysis keys with `Analysis failed. Please try again.` |
| AnalysisService.GetAnalysisContextOutcome | celery_tasks/services/analysis_service.py:87-131 | a stored analysis is shown without touching the session; the session changes only after a poll past the 2-second cooldown on a pending task, and the poll time is then recorded; the warning is empty, as the service inherits `is_enabled() == True` |
| AnalysisService.StoreTaskInfo | celery_tasks/services/analysis_service.py:191-196 | the session afterwards is `WithTaskInfo` of the one before |
| AnalysisService.StoreCompletedAnalysis | celery_tasks/services/analysis_service.py:198-208 | it returns `CompletedData`; it writes `WithCompletedAnalysis` only when that exists; a `KeyError` writes nothing |
| AnalysisService.ClearAnalysisSession | celery_tasks/services/analysis_service.py:210-216 | the session afterwards is `WithoutAnalysis` of the one before |
| AnalysisService.StartAnalysis | celery_tasks/services/analysis_service.py:18-41 | result and new session are those of `StartAnalysisOutcome` |
| AnalysisService.CheckAnalysisStatus | celery_tasks/services/analysis_service.py:43-72 | result and new session are those of `CheckAnalysisStatusOutcome` |
| AnalysisService.ClearAnalysis | celery_tasks/services/analysis_service.py:74-85 | the analysis keys are cleared and the confirmation message returned |
| AnalysisService.HandlePendingTask | celery_tasks/services/analysis_service.py:133-189 | result and new session are those of `HandlePendingTaskOutcome` |
| AnalysisService.AnalysisContextFrame | celery_tasks/services/analysis_service.py:87-131 | the page's poll writes only the four analysis keys and the poll timestamp |
| AnalysisService.AnalysisContextIgnoresOtherKeys | celery_tasks/services/analysis_service.py:87-131 | removing any other key changes nothing the analysis context shows |
| AnalysisService.GetAnalysisContext | celery_tasks/services/analysis_service.py:87-131 | context and new session are those of `GetAnalysisContextOutcome` |
| AnalysisService.BlankQuestionRefused | celery_tasks/services/analysis_service.py:30-31 | a whitespace-only question gives `Question is required` with the session unchanged |
| AnalysisService.StartRefusedWhileProcessing | celery_tasks/services/analysis_service.py:33-34 | while processing, a start is refused with the session unchanged |
| AnalysisService.SecondStartRefused | celery_tasks/services/analysis_service.py:33-39 | after a successful start, a second start is refused |
| AnalysisService.ClearIsIdempotent | celery_tasks/services/analysis_service.py:210-216 | clearing twice equals clearing once; `analysis_last_check` survives |
| AnalysisService.CooldownSkipsPoll | celery_tasks/services/analysis_service.py:110-125 | within the cooldown nothing is polled or written; the stored question is shown as processing |
| AnalysisService.PendingKeepsProcessing | celery_tasks/services/analysis_service.py:57-174 | PENDING past the cooldown keeps the page processing with the stored question and writes only the poll time; `check_analysis_status` reports it in progress with the session unchanged |
| AnalysisService.ProgressReadDifferently | celery_tasks/services/analysis_service.py:57-70 | PROGRESS keeps the page processing, while `check_analysis_status` clears and reports failure |
| AnalysisService.FailedTaskClears | celery_tasks/services/analysis_service.py:170-182 | after the cooldown, any state other than SUCCESS, PENDING or PROGRESS clears the session and sets the error |
| AnalysisService.PollErrorKeepsProcessing | celery_tasks/services/analysis_service.py:144-153 | an exception while reading the Celery task state keeps processing; only the poll time is written |
| AnalysisService.ErrorPayloadStaysProcessing | celery_tasks/services/analysis_service.py:155-189 | a SUCCESS whose payload is an error dict raises `KeyError`, which reads as pending, so the analysis stays processing |
| AnalysisService.CompletedIsShownWithoutPolling | celery_tasks/services/analysis_service.py:105-107 | a stored analysis is returned as is, whatever the time or the backend says |
| AnalysisService.PollSuccessStores | celery_tasks/services/analysis_service.py:155-169 | a SUCCESS with a complete payload stores it and stops processing |
| AnalysisService.StartThenCompleteKeepsQuestion | celery_tasks/services/analysis_service.py:18-216 | start then a successful poll stores the asked question with the answer; the Celery task id and the flag are gone; the question stays; a new start is allowed |
| AnalysisService.PollStoresAnswer | celery_tasks/services/analysis_service.py:155-169 | a SUCCESS poll of a started analysis stores the asked question with the answer and drops the Celery task id and the flag |
| AnalysisService.StartAllowedWhenIdle | celery_tasks/services/analysis_service.py:30-41 | with nothing processing, a non-blank question is accepted and recorded |
| PdfService.CheckPdfStatus | celery_tasks/services/pdf_service.py:40-64 | ready iff SUCCESS, with `download_url` or `''`; pending iff PENDING; failed iff any other state, PROGRESS included; error iff the lookup raised |
| PdfService.StartPdfGenerationOutcome | celery_tasks/services/pdf_service.py:22-38 | a start succeeds iff the enqueue does; only `pdf_task_id` is written; a failure leaves the session unchanged |
| PdfService.WithoutPdfTask | celery_tasks/services/pdf_service.py:66-68 | only `pdf_task_id` is removed |
| PdfService.ClearPdfSessionIdempotent | celery_tasks/services/pdf_service.py:66-68 | clearing twice equals clearing once |
| PdfService.StartPdfGeneration | celery_tasks/services/pdf_service.py:22-38 | result and new session are those of `StartPdfGenerationOutcome` |
| PdfService.ClearPdfSession | celery_tasks/services/pdf_service.py:66-68 | the session afterwards is `WithoutPdfTask` of the one before |
| PdfService.GenerateCvPdfDownload | celery_tasks/services/pdf_service.py:70-117 | an error iff generation fails; the URL is `/media/downloads/` plus the filename; the filename gives back the CV id and the first 8 characters of the id |
| PdfService.DownloadFilename | celery_tasks/services/pdf_service.py:100-101 | `cv_{id}_{the first 8 characters of the uuid}.pdf` |
| PdfService.DownloadUrl | celery_tasks/services/pdf_service.py:109 | the file's URL under `/media/downloads/` |
| PdfService.ParseDownloadFilenameInverse | celery_tasks/services/pdf_service.py:100-101 | parsing `cv_{id}_{8 chars}.pdf` gives back the id and the 8 characters |
| PdfService.DownloadFilenameInjective | celery_tasks/services/pdf_service.py:100-101 | two downloads share a filename only for the same CV and the same 8-character prefix |
| CvDetailView.WithoutPdfState | main/web/views.py:221-246 | exactly `pdf_task_id` and `pdf_processing` are removed |
| CvDetailView.PdfProgressOutcome | main/web/views.py:203-254 | no task: idle context and unchanged session. SUCCESS with status `success` sets the URL; other finished states report failure; both remove the two keys. PENDING (0%, starting) and PROGRESS (progress and status from the Celery task's meta) keep the session. A poll exception gives 50% without clearing |
| CvDetailView.GetPdfProgressContext | main/web/views.py:203-254 | context and new session are those of `PdfProgressOutcome` |
| CvDetailView.FinishedTaskReportedOnce | main/web/views.py:221-246 | once a finished task was reported, the next page view shows the idle context |
| CvDetailView.ProgressReadDifferently | main/web/views.py:237-241 | the page shows PROGRESS as processing while `check_pdf_status` calls it failed |
| CvDetailView.AsyncPdfOutcome | main/web/views.py:141-153 | a queued task stores its id and `pdf_processing`, then redirects to the page; a raising enqueue propagates with the session unchanged; other keys are kept |
| CvDetailView.HandleAsyncPdfDownloadRequest | main/web/views.py:141-153 | response and new session are those of `AsyncPdfOutcome` |
| CvDetailView.AsyncRequestShowsStarting | main/web/views.py:146-153 | right after an async request the page shows the Celery task as starting |
| CvDetailView.ServiceClearLeavesProcessingFlag | celery_tasks/services/pdf_service.py:66-68 | the service's clear leaves `pdf_processing` set after an async request |
| CvDetailView.EmailMessages | main/web/views.py:155-163 | one message iff the form has `email` |
| CvDetailView.TranslationStep | main/web/views.py:165-170 | a posted translation is stored under `cv_translations`; without one the session is unchanged; no other key changes; a well-formed stored translation stays well-formed |
| CvDetailView.StoreTranslationFrame | main/web/views.py:170 | storing a translation writes `cv_translations` alone, as a dictionary |
| CvDetailView.AnalysisStep | main/web/views.py:172-177 | nothing happens without `start_analysis`; at most one message |
| CvDetailView.ClearStep | main/web/views.py:179-182 | with `clear_analysis`, none of the four analysis keys remain; other keys are untouched |
| CvDetailView.AnalysisStepFrame | main/web/views.py:172-177 | the analysis step writes only analysis keys |
| CvDetailView.HandledStartFrame | main/web/view_handlers.py:93-99 | `handle_analysis_request` writes only analysis keys, whatever it answers |
| CvDetailView.HandlersOutcome | main/web/views.py:134-137 | the four handlers queue at most two messages, keep the PDF keys and the poll timestamp, leave the posted translation (or the old one) under `cv_translations`, and after `clear_analysis` leave no analysis key |
| CvDetailView.ContextDataOutcome | main/web/views.py:184-201 | the translation, analysis and PDF parts are each what they would be computed alone on the session; the translation is popped; the PDF keys go exactly when the PDF task is seen finished; the language values are listed |
| CvDetailView.GetContextData | main/web/views.py:184-201 | context and new session are those of `ContextDataOutcome` |
| CvDetailView.NoAnalysisStateShowsNothing | main/web/views.py:191-192 | a session without analysis keys renders the empty analysis context |
| CvDetailView.PostOutcome | main/web/views.py:125-139 | an async PDF request bypasses every other handler and keeps all other keys. Otherwise `self.get` renders the page: at most two messages; a posted translation shown in the same response with an empty warning, or else the stored one; `cv_translations` gone afterwards; the PDF part as if nothing had been posted, and the PDF keys removed exactly when the PDF task is seen finished; after `clear_analysis`, an empty analysis and no analysis key |
| CvDetailView.PostRenderFacts | main/web/views.py:134-139 | the render after the handlers shows the PDF part and the translation in terms of the session the request started with |
| CvDetailView.RenderKeepsPdfReport | main/web/views.py:194-195 | after steps that keep the PDF keys, the render reports the PDF task as on the original session |
| CvDetailView.RenderShowsTranslation | main/web/views.py:188-189 | the render shows the translation the handlers stored, or the one held before |
| CvDetailView.StoredAnswerHidesNewQuestion | main/web/views.py:125-139 | with an analysis stored, a new question is accepted and its task id recorded, but the page rendered by that request shows the old answer |
| CvDetailView.HandleTranslationRequest | main/web/views.py:165-170 | the new session is `TranslationStep` of the old |
| CvDetailView.HandleAnalysisRequest | main/web/views.py:172-177 | messages and new session are those of `AnalysisStep` |
| CvDetailView.HandleClearAnalysisRequest | main/web/views.py:179-182 | the new session is `ClearStep` of the old |
| CvDetailView.Post | main/web/views.py:125-139 | response and new session are those of `PostOutcome`, the render included |
| CvDetailView.EditableCvs | main/web/views.py:285-289 | a superuser gets every CV; anyone else gets exactly the CVs they own, every copy, in order |
| CvDetailView.MayEdit | main/web/views.py:287-289 | a user may act on a CV when superuser or its owner |
| CvDetailView.OwnerlessCvOnlyForSuperusers | main/web/views.py:298-302 | a CV whose owner was deleted can be edited or deleted by superusers only |
| ViewHandlers.HandleEmailRequest | main/web/view_handlers.py:21-73 | queued iff the recipient passes the format check; the fallback is tried iff the enqueue error looks like a Redis error; success iff queued or the fallback succeeded; the messages for each case |
| ViewHandlers.EmailFormatValid | main/web/view_handlers.py:34 | the form accepts a recipient with an `@` and a `.` after its last `@` |
| ViewHandlers.IsRedisError | main/web/view_handlers.py:57 | an enqueue error counts as a lost Redis connection when it names the closed connection or contains `redis` in any case |
| ViewHandlers.TranslationDict | main/web/view_handlers.py:86-91 | keys `lang`, `enabled` and the translated fields, each the provider's translation |
| ViewHandlers.HandleTranslationRequest | main/web/view_handlers.py:75-91 | a dictionary iff the stripped language is a non-empty `Language` value, and then the one for that value |
| ViewHandlers.HandleAnalysisRequestOutcome | main/web/view_handlers.py:93-99 | a blank question is refused with the session unchanged; otherwise the service gets the stripped question |
| ViewHandlers.HandleAnalysisRequest | main/web/view_handlers.py:93-99 | result and new session are those of `HandleAnalysisRequestOutcome` |
| ViewHandlers.AnalysisRequestErrors | main/web/view_handlers.py:93-99 | the only errors are the blank-question refusal, "already in progress" or the enqueue's own error; the service's "Question is required" never reaches the form |
| ViewHandlers.AnalysisQuestionStoredStripped | main/web/view_handlers.py:95-99 | an accepted question is stored stripped |
| ViewHandlers.TranslationContextOutcome | main/web/view_handlers.py:109-118 | `cv_translations` is popped; nothing is shown iff it was falsy; the warning is `''` when `enabled` is truthy |
| ViewHandlers.GetTranslationContext | main/web/view_handlers.py:109-118 | context and new session are those of `TranslationContextOutcome` |
| ViewHandlers.TranslationShownOnce | main/web/view_handlers.py:111 | a second call shows nothing |
| ViewHandlers.StoredTranslationHasNoWarning | main/web/view_handlers.py:86-91 | a translation stored by the form is shown with an empty warning |
| ViewHandlers.TranslationDictHasNoWarning | main/web/view_handlers.py:86-91 | the stored dictionary has `lang` and never a `warning` entry |
| EmailService.SendCvPdf | celery_tasks/services/email_service.py:17-35 | refused iff the recipient is missing, empty or lacks `@`; otherwise the enqueue decides between success and its error |
| EmailService.RecipientAccepted | celery_tasks/services/email_service.py:28 | the service accepts a present, non-empty recipient containing `@` |
| EmailService.FormCheckImpliesServiceCheck | celery_tasks/services/email_service.py:28-29 | every recipient the form accepts, the service accepts |
| EmailService.ServiceCheckIsWeaker | celery_tasks/services/email_service.py:28-29 | `a@b` passes the service's check but not the form's |
| Services.SortColumn | main/services.py:37-39 | a valid sort field is kept; anything else becomes `created_at` |
| Services.SortField | main/services.py:41-44 | `asc` gives the column; any other order gives `-` plus the column |
| Services.SortFieldDeterminesRequest | main/services.py:37-44 | two requests give the same ordering iff they name the same column and both are, or both are not, ascending |
| Services.CvFields | main/services.py:176-181 | exactly the five keys; the name is first and last name; missing texts are `''` |
| Services.TranslateCv | main/services.py:174-183 | the five keys, each the provider's translation of the field; the flag is the provider's |
| Services.OpenAITranslate | main/services.py:144-167 | without a client the text is returned; any other result is the client's non-empty output |
| Services.AsTranslationProvider | main/services.py:141-167 | enabled iff there is a client; translating is `OpenAITranslate` |
| Services.UnconfiguredTranslationIsIdentity | main/services.py:145-146 | without a client, `translate_cv` returns the CV's own texts and `False` |
| Services.OpenAIAnalyze | main/services.py:227-262 | without a client the fixed "not available" text; the client's errors become `Analysis failed: ...` |
| Services.AsAnalysisProvider | main/services.py:224-262 | enabled iff there is a client; it never raises |
| Services.AnalyzeCv | main/services.py:271-292 | the provider's answer with its flag, or `Analysis failed: ` plus the message with `False` when it raises |
| Services.CvContent | main/services.py:275-281 | the prompt text: name, then bio, skills, projects and contacts, each `Not provided` when empty |
| Services.UnconfiguredAnalysisIsUnavailable | main/services.py:228-229 | without a client the answer is the fixed "not available" text, reported as disabled |
| Services.ApiErrorReportedAsEnabled | main/services.py:258-262 | an OpenAI error is reported as an answer, with the flag `True` |
| TimeFilter.ParseIsoDatetime | main/common/time.py:22-30 | nothing for a missing or empty value, otherwise what the parser gives |
| TimeFilter.PresetToRange | main/common/time.py:37-46 | a range iff the preset is a non-empty `TimePreset` value; it ends now and starts the preset's delta earlier |
| TimeFilter.TimeWindow | main/common/time.py:49-55 | explicit bounds that parse win; the preset applies only when neither parsed |
| TimeFilter.Kept | main/common/time.py:56-59 | exactly the records of the input whose timestamp lies within both inclusive bounds, each as many times as it occurs |
| TimeFilter.IdenticalRowsBothKept | main/common/time.py:56-59 | two identical in-window request logs are both kept |
| TimeFilter.Insert | main/common/time.py:60-66 | inserting into an ordered sequence keeps it ordered and adds exactly one element |
| TimeFilter.Sort | main/common/time.py:60-66 | the result is ordered and a permutation of the input |
| TimeFilter.SortKeepsSorted | main/common/time.py:60-66 | an ordered sequence is left as it is |
| TimeFilter.FilterQuerysetByTime | main/common/time.py:49-66 | exactly the records inside the inclusive window, each as many times as it occurs, a permutation of the filtered input, ordered as requested (descending unless the order is the ASC value) |
| TimeFilter.PresetIgnoredWithExplicitBounds | main/common/time.py:52-55 | with an explicit bound, the preset plays no part |
| TimeFilter.PresetOnlyWindow | main/common/time.py:52-59 | with no explicit bound, a known preset gives the inclusive window from its delta before now up to now |
| TimeFilter.FilterTwiceIsFilterOnce | main/api/views.py:29-35 | with explicit bounds, filtering the result again changes nothing, whenever the clock is read |
| TimeFilter.PresetFilteredTwice | main/api/views.py:29-35 | with only a preset, the second pass keeps exactly the records between the later window start and the earlier end |
| CvFilters.FilterCvsByQuery | main/filters/cv_filters.py:6-10 | a blank query keeps everything; otherwise exactly the CVs whose first or last name contains the stripped query, ignoring case, every copy, in order |
| CvFilters.Matches | main/filters/cv_filters.py:10 | a CV matches when its first or last name contains the query, ignoring case |
| CvFilters.SearchIdempotent | main/filters/cv_filters.py:6-10 | searching twice equals searching once |
| CvFilters.QueryNormalised | main/filters/cv_filters.py:7 | blanks around the query do not matter |
| CeleryTranslation.GetLanguageCode | celery_tasks/services/translation_service.py:72-152 | always two lower-case letters; `en` for an unlisted name |
| CeleryTranslation.TableFrom20 | celery_tasks/services/translation_service.py:95-152 | the table's entries 20 to 74: two lower-case letters; `en` for an unlisted name |
| CeleryTranslation.TableFrom39 | celery_tasks/services/translation_service.py:114-152 | the table's entries 39 to 74: two lower-case letters; `en` for an unlisted name |
| CeleryTranslation.TableFrom58 | celery_tasks/services/translation_service.py:133-152 | the table's entries 58 to 74: two lower-case letters; `en` for an unlisted name |
| CeleryTranslation.GetAvailableLanguages | celery_tasks/services/translation_service.py:68-70 | the `Language` values in declaration order |
| CeleryTranslation.ResolvedLanguage | celery_tasks/services/translation_service.py:32-51 | unresolved iff no member matches partially; an exact match, if any, wins and is the first one |
| CeleryTranslation.NameMatch | celery_tasks/services/translation_service.py:35 | a member matches by name when its value equals the target, ignoring case |
| CeleryTranslation.PartialMatch | celery_tasks/services/translation_service.py:46 | a member matches partially when either of the two contains the other, ignoring case |
| CeleryTranslation.UppercaseLookupIsRedundant | celery_tasks/services/translation_service.py:40-42 | resolution is the same without the lookup by `target.upper()` |
| CeleryTranslation.ListedLanguageResolves | celery_tasks/services/translation_service.py:32-37 | every listed value resolves to a member equal to it up to case |
| CeleryTranslation.BlankTargetResolvesToFirst | celery_tasks/services/translation_service.py:43-48 | an empty target resolves to the first language |
| CeleryTranslation.ResolveLanguage | celery_tasks/services/translation_service.py:32-48 | the resolution loops, with their early exits, settle on `ResolvedLanguage` |
| CeleryTranslation.FirstSuccess | celery_tasks/services/translation_service.py:53-66 | enabled iff some provider gave a non-empty result; the translations are the first such result, or empty |
| CeleryTranslation.RunProviders | celery_tasks/services/translation_service.py:53-66 | the loop with `try`, `break` and `continue` ends in `FirstSuccess` |
| CeleryTranslation.GoogleTranslate | celery_tasks/services/translation_service.py:154-167 | keys are the four fields, `lang` and `lang_code`; each field is its text behind the `[code] ` tag |
| CeleryTranslation.TaggedFields | celery_tasks/services/translation_service.py:160-167 | exactly the four fields, `lang` and `lang_code`; each field is its text behind the tag of the given code |
| CeleryTranslation.GoogleTagReadsBack | celery_tasks/services/translation_service.py:160-167 | dropping the tag gives back the field's text |
| CeleryTranslation.TranslateCvOutcome | celery_tasks/services/translation_service.py:21-66 | a language that does not resolve gives `({}, False)`; one that resolves gives google's output for the member's value and `True` |
| CeleryTranslation.TranslateCv | celery_tasks/services/translation_service.py:21-66 | the method's result is `TranslateCvOutcome` |
| CeleryTranslation.TranslatedIffResolved | celery_tasks/services/translation_service.py:50-66 | translated iff some language matches the target partially |
| Permissions.CheckerIsReadOnly | main/api/permissions.py:15-21 | an unsafe method is never allowed to a checker |
| Permissions.IsAdmin | main/api/permissions.py:10-12 | `IsAdmin` grants a present user with the staff flag |
| Permissions.IsCVChecker | main/api/permissions.py:15-21 | `IsCVChecker` grants an authenticated user using a safe method |
| Permissions.HasPermission | main/api/permissions.py:34-38 | `IsCVOwnerOrReadOnly.has_permission` grants an authenticated user, on either branch |
| Permissions.HasObjectPermission | main/api/permissions.py:27-32 | a safe method needs authentication; any other method needs a CV whose owner id is the user's id |
| Permissions.AdminNeedsStaff | main/api/permissions.py:10-12 | a present user is an admin iff staff, with or without authentication; no user is no admin |
| Permissions.HasPermissionIgnoresMethod | main/api/permissions.py:34-38 | `has_permission` is authentication, whatever the method |
| Permissions.OwnerOrReadOnlyGuarded | main/api/permissions.py:24-38 | both checks pass iff the user is authenticated and the method is safe or the object is a CV the user owns |
| Permissions.OthersCvIsReadOnly | main/api/permissions.py:27-32 | on another user's CV only safe methods pass |
| Permissions.OwnerlessCvObjectCheck | main/api/permissions.py:30-31 | an id-less user passes the object check on an ownerless CV, yet fails `has_permission` |
| RequestLogging.RemoteIp | main/middleware/request_logging.py:29 | the stripped first `X-Forwarded-For` hop when non-blank, else `REMOTE_ADDR`; never an empty address |
| RequestLogging.FirstForwardedHop | main/middleware/request_logging.py:29 | with `client, proxies...` the client's address is recorded |
| RequestLogging.BeforeFirstOfJoin | main/middleware/request_logging.py:29 | splitting at the first comma gives back the text before it |
| RequestLogging.LoggedUser | main/middleware/request_logging.py:28 | the user's id only when the request user is authenticated |
| RequestLogging.LogRow | main/middleware/request_logging.py:30-36 | the row holds the method, path, query string, address and user of the request |
| RequestLogging.CallOutcome | main/middleware/request_logging.py:18-40 | an `/api/` exception propagates and another gives the 500 page, both without a row; an answered request is returned unchanged; its row is appended unless writing it fails |
| RequestLogging.RequestLogTable.Create | main/middleware/request_logging.py:30-36 | appends the row, or nothing when writing fails |
| RequestLogging.LogRequest | main/middleware/request_logging.py:27-39 | the table gains the request's row unless writing fails |
| RequestLogging.Call | main/middleware/request_logging.py:18-40 | result and table are those of `CallOutcome` |
| RequestLogging.OnlyAnsweredRequestsLogged | main/middleware/request_logging.py:18-40 | a row is added iff the request was answered and writing succeeded |

## Left out

- Rendering: templates, xhtml2pdf PDF bytes and the file writes. `ServerErrorPage` only stands for the rendered 500 page.
- Outbound services: OpenAI prompts and calls, SendGrid and SMTP delivery. `_send_email_directly` (main/web/view_handlers.py:120-174) is an input: whether it reports success.
- The Celery machinery: the broker, `AsyncResult`, `.delay` and retries. Task states and payloads are inputs. The CV id passed to a task is not recorded.
- `session.save()`. Django persists a modified session anyway, so it changes nothing the model states.
- `handle_clear_analysis_request` and `get_analysis_context` of the handler. Both delegate straight to `AnalysisService.clear_analysis` / `get_analysis_context`, which are modelled.
- `DetailView.get_context_data`'s own entries (the CV object and the view) and `get_object`'s lookup. The model takes the CV as a parameter, and `get_context_data`'s page context holds only the four entries it adds.
- CvDetailView.PostOutcome: the render requires the session to hold a dictionary (or nothing falsy) under `cv_translations` and a number (or nothing) under `analysis_last_check`. Only this application writes those keys, and the page's reads depend on it. A session that breaks this is not modelled.
- Logging calls. The middleware's `logger.exception` and `logger.debug` have no effect the model can see.
- The enum classes of main/enums.py, which are not part of this model. Their members are parameters. An enum member found by lookup is taken as truthy. `TimeFilter.PresetsCovered` takes every `TimePreset` member to have an entry in `_PRESET_TO_DELTA`, as the four members listed at main/api/views.py:57 do; the `KeyError` a member without one would raise is not modelled.
- Text.Lower: ASCII case mapping only. Python's `lower()` and `upper()` also map non-ASCII letters (`Text.Strip` does use Python's full whitespace set). Every case-insensitive comparison in the model inherits this.
- TimeFilter.Sort: ties are kept in input order. The database leaves the order of equal timestamps open, so for ties the model fixes one of the orders the source allows.
- TimeFilter.ParseIsoDatetime: `parse_datetime` and the timezone handling of aware and naive datetimes are an oracle `string -> Option<int>`, and `current_time()` is the parameter `now`. The `ValueError` `parse_datetime` raises on a well-formed but impossible date (`2025-13-45T00:00:00`), which the view answers with a server error, is not modelled: the oracle only parses or gives nothing.
- AnalysisService.GetAnalysisContextOutcome: `time.time()` is the parameter `now` (a real). Float rounding is not modelled.
- PdfService.GenerateCvPdfDownload: the random `uuid4()` is a parameter, and rendering and writing the file collapse into one optional failure message.
- CeleryTranslation.GetLanguageCode: the table is modelled as a match on the name. That every listed name other than English maps to a code other than `en` is not proved.
- Services.OpenAIAnalyze: a response whose `output_text` attribute is present but `None` makes `analyze_cv` return `None`, not a string; the model's `Output(None)` stands for a missing attribute only, which gives `'Analysis not available.'`. For `translate` the two cases agree (`out or text`).
- DRF's composition of permission classes, and what DRF does with an exception that propagates from `/api/`.
