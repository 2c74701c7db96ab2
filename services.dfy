/**
 * The web application's service layer (main/services.py): the sort key of the CV listing,
 * the five-field CV translation, the OpenAI translation and analysis providers and their
 * fallbacks, and the analysis service's error path.
 */
module Services {
  import opened Wrappers
  import opened Text
  import opened Models

  // ---------------------------------------------------------------------------------------
  // CVRepository.get_all_lightweight_sorted
  // ---------------------------------------------------------------------------------------

  const ValidSortFields: set<string> := {"created_at", "updated_at", "firstname", "lastname"}

  /** The column the listing sorts by: an unknown one falls back to `created_at`. */
  function SortColumn(sortBy: string): (r: string)
    ensures r in ValidSortFields
    ensures sortBy in ValidSortFields ==> r == sortBy
    ensures sortBy !in ValidSortFields ==> r == "created_at"
  {
    if sortBy in ValidSortFields then sortBy else "created_at"
  }

  /** The `order_by` argument: the column, with a `-` prefix unless the order is exactly `asc`. */
  function SortField(sortBy: string, order: string): (r: string)
    ensures order == "asc" ==> r == SortColumn(sortBy)
    ensures order != "asc" ==> |r| > 1 && r[0] == '-' && r[1..] == SortColumn(sortBy)
  {
    if order == "asc" then SortColumn(sortBy) else "-" + SortColumn(sortBy)
  }

  /**
   * The `order_by` argument determines the column and the direction the caller asked for:
   * two requests give the same argument exactly when they name the same column (after the
   * fallback) and agree on whether the order is `asc`.
   */
  lemma SortFieldDeterminesRequest(a: string, o: string, b: string, p: string)
    ensures SortField(a, o) == SortField(b, p) <==>
              SortColumn(a) == SortColumn(b) && (o == "asc" <==> p == "asc")
  {
    var x, y := SortField(a, o), SortField(b, p);
    if x == y && o != "asc" && p != "asc" {
      assert x[1..] == y[1..];
    }
  }

  // ---------------------------------------------------------------------------------------
  // Translation
  // ---------------------------------------------------------------------------------------

  /** A `TranslationProvider`: its `translate(text, target)` and its `is_enabled()`. */
  datatype TranslationProvider = TranslationProvider(translate: (string, string) -> string, enabled: bool)

  /** `value or default` on an optional text column. */
  function OrText(v: Option<string>, default: string): (r: string)
    ensures v.Some? && v.value != "" ==> r == v.value
    ensures v.None? || v.value == "" ==> r == default
  {
    if v.Some? && v.value != "" then v.value else default
  }

  const TranslatedKeys: set<string> := {"name", "bio", "skills", "projects", "contacts"}

  /** The five texts `translate_cv` sends to the provider. */
  function CvFields(cv: Cv): (r: map<string, string>)
    ensures r.Keys == TranslatedKeys
    ensures r["name"] == cv.firstname + " " + cv.lastname
    ensures r["bio"] == OrText(cv.bio, "") && r["skills"] == OrText(cv.skills, "")
    ensures r["projects"] == OrText(cv.projects, "") && r["contacts"] == OrText(cv.contacts, "")
  {
    map[
      "name" := cv.firstname + " " + cv.lastname,
      "bio" := OrText(cv.bio, ""),
      "skills" := OrText(cv.skills, ""),
      "projects" := OrText(cv.projects, ""),
      "contacts" := OrText(cv.contacts, "")]
  }

  /**
   * `TranslationService.translate_cv`: every one of the five fields goes through the
   * provider, and the flag is the provider's.
   */
  function TranslateCv(cv: Cv, target: string, provider: TranslationProvider): (r: (map<string, string>, bool))
    ensures r.0.Keys == TranslatedKeys
    ensures forall k :: k in r.0 ==> r.0[k] == provider.translate(CvFields(cv)[k], target)
    ensures r.1 == provider.enabled
  {
    var fields := CvFields(cv);
    (map k | k in fields :: provider.translate(fields[k], target), provider.enabled)
  }

  /**
   * What one `responses.create` call gives: its `output_text` (`None` when the response has
   * no such attribute) or the message of the exception it raised. A response whose
   * `output_text` is present but `None` is not among these.
   */
  datatype ApiReply = Output(text: Option<string>) | ApiRaised(message: string)

  /**
   * An OpenAI provider; `client` is `None` when no API key is configured or the client
   * could not be built, and otherwise answers (text, instruction argument) pairs.
   */
  datatype OpenAIProvider = OpenAIProvider(client: Option<(string, string) -> ApiReply>)

  /** `is_enabled()`: whether a client was built. */
  predicate OpenAIEnabled(p: OpenAIProvider) {
    p.client.Some?
  }

  /**
   * `OpenAITranslationProvider.translate`: the input text comes back unchanged without a
   * client, on an empty or missing output, and on an error; otherwise the output does.
   */
  function OpenAITranslate(p: OpenAIProvider, text: string, target: string): (r: string)
    ensures !OpenAIEnabled(p) ==> r == text
    ensures OpenAIEnabled(p) ==>
              match p.client.value(text, target)
              case Output(Some(out)) => r == (if out == "" then text else out)
              case _ => r == text
    ensures r != text ==> OpenAIEnabled(p) && p.client.value(text, target) == Output(Some(r))
  {
    match p.client
    case None => text
    case Some(call) =>
      match call(text, target)
      case Output(Some(out)) => if out != "" then out else text
      case Output(None) => text
      case ApiRaised(_) => text
  }

  /** The OpenAI translator behind the `TranslationProvider` protocol. */
  function AsTranslationProvider(p: OpenAIProvider): (r: TranslationProvider)
    ensures r.enabled == OpenAIEnabled(p)
    ensures forall t, l :: r.translate(t, l) == OpenAITranslate(p, t, l)
  {
    TranslationProvider((t, l) => OpenAITranslate(p, t, l), OpenAIEnabled(p))
  }

  /** Without a client, `translate_cv` hands back the CV's own texts and reports `False`. */
  lemma UnconfiguredTranslationIsIdentity(cv: Cv, target: string, p: OpenAIProvider)
    requires !OpenAIEnabled(p)
    ensures TranslateCv(cv, target, AsTranslationProvider(p)) == (CvFields(cv), false)
  {
    var fields := CvFields(cv);
    var provider := AsTranslationProvider(p);
    var r := TranslateCv(cv, target, provider);
    forall k | k in r.0
      ensures r.0[k] == fields[k]
    {
      assert r.0[k] == provider.translate(fields[k], target) == OpenAITranslate(p, fields[k], target);
    }
    assert r.0 == fields;
  }

  // ---------------------------------------------------------------------------------------
  // Analysis
  // ---------------------------------------------------------------------------------------

  const AnalysisUnavailable := "CV analysis is not available. Please configure OpenAI API key."

  /**
   * `OpenAICVAnalysisProvider.analyze_cv`: the fixed "not available" text without a client,
   * the output text, `'Analysis not available.'` when the response has none, and
   * `'Analysis failed: '` and the message on an error. It never raises.
   */
  function OpenAIAnalyze(p: OpenAIProvider, content: string, question: string): (r: string)
    ensures !OpenAIEnabled(p) ==> r == AnalysisUnavailable
    ensures OpenAIEnabled(p) ==>
              match p.client.value(content, question)
              case Output(Some(out)) => r == out
              case Output(None) => r == "Analysis not available."
              case ApiRaised(msg) => r == "Analysis failed: " + msg
  {
    match p.client
    case None => AnalysisUnavailable
    case Some(call) =>
      match call(content, question)
      case Output(Some(out)) => out
      case Output(None) => "Analysis not available."
      case ApiRaised(msg) => "Analysis failed: " + msg
  }

  /**
   * A `CVAnalysisProvider` with its `is_enabled()`; `analyze` gives the answer, or the
   * message of the exception the provider raised.
   */
  datatype AnalysisProvider = AnalysisProvider(analyze: (string, string) -> Result<string, string>, enabled: bool)

  /** The OpenAI analyser behind the `CVAnalysisProvider` protocol; it never raises. */
  function AsAnalysisProvider(p: OpenAIProvider): (r: AnalysisProvider)
    ensures r.enabled == OpenAIEnabled(p)
    ensures forall c, q :: r.analyze(c, q) == Ok(OpenAIAnalyze(p, c, q))
  {
    AnalysisProvider((c, q) => Ok(OpenAIAnalyze(p, c, q)), OpenAIEnabled(p))
  }

  /** The CV text `CVAnalysisService.analyze_cv` hands to the provider. */
  function CvContent(cv: Cv): string {
    "\n            Name: " + cv.firstname + " " + cv.lastname
    + "\n            Bio: " + OrText(cv.bio, "Not provided")
    + "\n            Skills: " + OrText(cv.skills, "Not provided")
    + "\n            Projects: " + OrText(cv.projects, "Not provided")
    + "\n            Contacts: " + OrText(cv.contacts, "Not provided")
    + "\n            "
  }

  /**
   * `CVAnalysisService.analyze_cv`: the provider's answer over the CV's content with the
   * provider's flag, or `('Analysis failed: ' + msg, False)` when the provider raises.
   */
  function AnalyzeCv(cv: Cv, question: string, provider: AnalysisProvider): (r: (string, bool))
    ensures provider.analyze(CvContent(cv), question).Ok? ==>
              r == (provider.analyze(CvContent(cv), question).value, provider.enabled)
    ensures provider.analyze(CvContent(cv), question).Err? ==>
              r == ("Analysis failed: " + provider.analyze(CvContent(cv), question).error, false)
    ensures r.1 ==> provider.enabled
  {
    match provider.analyze(CvContent(cv), question)
    case Ok(answer) => (answer, provider.enabled)
    case Err(msg) => ("Analysis failed: " + msg, false)
  }

  /** Without a client the analysis is the fixed "not available" text, reported as disabled. */
  lemma UnconfiguredAnalysisIsUnavailable(cv: Cv, question: string, p: OpenAIProvider)
    requires !OpenAIEnabled(p)
    ensures AnalyzeCv(cv, question, AsAnalysisProvider(p)) == (AnalysisUnavailable, false)
  {
  }

  /**
   * With the OpenAI provider an error of the API call reaches the caller as the same
   * `'Analysis failed: '` text as an exception the service catches, but with the flag the
   * provider reports, which is `True`.
   */
  lemma ApiErrorReportedAsEnabled(cv: Cv, question: string, p: OpenAIProvider, msg: string)
    requires OpenAIEnabled(p) && p.client.value(CvContent(cv), question) == ApiRaised(msg)
    ensures AnalyzeCv(cv, question, AsAnalysisProvider(p)) == ("Analysis failed: " + msg, true)
  {
  }
}
