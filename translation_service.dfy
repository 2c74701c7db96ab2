/**
 * `TranslationService` of the Celery task layer (celery_tasks/services/translation_service.py): the
 * staged resolution of a target language against the `Language` members, the first-success
 * chain over the google, microsoft and openai providers, and the language-code table.
 */
module CeleryTranslation {
  import opened Text
  import opened Wrappers
  import opened Models
  import Enums

  // ---------------------------------------------------------------------------------------
  // get_language_code / get_available_languages
  // ---------------------------------------------------------------------------------------

  /** The names listed in `get_language_code`'s table. */
  const TableNames: set<string> := {
    "English", "Spanish", "French", "German", "Italian", "Portuguese", "Russian", "Chinese",
    "Japanese", "Korean", "Arabic", "Hindi", "Dutch", "Swedish", "Norwegian", "Danish",
    "Finnish", "Polish", "Czech", "Hungarian", "Romanian", "Bulgarian", "Croatian", "Serbian",
    "Slovak", "Slovenian", "Greek", "Turkish", "Hebrew", "Persian", "Urdu", "Bengali",
    "Tamil", "Telugu", "Marathi", "Gujarati", "Kannada", "Malayalam", "Punjabi", "Ukrainian",
    "Belarusian", "Lithuanian", "Latvian", "Estonian", "Georgian", "Armenian", "Azerbaijani",
    "Kazakh", "Uzbek", "Kyrgyz", "Tajik", "Turkmen", "Mongolian", "Thai", "Vietnamese",
    "Indonesian", "Malay", "Tagalog", "Swahili", "Amharic", "Yoruba", "Igbo", "Hausa", "Zulu",
    "Afrikaans", "Albanian", "Maltese", "Icelandic", "Irish", "Welsh", "Scottish Gaelic",
    "Basque", "Catalan", "Galician"
  }

  /** Two lower-case ASCII letters. */
  predicate CodeShaped(code: string) {
    |code| == 2 && 'a' <= code[0] <= 'z' && 'a' <= code[1] <= 'z'
  }

  /**
   * `get_language_code`: the table's two-letter code for a listed name, `'en'` for a name
   * the table does not list. The 74 entries are looked up in four runs of at most 19, in
   * the table's order, each run handing an unlisted name on to the next.
   */
  function GetLanguageCode(languageName: string): (r: string)
    ensures CodeShaped(r)
    ensures languageName !in TableNames ==> r == "en"
  {
    match languageName
    case "English" => "en"
    case "Spanish" => "es"
    case "French" => "fr"
    case "German" => "de"
    case "Italian" => "it"
    case "Portuguese" => "pt"
    case "Russian" => "ru"
    case "Chinese" => "zh"
    case "Japanese" => "ja"
    case "Korean" => "ko"
    case "Arabic" => "ar"
    case "Hindi" => "hi"
    case "Dutch" => "nl"
    case "Swedish" => "sv"
    case "Norwegian" => "no"
    case "Danish" => "da"
    case "Finnish" => "fi"
    case "Polish" => "pl"
    case "Czech" => "cs"
    case _ => TableFrom20(languageName)
  }

  /** The language-code table from its entry 20 on. */
  function TableFrom20(languageName: string): (r: string)
    ensures CodeShaped(r)
    ensures languageName !in TableNames ==> r == "en"
  {
    match languageName
    case "Hungarian" => "hu"
    case "Romanian" => "ro"
    case "Bulgarian" => "bg"
    case "Croatian" => "hr"
    case "Serbian" => "sr"
    case "Slovak" => "sk"
    case "Slovenian" => "sl"
    case "Greek" => "el"
    case "Turkish" => "tr"
    case "Hebrew" => "he"
    case "Persian" => "fa"
    case "Urdu" => "ur"
    case "Bengali" => "bn"
    case "Tamil" => "ta"
    case "Telugu" => "te"
    case "Marathi" => "mr"
    case "Gujarati" => "gu"
    case "Kannada" => "kn"
    case "Malayalam" => "ml"
    case _ => TableFrom39(languageName)
  }

  /** The language-code table from its entry 39 on. */
  function TableFrom39(languageName: string): (r: string)
    ensures CodeShaped(r)
    ensures languageName !in TableNames ==> r == "en"
  {
    match languageName
    case "Punjabi" => "pa"
    case "Ukrainian" => "uk"
    case "Belarusian" => "be"
    case "Lithuanian" => "lt"
    case "Latvian" => "lv"
    case "Estonian" => "et"
    case "Georgian" => "ka"
    case "Armenian" => "hy"
    case "Azerbaijani" => "az"
    case "Kazakh" => "kk"
    case "Uzbek" => "uz"
    case "Kyrgyz" => "ky"
    case "Tajik" => "tg"
    case "Turkmen" => "tk"
    case "Mongolian" => "mn"
    case "Thai" => "th"
    case "Vietnamese" => "vi"
    case "Indonesian" => "id"
    case "Malay" => "ms"
    case _ => TableFrom58(languageName)
  }

  /** The language-code table from its entry 58 on. */
  function TableFrom58(languageName: string): (r: string)
    ensures CodeShaped(r)
    ensures languageName !in TableNames ==> r == "en"
  {
    match languageName
    case "Tagalog" => "tl"
    case "Swahili" => "sw"
    case "Amharic" => "am"
    case "Yoruba" => "yo"
    case "Igbo" => "ig"
    case "Hausa" => "ha"
    case "Zulu" => "zu"
    case "Afrikaans" => "af"
    case "Albanian" => "sq"
    case "Maltese" => "mt"
    case "Icelandic" => "is"
    case "Irish" => "ga"
    case "Welsh" => "cy"
    case "Scottish Gaelic" => "gd"
    case "Basque" => "eu"
    case "Catalan" => "ca"
    case "Galician" => "gl"
    case _ => "en"
  }


  /** `get_available_languages`: the member values, in declaration order. */
  function GetAvailableLanguages(languages: seq<Enums.Member>): (r: seq<string>)
    ensures |r| == |languages|
    ensures forall i :: 0 <= i < |r| ==> r[i] == languages[i].value
  {
    Enums.Values(languages)
  }

  // ---------------------------------------------------------------------------------------
  // Language resolution in translate_cv
  // ---------------------------------------------------------------------------------------

  /** Stage one: the member's value equals the target, ignoring case. */
  predicate NameMatch(target: string, m: Enums.Member) {
    Lower(m.value) == Lower(target)
  }

  /** Stage three: one of the two contains the other, ignoring case. */
  predicate PartialMatch(target: string, m: Enums.Member) {
    Contains(Lower(target), Lower(m.value)) || Contains(Lower(m.value), Lower(target))
  }

  lemma ContainsItself(s: string)
    ensures Contains(s, s)
  {
    assert s[..|s|] == s;
  }

  /** A stage-one match is a stage-three match. */
  lemma NameMatchIsPartialMatch(target: string, m: Enums.Member)
    requires NameMatch(target, m)
    ensures PartialMatch(target, m)
  {
    ContainsItself(Lower(target));
  }

  /**
   * The member `translate_cv` settles on: the first exact match ignoring case, else the
   * member whose value is `target.upper()`, else the first partial match; `None` when the
   * language cannot be resolved.
   */
  function ResolvedLanguage(languages: seq<Enums.Member>, target: string): (r: Option<nat>)
    ensures r.Some? ==> r.value < |languages|
    ensures r.None? <==> forall j :: 0 <= j < |languages| ==> !PartialMatch(target, languages[j])
    ensures r.Some? ==> PartialMatch(target, languages[r.value])
    ensures (exists j :: 0 <= j < |languages| && NameMatch(target, languages[j])) ==>
              r.Some? && NameMatch(target, languages[r.value])
              && forall j :: 0 <= j < r.value ==> !NameMatch(target, languages[j])
  {
    match Enums.FirstWhere(languages, (m: Enums.Member) => NameMatch(target, m))
    case Some(i) =>
      NameMatchIsPartialMatch(target, languages[i]);
      Some(i)
    case None =>
      match Enums.ByValue(languages, Upper(target))
      case Some(i) =>
        LowerOfUpper(target);
        NameMatchIsPartialMatch(target, languages[i]);
        Some(i)
      case None =>
        Enums.FirstWhere(languages, (m: Enums.Member) => PartialMatch(target, m))
  }

  /**
   * For an ASCII target the lookup by `target.upper()` never decides anything: whenever it
   * would find a member, the case-insensitive comparison before it has already found one.
   * (`Upper` and `Lower` map ASCII letters only; Python's full Unicode case mapping is not
   * modelled, so for other targets this is a statement about the model alone.)
   */
  lemma {:induction false} UppercaseLookupIsRedundant(languages: seq<Enums.Member>, target: string)
    ensures ResolvedLanguage(languages, target)
            == match Enums.FirstWhere(languages, (m: Enums.Member) => NameMatch(target, m))
               case Some(i) => Some(i)
               case None => Enums.FirstWhere(languages, (m: Enums.Member) => PartialMatch(target, m))
  {
    if Enums.FirstWhere(languages, (m: Enums.Member) => NameMatch(target, m)).None? {
      var byValue := Enums.ByValue(languages, Upper(target));
      if byValue.Some? {
        LowerOfUpper(target);
        assert NameMatch(target, languages[byValue.value]);
        assert false;
      }
    }
  }

  /** Every listed language value resolves to a member with the same value up to case. */
  lemma ListedLanguageResolves(languages: seq<Enums.Member>, i: nat)
    requires i < |languages|
    ensures var r := ResolvedLanguage(languages, languages[i].value);
            r.Some? && Lower(languages[r.value].value) == Lower(languages[i].value)
  {
    assert NameMatch(languages[i].value, languages[i]);
  }

  /**
   * A blank target is not refused: when no member's value is empty, it matches the first
   * member partially, since the empty string is contained in every string.
   */
  lemma {:induction false} BlankTargetResolvesToFirst(languages: seq<Enums.Member>)
    requires |languages| > 0
    requires forall j :: 0 <= j < |languages| ==> languages[j].value != ""
    ensures ResolvedLanguage(languages, "") == Some(0)
  {
    assert Lower("") == "" && Upper("") == "";
    assert forall j :: 0 <= j < |languages| ==> |Lower(languages[j].value)| > 0;
    assert StartsWith(Lower(languages[0].value), "");
    assert PartialMatch("", languages[0]);
  }

  /** `translate_cv`'s three loops over `Language`, proved to settle on `ResolvedLanguage`. */
  method ResolveLanguage(languages: seq<Enums.Member>, target: string) returns (r: Option<nat>)
    ensures r == ResolvedLanguage(languages, target)
  {
    var i := 0;
    while i < |languages|
      invariant 0 <= i <= |languages|
      invariant forall j :: 0 <= j < i ==> !NameMatch(target, languages[j])
    {
      if NameMatch(target, languages[i]) {
        return Some(i);
      }
      i := i + 1;
    }
    var byValue := Enums.ByValue(languages, Upper(target));
    if byValue.Some? {
      return byValue;
    }
    i := 0;
    while i < |languages|
      invariant 0 <= i <= |languages|
      invariant forall j :: 0 <= j < i ==> !PartialMatch(target, languages[j])
    {
      if PartialMatch(target, languages[i]) {
        return Some(i);
      }
      i := i + 1;
    }
    return None;
  }

  // ---------------------------------------------------------------------------------------
  // The provider chain in translate_cv
  // ---------------------------------------------------------------------------------------

  /** What a provider's `translate_func(cv, language)` does. */
  datatype ProviderResult = Gave(entries: map<string, string>) | GaveNone | ProviderRaised(message: string)

  /** `if result:` on what a provider returned: a non-empty dictionary. */
  predicate Succeeded(p: ProviderResult) {
    p.Gave? && |p.entries| > 0
  }

  /**
   * The translations and flag the chain ends with: the first non-empty result with `True`,
   * or `({}, False)` when every provider gave nothing or raised.
   */
  function FirstSuccess(results: seq<ProviderResult>): (r: (map<string, string>, bool))
    ensures r.1 <==> exists i :: 0 <= i < |results| && Succeeded(results[i])
    ensures !r.1 ==> r.0 == map[]
    ensures r.1 ==> exists i :: 0 <= i < |results| && Succeeded(results[i]) && r.0 == results[i].entries
                      && forall j :: 0 <= j < i ==> !Succeeded(results[j])
  {
    if results == [] then (map[], false)
    else if Succeeded(results[0]) then (results[0].entries, true)
    else
      var r := FirstSuccess(results[1..]);
      assert forall i :: 1 <= i < |results| ==> results[i] == results[1..][i - 1];
      r
  }

  /** The `for provider_name, translate_func in ...` loop with its `try`, `break` and `continue`. */
  method RunProviders(results: seq<ProviderResult>) returns (translations: map<string, string>, enabled: bool)
    ensures (translations, enabled) == FirstSuccess(results)
  {
    translations, enabled := map[], false;
    var i := 0;
    while i < |results|
      invariant 0 <= i <= |results|
      invariant FirstSuccess(results) == FirstSuccess(results[i..])
    {
      assert results[i..][1..] == results[i + 1..];
      if Succeeded(results[i]) {
        assert results[i..][0] == results[i];
        assert map[] + results[i].entries == results[i].entries;
        translations := translations + results[i].entries;
        enabled := true;
        return;
      }
      i := i + 1;
    }
  }

  /** `str(field)` in an f-string: a missing text prints as `None`. */
  function PyStr(field: Option<string>): string {
    match field
    case Some(s) => s
    case None => "None"
  }

  /** The four CV fields the google placeholder tags. */
  const TaggedKeys: set<string> := {"bio", "skills", "projects", "contacts"}

  function TextField(cv: Cv, key: string): Option<string>
    requires key in TaggedKeys
  {
    if key == "bio" then cv.bio
    else if key == "skills" then cv.skills
    else if key == "projects" then cv.projects
    else cv.contacts
  }

  /** The tag put in front of each field. */
  function Tag(code: string): string {
    "[" + code + "] "
  }

  /** The four fields tagged with `code`, plus the language and the code. */
  function TaggedFields(cv: Cv, language: string, code: string): (r: map<string, string>)
    ensures r.Keys == TaggedKeys + {"lang", "lang_code"}
    ensures r["lang"] == language && r["lang_code"] == code
    ensures forall k :: k in TaggedKeys ==> r[k] == Tag(code) + PyStr(TextField(cv, k))
  {
    map[
      "bio" := Tag(code) + PyStr(cv.bio),
      "skills" := Tag(code) + PyStr(cv.skills),
      "projects" := Tag(code) + PyStr(cv.projects),
      "contacts" := Tag(code) + PyStr(cv.contacts),
      "lang" := language,
      "lang_code" := code
    ]
  }

  /**
   * `_translate_with_google`: each of the four fields tagged with the language code, plus
   * the language and its code.
   */
  function GoogleTranslate(cv: Cv, language: string): (r: map<string, string>)
    ensures r.Keys == TaggedKeys + {"lang", "lang_code"}
    ensures r["lang"] == language && r["lang_code"] == GetLanguageCode(language)
    ensures forall k :: k in TaggedKeys ==> r[k] == Tag(GetLanguageCode(language)) + PyStr(TextField(cv, k))
    ensures |r| > 0
  {
    var r := TaggedFields(cv, language, GetLanguageCode(language));
    assert "lang" in r;
    r
  }

  /** The untagged text can be read back from each translated field. */
  lemma GoogleTagReadsBack(cv: Cv, language: string, k: string)
    requires k in TaggedKeys
    ensures var tag := Tag(GetLanguageCode(language));
            var field := GoogleTranslate(cv, language)[k];
            StartsWith(field, tag) && field[|tag|..] == PyStr(TextField(cv, k))
  {
    var tag := Tag(GetLanguageCode(language));
    var field := GoogleTranslate(cv, language)[k];
    assert field == tag + PyStr(TextField(cv, k));
    assert field[..|tag|] == tag;
  }

  /** `self._translation_providers`, in order: google, microsoft and openai (both `None`). */
  function Providers(cv: Cv, language: string): seq<ProviderResult> {
    [Gave(GoogleTranslate(cv, language)), GaveNone, GaveNone]
  }

  /**
   * `translate_cv`: `({}, False)` for a language that does not resolve; otherwise the
   * google placeholder's output for the resolved member's value, with `True`.
   */
  function TranslateCvOutcome(cv: Cv, target: string, languages: seq<Enums.Member>): (r: (map<string, string>, bool))
    ensures ResolvedLanguage(languages, target).None? ==> r == (map[], false)
    ensures ResolvedLanguage(languages, target).Some? ==>
              r == (GoogleTranslate(cv, languages[ResolvedLanguage(languages, target).value].value), true)
  {
    match ResolvedLanguage(languages, target)
    case None => (map[], false)
    case Some(i) => FirstSuccess(Providers(cv, languages[i].value))
  }

  method TranslateCv(cv: Cv, target: string, languages: seq<Enums.Member>)
    returns (translations: map<string, string>, enabled: bool)
    ensures (translations, enabled) == TranslateCvOutcome(cv, target, languages)
  {
    var lang := ResolveLanguage(languages, target);
    if lang.None? {
      return map[], false;
    }
    translations, enabled := RunProviders(Providers(cv, languages[lang.value].value));
  }

  /** A resolved language is always reported as translated: the first provider never fails. */
  lemma TranslatedIffResolved(cv: Cv, target: string, languages: seq<Enums.Member>)
    ensures TranslateCvOutcome(cv, target, languages).1 <==>
              exists j :: 0 <= j < |languages| && PartialMatch(target, languages[j])
  {
  }
}
