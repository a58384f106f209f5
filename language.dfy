/**
  LanguageUtil's supported-language table and the lookups over it, and its
  one piece of state, the current language code next to the stored
  "selected_language" preference, with the two operations that change them.

  The source's lookups read the singleton's `currentLanguage` field; here they
  take that code as an argument.  The locale and Configuration updates of
  `setLanguage`, resource strings, number/date formatting and the text-size
  multiplier are not part of this model.
 */
module Language {
  import opened Persistence

  const LanguageKey := "selected_language"
  const DefaultLanguage := "en"

  /** Code to display name, twelve two-letter ISO 639-1 codes. */
  const SupportedLanguages: map<string, string> := map[
    "en" := "English",
    "tr" := "Türkçe",
    "de" := "Deutsch",
    "fr" := "Français",
    "es" := "Español",
    "ru" := "Русский",
    "zh" := "中文",
    "ar" := "العربية",
    "pt" := "Português",
    "it" := "Italiano",
    "ja" := "日本語",
    "ko" := "한국어"
  ]

  /** The table's codes in their declaration order. */
  const TableCodes: seq<string> := ["en", "tr", "de", "fr", "es", "ru", "zh", "ar", "pt", "it", "ja", "ko"]

  /** The codes the settings screen's language spinner offers, by position. */
  const SpinnerLanguages: seq<string> := ["en", "tr", "de", "fr", "es", "ru", "zh"]

  function IsLanguageSupported(code: string): (b: bool)
    ensures b <==> code in TableCodes
  {
    code in SupportedLanguages
  }

  /** `supportedLanguages[code] ?: "Unknown"`. */
  function LanguageName(code: string): (name: string)
    ensures IsLanguageSupported(code) ==> name == SupportedLanguages[code]
    ensures !IsLanguageSupported(code) ==> name == "Unknown"
  {
    if code in SupportedLanguages then SupportedLanguages[code] else "Unknown"
  }

  /** `supportedLanguages[currentLanguage] ?: "English"`: an unsupported current code reads as English. */
  function CurrentLanguageName(current: string): (name: string)
    ensures name == LanguageName(if IsLanguageSupported(current) then current else DefaultLanguage)
  {
    if current in SupportedLanguages then SupportedLanguages[current] else "English"
  }

  /** A copy of the table. */
  function GetSupportedLanguages(): (table: map<string, string>)
    ensures forall code :: code in table <==> IsLanguageSupported(code)
    ensures forall code :: code in table ==> table[code] == LanguageName(code)
    ensures |table| == 12
  {
    TableSize();
    SupportedLanguages
  }

  /** `getSystemLanguage`, the device's language code given as `systemLanguage`. */
  function SystemLanguage(systemLanguage: string): (code: string)
    ensures IsLanguageSupported(code)
    ensures IsLanguageSupported(systemLanguage) ==> code == systemLanguage
    ensures !IsLanguageSupported(systemLanguage) ==> code == DefaultLanguage
  {
    if systemLanguage in SupportedLanguages then systemLanguage else DefaultLanguage
  }

  /** `isRTL` for the current code: of the table's codes only ar; outside the table he, fa and ur. */
  function IsRTL(current: string): (rtl: bool)
    ensures IsLanguageSupported(current) ==> (rtl <==> current == "ar")
    ensures !IsLanguageSupported(current) ==> (rtl <==> current in ["he", "fa", "ur"])
  {
    current == "ar" || current == "he" || current == "fa" || current == "ur"
  }

  /** `getFontFamily` for the current code; its RTL branch gives the same family as the default. */
  function FontFamily(current: string): (family: string)
    ensures family == "sans-serif-medium" <==> current in ["zh", "ja", "ko"]
    ensures family == "sans-serif" || family == "sans-serif-medium"
  {
    if current == "zh" || current == "ja" || current == "ko" then "sans-serif-medium"
    else if current == "ar" || current == "fa" || current == "ur" then "sans-serif"
    else "sans-serif"
  }

  /** A two-letter code as one number, so that distinct codes are told apart by arithmetic. */
  function CodeKey(code: string): int
    requires |code| == 2
  {
    code[0] as int * 0x1_0000 + code[1] as int
  }

  lemma TableCodesDistinct()
    ensures forall i, j :: 0 <= i < j < |TableCodes| ==> TableCodes[i] != TableCodes[j]
  {
    forall i, j | 0 <= i < j < |TableCodes| ensures TableCodes[i] != TableCodes[j] {
      assert CodeKey(TableCodes[i]) != CodeKey(TableCodes[j]);
    }
  }

  lemma {:induction false} DistinctCardinality(s: seq<string>)
    requires forall i, j :: 0 <= i < j < |s| ==> s[i] != s[j]
    ensures |set code | code in s| == |s|
  {
    if |s| > 0 {
      var front := s[..|s| - 1];
      DistinctCardinality(front);
      assert (set code | code in s) == (set code | code in front) + {s[|s| - 1]};
    }
  }

  /** The table has twelve distinct codes. */
  lemma TableSize()
    ensures SupportedLanguages.Keys == set code | code in TableCodes
    ensures |SupportedLanguages| == 12
  {
    TableCodesDistinct();
    DistinctCardinality(TableCodes);
  }

  /** "Unknown" is the one answer no table code gets. */
  lemma LanguageNameUnknownIffUnsupported(code: string)
    ensures LanguageName(code) == "Unknown" <==> !IsLanguageSupported(code)
  {
  }

  // ---------------------------------------------------------------------------
  // The current language and the stored preference

  datatype Settings = Settings(currentLanguage: string, store: Store)

  /** `setLanguage`: an unsupported code is ignored; a supported one becomes current and is stored. */
  function SetLanguage(s: Settings, code: string): (t: Settings)
    ensures !IsLanguageSupported(code) ==> t == s
    ensures IsLanguageSupported(code) ==> t.currentLanguage == code && t.store == s.store[LanguageKey := code]
  {
    if !(code in SupportedLanguages) then s
    else Settings(code, s.store[LanguageKey := code])
  }

  /**
    `initialize`: the stored preference, or the system language when none is
    stored, is made current directly, and then handed to `setLanguage`.  A
    preference is always stored afterwards, it is the current language, and
    no other key is touched.
   */
  function Initialize(s: Settings, systemLanguage: string): (t: Settings)
    ensures LanguageKey in t.store && t.currentLanguage == t.store[LanguageKey]
    ensures forall key :: key != LanguageKey ==> (key in t.store <==> key in s.store)
    ensures forall key :: key != LanguageKey && key in s.store ==> t.store[key] == s.store[key]
  {
    var stored := GetString(s.store, LanguageKey, SystemLanguage(systemLanguage));
    SetLanguage(s.(currentLanguage := stored), stored)
  }

  lemma SetLanguageIdempotent(s: Settings, code: string)
    ensures SetLanguage(SetLanguage(s, code), code) == SetLanguage(s, code)
  {
  }

  /** A supported code overrides whatever an earlier `setLanguage` did. */
  lemma SetLanguageLastWins(s: Settings, first: string, second: string)
    requires IsLanguageSupported(second)
    ensures SetLanguage(SetLanguage(s, first), second) == SetLanguage(s, second)
  {
  }

  /** With a preference stored, it becomes current as it is, and the store is left as it was. */
  lemma InitializeKeepsStoredPreference(s: Settings, systemLanguage: string)
    requires LanguageKey in s.store
    ensures Initialize(s, systemLanguage).currentLanguage == s.store[LanguageKey]
    ensures Initialize(s, systemLanguage).store == s.store
  {
  }

  /** With no preference stored, the system language (or "en") becomes current and is stored. */
  lemma InitializeWithoutPreference(s: Settings, systemLanguage: string)
    requires LanguageKey !in s.store
    ensures var t := Initialize(s, systemLanguage);
            && t.currentLanguage == SystemLanguage(systemLanguage)
            && t.store == s.store[LanguageKey := SystemLanguage(systemLanguage)]
  {
  }

  /**
    The current language is a table code after `initialize` exactly when the
    stored preference is absent or itself a table code: an unsupported stored
    value stays current, and `setLanguage` ignores it.
   */
  lemma InitializeSupportedIff(s: Settings, systemLanguage: string)
    ensures IsLanguageSupported(Initialize(s, systemLanguage).currentLanguage)
            <==> (LanguageKey !in s.store || IsLanguageSupported(s.store[LanguageKey]))
  {
  }

  /** Every spinner position names a table code, so selecting it always changes the current language. */
  lemma SpinnerSelectionApplies(s: Settings, position: int)
    requires 0 <= position < |SpinnerLanguages|
    ensures IsLanguageSupported(SpinnerLanguages[position])
    ensures SetLanguage(s, SpinnerLanguages[position]).currentLanguage == SpinnerLanguages[position]
    ensures SetLanguage(s, SpinnerLanguages[position]).store == s.store[LanguageKey := SpinnerLanguages[position]]
  {
  }
}
