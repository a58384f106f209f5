/**
  The LanguageUtil singleton as an object: its `currentLanguage` field and
  the preference store it writes `selected_language` into.  Its methods are
  specified by the Settings transitions of module Language.
 */
module Localization {
  import opened Persistence
  import opened Language

  class LanguageUtil {
    var currentLanguage: string
    var store: Store

    ghost function State(): Settings
      reads this
    {
      Settings(currentLanguage, store)
    }

    /** The singleton before `initialize`: current language "en". */
    constructor (store: Store)
      ensures State() == Settings(DefaultLanguage, store)
    {
      currentLanguage := DefaultLanguage;
      this.store := store;
    }

    method SetLanguage(languageCode: string)
      modifies this
      ensures State() == Language.SetLanguage(old(State()), languageCode)
    {
      if !IsLanguageSupported(languageCode) {
        return;
      }
      currentLanguage := languageCode;
      store := store[LanguageKey := languageCode];
    }

    /** `initialize`, with the device's language as `systemLanguage`. */
    method Initialize(systemLanguage: string)
      modifies this
      ensures State() == Language.Initialize(old(State()), systemLanguage)
    {
      currentLanguage := GetString(store, LanguageKey, SystemLanguage(systemLanguage));
      SetLanguage(currentLanguage);
    }

    method GetCurrentLanguage() returns (code: string)
      ensures code == currentLanguage
    {
      code := currentLanguage;
    }
  }
}
