/** The language preference of the mobile client
    (mobile/components/LanguageContext.tsx): the current language, the
    right-to-left flag that follows it, the preference kept in the secure
    store under "language", and `t`. The platform's layout direction
    (`I18nManager`) is an object whose `forceRTL` request is recorded; it
    takes effect only when the app restarts, which is not modelled. */
module LanguageContext {
  import opened Common
  import opened SecureStore
  import opened Translations

  /** `savedLanguage === "en" || savedLanguage === "ar"`: the stored value
      as a language, if it is one. */
  function FromCode(stored: Option<string>): (l: Option<Language>)
    ensures l.Some? <==> stored == Some("en") || stored == Some("ar")
    ensures l.Some? ==> stored == Some(Code(l.value))
  {
    if stored == Some("en") then Some(En)
    else if stored == Some("ar") then Some(Ar)
    else None
  }

  /** What `setLanguage` stores, `loadLanguage` reads back. */
  lemma CodeRoundTrip(l: Language)
    ensures FromCode(Some(Code(l))) == Some(l)
  {
  }

  /** A language's `t` answers a key of the tables with that language's
      entry, never with the key. */
  lemma TOfDeclaredKey(s: LanguageState, key: string)
    requires Declared(key)
    ensures Translations.Lookup(Table(s.language), key).Some?
    ensures s.T(key) == Translations.Lookup(Table(s.language), key).value
  {
    TranslateDeclared(key);
  }

  /** `I18nManager`: the direction the app started with, and the last
      `forceRTL` request, if any. */
  class LayoutManager {
    var isRTL: bool
    var forced: Option<bool>

    constructor(isRTL: bool)
      ensures this.isRTL == isRTL && forced == None
    {
      this.isRTL := isRTL;
      forced := None;
    }

    method ForceRTL(rtl: bool)
      modifies this
      ensures forced == Some(rtl) && isRTL == old(isRTL)
    {
      forced := Some(rtl);
    }
  }

  class LanguageState {
    var language: Language
    var isRTL: bool

    /** The initial state: English, left to right. */
    constructor()
      ensures language == En && !isRTL
      ensures Valid()
    {
      language := En;
      isRTL := false;
    }

    /** The right-to-left flag is set exactly for Arabic. */
    ghost predicate Valid()
      reads this
    {
      isRTL == (language == Ar)
    }

    /** `loadLanguage`: a stored "en" or "ar" becomes the language; any other
        value, no value, or a rejected read keeps the state. */
    method LoadLanguage(store: Store, readFails: bool)
      requires Valid()
      modifies this
      ensures Valid()
      ensures var saved := FromCode(SecureStore.Lookup(store.items, LanguageKey));
        if !readFails && saved.Some? then language == saved.value
        else language == old(language) && isRTL == old(isRTL)
    {
      var read := store.GetItem(LanguageKey, readFails);
      if read.Value? {
        var saved := FromCode(read.stored);
        if saved.Some? {
          language := saved.value;
          isRTL := saved.value == Ar;
        }
      }
    }

    /** `setLanguage`: the choice is stored, becomes the language, and
        `forceRTL` is requested only when the platform's direction differs
        from the new one. A rejected write changes nothing. */
    method SetLanguage(lang: Language, store: Store, writeFails: bool, layout: LayoutManager)
      requires Valid()
      modifies this, store, layout
      ensures Valid()
      ensures layout.isRTL == old(layout.isRTL)
      ensures writeFails ==>
        language == old(language) && isRTL == old(isRTL) && store.items == old(store.items)
        && layout.forced == old(layout.forced)
      ensures !writeFails ==>
        language == lang && store.items == old(store.items)[LanguageKey := Code(lang)]
        && layout.forced == (if layout.isRTL != (lang == Ar) then Some(lang == Ar) else old(layout.forced))
    {
      var ok := store.SetItem(LanguageKey, Code(lang), writeFails);
      if !ok {
        return;
      }
      language := lang;
      var rtl := lang == Ar;
      isRTL := rtl;
      if layout.isRTL != rtl {
        layout.ForceRTL(rtl);
      }
    }

    /** `t(key)` in the current language. */
    function T(key: string): string
      reads this
    {
      Translate(language, key)
    }
  }
}
