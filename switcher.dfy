/** The language switcher of `components/LanguageSwitcher.tsx`: a second translation function `t`
    over a module-global `currentLocale`, and a menu component that resolves the locale on mount
    and reloads the page when the language changes. */
module Switcher {
  import opened Common
  import opened Web
  import opened Translation

  /** `translationsData[name]`: the catalogue for a known locale name; any other name reads
      `undefined`, which is falsy. */
  function RootOf(c: Catalogues, name: string): (root: Node)
    ensures ParseLocale(name).Some? ==> root == CatalogueFor(c, ParseLocale(name).value)
    ensures ParseLocale(name).None? ==> !IsTruthy(root)
  {
    if name == "tr" then c.tr else if name == "en" then c.en else Other(false)
  }

  /** With an unknown locale name every key translates to itself. */
  lemma UnknownLocaleGivesKey(c: Catalogues, name: string, key: string)
    requires ParseLocale(name).None?
    ensures Translate(RootOf(c, name), key) == key
  {
  }

  /** The switcher's `t` and the context's `t` agree whenever both name the same locale. */
  lemma SwitcherAgreesWithContext(c: Catalogues, l: Locale, key: string)
    ensures Translate(RootOf(c, LocaleName(l)), key) == Translate(CatalogueFor(c, l), key)
  {
  }

  /** The state of the module itself: the catalogues and the global `currentLocale`. */
  class TranslationModule {
    var currentLocale: string
    const catalogues: Catalogues

    /** `currentLocale` is always `tr` or `en`. */
    ghost predicate Valid()
      reads this
    {
      currentLocale == "tr" || currentLocale == "en"
    }

    /** At load time the global is `en`. */
    constructor (catalogues: Catalogues)
      ensures Valid() && currentLocale == "en" && this.catalogues == catalogues
    {
      currentLocale := "en";
      this.catalogues := catalogues;
    }

    /** `t(key)`: the dotted walk over `translationsData[currentLocale]`, one segment per
        iteration; it reads the global and changes nothing. */
    method T(key: string) returns (r: string)
      requires Valid()
      ensures r == Translate(CatalogueFor(catalogues, ParseLocale(currentLocale).value), key)
      ensures r == Translate(RootOf(catalogues, currentLocale), key)
      ensures r == key || Walk(RootOf(catalogues, currentLocale), Split(key, '.')) == Some(Str(r))
    {
      var keys := Split(key, '.');
      ghost var root := RootOf(catalogues, currentLocale);
      var value := RootOf(catalogues, currentLocale);
      var i := 0;
      while i < |keys|
        invariant 0 <= i <= |keys|
        invariant Walk(root, keys) == Walk(value, keys[i..])
      {
        var k := keys[i];
        assert keys[i..][1..] == keys[i + 1..];
        if value.Obj? && k in value.children && IsTruthy(value.children[k]) {
          value := value.children[k];
        } else {
          return key;
        }
        i := i + 1;
      }
      assert keys[i..] == [];
      r := if value.Str? then value.text else key;
    }
  }

  /** The `LanguageSwitcher` component: its `locale` and `isClient` state, the module it drives
      and the browser it writes to. */
  class LanguageSwitcher {
    var locale: Locale
    var isClient: bool
    const translations: TranslationModule
    const browser: Browser

    /** First render: locale `en`, nothing shown until mounted. */
    constructor (translations: TranslationModule, browser: Browser)
      ensures locale == En && !isClient
      ensures this.translations == translations && this.browser == browser
    {
      locale := En;
      isClient := false;
      this.translations := translations;
      this.browser := browser;
    }

    /** The mount effect: the same resolution rule as the language context, adopted into both
        the component state and the global; unlike the context it also sets the document
        language in both branches. */
    method Mount(navigatorLanguage: string)
      modifies this, translations, browser
      ensures var r := ResolveLocale(Lookup(old(browser.local), LocaleKey), navigatorLanguage);
        && isClient && locale == r.locale
        && translations.currentLocale == LocaleName(r.locale) && translations.Valid()
        && browser.State() == old(browser.State()).(local := PersistResolution(old(browser.local), r),
                                                     documentLang := LocaleName(r.locale))
    {
      isClient := true;
      var saved := Lookup(browser.local, LocaleKey);
      if saved.Some? && (saved.value == "tr" || saved.value == "en") {
        locale := if saved.value == "tr" then Tr else En;
        translations.currentLocale := saved.value;
        browser.SetDocumentLang(saved.value);
      } else {
        var browserLang := PrimarySubtag(navigatorLanguage);
        var newLocale := if browserLang == "tr" then Tr else En;
        locale := newLocale;
        translations.currentLocale := LocaleName(newLocale);
        browser.SetItem(LocaleKey, LocaleName(newLocale));
        browser.SetDocumentLang(LocaleName(newLocale));
      }
    }

    /** `changeLanguage`: state, global, stored `locale`, document language, then a reload. */
    method ChangeLanguage(l: Locale)
      modifies this, translations, browser
      ensures locale == l && isClient == old(isClient)
      ensures translations.currentLocale == LocaleName(l) && translations.Valid()
      ensures browser.State() == old(browser.State()).(local := old(browser.local)[LocaleKey := LocaleName(l)],
                                                        documentLang := LocaleName(l),
                                                        navigations := old(browser.navigations) + [Reload])
    {
      locale := l;
      translations.currentLocale := LocaleName(l);
      browser.SetItem(LocaleKey, LocaleName(l));
      browser.SetDocumentLang(LocaleName(l));
      browser.Navigate(Reload);
    }

    /** The menu button's label; nothing is rendered before mount. */
    function MenuLabel(): (caption: Option<string>)
      reads this
      ensures caption.Some? <==> isClient
      ensures caption == Some("Türkçe") <==> isClient && locale == Tr
      ensures caption == Some("English") <==> isClient && locale == En
    {
      assert "Türkçe"[0] != "English"[0];
      if !isClient then None
      else
        match locale
        case Tr => Some("Türkçe")
        case En => Some("English")
    }
  }
}
