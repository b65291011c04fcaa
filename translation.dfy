/** The language context of `context/LanguageContext.tsx`: the dotted-key lookup `t` over the
    current locale's catalogue, the initial locale resolution and `changeLanguage`. Catalogue
    contents are parameters. */
module Translation {
  import opened Common
  import opened Web

  /** A catalogue entry: a string, a nested object, or any other JSON value (number, boolean,
      array, null), of which only truthiness matters to the lookup. */
  datatype Node = Str(text: string) | Obj(children: map<string, Node>) | Other(truthy: bool)

  datatype Locale = Tr | En

  const DefaultLocale := Tr

  /** The `translations` object: one catalogue per locale. */
  datatype Catalogues = Catalogues(tr: Node, en: Node)

  function CatalogueFor(c: Catalogues, l: Locale): Node {
    match l
    case Tr => c.tr
    case En => c.en
  }

  function LocaleName(l: Locale): string {
    match l
    case Tr => "tr"
    case En => "en"
  }

  /** The check `savedLocale && (savedLocale === 'tr' || savedLocale === 'en')`. */
  function ParseLocale(s: string): (r: Option<Locale>)
    ensures r.Some? ==> LocaleName(r.value) == s
    ensures forall l :: LocaleName(l) == s ==> r == Some(l)
  {
    if s == "tr" then Some(Tr) else if s == "en" then Some(En) else None
  }

  predicate IsTruthy(n: Node) {
    match n
    case Str(text) => text != ""
    case Obj(_) => true
    case Other(truthy) => truthy
  }

  /** One iteration of the loop: `if (value && value[k]) value = value[k]`; only objects have
      members here. */
  function Step(n: Node, k: string): (r: Option<Node>)
    ensures r.Some? ==> n.Obj? && k in n.children && r.value == n.children[k] && IsTruthy(r.value)
  {
    if n.Obj? && k in n.children && IsTruthy(n.children[k]) then Some(n.children[k]) else None
  }

  /** The whole loop: the node reached after every segment, or None when a segment is missing
      or falsy. */
  function Walk(n: Node, path: seq<string>): Option<Node>
    decreases |path|
  {
    if path == [] then Some(n)
    else
      match Step(n, path[0])
      case None => None
      case Some(child) => Walk(child, path[1..])
  }

  /** A walk that succeeds over at least one segment ends on a truthy node. */
  lemma {:induction false} WalkEndsTruthy(n: Node, path: seq<string>)
    requires |path| >= 1 && Walk(n, path).Some?
    ensures IsTruthy(Walk(n, path).value)
    decreases |path|
  {
    var child := Step(n, path[0]).value;
    if |path| > 1 {
      WalkEndsTruthy(child, path[1..]);
    }
  }

  /** `t(key)` against one catalogue: split on `.`, walk, and return the reached value only if
      it is a string; otherwise the key itself. */
  function Translate(root: Node, key: string): (r: string)
    ensures r == key || Walk(root, Split(key, '.')) == Some(Str(r))
  {
    match Walk(root, Split(key, '.'))
    case Some(Str(text)) => text
    case _ => key
  }

  /** The three outcomes of `t`: a missing or falsy segment gives the key, a path ending on a
      non-string gives the key, and a path ending on a string gives that string, which is never
      empty. */
  lemma TranslateOutcomes(root: Node, key: string)
    ensures Walk(root, Split(key, '.')).None? ==> Translate(root, key) == key
    ensures Walk(root, Split(key, '.')).Some? && !Walk(root, Split(key, '.')).value.Str? ==> Translate(root, key) == key
    ensures Walk(root, Split(key, '.')).Some? && Walk(root, Split(key, '.')).value.Str? ==>
      Translate(root, key) == Walk(root, Split(key, '.')).value.text && Translate(root, key) != ""
  {
    if Walk(root, Split(key, '.')).Some? {
      WalkEndsTruthy(root, Split(key, '.'));
    }
  }

  /** `t('a.b')` on a catalogue whose `a` is an object holding the non-empty string `b`. */
  lemma TranslateTwoLevels(root: Node, a: string, b: string, text: string)
    requires '.' !in a && '.' !in b && text != ""
    requires root.Obj? && a in root.children && root.children[a].Obj?
    requires b in root.children[a].children && root.children[a].children[b] == Str(text)
    ensures Translate(root, a + "." + b) == text
  {
    SplitJoin([a, b], '.');
    assert Join([a, b], '.') == a + "." + b;
    var path := Split(a + "." + b, '.');
    assert path == [a, b];
    assert Step(root, a) == Some(root.children[a]);
    assert Walk(root.children[a], [b]) == Some(Str(text)) by {
      assert [b][1..] == [];
    }
    assert Walk(root, path) == Walk(root.children[a], path[1..]);
    assert path[1..] == [b];
  }

  /** The primary language subtag: `navigator.language.split('-')[0]`. */
  function PrimarySubtag(language: string): (subtag: string)
    ensures '-' !in subtag && subtag <= language
  {
    JoinSplit(language, '-');
    Split(language, '-')[0]
  }

  lemma PrimarySubtagOfTag(primary: string, rest: string)
    requires '-' !in primary
    ensures PrimarySubtag(primary + "-" + rest) == primary
    ensures PrimarySubtag(primary) == primary
  {
    assert primary + "-" + rest == primary + ("-" + rest);
    SplitSeparatorFreePrefix(primary, "-" + rest, '-');
    assert ("-" + rest)[1..] == rest;
    assert Split("-" + rest, '-')[0] == [];
    assert primary + [] == primary;
    SplitSeparatorFreePrefix(primary, [], '-');
    assert primary + [] == primary;
  }

  /** The outcome of locale resolution: the locale chosen and whether it is written back. */
  datatype Resolution = Resolution(locale: Locale, persist: bool)

  /** The resolution effect: a saved `tr` or `en` wins and nothing is written; otherwise the
      browser's primary subtag `tr` gives Turkish, anything else English, and the choice is
      persisted. */
  function ResolveLocale(saved: Option<string>, navigatorLanguage: string): (r: Resolution)
    ensures saved.Some? && ParseLocale(saved.value).Some? ==> r == Resolution(ParseLocale(saved.value).value, false)
    ensures !(saved.Some? && ParseLocale(saved.value).Some?) ==>
      r.persist && (r.locale == Tr <==> PrimarySubtag(navigatorLanguage) == "tr")
  {
    if saved.Some? && ParseLocale(saved.value).Some? then Resolution(ParseLocale(saved.value).value, false)
    else if PrimarySubtag(navigatorLanguage) == "tr" then Resolution(Tr, true)
    else Resolution(En, true)
  }

  /** The store after a resolution: the chosen locale's name under `locale` when persisted. */
  function PersistResolution(local: Store, r: Resolution): Store {
    if r.persist then local[LocaleKey := LocaleName(r.locale)] else local
  }

  /** Resolution is stable: resolving again against the store it produced picks the same locale
      and writes nothing. */
  lemma ResolutionIsStable(local: Store, navigatorLanguage: string, laterLanguage: string)
    ensures var first := ResolveLocale(Lookup(local, LocaleKey), navigatorLanguage);
      ResolveLocale(Lookup(PersistResolution(local, first), LocaleKey), laterLanguage) == Resolution(first.locale, false)
  {
  }

  /** A language chosen with `changeLanguage` is the one the next resolution adopts. */
  lemma ChangedLocaleIsAdopted(local: Store, l: Locale, navigatorLanguage: string)
    ensures ResolveLocale(Lookup(local[LocaleKey := LocaleName(l)], LocaleKey), navigatorLanguage) == Resolution(l, false)
  {
  }

  class LanguageProvider {
    var locale: Locale
    const catalogues: Catalogues
    const browser: Browser

    /** Before resolution the locale is the default, Turkish. */
    constructor (catalogues: Catalogues, browser: Browser)
      ensures locale == DefaultLocale && this.catalogues == catalogues && this.browser == browser
    {
      locale := DefaultLocale;
      this.catalogues := catalogues;
      this.browser := browser;
    }

    /** `t(key)`: looks only in the current locale's catalogue. */
    function T(key: string): (r: string)
      reads this
      ensures r == key || Walk(CatalogueFor(catalogues, locale), Split(key, '.')) == Some(Str(r))
    {
      Translate(CatalogueFor(catalogues, locale), key)
    }

    /** The mount effect that resolves the initial locale. */
    method ResolveInitialLocale(navigatorLanguage: string)
      modifies this, browser
      ensures var r := ResolveLocale(Lookup(old(browser.local), LocaleKey), navigatorLanguage);
        locale == r.locale && browser.State() == old(browser.State()).(local := PersistResolution(old(browser.local), r))
    {
      var saved := Lookup(browser.local, LocaleKey);
      if saved.Some? && (saved.value == "tr" || saved.value == "en") {
        locale := if saved.value == "tr" then Tr else En;
      } else {
        var browserLang := PrimarySubtag(navigatorLanguage);
        if browserLang == "tr" {
          locale := Tr;
          browser.SetItem(LocaleKey, "tr");
        } else {
          locale := En;
          browser.SetItem(LocaleKey, "en");
        }
      }
    }

    method ChangeLanguage(l: Locale)
      modifies this, browser
      ensures locale == l
      ensures browser.State() == old(browser.State()).(local := old(browser.local)[LocaleKey := LocaleName(l)],
                                                        documentLang := LocaleName(l))
    {
      locale := l;
      browser.SetItem(LocaleKey, LocaleName(l));
      browser.SetDocumentLang(LocaleName(l));
    }
  }
}
