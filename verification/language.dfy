/** The interface-text catalogue of the language context
    (src/contexts/LanguageContext.tsx): the `t` lookup, the merge of fetched
    translations into the catalogue, and the English short-circuit of
    `translate`. */
module Language {

  datatype Lang = En | Hi | Bn
  {
    function Code(): string
    {
      match this
      case En => "en"
      case Hi => "hi"
      case Bn => "bn"
    }
  }

  /** A map from interface keys to translated texts. Only lookups matter, so
      the key order of the source's objects is not modelled. */
  type Dictionary = map<string, string>

  /** One dictionary per language. */
  datatype Catalogue = Catalogue(en: Dictionary, hi: Dictionary, bn: Dictionary)
  {
    function Of(l: Lang): Dictionary
    {
      match l
      case En => en
      case Hi => hi
      case Bn => bn
    }

    /** The catalogue with the dictionary of `l` replaced by `d`. */
    function With(l: Lang, d: Dictionary): (c: Catalogue)
      ensures c.Of(l) == d
      ensures forall o: Lang | o != l :: c.Of(o) == Of(o)
    {
      match l
      case En => this.(en := d)
      case Hi => this.(hi := d)
      case Bn => this.(bn := d)
    }
  }

  /** The keys every default dictionary defines. */
  const DefaultKeys: set<string> := {"home", "forecasting", "login", "logout", "notifications", "profile"}

  /** `defaultTranslations`. */
  const DefaultCatalogue := Catalogue(
    map[
      "home" := "Home",
      "forecasting" := "Forecasting",
      "login" := "Login / Register",
      "logout" := "Logout",
      "notifications" := "Notifications",
      "profile" := "Profile"],
    map[
      "home" := "होम",
      "forecasting" := "पूर्वानुमान",
      "login" := "लॉगिन / रजिस्टर",
      "logout" := "लॉग आउट",
      "notifications" := "सूचनाएं",
      "profile" := "प्रोफ़ाइल"],
    map[
      "home" := "হোম",
      "forecasting" := "পূর্বাভাস",
      "login" := "লগইন / রেজিস্টার",
      "logout" := "লগ আউট",
      "notifications" := "বিজ্ঞপ্তি",
      "profile" := "প্রোফাইল"])

  /** `t(key)`: the active language's text for the key when there is a
      non-empty one, and otherwise the key itself. */
  function T(c: Catalogue, l: Lang, key: string): (s: string)
    ensures key in c.Of(l) && c.Of(l)[key] != "" ==> s == c.Of(l)[key] && s != ""
    ensures !(key in c.Of(l) && c.Of(l)[key] != "") ==> s == key
  {
    var d := c.Of(l);
    if key in d && d[key] != "" then d[key] else key
  }

  /** Every language of the default catalogue defines the same six keys, each
      with a non-empty text. */
  lemma DefaultCatalogueComplete(l: Lang)
    ensures DefaultCatalogue.Of(l).Keys == DefaultKeys
    ensures forall k | k in DefaultKeys :: DefaultCatalogue.Of(l)[k] != ""
  {
  }

  /** So `t` never falls back to the key for the six default keys. */
  lemma DefaultKeysTranslated(l: Lang, key: string)
    requires key in DefaultKeys
    ensures T(DefaultCatalogue, l, key) == DefaultCatalogue.Of(l)[key]
  {
    DefaultCatalogueComplete(l);
  }

  /** The state update of `loadTranslations`: the fetched texts are spread
      over the active language's dictionary, so fetched keys win, every other
      key keeps its text, and the other languages are left alone. */
  function LoadTranslations(c: Catalogue, l: Lang, fetched: Dictionary): (r: Catalogue)
    ensures r.Of(l).Keys == c.Of(l).Keys + fetched.Keys
    ensures forall k | k in fetched :: r.Of(l)[k] == fetched[k]
    ensures forall k | k in c.Of(l) && k !in fetched :: r.Of(l)[k] == c.Of(l)[k]
    ensures forall o: Lang | o != l :: r.Of(o) == c.Of(o)
  {
    c.With(l, c.Of(l) + fetched)
  }

  /** After a load, `t` reads a fetched key from the fetch (or gives the key
      back when the fetched text is empty) and any other key as before. */
  lemma TAfterLoad(c: Catalogue, l: Lang, fetched: Dictionary, key: string)
    ensures key in fetched ==>
              T(LoadTranslations(c, l, fetched), l, key) == (if fetched[key] != "" then fetched[key] else key)
    ensures key !in fetched ==> T(LoadTranslations(c, l, fetched), l, key) == T(c, l, key)
  {
  }

  /** A failed fetch yields an empty dictionary, and merging it changes
      nothing. */
  lemma EmptyLoadIsIdentity(c: Catalogue, l: Lang)
    ensures LoadTranslations(c, l, map[]) == c
  {
    assert c.Of(l) + map[] == c.Of(l);
    match l
    case En =>
    case Hi =>
    case Bn =>
  }

  /** Loading the same fetch twice is loading it once. */
  lemma LoadIdempotent(c: Catalogue, l: Lang, fetched: Dictionary)
    ensures LoadTranslations(LoadTranslations(c, l, fetched), l, fetched) == LoadTranslations(c, l, fetched)
  {
    var d := LoadTranslations(c, l, fetched).Of(l);
    assert d + fetched == d;
  }

  /** A load in one language does not change what `t` shows in another. */
  lemma LoadKeepsOtherLanguages(c: Catalogue, l: Lang, o: Lang, fetched: Dictionary, key: string)
    requires o != l
    ensures T(LoadTranslations(c, l, fetched), o, key) == T(c, o, key)
  {
  }

  /** A fetched empty text hides a default translation: `t` then shows the
      key itself. */
  lemma EmptyFetchedTextShowsKey(c: Catalogue, l: Lang, fetched: Dictionary, key: string)
    requires key in fetched && fetched[key] == ""
    ensures T(LoadTranslations(c, l, fetched), l, key) == key
  {
  }

  /** `translate`: English text is returned as it is; any other language
      gets what the translation service answered, passed in as `remote`. */
  function Translate(l: Lang, text: string, remote: string): (r: string)
    ensures l == En ==> r == text
    ensures l != En ==> r == remote
  {
    if l == En then text else remote
  }
}
