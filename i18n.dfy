/** `core/i18n.py`: `I18nManager`, the gettext front end. The system locale
    and the catalogues present under the locale directory are inputs. */
module I18n {
  import opened Common

  /** A compiled catalogue: translations of single messages, and of
      singular/plural pairs (keyed by the singular) as their two forms under
      the `n != 1` plural rule. */
  datatype Catalogue = Catalogue(texts: map<string, string>, plurals: map<string, (string, string)>)

  /** The installed translator: `gettext.NullTranslations` or a catalogue. */
  datatype Translations = NullTranslations | Gnu(cat: Catalogue)

  /** `_detect_system_language`: "zh" and "en" locales map to their
      language, anything else (no locale, or an exception, both `None` here)
      to the default. */
  function DetectSystemLanguage(sysLocale: Option<string>, defaultLang: string): (r: string)
    ensures sysLocale.Some? && IsPrefix("zh", sysLocale.value) ==> r == "zh"
    ensures sysLocale.Some? && IsPrefix("en", sysLocale.value) ==> r == "en"
    ensures r != "zh" && r != "en" ==> r == defaultLang
    ensures r == "zh" || r == "en" || r == defaultLang
  {
    if sysLocale.Some? && sysLocale.value != "" && IsPrefix("zh", sysLocale.value) then "zh"
    else if sysLocale.Some? && sysLocale.value != "" && IsPrefix("en", sysLocale.value) then "en"
    else defaultLang
  }

  /** The default is used exactly when the locale is neither Chinese nor
      English (or the default is itself chosen). */
  lemma DetectDefault(sysLocale: Option<string>, defaultLang: string)
    requires defaultLang != "zh" && defaultLang != "en"
    ensures DetectSystemLanguage(sysLocale, defaultLang) == defaultLang <==>
      (sysLocale.None? || (!IsPrefix("zh", sysLocale.value) && !IsPrefix("en", sysLocale.value)))
  {
  }

  /** `translator.gettext(msg)`: the catalogue's translation, else `msg`. */
  function GetTextWith(t: Translations, msg: string): string {
    match t {
      case NullTranslations => msg
      case Gnu(cat) => if msg in cat.texts then cat.texts[msg] else msg
    }
  }

  /** `translator.ngettext(singular, plural, n)`. */
  function NGetTextWith(t: Translations, singular: string, plural: string, n: int): string {
    match t {
      case NullTranslations => if n == 1 then singular else plural
      case Gnu(cat) =>
        if singular in cat.plurals then (if n != 1 then cat.plurals[singular].1 else cat.plurals[singular].0)
        else if n == 1 then singular else plural
    }
  }

  class I18nManager {
    const defaultLang: string
    /** The catalogue found for each language code. */
    const catalogues: map<string, Catalogue>
    var currentLang: string
    var translator: Option<Translations>

    /** `__init__`: the default language without a translator, then
        `set_language` with the detected system language. */
    constructor (defaultLang: string, catalogues: map<string, Catalogue>, sysLocale: Option<string>)
      ensures this.defaultLang == defaultLang && this.catalogues == catalogues
      ensures currentLang == DetectSystemLanguage(sysLocale, defaultLang)
      ensures translator == Some(if currentLang in catalogues then Gnu(catalogues[currentLang]) else NullTranslations)
    {
      this.defaultLang := defaultLang;
      this.catalogues := catalogues;
      currentLang := defaultLang;
      translator := None;
      new;
      SetLanguage(DetectSystemLanguage(sysLocale, defaultLang));
    }

    /** `set_language`: the code is always recorded; the translator is the
        code's catalogue, or `NullTranslations` when there is none. */
    method SetLanguage(code: string)
      modifies this
      ensures currentLang == code
      ensures code in catalogues ==> translator == Some(Gnu(catalogues[code]))
      ensures code !in catalogues ==> translator == Some(NullTranslations)
    {
      currentLang := code;
      if code in catalogues {
        translator := Some(Gnu(catalogues[code]));
      } else {
        translator := Some(NullTranslations);
      }
    }

    /** `get_text`. */
    function GetText(msg: string): (r: string)
      reads this
      ensures translator.None? ==> r == msg
      ensures translator == Some(NullTranslations) ==> r == msg
    {
      match translator {
        case None => msg
        case Some(t) => GetTextWith(t, msg)
      }
    }

    /** `nget_text`. */
    function NGetText(singular: string, plural: string, n: int): (r: string)
      reads this
      ensures translator.None? || translator == Some(NullTranslations) ==>
        (r == singular || r == plural) && (singular != plural ==> (r == singular <==> n == 1))
    {
      match translator {
        case None => if n == 1 then singular else plural
        case Some(t) => NGetTextWith(t, singular, plural, n)
      }
    }
  }

  /** A message missing from the catalogue is shown untranslated. */
  lemma UntranslatedFallback(t: Translations, msg: string)
    requires t.Gnu? ==> msg !in t.cat.texts
    ensures GetTextWith(t, msg) == msg
  {
  }
}
