/** The language switcher: a button naming the other language that sends
    the router to the same page in that locale. */
module LanguageSwitcher {
  /** `otherLocale`: Hindi from English, English from anything else. */
  function OtherLocale(locale: string): (r: string)
    ensures locale == "en" <==> r == "hi"
    ensures r == "en" || r == "hi"
  {
    if locale == "en" then "hi" else "en"
  }

  /** The button's label names the target language. */
  function Label(locale: string): (r: string)
    ensures r == "English" <==> locale != "en"
  {
    if OtherLocale(locale) == "en" then "English" else "\U{0939}\U{093F}\U{0902}\U{0926}\U{0940}"
  }

  /** The label reads "English" exactly when the switch goes to English, and
      the Devanagari name of Hindi otherwise. */
  lemma LabelNamesTarget(locale: string)
    ensures Label(locale) == "English" <==> OtherLocale(locale) == "en"
    ensures Label(locale) != "English" <==> Label(locale) == "\U{0939}\U{093F}\U{0902}\U{0926}\U{0940}"
  {
  }

  /** Every locale other than English switches to English. */
  lemma NonEnglishToEnglish(locale: string)
    requires locale != "en"
    ensures OtherLocale(locale) == "en"
  {
  }

  /** On the two supported locales the switch always changes the locale, and
      switching twice comes back to where it started. */
  lemma SwitchIsInvolution(locale: string)
    requires locale == "en" || locale == "hi"
    ensures OtherLocale(locale) != locale
    ensures OtherLocale(OtherLocale(locale)) == locale
  {
  }

  /** What the click asks of the router. */
  datatype RouterCall = Push(pathname: string, locale: string) | Refresh

  /** `handleClick`: push the same path in the other locale, then refresh. */
  function HandleClick(pathname: string, locale: string): (calls: seq<RouterCall>)
    ensures |calls| == 2 && calls[1] == Refresh
    ensures calls[0].Push? && calls[0].pathname == pathname && calls[0].locale == OtherLocale(locale)
  {
    [Push(pathname, OtherLocale(locale)), Refresh]
  }

  /** A click from one of the two supported locales lands on the same page in
      the other one. */
  lemma ClickSwitchesLanguage(pathname: string, locale: string)
    requires locale == "en" || locale == "hi"
    ensures HandleClick(pathname, locale)[0] == Push(pathname, if locale == "en" then "hi" else "en")
    ensures HandleClick(pathname, locale)[0].locale != locale
  {
  }
}
