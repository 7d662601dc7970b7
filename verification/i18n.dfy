/** internal/common/i18n.go: locale selection and translation lookup. */
module I18nModel {
  const FallbackLocale := "en"

  /** A translator: the locale and a table key -> (locale -> text). */
  datatype I18n = I18n(locale: string, translations: map<string, map<string, string>>)

  /** NewI18n: an empty locale becomes the fallback locale. */
  function NewI18n(locale: string, translations: map<string, map<string, string>>): (r: I18n)
    ensures r.translations == translations
    ensures locale == "" ==> r.locale == FallbackLocale
    ensures locale != "" ==> r.locale == locale
    ensures r.locale != ""
  {
    I18n(if locale == "" then FallbackLocale else locale, translations)
  }

  /** T: the translation of `key` in the translator's locale, or "" when there is none. */
  function T(i: I18n, key: string): (r: string)
    ensures key !in i.translations ==> r == ""
    ensures key in i.translations && i.locale !in i.translations[key] ==> r == ""
    ensures key in i.translations && i.locale in i.translations[key] ==> r == i.translations[key][i.locale]
  {
    if key !in i.translations then ""
    else if i.locale in i.translations[key] then i.translations[key][i.locale]
    else ""
  }

  /** There is no fallback to English: a key translated only into "en" reads as "" in any other locale. */
  lemma NoEnglishFallback(locale: string, key: string, text: string)
    requires locale != "" && locale != FallbackLocale
    ensures T(NewI18n(locale, map[key := map[FallbackLocale := text]]), key) == ""
    ensures T(NewI18n("", map[key := map[FallbackLocale := text]]), key) == text
  {
  }
}
