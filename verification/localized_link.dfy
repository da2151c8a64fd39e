/**
 * The path computation of `WrappedLink` (src/components/LocalizedLink.js):
 * a route is prefixed with a language segment unless localisation is off.
 */
module LocalizedLink {

  /** `to === "/"`. */
  predicate IsIndex(to: string) {
    to == "/"
  }

  /** Localisation applies unless `disableLocale` is set or the language is the default. */
  predicate Localized(disableLocale: bool, isDefault: bool) {
    !(disableLocale || isDefault)
  }

  /** The language segment `/${userLanguage}` every localised path starts with. */
  function LangPrefix(lang: string): (p: string)
    ensures |p| == |lang| + 1 && p[0] == '/' && p[1..] == lang
  {
    "/" + lang
  }

  /** The `path` handed to the underlying link. */
  function LocalizedPath(to: string, lang: string, disableLocale: bool, isDefault: bool): (path: string)
    ensures !Localized(disableLocale, isDefault) ==> path == to
    ensures Localized(disableLocale, isDefault) ==> LangPrefix(lang) <= path
    ensures Localized(disableLocale, isDefault) && IsIndex(to) ==> path == LangPrefix(lang)
    ensures Localized(disableLocale, isDefault) && !IsIndex(to) ==> path[|lang| + 1..] == to
  {
    if disableLocale || isDefault then to
    else if IsIndex(to) then LangPrefix(lang)
    else LangPrefix(lang) + to
  }

  /** Strips the language segment again, when present. */
  function Delocalize(path: string, lang: string): (to: string)
    ensures LangPrefix(lang) <= path ==> LangPrefix(lang) + to == path
    ensures !(LangPrefix(lang) <= path) ==> to == path
  {
    if LangPrefix(lang) <= path then path[|lang| + 1..] else path
  }

  /** For a localised non-index route, stripping the language segment recovers the route. */
  lemma DelocalizeRecoversRoute(to: string, lang: string)
    requires !IsIndex(to)
    ensures Delocalize(LocalizedPath(to, lang, false, false), lang) == to
  {
  }

  /** The index route is shown as the bare language segment, without a trailing slash. */
  lemma IndexHasNoTrailingSlash(lang: string)
    ensures LocalizedPath("/", lang, false, false) == LangPrefix(lang)
    ensures |LocalizedPath("/", lang, false, false)| == |lang| + 1
  {
  }

  /**
   * For a fixed language, distinct routes get distinct localised paths, except
   * that the empty route and the index route both map to `/lang`.
   */
  lemma LocalizedPathInjective(a: string, b: string, lang: string)
    requires a != b
    requires LocalizedPath(a, lang, false, false) == LocalizedPath(b, lang, false, false)
    ensures (a == "" && b == "/") || (a == "/" && b == "")
  {
  }

  /** The collision above does occur: the empty route and the index route meet. */
  lemma EmptyRouteMeetsIndex(lang: string)
    ensures LocalizedPath("", lang, false, false) == LocalizedPath("/", lang, false, false)
  {
  }
}
