/**
 * Language resolution on the listing page: the `lang` query parameter, else the
 * first `lang` cookie the request carries, else "en".
 */
module Language {
  import opened Wrappers

  /** A request or response cookie: a name and its value. */
  datatype Cookie = Cookie(name: string, value: string)

  const LangName: string := "lang"
  const DefaultLang: string := "en"

  /** Position `i` holds the first cookie called `name`. */
  ghost predicate IsFirstNamed(cookies: seq<Cookie>, name: string, i: int) {
    && 0 <= i < |cookies|
    && cookies[i].name == name
    && forall j :: 0 <= j < i ==> cookies[j].name != name
  }

  /** `cookies.firstOrNull { it.name == name }?.value`. */
  function FirstValueNamed(cookies: seq<Cookie>, name: string): (r: Option<string>)
    ensures r.None? <==> forall j :: 0 <= j < |cookies| ==> cookies[j].name != name
    ensures forall i :: IsFirstNamed(cookies, name, i) ==> r == Some(cookies[i].value)
  {
    if cookies == [] then None
    else if cookies[0].name == name then Some(cookies[0].value)
    else
      var r := FirstValueNamed(cookies[1..], name);
      assert forall i :: IsFirstNamed(cookies, name, i) ==> IsFirstNamed(cookies[1..], name, i - 1);
      r
  }

  /**
   * `getLangFromCookiesOrNull`: the value of the first `lang` cookie; null when the
   * request has no cookie array at all or none of its cookies is called `lang`.
   */
  function LangFromCookies(cookies: Option<seq<Cookie>>): Option<string>
  {
    match cookies
    case None => None
    case Some(cs) => FirstValueNamed(cs, LangName)
  }

  /**
   * `req.getParameter("lang") ?: getLangFromCookiesOrNull(req) ?: "en"`: a present
   * parameter wins even when it is empty; then the first `lang` cookie; then "en".
   */
  function ResolveLang(param: Option<string>, cookies: Option<seq<Cookie>>): (lang: string)
    ensures param.Some? ==> lang == param.value
    ensures param.None? && cookies.Some? ==>
              forall i :: IsFirstNamed(cookies.value, LangName, i) ==> lang == cookies.value[i].value
    ensures param.None? && (cookies.None? || forall j :: 0 <= j < |cookies.value| ==> cookies.value[j].name != LangName) ==>
              lang == DefaultLang
  {
    param.GetOr(LangFromCookies(cookies).GetOr(DefaultLang))
  }
}
