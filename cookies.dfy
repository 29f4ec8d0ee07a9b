/**
 * The browser-side cookie helper `getCookie` and the header merge done by the fetch
 * wrapper `createAuthFetch` (the same code is copied into the preview wrapper and the
 * global fetch interceptor of the frontend).
 */
module Cookies {
  import opened Wrappers
  import opened Strings

  /** The text searched for: `'; ' + name + '='`. */
  function Separator(name: string): string
  {
    "; " + name + "="
  }

  /**
   * `getCookie(name)`. `document` is `None` when the code runs where there is no DOM
   * (`typeof document === 'undefined'`), otherwise it holds `document.cookie`.
   * The result is never the empty string and never holds a `;`.
   */
  function GetCookie(document: Option<string>, name: string): (r: Option<string>)
    ensures document.None? ==> r.None?
    ensures r.Some? ==> r.value != "" && ';' !in r.value
  {
    match document
    case None => None
    case Some(cookie) =>
      var parts := Split("; " + cookie, Separator(name));
      if |parts| == 2 then
        var fields := Split(parts[1], ";");
        NoCharWhenNotContained(fields[0], ';');
        if fields[0] == "" then None else Some(fields[0])
      else None
  }

  /** A cookie whose separator occurs exactly once is found, up to the next `;`. */
  lemma CookieFound(cookie: string, name: string, before: string, value: string, after: string)
    requires "; " + cookie == before + Separator(name) + value + after
    requires forall k :: k != |before| ==> !OccursAt("; " + cookie, Separator(name), k)
    requires value != "" && ';' !in value
    requires after == "" || after[0] == ';'
    ensures GetCookie(Some(cookie), name) == Some(value)
  {
    var s := "; " + cookie;
    var sep := Separator(name);
    var rest := value + after;
    SeparatorAt(s, before, sep, rest);
    SplitWithUniqueOccurrence(s, sep, |before|);
    FirstFieldBeforeSemicolon(value, after);
  }

  lemma SeparatorAt(s: string, before: string, sep: string, rest: string)
    requires s == before + sep + rest
    ensures OccursAt(s, sep, |before|) && s[|before| + |sep|..] == rest
  {
    assert s[|before|..|before| + |sep|] == sep;
    assert s[|before| + |sep|..] == rest;
  }

  /** Thanks to the `'; '` put in front, the first cookie of the string is found as well. */
  lemma FirstCookieFound(cookie: string, name: string, value: string, after: string)
    requires cookie == name + "=" + value + after
    requires value != "" && ';' !in value
    requires after == "" || after[0] == ';'
    requires forall k :: k != 0 ==> !OccursAt("; " + cookie, Separator(name), k)
    ensures GetCookie(Some(cookie), name) == Some(value)
  {
    assert "; " + cookie == "" + Separator(name) + value + after;
    CookieFound(cookie, name, "", value, after);
  }

  /** A cookie that is not there gives `null`. */
  lemma CookieMissing(cookie: string, name: string)
    requires forall k :: !OccursAt("; " + cookie, Separator(name), k)
    ensures GetCookie(Some(cookie), name) == None
  {
    SplitWithoutOccurrence("; " + cookie, Separator(name));
  }

  /** A separator that occurs twice (without overlapping) makes `split` give more than two parts: `null`. */
  lemma CookieAmbiguous(cookie: string, name: string, i: int, j: int)
    requires OccursAt("; " + cookie, Separator(name), i)
    requires OccursAt("; " + cookie, Separator(name), j)
    requires i + |Separator(name)| <= j
    ensures GetCookie(Some(cookie), name) == None
  {
    SplitWithTwoOccurrences("; " + cookie, Separator(name), i, j);
  }

  /** A cookie that is present with an empty value gives `null`, never `''`. */
  lemma EmptyCookieIsNull(cookie: string, name: string, before: string, after: string)
    requires "; " + cookie == before + Separator(name) + after
    requires forall k :: k != |before| ==> !OccursAt("; " + cookie, Separator(name), k)
    requires after == "" || after[0] == ';'
    ensures GetCookie(Some(cookie), name) == None
  {
    var s := "; " + cookie;
    var sep := Separator(name);
    SeparatorAt(s, before, sep, after);
    SplitWithUniqueOccurrence(s, sep, |before|);
    assert after == "" + after;
    FirstFieldBeforeSemicolon("", after);
  }

  datatype Credentials = Omit | SameOrigin | Include

  /**
   * The `RequestInit` options of a fetch call. Header names are taken as already
   * lower-cased, as the `Headers` class stores them; `others` stands for every other
   * option (method, body, mode, ...), which the wrapper passes on untouched.
   */
  datatype RequestOptions = RequestOptions(
    headers: map<string, string>,
    credentials: Option<Credentials>,
    others: map<string, string>)

  /** `headers` with a header `name` set to the cookie's value, when the cookie is set and the header is not. */
  function WithCookieHeader(headers: map<string, string>, name: string, cookie: Option<string>): (r: map<string, string>)
    ensures r.Keys == headers.Keys + (if cookie.Some? then {name} else {})
    ensures forall h :: h in headers ==> r[h] == headers[h]
    ensures name !in headers && cookie.Some? ==> r[name] == cookie.value
  {
    if cookie.Some? && name !in headers then headers[name := cookie.value] else headers
  }

  /**
   * The options `createAuthFetch` hands to `fetch`: the caller's options with
   * `credentials: 'include'`, and the `auth` and `showorg` cookies copied into headers
   * of the same name only when the cookie is set and the caller did not give that header.
   */
  method AuthorizedOptions(options: RequestOptions, document: Option<string>) returns (init: RequestOptions)
    ensures init.credentials == Some(Include) && init.others == options.others
    ensures forall h :: h in options.headers ==> h in init.headers && init.headers[h] == options.headers[h]
    ensures init.headers.Keys == options.headers.Keys
      + (if GetCookie(document, "auth").Some? then {"auth"} else {})
      + (if GetCookie(document, "showorg").Some? then {"showorg"} else {})
    ensures "auth" !in options.headers && GetCookie(document, "auth").Some? ==>
      init.headers["auth"] == GetCookie(document, "auth").value
    ensures "showorg" !in options.headers && GetCookie(document, "showorg").Some? ==>
      init.headers["showorg"] == GetCookie(document, "showorg").value
  {
    var authCookie := GetCookie(document, "auth");
    var showorgCookie := GetCookie(document, "showorg");
    var headers := WithCookieHeader(options.headers, "auth", authCookie);
    headers := WithCookieHeader(headers, "showorg", showorgCookie);
    init := RequestOptions(headers, Some(Include), options.others);
  }
}
