/** AuthLink: a link that, for a visitor who is not signed in, points to the
    login page instead, carrying the intended destination as the `redirect`
    query parameter. URL encoding is an input function, and so is the
    decoding the router applies to the query value. */
module AuthLink {
  import opened Js
  import UseLogin

  /** The link's own props; absent options take their defaults. */
  datatype Props = Props(href: string, requireAuth: Option<bool>, loginPath: Option<string>)

  const DefaultLoginPath: string := "/login"
  const RedirectParam: string := "?redirect="

  /** The link goes to the login page: authentication is required (by
      default it is) and the visitor is not authenticated. */
  predicate SendsToLogin(props: Props, isAuthenticated: bool) {
    props.requireAuth.GetOr(true) && !isAuthenticated
  }

  /** The login path the link would use. */
  function LoginPathOf(props: Props): (r: string) {
    props.loginPath.GetOr(DefaultLoginPath)
  }

  /** linkHref. */
  function LinkHref(props: Props, isAuthenticated: bool, encode: string -> string): (r: string)
    ensures SendsToLogin(props, isAuthenticated) ==>
      r == LoginPathOf(props) + RedirectParam + encode(props.href)
    ensures !SendsToLogin(props, isAuthenticated) ==> r == props.href
  {
    if SendsToLogin(props, isAuthenticated) then
      LoginPathOf(props) + RedirectParam + encode(props.href)
    else
      props.href
  }

  /** Without options, an anonymous visitor is sent to "/login". */
  lemma DefaultsSendToLogin(href: string, encode: string -> string)
    ensures LinkHref(Props(href, None, None), false, encode) == "/login?redirect=" + encode(href)
  {
  }

  /** The `redirect` value the login page reads from a link to it, decoded. */
  function RedirectTarget(link: string, loginPath: string, decode: string -> string): (r: Option<string>) {
    var prefix := loginPath + RedirectParam;
    if StartsWith(link, prefix) then Some(decode(link[|prefix|..])) else None
  }

  /** The intended destination survives: when decoding undoes encoding, the
      login page reads back exactly the link's original href. */
  lemma DestinationPreserved(props: Props, isAuthenticated: bool,
                             encode: string -> string, decode: string -> string)
    requires SendsToLogin(props, isAuthenticated)
    requires forall s :: decode(encode(s)) == s
    ensures RedirectTarget(LinkHref(props, isAuthenticated, encode), LoginPathOf(props), decode)
            == Some(props.href)
  {
  }

  /** End to end: following a guarded link and signing in successfully
      navigates to the page the link pointed at. */
  lemma SignInReturnsToLinkTarget(props: Props, isAuthenticated: bool,
                                  encode: string -> string, decode: string -> string,
                                  userId: string)
    requires SendsToLogin(props, isAuthenticated) && props.href != ""
    requires forall s :: decode(encode(s)) == s
    ensures var redirect := RedirectTarget(LinkHref(props, isAuthenticated, encode), LoginPathOf(props), decode);
            var signedIn := UseLogin.Responded(UseLogin.SignInResponse(None, Some(UseLogin.SignInData(Some(userId)))));
            UseLogin.Login(signedIn, redirect, None).pushed == Some(props.href)
  {
  }
}
