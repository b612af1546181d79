/**
 * `getLoginUrl`: the login page of the authentication site, taken from two
 * environment settings with a built-in fallback. An environment value is a
 * string; the empty string stands for an unset variable, since JavaScript's
 * `||` skips both `undefined` and `""`.
 */
module Auth {
  import opened Strings

  /** Used when neither setting is present. */
  const DefaultSiteUrl: string := "https://main-website-volunteer.vercel.app"

  /** `NEXT_PUBLIC_AUTH_SITE_URL || NEXT_PUBLIC_MAIN_SITE_URL || DefaultSiteUrl`. */
  function ConfiguredAuthSite(authSiteUrl: string, mainSiteUrl: string): (site: string)
    ensures site != ""
    ensures site in {authSiteUrl, mainSiteUrl, DefaultSiteUrl}
    ensures authSiteUrl != "" ==> site == authSiteUrl
    ensures authSiteUrl == "" && mainSiteUrl != "" ==> site == mainSiteUrl
    ensures authSiteUrl == "" && mainSiteUrl == "" ==> site == DefaultSiteUrl
  {
    if authSiteUrl != "" then authSiteUrl
    else if mainSiteUrl != "" then mainSiteUrl
    else DefaultSiteUrl
  }

  /** `s.replace(/\/$/, "")`: drops one `/` at the very end, if there is one. */
  function StripTrailingSlash(s: string): (r: string)
    ensures EndsWith(s, "/") ==> r + "/" == s
    ensures !EndsWith(s, "/") ==> r == s
  {
    if s != [] && s[|s| - 1] == '/' then s[..|s| - 1] else s
  }

  /** `getLoginUrl()`. */
  function GetLoginUrl(authSiteUrl: string, mainSiteUrl: string): (url: string)
    ensures EndsWith(url, "/login")
  {
    StripTrailingSlash(ConfiguredAuthSite(authSiteUrl, mainSiteUrl)) + "/login"
  }

  /**
   * Precedence: a set auth-site value is the one used, and the main-site value
   * is then irrelevant; otherwise a set main-site value is used; with neither,
   * the default site is used.
   */
  lemma LoginUrlPrecedence(authSiteUrl: string, mainSiteUrl: string)
    ensures authSiteUrl != "" ==> GetLoginUrl(authSiteUrl, mainSiteUrl) == StripTrailingSlash(authSiteUrl) + "/login"
    ensures authSiteUrl == "" && mainSiteUrl != "" ==> GetLoginUrl(authSiteUrl, mainSiteUrl) == StripTrailingSlash(mainSiteUrl) + "/login"
    ensures authSiteUrl == "" && mainSiteUrl == "" ==> GetLoginUrl(authSiteUrl, mainSiteUrl) == StripTrailingSlash(DefaultSiteUrl) + "/login"
    ensures authSiteUrl != "" ==> GetLoginUrl(authSiteUrl, mainSiteUrl) == GetLoginUrl(authSiteUrl, "")
    ensures authSiteUrl == "" ==> GetLoginUrl(authSiteUrl, mainSiteUrl) == GetLoginUrl(mainSiteUrl, "")
  {
  }

  /** With nothing configured the login page is the main website's. */
  lemma DefaultLoginUrl()
    ensures GetLoginUrl("", "") == "https://main-website-volunteer.vercel.app/login"
  {
  }

  /**
   * The configured site can be read back from the login URL: drop the
   * `/login` suffix and put back the one slash that was stripped, if any.
   */
  lemma LoginUrlRecoversSite(authSiteUrl: string, mainSiteUrl: string)
    ensures var site := ConfiguredAuthSite(authSiteUrl, mainSiteUrl);
            var url := GetLoginUrl(authSiteUrl, mainSiteUrl);
            |url| >= 6 &&
            url[..|url| - 6] + (if EndsWith(site, "/") then "/" else "") == site
  {
  }

  /** Only one slash is removed: a base ending in `//` keeps one of them. */
  lemma DoubleSlashKeepsOne()
    ensures GetLoginUrl("x//", "") == "x//login"
    ensures GetLoginUrl("x/", "") == "x/login"
    ensures GetLoginUrl("x", "") == "x/login"
  {
    assert StripTrailingSlash("x//") == "x/";
  }
}
