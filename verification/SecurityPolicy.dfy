/** The Envoy Gateway policy generated for a client (buildSecurityPolicy in
    internal/controller/securitypolicy.go). */
module SecurityPolicy {
  import opened Basics

  datatype RouteRef = RouteRef(name: string, namespace: string)
  datatype Envoy = Envoy(enabled: bool, routeRef: Option<RouteRef>, callbackPath: string, logoutPath: string)

  datatype Policy = Policy(
    name: string, namespace: string, route: string, issuer: string, authorizationEndpoint: string,
    tokenEndpoint: string, clientId: Id, secretName: string, redirectUrl: string, logoutPath: string)

  const DEFAULT_CALLBACK_PATH := "/oauth2/callback"
  const DEFAULT_LOGOUT_PATH := "/logout"

  /** strings.TrimRight(s, "/") */
  function TrimRightSlash(s: string): string {
    if s != "" && s[|s| - 1] == '/' then TrimRightSlash(s[..|s| - 1]) else s
  }

  function CallbackPath(eg: Envoy): string {
    if eg.callbackPath != "" then eg.callbackPath else DEFAULT_CALLBACK_PATH
  }

  function RedirectUrl(host: string, path: string): string {
    "https://" + host + path
  }

  /** A route without hostnames has no policy. */
  function Build(name: string, namespace: string, eg: Envoy, clientId: Id, secretName: string,
                 appUrl: string, route: string, hostnames: seq<string>): Option<Policy>
  {
    if hostnames == [] then None else
      var issuer := TrimRightSlash(appUrl);
      Some(Policy(name, namespace, route, issuer, issuer + "/authorize", issuer + "/api/oidc/token",
                  clientId, secretName, RedirectUrl(hostnames[0], CallbackPath(eg)),
                  if eg.logoutPath != "" then eg.logoutPath else DEFAULT_LOGOUT_PATH))
  }

  /** Exactly the trailing slashes go. */
  lemma {:induction false} TrimRightSlashExact(s: string)
    ensures exists n :: 0 <= n <= |s| && TrimRightSlash(s) == s[..n] && (n == 0 || s[n - 1] != '/') && forall i :: n <= i < |s| ==> s[i] == '/'
  {
    if s != "" && s[|s| - 1] == '/' {
      var t := s[..|s| - 1];
      TrimRightSlashExact(t);
      var n :| 0 <= n <= |t| && TrimRightSlash(t) == t[..n] && (n == 0 || t[n - 1] != '/') && forall i :: n <= i < |t| ==> t[i] == '/';
      assert s[..n] == t[..n];
    } else {
      assert s[..|s|] == s;
    }
  }

  /** The issuer that the policy trusts is the one written into the credentials Secret, which carries
      the application URL as it stands, if and only if that URL does not end in a slash. */
  lemma IssuerAgreement(name: string, namespace: string, eg: Envoy, clientId: Id, secretName: string,
                        appUrl: string, route: string, hostnames: seq<string>)
    requires hostnames != []
    ensures var policy := Build(name, namespace, eg, clientId, secretName, appUrl, route, hostnames);
      policy.Some? && (policy.value.issuer == appUrl <==> appUrl == "" || appUrl[|appUrl| - 1] != '/')
  {
    TrimRightSlashExact(appUrl);
  }

  /** Every field of a generated policy. */
  lemma BuildExact(name: string, namespace: string, eg: Envoy, clientId: Id, secretName: string,
                   appUrl: string, route: string, hostnames: seq<string>)
    ensures var policy := Build(name, namespace, eg, clientId, secretName, appUrl, route, hostnames);
      && (policy.None? <==> hostnames == [])
      && (policy.Some? ==>
            && var p := policy.value;
            && p.name == name && p.namespace == namespace && p.route == route
            && p.clientId == clientId && p.secretName == secretName
            && p.issuer <= appUrl && (forall i :: |p.issuer| <= i < |appUrl| ==> appUrl[i] == '/')
            && (p.issuer == "" || p.issuer[|p.issuer| - 1] != '/')
            && p.authorizationEndpoint == p.issuer + "/authorize" && p.tokenEndpoint == p.issuer + "/api/oidc/token"
            && p.redirectUrl == "https://" + hostnames[0] + (if eg.callbackPath != "" then eg.callbackPath else "/oauth2/callback")
            && p.logoutPath == if eg.logoutPath != "" then eg.logoutPath else "/logout")
  {
    TrimRightSlashExact(appUrl);
  }
}
