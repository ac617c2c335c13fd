/** `getAppUrl`: the application's base URL, chosen from the environment by precedence.
    Environment values are optional strings, and an empty one counts as unset. */
module AppUrl {
  import opened Base

  /** `NEXT_PUBLIC_APP_URL`, `VERCEL_URL` and `APP_URL`. */
  datatype Env = Env(publicAppUrl: Option<string>, vercelUrl: Option<string>, appUrl: Option<string>)

  /** In a browser the window's origin is known; on the server there is no window. */
  datatype Runtime = Browser(origin: string) | Server

  const LocalUrl: string := "http://localhost:3000"

  /** The Vercel host as a URL, `https://` prepended; unset when the host is unset. */
  function VercelCandidate(vercelUrl: Option<string>): (c: Option<string>)
    ensures Truthy(c) <==> Truthy(vercelUrl)
    ensures Truthy(vercelUrl) ==> c.value == "https://" + vercelUrl.value
  {
    if Truthy(vercelUrl) then Some("https://" + vercelUrl.value) else None
  }

  /** Reference reading of a precedence chain: the first set candidate, else the fallback. */
  function FirstSet(candidates: seq<Option<string>>, fallback: string): (r: string)
    ensures (forall i :: 0 <= i < |candidates| ==> !Truthy(candidates[i])) ==> r == fallback
    ensures forall i :: (0 <= i < |candidates| && Truthy(candidates[i])
                         && (forall j :: 0 <= j < i ==> !Truthy(candidates[j]))) ==> r == candidates[i].value
  {
    if candidates == [] then fallback
    else if Truthy(candidates[0]) then candidates[0].value
    else FirstSet(candidates[1..], fallback)
  }

  /** The server's sources in order of precedence. */
  function ServerCandidates(env: Env): seq<Option<string>> {
    [env.publicAppUrl, VercelCandidate(env.vercelUrl), env.appUrl]
  }

  /** `getAppUrl()`. On the server the result is never empty. */
  function GetAppUrl(runtime: Runtime, env: Env): (url: string)
    ensures runtime.Server? ==> url != ""
    ensures runtime.Browser? && runtime.origin != "" ==> url != ""
  {
    match runtime
    case Browser(origin) => OrElse(env.publicAppUrl, origin)
    case Server =>
      if Truthy(env.publicAppUrl) then env.publicAppUrl.value
      else if Truthy(env.vercelUrl) then "https://" + env.vercelUrl.value
      else if Truthy(env.appUrl) then env.appUrl.value
      else LocalUrl
  }

  /** `getAppUrl` is the first set source: on the server among the public URL, the
      Vercel URL and `APP_URL` with localhost last; in a browser the public URL with the
      window's origin last. */
  lemma GetAppUrlIsFirstSet(runtime: Runtime, env: Env)
    ensures runtime.Server? ==> GetAppUrl(runtime, env) == FirstSet(ServerCandidates(env), LocalUrl)
    ensures runtime.Browser? ==> GetAppUrl(runtime, env) == FirstSet([env.publicAppUrl], runtime.origin)
  {
    var c := ServerCandidates(env);
    assert FirstSet(c, LocalUrl) == if Truthy(c[0]) then c[0].value else FirstSet(c[1..], LocalUrl);
    assert FirstSet(c[1..], LocalUrl) == if Truthy(c[1]) then c[1].value else FirstSet(c[2..], LocalUrl);
    assert FirstSet(c[2..], LocalUrl) == if Truthy(c[2]) then c[2].value else LocalUrl;
  }

  /** A set public URL wins everywhere, and nothing else is consulted. */
  lemma PublicUrlWins(runtime: Runtime, env: Env)
    requires Truthy(env.publicAppUrl)
    ensures GetAppUrl(runtime, env) == env.publicAppUrl.value
  {
  }

  /** In a browser only the public URL and the origin matter. */
  lemma BrowserIgnoresServerSources(origin: string, e1: Env, e2: Env)
    requires e1.publicAppUrl == e2.publicAppUrl
    ensures GetAppUrl(Browser(origin), e1) == GetAppUrl(Browser(origin), e2)
    ensures !Truthy(e1.publicAppUrl) ==> GetAppUrl(Browser(origin), e1) == origin
  {
  }

  /** On the server, without a public URL, a set Vercel host takes priority over `APP_URL`. */
  lemma VercelBeatsAppUrl(env: Env)
    requires !Truthy(env.publicAppUrl) && Truthy(env.vercelUrl)
    ensures GetAppUrl(Server, env) == "https://" + env.vercelUrl.value
  {
  }

  /** With no source set on the server, the result is localhost. */
  lemma NothingSetIsLocalhost(env: Env)
    requires !Truthy(env.publicAppUrl) && !Truthy(env.vercelUrl) && !Truthy(env.appUrl)
    ensures GetAppUrl(Server, env) == LocalUrl
  {
  }
}
