/** The configuration an `HttpClient` holds: built from defaults and the
    user's settings, replaced key by key by `updateConfig`, and handed out
    without the bearer token by `getConfig`. */
module ClientConfig {
  import opened Wrappers

  /** `Required<InkressConfig>` as the client stores it. `bearerToken` is
      `None` when the caller omitted it (the header then reads
      `Bearer undefined`). Timeouts are milliseconds. */
  datatype Settings = Settings(
    bearerToken: Option<string>,
    endpoint: string,
    apiVersion: string,
    clientId: string,
    timeout: int,
    retries: int,
    headers: map<string, string>)

  /** A (partial) `InkressConfig`: `None` is a key that was not supplied. */
  datatype Overrides = Overrides(
    bearerToken: Option<string>,
    endpoint: Option<string>,
    apiVersion: Option<string>,
    clientId: Option<string>,
    timeout: Option<int>,
    retries: Option<int>,
    headers: Option<map<string, string>>)

  const NoOverrides := Overrides(None, None, None, None, None, None, None)

  /** The defaults the constructor spreads the user's settings over. */
  const Defaults := Settings(None, "https://api.inkress.com", "v1", "", 30000, 3, map[])

  function Pick<T>(supplied: Option<T>, current: T): T {
    if supplied.Some? then supplied.value else current
  }

  /** `{ ...base, ...o }`: every supplied key replaces the old value (the
      header map as a whole, not header by header); the others are kept. */
  function Merge(base: Settings, o: Overrides): (s: Settings)
    ensures o.bearerToken.Some? ==> s.bearerToken == o.bearerToken
    ensures o.bearerToken.None? ==> s.bearerToken == base.bearerToken
    ensures s.endpoint == Pick(o.endpoint, base.endpoint)
    ensures s.apiVersion == Pick(o.apiVersion, base.apiVersion)
    ensures s.clientId == Pick(o.clientId, base.clientId)
    ensures s.timeout == Pick(o.timeout, base.timeout)
    ensures s.retries == Pick(o.retries, base.retries)
    ensures s.headers == Pick(o.headers, base.headers)
  {
    Settings(
      if o.bearerToken.Some? then o.bearerToken else base.bearerToken,
      Pick(o.endpoint, base.endpoint),
      Pick(o.apiVersion, base.apiVersion),
      Pick(o.clientId, base.clientId),
      Pick(o.timeout, base.timeout),
      Pick(o.retries, base.retries),
      Pick(o.headers, base.headers))
  }

  /** Two updates in a row: keys of the later one win. */
  function Then(first: Overrides, second: Overrides): Overrides {
    Overrides(
      if second.bearerToken.Some? then second.bearerToken else first.bearerToken,
      if second.endpoint.Some? then second.endpoint else first.endpoint,
      if second.apiVersion.Some? then second.apiVersion else first.apiVersion,
      if second.clientId.Some? then second.clientId else first.clientId,
      if second.timeout.Some? then second.timeout else first.timeout,
      if second.retries.Some? then second.retries else first.retries,
      if second.headers.Some? then second.headers else first.headers)
  }

  /** An update that supplies nothing changes nothing; applying the same
      update twice is the same as once; two updates compose into one. */
  lemma MergeLaws(s: Settings, a: Overrides, b: Overrides)
    ensures Merge(s, NoOverrides) == s
    ensures Merge(Merge(s, a), a) == Merge(s, a)
    ensures Merge(Merge(s, a), b) == Merge(s, Then(a, b))
  {
  }

  /** What `getConfig` returns: every setting except the bearer token. */
  datatype PublicSettings = PublicSettings(
    endpoint: string,
    apiVersion: string,
    clientId: string,
    timeout: int,
    retries: int,
    headers: map<string, string>)

  /** `const { bearerToken, ...config } = this.config` */
  function Redact(s: Settings): (p: PublicSettings)
    ensures p.endpoint == s.endpoint && p.apiVersion == s.apiVersion && p.clientId == s.clientId
    ensures p.timeout == s.timeout && p.retries == s.retries && p.headers == s.headers
  {
    PublicSettings(s.endpoint, s.apiVersion, s.clientId, s.timeout, s.retries, s.headers)
  }

  /** Nothing of the bearer token reaches the public view: two
      configurations that differ only in their token look the same. */
  lemma RedactHidesToken(s: Settings, token: Option<string>)
    ensures Redact(s.(bearerToken := token)) == Redact(s)
  {
  }

  /** The configuration update the test suite performs: after supplying a
      client id and an endpoint, those are what `getConfig` shows and the
      rest is still the default. */
  lemma UpdateShowsInPublicView(token: string, clientId: string, endpoint: string)
    ensures var s := Merge(Merge(Defaults, NoOverrides.(bearerToken := Some(token))),
                           NoOverrides.(clientId := Some(clientId), endpoint := Some(endpoint)));
            Redact(s) == PublicSettings(endpoint, "v1", clientId, 30000, 3, map[])
  {
  }
}
