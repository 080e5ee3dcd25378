/** `HttpClient` (src/client.ts): the object that holds the configuration,
    builds each request's headers, and sends requests through the retrying
    pipeline. The transport and the host's foreign functions are passed to
    each call. */
module Client {
  import opened Wrappers
  import opened Host
  import opened ClientConfig
  import opened Requests
  import opened Retry
  import opened Query

  class HttpClient {
    /** `Required<InkressConfig>`, replaced by `updateConfig`. */
    var config: Settings

    /** The user's settings spread over the defaults. */
    constructor(user: Overrides)
      ensures config == Merge(Defaults, user)
    {
      config := Merge(Defaults, user);
    }

    /** `getHeaders`: the defaults, then the configured headers, then the
        per-call ones, and finally a non-empty client id written over
        `Client-Id`. The result is the name-by-name precedence. */
    method GetHeaders(additional: map<string, string>) returns (headers: map<string, string>)
      ensures headers == RequestHeaders(config, additional)
    {
      headers := map["Content-Type" := "application/json",
                     "Authorization" := AuthorizationValue(config.bearerToken)]
                 + config.headers + additional;
      if config.clientId != "" {
        headers := headers["Client-Id" := config.clientId];
      }
      forall name
        ensures name in headers <==> HeaderValue(config, additional, name).Some?
        ensures name in headers ==> headers[name] == HeaderValue(config, additional, name).value
      {
      }
      var expected := RequestHeaders(config, additional);
      assert headers.Keys == expected.Keys;
    }

    /** `retryRequest(path, options)` with the configured retry budget. */
    method Request(path: string, options: RequestOptions, transport: Transport, rt: Runtime)
      returns (run: Run)
      ensures run == Send(config, path, options, transport, rt)
      ensures 1 <= run.attempts <= Budget(config.retries) + 1
      ensures run.result == MakeRequest(config, path, options, transport, run.attempts - 1, rt)
    {
      run := RetryRequest(config, path, options, config.retries, transport, rt);
    }

    /** `get(path, params)`: the given parameters are appended one by one,
        then the query string is added when it is not empty. */
    method Get(path: string, params: Option<Params>, transport: Transport, rt: Runtime)
      returns (run: Run)
      ensures run == Send(config, QueryUrl(path, params, rt.formEncode),
                          RequestOptions(GET, NoBody, map[], None), transport, rt)
    {
      var url := path;
      if params.Some? {
        var entries := params.value;
        var searchParams: seq<(string, string)> := [];
        var i := 0;
        while i < |entries|
          invariant 0 <= i <= |entries|
          invariant searchParams == Kept(entries[..i])
        {
          var (key, value) := entries[i];
          assert entries[..i + 1][..i] == entries[..i];
          if value != Undefined && value != NullValue {
            searchParams := searchParams + [(key, value.text)];
          }
          i := i + 1;
        }
        assert entries[..i] == entries;
        var queryString := Serialize(searchParams, rt.formEncode);
        if queryString != "" {
          url := url + "?" + queryString;
        }
      }
      run := Request(url, RequestOptions(GET, NoBody, map[], None), transport, rt);
    }

    /** `post(path, body)` */
    method Post(path: string, body: RequestBody, transport: Transport, rt: Runtime) returns (run: Run)
      ensures run == Send(config, path, RequestOptions(POST, body, map[], None), transport, rt)
    {
      run := Request(path, RequestOptions(POST, body, map[], None), transport, rt);
    }

    /** `put(path, body)` */
    method Put(path: string, body: RequestBody, transport: Transport, rt: Runtime) returns (run: Run)
      ensures run == Send(config, path, RequestOptions(PUT, body, map[], None), transport, rt)
    {
      run := Request(path, RequestOptions(PUT, body, map[], None), transport, rt);
    }

    /** `delete(path)`: never carries a body. */
    method Delete(path: string, transport: Transport, rt: Runtime) returns (run: Run)
      ensures run == Send(config, path, RequestOptions(DELETE, NoBody, map[], None), transport, rt)
    {
      run := Request(path, RequestOptions(DELETE, NoBody, map[], None), transport, rt);
    }

    /** `patch(path, body)` */
    method Patch(path: string, body: RequestBody, transport: Transport, rt: Runtime) returns (run: Run)
      ensures run == Send(config, path, RequestOptions(PATCH, body, map[], None), transport, rt)
    {
      run := Request(path, RequestOptions(PATCH, body, map[], None), transport, rt);
    }

    /** `updateConfig`: the supplied keys replace the current ones. */
    method UpdateConfig(patch: Overrides)
      modifies this
      ensures config == Merge(old(config), patch)
    {
      config := Merge(config, patch);
    }

    /** `getConfig`: the configuration without its bearer token. */
    function GetConfig(): (view: PublicSettings)
      reads this
      ensures view == Redact(config)
      ensures forall token :: view == Redact(config.(bearerToken := token))
    {
      RedactHidesToken(config, config.bearerToken);
      Redact(config)
    }
  }

  /** A GET never sends a body, whatever the options would otherwise say,
      and its URL is the base URL followed by the path and query. */
  lemma GetSendsNoBody(config: Settings, path: string, params: Option<Params>, rt: Runtime)
    ensures var req := BuildRequest(config, QueryUrl(path, params, rt.formEncode),
                                    RequestOptions(GET, NoBody, map[], None), rt);
      && req.body.None?
      && req.url == BaseUrl(config) + QueryUrl(path, params, rt.formEncode)
      && req.timeoutMs == config.timeout
      && req.headers == RequestHeaders(config, map[])
  {
  }

  /** A client created with a token, updated with a new client id and
      endpoint, reports the new values and no token. */
  method UpdateThenReadBack() returns (view: PublicSettings)
    ensures view.clientId == "m-new-merchant"
    ensures view.endpoint == "https://new.api.inkress.com"
    ensures view.apiVersion == "v1" && view.retries == 3 && view.timeout == 30000
  {
    var client := new HttpClient(NoOverrides.(bearerToken := Some("test-token")));
    client.UpdateConfig(NoOverrides.(clientId := Some("m-new-merchant"),
                                     endpoint := Some("https://new.api.inkress.com")));
    view := client.GetConfig();
  }
}
