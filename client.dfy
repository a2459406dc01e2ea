/**
 The API client's own state and request helpers: the base URL built at
 construction, the authentication settings and their validation, the
 sideload list and its translation into an `include` query parameter, and
 the sideload reset after every request. Sending a request is a parameter
 `send`, standing for the transport, which returns a response or throws.
 */
module Client {
  import opened Php

  /** The API version placed in every base URL. */
  const ApiVersion: string := "v2"

  /** Sideload names are joined with this character into `include`. */
  const IncludeSeparator: char := ','

  /** The strategy named in a call to `setAuth`; the two recognised ones are
      the `Auth::BASIC` and `Auth::OAUTH` tokens. */
  datatype AuthStrategy = Basic | OAuth | Unrecognised(name: string)

  /** The reasons `setAuth` throws `AuthException`. */
  datatype AuthError = InvalidStrategy | MissingBasicCredentials | MissingOAuthToken

  /** The verbs a request helper passes to the transport. */
  datatype Verb = POST | PUT | DELETE

  /** The options array a request helper hands to the transport: its
      `queryParams`, `postFields` and `method` entries, each when present
      (`verb` is the `method` entry). */
  datatype SendOptions = SendOptions(queryParams: Option<Params>, postFields: Option<Params>, verb: Option<Verb>)

  /** What the transport sees of the client it is called with. */
  datatype ClientView = ClientView(apiUrl: string, authStrategy: Option<AuthStrategy>, authOptions: Option<Params>)

  /** A transport failure, thrown as `ApiResponseException`. */
  datatype ApiException = ApiResponseException(detail: string)

  /** The outcome of a call that either returns a value or throws. */
  datatype Outcome<R> = Returned(value: R) | Thrown(error: ApiException)

  /** The authority part of the base URL: the hostname, prefixed by the
      subdomain and a dot unless the subdomain is empty in PHP's sense. */
  function Authority(subdomain: string, hostname: string): (authority: string)
    ensures |authority| >= |hostname| && authority[|authority| - |hostname|..] == hostname
    ensures authority == hostname <==> IsEmptyString(subdomain)
  {
    if IsEmptyString(subdomain) then hostname else subdomain + "." + hostname
  }

  /** The base URL built by the constructor. */
  function ApiUrl(subdomain: string, scheme: string, hostname: string, port: int): (url: string)
    ensures |url| > |scheme| + 3 + |hostname| + 8
    ensures url[..|scheme| + 3] == scheme + "://"
    ensures url[|url| - 8..] == "/api/" + ApiVersion + "/"
  {
    scheme + "://" + Authority(subdomain, hostname) + ":" + DecimalText(port) + "/api/" + ApiVersion + "/"
  }

  /** Reads the subdomain back out of a base URL whose scheme, hostname and
      port are known; `None` when the URL does not have either shape. */
  function SubdomainOfApiUrl(url: string, scheme: string, hostname: string, port: int): Option<string>
  {
    var prefix := scheme + "://";
    var suffix := ":" + DecimalText(port) + "/api/" + ApiVersion + "/";
    if |url| < |prefix| + |suffix| || url[..|prefix|] != prefix || url[|url| - |suffix|..] != suffix then None
    else
      var authority := url[|prefix|..|url| - |suffix|];
      if authority == hostname then Some("")
      else if |authority| > |hostname| + 1 && authority[|authority| - |hostname| - 1..] == "." + hostname then
        Some(authority[..|authority| - |hostname| - 1])
      else None
  }

  /** The base URL determines the subdomain: reading it back gives the
      subdomain, or "" when PHP's `empty` made the constructor omit it. */
  lemma {:induction false} ApiUrlDeterminesSubdomain(subdomain: string, scheme: string, hostname: string, port: int)
    ensures SubdomainOfApiUrl(ApiUrl(subdomain, scheme, hostname, port), scheme, hostname, port)
            == Some(if IsEmptyString(subdomain) then "" else subdomain)
  {
    var url := ApiUrl(subdomain, scheme, hostname, port);
    var prefix := scheme + "://";
    var suffix := ":" + DecimalText(port) + "/api/" + ApiVersion + "/";
    var authority := Authority(subdomain, hostname);
    assert url == prefix + authority + suffix;
    assert url[..|prefix|] == prefix;
    assert url[|url| - |suffix|..] == suffix;
    assert url[|prefix|..|url| - |suffix|] == authority;
    if !IsEmptyString(subdomain) {
      assert |subdomain| > 0;
      assert authority[|authority| - |hostname| - 1..] == "." + hostname;
      assert authority[..|authority| - |hostname| - 1] == subdomain;
    }
  }

  /** Whether `setAuth` accepts a strategy with these options, and if not, why. */
  function ValidateAuth(strategy: AuthStrategy, options: Params): (error: Option<AuthError>)
    ensures error == None <==>
              (strategy == Basic && "username" in options && "token" in options)
              || (strategy == OAuth && "token" in options)
    ensures error == Some(InvalidStrategy) <==> strategy.Unrecognised?
    ensures error == Some(MissingBasicCredentials) ==> strategy == Basic
    ensures error == Some(MissingOAuthToken) ==> strategy == OAuth
  {
    match strategy
    case Unrecognised(_) => Some(InvalidStrategy)
    case Basic => if "username" in options && "token" in options then None else Some(MissingBasicCredentials)
    case OAuth => if "token" in options then None else Some(MissingOAuthToken)
  }

  /** The query parameters `get` sends: with an effective sideload list,
      `include` holds the list joined by commas and `sideload` is dropped;
      without one, the parameters as given. */
  function SentQuery(query: Params, sideloads: Option<seq<string>>): (sent: Params)
    ensures sideloads.None? ==> sent == query
    ensures sideloads.Some? ==> sent.Keys == query.Keys - {"sideload"} + {"include"}
    ensures sideloads.Some? ==> sent["include"] == Str(Implode(IncludeSeparator, sideloads.value))
    ensures forall key :: key in query && key != "include" && key != "sideload" ==> key in sent && sent[key] == query[key]
  {
    match sideloads
    case None => query
    case Some(names) => (query - {"sideload"})["include" := Str(Implode(IncludeSeparator, names))]
  }

  /** The server recovers the sideload list from `include` by splitting at
      commas, provided the list is non-empty and no name contains a comma. */
  lemma SentIncludeListsSideloads(query: Params, names: seq<string>)
    requires |names| >= 1
    requires forall i :: 0 <= i < |names| ==> IncludeSeparator !in names[i]
    ensures "include" in SentQuery(query, Some(names))
    ensures SentQuery(query, Some(names))["include"].Str?
    ensures Explode(IncludeSeparator, SentQuery(query, Some(names))["include"].s) == names
  {
    ExplodeImplode(IncludeSeparator, names);
  }

  /** A `sideload` array among a call's parameters decides the effective
      sideload list on its own: any two clients, whatever lists they have
      stored, yield that array. */
  lemma PerCallSideloadWins(c: HttpClient, d: HttpClient, params: Params)
    requires "sideload" in params && params["sideload"].Arr?
    ensures c.GetSideload(params) == d.GetSideload(params) == Some(params["sideload"].items)
  {
  }

  class HttpClient {
    const subdomain: string
    const username: string
    const scheme: string
    const hostname: string
    const port: int
    /** The base URL of every request. */
    const apiUrl: string
    var authStrategy: Option<AuthStrategy>
    var authOptions: Option<Params>
    /** The sideload list for the next request, or null. */
    var sideload: Option<seq<string>>

    /** The client invariant: the stored strategy is always a recognised one. */
    ghost predicate Valid()
      reads this
    {
      authStrategy.Some? ==> !authStrategy.value.Unrecognised?
    }

    /** After a successful `setAuth` the stored options carry the keys the
        stored strategy needs. */
    ghost predicate AuthConsistent()
      reads this
    {
      authStrategy.Some? && authOptions.Some? && ValidateAuth(authStrategy.value, authOptions.value) == None
    }

    constructor (subdomain: string, username: string, scheme: string := "https", hostname: string := "zendesk.com", port: int := 443)
      ensures Valid()
      ensures GetSubdomain() == subdomain && this.username == username && this.scheme == scheme
      ensures this.hostname == hostname && this.port == port
      ensures GetApiUrl() == ApiUrl(subdomain, scheme, hostname, port)
      ensures GetAuthStrategy() == None && GetAuthOptions() == None && sideload == None
    {
      this.subdomain := subdomain;
      this.username := username;
      this.hostname := hostname;
      this.scheme := scheme;
      this.port := port;
      if IsEmptyString(subdomain) {
        apiUrl := scheme + "://" + hostname + ":" + DecimalText(port) + "/api/" + ApiVersion + "/";
      } else {
        apiUrl := scheme + "://" + subdomain + "." + hostname + ":" + DecimalText(port) + "/api/" + ApiVersion + "/";
      }
      authStrategy := None;
      authOptions := None;
      sideload := None;
    }

    function GetSubdomain(): string
    {
      subdomain
    }

    function GetApiUrl(): string
    {
      apiUrl
    }

    function GetAuthStrategy(): Option<AuthStrategy>
      reads this
    {
      authStrategy
    }

    function GetAuthOptions(): Option<Params>
      reads this
    {
      authOptions
    }

    /** What the transport is given when this client sends a request. */
    function View(): ClientView
      reads this
    {
      ClientView(apiUrl, authStrategy, authOptions)
    }

    /** `setAuth`: an unrecognised strategy throws and changes nothing; a
        recognised one is stored before the options are checked, so missing
        options throw with the new strategy and the old options in place. */
    method SetAuth(strategy: AuthStrategy, options: Params) returns (error: Option<AuthError>)
      requires Valid()
      modifies this`authStrategy, this`authOptions
      ensures Valid()
      ensures error == ValidateAuth(strategy, options)
      ensures GetAuthStrategy() == if strategy.Unrecognised? then old(GetAuthStrategy()) else Some(strategy)
      ensures GetAuthOptions() == if error.None? then Some(options) else old(GetAuthOptions())
      ensures error.None? ==> AuthConsistent()
    {
      if strategy.Unrecognised? {
        return Some(InvalidStrategy);
      }

      authStrategy := Some(strategy);

      if strategy == Basic {
        if "username" !in options || "token" !in options {
          return Some(MissingBasicCredentials);
        }
      } else if strategy == OAuth {
        if "token" !in options {
          return Some(MissingOAuthToken);
        }
      }

      authOptions := Some(options);
      return None;
    }

    /** `setSideload`: stores the list (or null) and returns the client. */
    method SetSideload(fields: Option<seq<string>> := None) returns (self: HttpClient)
      modifies this`sideload
      ensures self == this && sideload == fields
      ensures forall params: Params :: "sideload" !in params ==> GetSideload(params) == fields
    {
      sideload := fields;
      return this;
    }

    /** `getSideload`: a sideload array in the call's own parameters wins
        over the stored list. */
    function GetSideload(params: Params := map[]): Option<seq<string>>
      reads this
    {
      if IsSet(params, "sideload") && params["sideload"].Arr? then Some(params["sideload"].items)
      else sideload
    }

    /** `get`: sends the query with the effective sideload list turned into
        `include`; the stored sideload is cleared only if the send returns. */
    method Get<R>(endpoint: string, send: (ClientView, string, SendOptions) -> Outcome<R>, queryParams: Params := map[])
      returns (response: Outcome<R>)
      modifies this`sideload
      ensures response == send(old(View()), endpoint, SendOptions(Some(SentQuery(queryParams, old(GetSideload(queryParams)))), None, None))
      ensures "sideload" in queryParams && queryParams["sideload"].Arr? ==>
                response == send(old(View()), endpoint, SendOptions(Some(SentQuery(queryParams, Some(queryParams["sideload"].items))), None, None))
      ensures sideload == if response.Returned? then None else old(sideload)
    {
      var query := queryParams;
      var sideloads := GetSideload(query);

      if sideloads.Some? {
        query := query["include" := Str(Implode(IncludeSeparator, sideloads.value))];
        query := query - {"sideload"};
      }
      assert query == SentQuery(queryParams, sideloads);

      response := send(View(), endpoint, SendOptions(Some(query), None, None));
      if response.Thrown? {
        return;
      }

      var _ := SetSideload(None);
    }

    /** `post`: sends the data as `postFields` with method POST. */
    method Post<R>(endpoint: string, send: (ClientView, string, SendOptions) -> Outcome<R>, postData: Params := map[])
      returns (response: Outcome<R>)
      modifies this`sideload
      ensures response == send(old(View()), endpoint, SendOptions(None, Some(postData), Some(POST)))
      ensures sideload == if response.Returned? then None else old(sideload)
    {
      response := send(View(), endpoint, SendOptions(None, Some(postData), Some(POST)));
      if response.Thrown? {
        return;
      }

      var _ := SetSideload(None);
    }

    /** `put`: sends the data as `postFields` with method PUT. */
    method Put<R>(endpoint: string, send: (ClientView, string, SendOptions) -> Outcome<R>, putData: Params := map[])
      returns (response: Outcome<R>)
      modifies this`sideload
      ensures response == send(old(View()), endpoint, SendOptions(None, Some(putData), Some(PUT)))
      ensures sideload == if response.Returned? then None else old(sideload)
    {
      response := send(View(), endpoint, SendOptions(None, Some(putData), Some(PUT)));
      if response.Thrown? {
        return;
      }

      var _ := SetSideload(None);
    }

    /** `delete`: sends a request with method DELETE and no body. */
    method Delete<R>(endpoint: string, send: (ClientView, string, SendOptions) -> Outcome<R>)
      returns (response: Outcome<R>)
      modifies this`sideload
      ensures response == send(old(View()), endpoint, SendOptions(None, None, Some(DELETE)))
      ensures sideload == if response.Returned? then None else old(sideload)
    {
      response := send(View(), endpoint, SendOptions(None, None, Some(DELETE)));
      if response.Thrown? {
        return;
      }

      var _ := SetSideload(None);
    }
  }
}
