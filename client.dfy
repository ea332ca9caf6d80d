/** The session and transport layer of the CRM client (client.go): authentication
    in New, the request records DoGet, DoPost and DoPostWithoutCookie hand to the
    HTTP client, and the interpretation of the standard response envelope in
    GetResponseID.

    HTTP and JSON are replaced by values: a request is a record, a reply is a
    status code, a cookie list and an already-decoded body (or the cause of a
    decoding failure), and the exchange itself is a function supplied by the
    caller. */
module Client {
  import opened Wrappers

  /** An HTTP cookie, carried opaquely. */
  datatype Cookie = Cookie(name: string, value: string)

  /** The errors the client returns. Go returns plain `error` values; the model
      keeps the ones built with errors.New as their exact text, except the
      wrong-status error, which keeps only the status code, and names the
      others by where they come from. */
  datatype Error =
    | Message(text: string)         // errors.New(text)
    | BadUrl(url: string)           // url.Parse or http.NewRequest rejected the URL
    | WrongStatus(status: int)      // a non-200 reply to the authentication POST
    | DecodeFailure(cause: string)  // reading or JSON-decoding a reply body failed
    | TransportFailure(cause: string) // the HTTP exchange itself failed

  /** Go's `(int, error)` pair: an id, and nil or an error. */
  datatype IdResult = IdResult(id: int, err: Option<Error>)

  /** A reply body as JSON decoding leaves it: the decoded value, or the cause
      of the failure. */
  datatype Decoded<T> = Decoded(value: T) | Malformed(cause: string)

  /** One entry of AuthResponse.Response.Accounts. */
  datatype Account = Account(id: string, name: string, subdomain: string, language: string, timezone: string)

  /** AuthResponse.Response, the decoded reply of the authentication endpoint. */
  datatype AuthReply = AuthReply(auth: bool, accounts: seq<Account>, serverTime: int, error: string)

  /** What came back from the authentication POST: its status code, the cookies
      it set, and its body. */
  datatype AuthExchange = AuthExchange(status: int, cookies: seq<Cookie>, body: Decoded<AuthReply>)

  /** One entry of respID.Embedded.Items. */
  datatype Item = Item(id: int)

  /** respID, the standard reply envelope of the write endpoints. */
  datatype RespID = RespID(items: seq<Item>, error: string)

  /** A request as it is handed to the HTTP client: the verb, the URL, the
      query parameters added to that URL, the headers set, the cookies
      attached, and the (not yet encoded) body, if any. */
  datatype Request<B> = Request(
    verb: string,
    url: string,
    query: map<string, seq<string>>,
    headers: map<string, string>,
    cookies: seq<Cookie>,
    body: Option<B>)

  /** What the code takes from outside itself: the package-level endpoint
      table `apiUrls`, and whether `url.Parse` accepts a string. */
  datatype Env = Env(apiUrls: map<string, string>, urlParses: string -> bool)

  /** `apiUrls[name]`: a missing key reads as the empty string, as in Go. */
  function ApiUrl(env: Env, name: string): string
  {
    if name in env.apiUrls then env.apiUrls[name] else ""
  }

  /** The value of a clientInfo: what New fills in. */
  datatype Session = Session(userLogin: string, apiHash: string, timezone: string, url: string, cookies: seq<Cookie>)

  /** clientInfo: the connection to one CRM account. New fills its fields in
      one after the other; nothing changes them afterwards. */
  class ClientInfo {
    var userLogin: string
    var apiHash: string
    var timezone: string
    var url: string
    var cookies: seq<Cookie>

    /** The literal `&clientInfo{userLogin: login, apiHash: hash}`. */
    constructor (login: string, hash: string)
      ensures userLogin == login && apiHash == hash
      ensures timezone == "" && url == "" && cookies == []
    {
      userLogin, apiHash := login, hash;
      timezone, url, cookies := "", "", [];
    }

    function State(): Session
      reads this
    {
      Session(userLogin, apiHash, timezone, url, cookies)
    }

    /** The `for _, cookie := range c.Cookie { req.AddCookie(cookie) }` loop
        that DoGet and DoPost share. */
    method AttachCookies() returns (attached: seq<Cookie>)
      ensures attached == cookies
    {
      attached := [];
      for i := 0 to |cookies|
        invariant attached == cookies[..i]
      {
        attached := attached + [cookies[i]];
      }
    }

    /** The GET request DoGet sends: the session's cookies attached and one
        query value added per entry of `data`. The entries are visited in
        an arbitrary order, as Go's map iteration visits them. */
    method DoGet(env: Env, url: string, data: map<string, string>) returns (r: Result<Request<()>, Error>)
      ensures r.Failure? <==> !env.urlParses(url)
      ensures r.Failure? ==> r.error == BadUrl(url)
      ensures r.Success? ==> r.value.verb == "GET" && r.value.url == url && r.value.body == None
      ensures r.Success? ==> r.value.cookies == cookies && r.value.headers == map[]
      ensures r.Success? ==> r.value.query.Keys == data.Keys
      ensures r.Success? ==> forall k :: k in data ==> r.value.query[k] == [data[k]]
    {
      if !env.urlParses(url) {
        return Failure(BadUrl(url));
      }
      var attached := AttachCookies();
      var query: map<string, seq<string>> := map[];
      var pending := data.Keys;
      while pending != {}
        invariant pending <= data.Keys
        invariant query.Keys == data.Keys - pending
        invariant forall k :: k in query ==> query[k] == [data[k]]
        decreases pending
      {
        var key :| key in pending;
        query := AddValue(query, key, data[key]);
        pending := pending - {key};
      }
      r := Success(Request("GET", url, query, map[], attached, None));
    }

    /** The JSON POST DoPost sends, with the session's cookies attached. */
    method DoPost<B>(env: Env, url: string, data: B) returns (r: Result<Request<B>, Error>)
      ensures r.Failure? <==> !env.urlParses(url)
      ensures r.Failure? ==> r.error == BadUrl(url)
      ensures r.Success? ==> r.value == PostRequest(cookies, url, data)
      ensures r.Success? ==> r.value.cookies == cookies && r.value.body == Some(data)
    {
      if !env.urlParses(url) {
        return Failure(BadUrl(url));
      }
      var attached := AttachCookies();
      r := Success(PostRequest(attached, url, data));
    }

    /** The POST DoPostWithoutCookie sends: no cookie is attached. Its body is
        JSON-encoded although its Content-Type header says form-urlencoded. */
    method DoPostWithoutCookie<B>(env: Env, url: string, data: B) returns (r: Result<Request<B>, Error>)
      ensures r.Failure? <==> !env.urlParses(url)
      ensures r.Failure? ==> r.error == BadUrl(url)
      ensures r.Success? ==> r.value.verb == "POST" && r.value.url == url && r.value.body == Some(data)
      ensures r.Success? ==> r.value.cookies == [] && r.value.query == map[]
      ensures r.Success? ==> r.value.headers == map["Accept" := "application/json", "Content-Type" := "application/x-www-form-urlencoded"]
    {
      if !env.urlParses(url) {
        return Failure(BadUrl(url));
      }
      var headers := map["Accept" := "application/json"];
      headers := headers["Content-Type" := "application/x-www-form-urlencoded"];
      r := Success(Request("POST", url, map[], headers, [], Some(data)));
    }
  }

  /** `url.Values.Add`: append a value to those already held under a key. */
  function AddValue(query: map<string, seq<string>>, key: string, value: string): map<string, seq<string>>
  {
    query[key := (if key in query then query[key] else []) + [value]]
  }

  /** The request DoPost builds. */
  function PostRequest<B>(cookies: seq<Cookie>, url: string, data: B): Request<B>
  {
    Request("POST", url, map[], map["Content-Type" := "application/json"], cookies, Some(data))
  }

  /** The form POST New sends to the authentication endpoint. */
  function AuthRequest(env: Env, accountURL: string, login: string, hash: string): Request<map<string, string>>
  {
    Request("POST", accountURL + ApiUrl(env, "auth"), map[],
            map["Content-Type" := "application/x-www-form-urlencoded"], [],
            Some(map["USER_LOGIN" := login, "USER_HASH" := hash]))
  }

  /** The timezone New copies: that of the first account, if there is one. */
  function FirstTimezone(accounts: seq<Account>): string
  {
    if |accounts| > 0 then accounts[0].timezone else ""
  }

  /** What New returns, as a value: the session of the new client or the
      error. `post` answers the authentication request. */
  function Authenticate(env: Env, accountURL: string, login: string, hash: string,
                        post: Request<map<string, string>> -> AuthExchange): (r: Result<Session, Error>)
    ensures r.Success? <==>
      && login != "" && hash != "" && env.urlParses(accountURL)
      && post(AuthRequest(env, accountURL, login, hash)).status == 200
      && post(AuthRequest(env, accountURL, login, hash)).body.Decoded?
      && post(AuthRequest(env, accountURL, login, hash)).body.value.auth
  {
    if login == "" then Failure(Message("login is empty"))
    else if hash == "" then Failure(Message("hash is empty"))
    else if !env.urlParses(accountURL) then Failure(BadUrl(accountURL))
    else
      var reply := post(AuthRequest(env, accountURL, login, hash));
      if reply.status != 200 then Failure(WrongStatus(reply.status))
      else match reply.body
        case Malformed(cause) => Failure(DecodeFailure(cause))
        case Decoded(auth) =>
          if !auth.auth then Failure(Message(auth.error))
          else Success(Session(login, hash, FirstTimezone(auth.accounts), accountURL, reply.cookies))
  }

  /** New: check the inputs, authenticate, and fill in a clientInfo step by
      step. Returns the client, or null and the error. */
  method New(env: Env, accountURL: string, login: string, hash: string,
             post: Request<map<string, string>> -> AuthExchange)
    returns (c: ClientInfo?, err: Option<Error>)
    ensures c == null <==> err.Some?
    ensures err.Some? ==> Authenticate(env, accountURL, login, hash, post) == Failure(err.value)
    ensures c != null ==> fresh(c) && Authenticate(env, accountURL, login, hash, post) == Success(c.State())
  {
    if login == "" {
      return null, Some(Message("login is empty"));
    }
    if hash == "" {
      return null, Some(Message("hash is empty"));
    }
    c := new ClientInfo(login, hash);
    if !env.urlParses(accountURL) {
      return null, Some(BadUrl(accountURL));
    }
    c.url := accountURL;
    var reply := post(AuthRequest(env, c.url, c.userLogin, c.apiHash));
    if reply.status == 200 {
      c.cookies := reply.cookies;
      match reply.body {
        case Malformed(cause) =>
          return null, Some(DecodeFailure(cause));
        case Decoded(auth) =>
          if |auth.accounts| > 0 {
            c.timezone := auth.accounts[0].timezone;
          }
          if !auth.auth {
            return null, Some(Message(auth.error));
          }
          return c, None;
      }
    } else {
      return null, Some(WrongStatus(reply.status));
    }
  }

  // Properties of authentication

  /** An empty login is refused before the hash, the URL or the server is consulted. */
  lemma EmptyLoginRefused(env: Env, accountURL: string, hash: string,
                          post: Request<map<string, string>> -> AuthExchange)
    ensures Authenticate(env, accountURL, "", hash, post) == Failure(Message("login is empty"))
  {
  }

  /** With a login, an empty hash is refused before the URL or the server is consulted. */
  lemma EmptyHashRefused(env: Env, accountURL: string, login: string,
                         post: Request<map<string, string>> -> AuthExchange)
    requires login != ""
    ensures Authenticate(env, accountURL, login, "", post) == Failure(Message("hash is empty"))
  {
  }

  /** Invalid input never reaches the server: the outcome is the same whatever
      the authentication endpoint would have answered. */
  lemma InvalidInputSendsNothing(env: Env, accountURL: string, login: string, hash: string,
                                 post1: Request<map<string, string>> -> AuthExchange,
                                 post2: Request<map<string, string>> -> AuthExchange)
    requires login == "" || hash == "" || !env.urlParses(accountURL)
    ensures Authenticate(env, accountURL, login, hash, post1) == Authenticate(env, accountURL, login, hash, post2)
    ensures Authenticate(env, accountURL, login, hash, post1).Failure?
  {
  }

  /** Any status but 200 is an error that depends on the status alone: the
      body is not decoded and the cookies are not kept. */
  lemma WrongStatusRefused(env: Env, accountURL: string, login: string, hash: string,
                           post: Request<map<string, string>> -> AuthExchange)
    requires login != "" && hash != "" && env.urlParses(accountURL)
    requires post(AuthRequest(env, accountURL, login, hash)).status != 200
    ensures Authenticate(env, accountURL, login, hash, post)
         == Failure(WrongStatus(post(AuthRequest(env, accountURL, login, hash)).status))
  {
  }

  /** A 200 reply whose body does not decode is a decoding error. */
  lemma MalformedReplyRefused(env: Env, accountURL: string, login: string, hash: string,
                              post: Request<map<string, string>> -> AuthExchange)
    requires login != "" && hash != "" && env.urlParses(accountURL)
    requires post(AuthRequest(env, accountURL, login, hash)).status == 200
    requires post(AuthRequest(env, accountURL, login, hash)).body.Malformed?
    ensures Authenticate(env, accountURL, login, hash, post)
         == Failure(DecodeFailure(post(AuthRequest(env, accountURL, login, hash)).body.cause))
  {
  }

  /** A reply with `auth == false` is an error whose text is exactly the
      server's error string, whatever the accounts hold. */
  lemma RejectedCarriesServerError(env: Env, accountURL: string, login: string, hash: string,
                                   post: Request<map<string, string>> -> AuthExchange)
    requires login != "" && hash != "" && env.urlParses(accountURL)
    requires post(AuthRequest(env, accountURL, login, hash)).status == 200
    requires post(AuthRequest(env, accountURL, login, hash)).body.Decoded?
    requires !post(AuthRequest(env, accountURL, login, hash)).body.value.auth
    ensures Authenticate(env, accountURL, login, hash, post)
         == Failure(Message(post(AuthRequest(env, accountURL, login, hash)).body.value.error))
  {
  }

  /** An accepted reply yields the session: the login and hash as given, the
      account URL, the reply's cookies in order, and the first account's
      timezone or "" when there is no account. */
  lemma AcceptedSession(env: Env, accountURL: string, login: string, hash: string,
                        post: Request<map<string, string>> -> AuthExchange)
    requires login != "" && hash != "" && env.urlParses(accountURL)
    requires post(AuthRequest(env, accountURL, login, hash)).status == 200
    requires post(AuthRequest(env, accountURL, login, hash)).body.Decoded?
    requires post(AuthRequest(env, accountURL, login, hash)).body.value.auth
    ensures var reply := post(AuthRequest(env, accountURL, login, hash));
            var accounts := reply.body.value.accounts;
            (Authenticate(env, accountURL, login, hash, post)
               == Success(Session(login, hash, if |accounts| > 0 then accounts[0].timezone else "", accountURL, reply.cookies)))
  {
  }

  /** The authentication request is a cookie-less form POST of the login and
      hash to the account URL followed by the `auth` endpoint path, with the
      form Content-Type header and nothing added to the query. */
  lemma AuthRequestShape(env: Env, accountURL: string, login: string, hash: string)
    ensures var req := AuthRequest(env, accountURL, login, hash);
            && req.verb == "POST" && req.cookies == []
            && req.url == accountURL + ApiUrl(env, "auth")
            && req.body == Some(map["USER_LOGIN" := login, "USER_HASH" := hash])
            && req.headers == map["Content-Type" := "application/x-www-form-urlencoded"]
            && req.query == map[]
  {
  }

  // Interpretation of the response envelope

  /** GetResponseID: the id of the first item; with no items, the server's
      error string or "No Items"; a reply that does not decode is its
      decoding error. Every error comes with id 0. */
  function GetResponseID(resp: Decoded<RespID>): (r: IdResult)
    ensures r.err.None? <==> resp.Decoded? && |resp.value.items| > 0
    ensures r.err.None? ==> r.id == resp.value.items[0].id
    ensures r.err.Some? ==> r.id == 0
  {
    match resp
    case Malformed(cause) => IdResult(0, Some(DecodeFailure(cause)))
    case Decoded(envelope) =>
      if |envelope.items| == 0 then
        if envelope.error != "" then IdResult(0, Some(Message(envelope.error)))
        else IdResult(0, Some(Message("No Items")))
      else IdResult(envelope.items[0].id, None)
  }

  /** Only the first item is consulted: the later items and the error string
      do not matter. */
  lemma FirstItemWins(first: Item, rest: seq<Item>, error: string)
    ensures GetResponseID(Decoded(RespID([first] + rest, error))) == IdResult(first.id, None)
  {
  }

  /** No items and an error string: that string, exactly, with id 0. */
  lemma NoItemsServerError(error: string)
    requires error != ""
    ensures GetResponseID(Decoded(RespID([], error))) == IdResult(0, Some(Message(error)))
  {
  }

  /** No items and no error string: "No Items", with id 0. */
  lemma NoItemsNoError()
    ensures GetResponseID(Decoded(RespID([], ""))) == IdResult(0, Some(Message("No Items")))
  {
  }
}
