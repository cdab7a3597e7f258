/**
 * The API server HTTP client: expected status codes, request preparation,
 * the retry-on-401 loop with its token refresh, Do and Batch.  The network
 * is an oracle: a queue of replies the transport will give, in order, and a
 * log of every exchange the client puts on the wire.
 */
module HttpClient {
  import opened Dynamic

  const RetryCount := 2

  const StatusOK := 200
  const StatusCreated := 201
  const StatusNoContent := 204
  const StatusUnauthorized := 401
  const StatusNotFound := 404

  const AuthTokenHeader := "X-Auth-Token"
  const ContentTypeHeader := "Content-Type"
  const JsonContentType := "application/json"

  datatype HttpRequest = HttpRequest(httpMethod: string, url: string, header: map<string, string>, hasBody: bool)

  /** A response.  Besides the status, the oracle decides the
      X-Subject-Token header, whether the JSON body decodes, and whether
      closing the body fails. */
  datatype Response = Response(statusCode: int, subjectToken: string, bodyDecodes: bool, closeFails: bool)

  datatype Reply = TransportError | Delivered(response: Response)

  /** An exchange on the wire: an API request, or a token request of Login. */
  datatype Exchange = Api(request: HttpRequest) | Auth(request: HttpRequest)

  /** The client's token, the replies still to come, the exchanges so far. */
  datatype Net = Net(token: string, replies: seq<Reply>, log: seq<Exchange>)

  datatype Error =
    | IssuingFailed                               // transport error on an API request
    | ClosingFailed                               // closing a 401 response body failed
    | LoginTransportFailed                        // transport error on the token request
    | UnexpectedStatus(expected: seq<int>, actual: int)
    | LoginDecodingFailed
    | DecodingFailed                              // the response body did not decode
    | RequestFailed(index: nat, cause: Error)     // Batch: the index-th request failed

  // -----------------------------------------------------------------------
  // Status codes and requests

  function Member(expected: seq<int>, actual: int): (r: bool)
    ensures r <==> actual in expected
  {
    if expected == [] then false else expected[0] == actual || Member(expected[1..], actual)
  }

  /** checkStatusCode: nil iff the actual code is one of the expected ones. */
  function CheckStatusCode(expected: seq<int>, actual: int): (r: Option<Error>)
    ensures r.None? <==> actual in expected
    ensures r.Some? ==> r.value == UnexpectedStatus(expected, actual)
  {
    if Member(expected, actual) then None else Some(UnexpectedStatus(expected, actual))
  }

  /** getURL: the endpoint followed by the path. */
  function GetURL(endpoint: string, path: string): (url: string)
    ensures |url| == |endpoint| + |path|
    ensures url[..|endpoint|] == endpoint && url[|endpoint|..] == path
  {
    endpoint + path
  }

  /** request.Header.Set("X-Auth-Token", token), done only for a non-empty
      token; nothing else about the request changes. */
  function WithAuthToken(request: HttpRequest, token: string): (r: HttpRequest)
    ensures r.httpMethod == request.httpMethod && r.url == request.url && r.hasBody == request.hasBody
    ensures r.header - {AuthTokenHeader} == request.header - {AuthTokenHeader}
    ensures token != "" ==> AuthTokenHeader in r.header && r.header[AuthTokenHeader] == token
    ensures token == "" ==> r == request
  {
    if token != "" then request.(header := request.header[AuthTokenHeader := token]) else request
  }

  /** prepareHTTPRequest: a JSON request to endpoint+path that carries the
      token header exactly when the client has a token. */
  function PrepareHTTPRequest(token: string, endpoint: string, httpMethod: string, path: string, hasBody: bool): (r: HttpRequest)
    ensures r.httpMethod == httpMethod && r.url == GetURL(endpoint, path) && r.hasBody == hasBody
    ensures ContentTypeHeader in r.header && r.header[ContentTypeHeader] == JsonContentType
    ensures AuthTokenHeader in r.header <==> token != ""
    ensures token != "" ==> r.header[AuthTokenHeader] == token
    ensures r.header.Keys <= {ContentTypeHeader, AuthTokenHeader}
  {
    var request := HttpRequest(httpMethod, GetURL(endpoint, path), map[ContentTypeHeader := JsonContentType], hasBody);
    WithAuthToken(request, token)
  }

  // -----------------------------------------------------------------------
  // The network

  datatype Sent = Sent(reply: Reply, net: Net)

  /** One h.httpClient.Do: log the exchange and take the next reply; with
      no reply left the network fails. */
  function Transmit(s: Net, exchange: Exchange): (r: Sent)
    ensures r.net.token == s.token && r.net.log == s.log + [exchange]
    ensures s.replies == [] ==> r.reply == TransportError && r.net.replies == []
    ensures s.replies != [] ==> r.reply == s.replies[0] && r.net.replies == s.replies[1..]
  {
    if s.replies == [] then Sent(TransportError, s.(log := s.log + [exchange]))
    else Sent(s.replies[0], s.(replies := s.replies[1..], log := s.log + [exchange]))
  }

  // -----------------------------------------------------------------------
  // Login

  function LoginRequest(authURL: string): HttpRequest
  {
    HttpRequest("POST", authURL + "/auth/tokens", map[ContentTypeHeader := JsonContentType], true)
  }

  datatype Attempted = Attempted(err: Option<Error>, net: Net)

  /** Login: without an auth URL, nothing happens and there is no error;
      otherwise one token request, and the token changes only when that
      request succeeds (status 201 and a body that decodes), to the
      X-Subject-Token of its response. */
  function LoginSpec(authURL: string, s: Net): (r: Attempted)
    ensures authURL == "" ==> r == Attempted(None, s)
    ensures authURL != "" ==> r.net.log == s.log + [Auth(LoginRequest(authURL))]
    ensures authURL != "" ==>
      (r.err.None? <==>
        s.replies != [] && s.replies[0].Delivered? &&
        s.replies[0].response.statusCode == StatusCreated && s.replies[0].response.bodyDecodes)
    ensures r.err.None? && authURL != "" ==> r.net.token == s.replies[0].response.subjectToken
    ensures r.err.Some? ==> r.net.token == s.token
  {
    if authURL == "" then Attempted(None, s)
    else
      var sent := Transmit(s, Auth(LoginRequest(authURL)));
      match sent.reply
      case TransportError => Attempted(Some(LoginTransportFailed), sent.net)
      case Delivered(resp) =>
        var check := CheckStatusCode([StatusCreated], resp.statusCode);
        if check.Some? then Attempted(check, sent.net)
        else if !resp.bodyDecodes then Attempted(Some(LoginDecodingFailed), sent.net)
        else Attempted(None, sent.net.(token := resp.subjectToken))
  }

  // -----------------------------------------------------------------------
  // Retrying on 401

  datatype Retried = Retried(resp: Option<Response>, err: Option<Error>, net: Net)

  /**
   * doHTTPRequestRetryingOn401, for its two attempts written out: send; a
   * transport error aborts; a status other than 401 is the answer; after a
   * 401 on the first attempt, close the body, log in again, put the new
   * token on the request and send once more, and whatever status that
   * attempt brings, 401 included, is the answer.
   */
  function RetrySpec(authURL: string, s: Net, request: HttpRequest): (r: Retried)
    ensures r.resp.Some? <==> r.err.None?
    ensures |r.net.log| > |s.log| && r.net.log[..|s.log|] == s.log && r.net.log[|s.log|] == Api(request)
    ensures var again := WithAuthToken(request, r.net.token);
      r.net.log[|s.log|..] in
        {[Api(request)], [Api(request), Auth(LoginRequest(authURL))],
         [Api(request), Api(again)], [Api(request), Auth(LoginRequest(authURL)), Api(again)]}
    ensures |r.net.log| > |s.log| + 1 ==>
      s.replies != [] && s.replies[0].Delivered? &&
      s.replies[0].response.statusCode == StatusUnauthorized && !s.replies[0].response.closeFails
    ensures s.replies != [] && s.replies[0].Delivered? && s.replies[0].response.statusCode != StatusUnauthorized ==>
      r == Retried(Some(s.replies[0].response), None, Transmit(s, Api(request)).net)
    ensures r.resp.Some? && r.resp.value.statusCode == StatusUnauthorized ==>
      r.net.log[|r.net.log| - 1] == Api(WithAuthToken(request, r.net.token)) && |r.net.log| >= |s.log| + 2
  {
    var first := Transmit(s, Api(request));
    match first.reply
    case TransportError => Retried(None, Some(IssuingFailed), first.net)
    case Delivered(resp1) =>
      if resp1.statusCode != StatusUnauthorized then Retried(Some(resp1), None, first.net)
      else if resp1.closeFails then Retried(None, Some(ClosingFailed), first.net)
      else
        var login := LoginSpec(authURL, first.net);
        if login.err.Some? then
          assert login.net.log[|s.log|..] == [Api(request), Auth(LoginRequest(authURL))];
          Retried(None, login.err, login.net)
        else
          var again := WithAuthToken(request, login.net.token);
          var second := Transmit(login.net, Api(again));
          assert authURL == "" ==> second.net.log[|s.log|..] == [Api(request), Api(again)];
          assert authURL != "" ==> second.net.log[|s.log|..] == [Api(request), Auth(LoginRequest(authURL)), Api(again)];
          match second.reply
          case TransportError => Retried(None, Some(IssuingFailed), second.net)
          case Delivered(resp2) => Retried(Some(resp2), None, second.net)
  }

  /** The network after the first attempt of the loop. */
  function AfterFirstSend(s: Net, request: HttpRequest): Net
  {
    s.(replies := if s.replies == [] then [] else s.replies[1..], log := s.log + [Api(request)])
  }

  /** Every way out of the retry loop: a transport error on the first send
      ends it with IssuingFailed; after a first 401 a failing close ends it
      with ClosingFailed and no login; otherwise Login runs, its error ends
      the loop with no second send, and after a successful login the
      request, now carrying the new token, is sent again, whose reply is the
      answer whatever its status, and whose transport error is IssuingFailed. */
  lemma RetryOutcomes(authURL: string, s: Net, request: HttpRequest)
    ensures var r := RetrySpec(authURL, s, request);
      (s.replies == [] || s.replies[0].TransportError?) ==>
        r == Retried(None, Some(IssuingFailed), AfterFirstSend(s, request))
    ensures var r := RetrySpec(authURL, s, request);
      (s.replies != [] && s.replies[0].Delivered? &&
       s.replies[0].response.statusCode == StatusUnauthorized && s.replies[0].response.closeFails) ==>
        r == Retried(None, Some(ClosingFailed), AfterFirstSend(s, request))
    ensures var r := RetrySpec(authURL, s, request);
      var login := LoginSpec(authURL, AfterFirstSend(s, request));
      (s.replies != [] && s.replies[0].Delivered? && s.replies[0].response.statusCode == StatusUnauthorized &&
       !s.replies[0].response.closeFails && login.err.Some?) ==>
        r == Retried(None, login.err, login.net)
    ensures var r := RetrySpec(authURL, s, request);
      var login := LoginSpec(authURL, AfterFirstSend(s, request));
      var second := Transmit(login.net, Api(WithAuthToken(request, login.net.token)));
      (s.replies != [] && s.replies[0].Delivered? && s.replies[0].response.statusCode == StatusUnauthorized &&
       !s.replies[0].response.closeFails && login.err.None?) ==>
        (second.reply.TransportError? ==> r == Retried(None, Some(IssuingFailed), second.net)) &&
        (second.reply.Delivered? ==> r == Retried(Some(second.reply.response), None, second.net))
  {
    assert Transmit(s, Api(request)).net == AfterFirstSend(s, request);
  }

  /** An expired token: the first attempt gets 401, Login obtains token t,
      and the second attempt, carrying t, gets the answer. */
  lemma RetryRefreshesExpiredToken(authURL: string, s: Net, request: HttpRequest, t: string, answer: Response, later: seq<Reply>)
    requires authURL != "" && t != ""
    requires s.replies == [Delivered(Response(StatusUnauthorized, "", true, false)),
                           Delivered(Response(StatusCreated, t, true, false)),
                           Delivered(answer)] + later
    ensures var r := RetrySpec(authURL, s, request);
      && r.resp == Some(answer) && r.err.None?
      && r.net.token == t && r.net.replies == later
      && r.net.log == s.log + [Api(request), Auth(LoginRequest(authURL)), Api(WithAuthToken(request, t))]
      && WithAuthToken(request, t).header[AuthTokenHeader] == t
  {
    var first := Transmit(s, Api(request));
    assert first.net.replies == [Delivered(Response(StatusCreated, t, true, false)), Delivered(answer)] + later;
    var login := LoginSpec(authURL, first.net);
    assert login.net.replies == [Delivered(answer)] + later;
  }

  // -----------------------------------------------------------------------
  // Do and the verbs

  datatype Done = Done(resp: Option<Response>, err: Option<Error>, net: Net)

  /** Do: prepare the request, run the retry loop on it, then check the
      status; DELETE stops there, the other methods decode the body. */
  function DoSpec(authURL: string, endpoint: string, s: Net, httpMethod: string, path: string, hasBody: bool, expected: seq<int>): (r: Done)
    ensures r.net == RetrySpec(authURL, s, PrepareHTTPRequest(s.token, endpoint, httpMethod, path, hasBody)).net
    ensures var retried := RetrySpec(authURL, s, PrepareHTTPRequest(s.token, endpoint, httpMethod, path, hasBody));
      retried.err.Some? ==> r == Done(None, retried.err, retried.net)
    ensures var retried := RetrySpec(authURL, s, PrepareHTTPRequest(s.token, endpoint, httpMethod, path, hasBody));
      retried.err.None? ==> r.resp == retried.resp
    ensures r.resp.None? ==> r.err.Some?
    ensures r.err.None? ==> r.resp.Some? && r.resp.value.statusCode in expected
    ensures r.resp.Some? && r.resp.value.statusCode !in expected ==>
      r.err == Some(UnexpectedStatus(expected, r.resp.value.statusCode))
    ensures r.resp.Some? && r.resp.value.statusCode in expected ==>
      (r.err.None? <==> httpMethod == "DELETE" || r.resp.value.bodyDecodes)
  {
    var request := PrepareHTTPRequest(s.token, endpoint, httpMethod, path, hasBody);
    var retried := RetrySpec(authURL, s, request);
    if retried.err.Some? then Done(None, retried.err, retried.net)
    else
      var resp := retried.resp.value;
      var check := CheckStatusCode(expected, resp.statusCode);
      if check.Some? then Done(Some(resp), check, retried.net)
      else if httpMethod == "DELETE" then Done(Some(resp), None, retried.net)
      else if !resp.bodyDecodes then Done(Some(resp), Some(DecodingFailed), retried.net)
      else Done(Some(resp), None, retried.net)
  }

  /** The verbs of the client and what each sends and accepts. */
  datatype Verb = Create | Read | Update | Delete | EnsureDeleted

  function MethodOf(verb: Verb): string
  {
    match verb
    case Create => "POST"
    case Read => "GET"
    case Update => "PUT"
    case Delete => "DELETE"
    case EnsureDeleted => "DELETE"
  }

  function ExpectedCodes(verb: Verb): seq<int>
  {
    match verb
    case Create => [StatusCreated]
    case Read => [StatusOK]
    case Update => [StatusOK]
    case Delete => [StatusNoContent]
    case EnsureDeleted => [StatusNoContent, StatusNotFound]
  }

  /** Create accepts 201, Read and Update 200, Delete 204, and
      EnsureDeleted 204 or 404 (an already deleted resource). */
  lemma VerbAcceptance(verb: Verb, status: int)
    ensures CheckStatusCode(ExpectedCodes(verb), status).None? <==>
      match verb
      case Create => status == 201
      case Read => status == 200
      case Update => status == 200
      case Delete => status == 204
      case EnsureDeleted => status == 204 || status == 404
  {
  }

  // -----------------------------------------------------------------------
  // Batch

  /** client.Request: method, path, whether it has data, expected codes. */
  datatype Request = Request(httpMethod: string, path: string, hasData: bool, expected: seq<int>)

  datatype Batched = Batched(err: Option<Error>, net: Net)

  /** A Batch outcome seen from `n` requests further back in the list. */
  function Shift(r: Batched, n: nat): Batched
  {
    if r.err.Some? && r.err.value.RequestFailed? then
      r.(err := Some(RequestFailed(r.err.value.index + n, r.err.value.cause)))
    else r
  }

  lemma ShiftTwice(r: Batched, m: nat, n: nat)
    ensures Shift(Shift(r, m), n) == Shift(r, m + n)
  {
  }

  function DoRequestSpec(authURL: string, endpoint: string, s: Net, request: Request): Done
  {
    DoSpec(authURL, endpoint, s, request.httpMethod, request.path, request.hasData, request.expected)
  }

  /** Batch: the requests in order, stopping at the first that fails. */
  function BatchSpec(authURL: string, endpoint: string, s: Net, requests: seq<Request>): (r: Batched)
    ensures r.err.Some? ==> r.err.value.RequestFailed? && r.err.value.index < |requests|
    decreases |requests|
  {
    if requests == [] then Batched(None, s)
    else
      var done := DoRequestSpec(authURL, endpoint, s, requests[0]);
      if done.err.Some? then Batched(Some(RequestFailed(0, done.err.value)), done.net)
      else Shift(BatchSpec(authURL, endpoint, done.net, requests[1..]), 1)
  }

  /** When Batch fails at index i with cause c: the requests before i all
      succeeded, request i failed with c from the state they left, and no
      later request was issued. */
  lemma {:induction false} BatchStopsAtFirstFailure(authURL: string, endpoint: string, s: Net, requests: seq<Request>)
    requires BatchSpec(authURL, endpoint, s, requests).err.Some?
    ensures var r := BatchSpec(authURL, endpoint, s, requests);
      var i := r.err.value.index;
      var before := BatchSpec(authURL, endpoint, s, requests[..i]);
      && before.err.None?
      && DoRequestSpec(authURL, endpoint, before.net, requests[i]) == Done(
           DoRequestSpec(authURL, endpoint, before.net, requests[i]).resp, Some(r.err.value.cause), r.net)
    decreases |requests|
  {
    var done := DoRequestSpec(authURL, endpoint, s, requests[0]);
    if done.err.None? {
      var rest := BatchSpec(authURL, endpoint, done.net, requests[1..]);
      BatchStopsAtFirstFailure(authURL, endpoint, done.net, requests[1..]);
      var i := rest.err.value.index;
      assert requests[..i + 1][1..] == requests[1..][..i];
      assert requests[..i + 1][0] == requests[0];
      assert requests[i + 1] == requests[1..][i];
    }
  }

  /** Requests after a failing one make no difference to Batch. */
  lemma {:induction false} BatchIgnoresRest(authURL: string, endpoint: string, s: Net, requests: seq<Request>, more: seq<Request>)
    requires BatchSpec(authURL, endpoint, s, requests).err.Some?
    ensures BatchSpec(authURL, endpoint, s, requests + more) == BatchSpec(authURL, endpoint, s, requests)
    decreases |requests|
  {
    assert (requests + more)[0] == requests[0];
    var done := DoRequestSpec(authURL, endpoint, s, requests[0]);
    if done.err.None? {
      assert (requests + more)[1..] == requests[1..] + more;
      BatchIgnoresRest(authURL, endpoint, done.net, requests[1..], more);
    }
  }

  // -----------------------------------------------------------------------
  // The client object

  /** The HTTP client.  `replies` and `log` stand for the network. */
  class HTTP {
    const endpoint: string
    const authURL: string
    var authToken: string
    var replies: seq<Reply>
    var log: seq<Exchange>

    constructor (endpoint: string, authURL: string, network: seq<Reply>)
      ensures this.endpoint == endpoint && this.authURL == authURL
      ensures State() == Net("", network, [])
    {
      this.endpoint := endpoint;
      this.authURL := authURL;
      authToken := "";
      replies := network;
      log := [];
    }

    function State(): Net
      reads this
    {
      Net(authToken, replies, log)
    }

    /** h.httpClient.Do on the oracle network. */
    method Send(exchange: Exchange) returns (reply: Reply)
      modifies this
      ensures Sent(reply, State()) == Transmit(old(State()), exchange)
    {
      log := log + [exchange];
      if replies == [] {
        return TransportError;
      }
      reply := replies[0];
      replies := replies[1..];
    }

    method Login() returns (err: Option<Error>)
      modifies this
      ensures Attempted(err, State()) == LoginSpec(authURL, old(State()))
    {
      if authURL == "" {
        return None;
      }
      var reply := Send(Auth(LoginRequest(authURL)));
      if reply.TransportError? {
        return Some(LoginTransportFailed);
      }
      err := CheckStatusCode([StatusCreated], reply.response.statusCode);
      if err.Some? {
        return;
      }
      if !reply.response.bodyDecodes {
        return Some(LoginDecodingFailed);
      }
      authToken := reply.response.subjectToken;
    }

    method DoHTTPRequestRetryingOn401(request: HttpRequest) returns (resp: Option<Response>, err: Option<Error>)
      modifies this
      ensures Retried(resp, err, State()) == RetrySpec(authURL, old(State()), request)
    {
      ghost var s0 := State();
      ghost var first := Transmit(s0, Api(request));
      ghost var login := LoginSpec(authURL, first.net);
      var req := request;
      resp := None;
      var i := 0;
      while i < RetryCount
        invariant 0 <= i <= RetryCount
        invariant i == 0 ==> State() == s0 && req == request
        invariant i == 1 ==>
          && first.reply.Delivered? && first.reply.response.statusCode == StatusUnauthorized
          && !first.reply.response.closeFails && login.err.None?
          && State() == login.net && req == WithAuthToken(request, login.net.token)
        invariant i == 2 ==> RetrySpec(authURL, s0, request) == Retried(resp, None, State())
      {
        var reply := Send(Api(req));
        if reply.TransportError? {
          return None, Some(IssuingFailed);
        }
        resp := Some(reply.response);
        if reply.response.statusCode != StatusUnauthorized {
          break;
        }
        // refresh the token and retry, except after the last attempt
        if i < RetryCount - 1 {
          if reply.response.closeFails {
            return None, Some(ClosingFailed);
          }
          err := Login();
          if err.Some? {
            return None, err;
          }
          req := WithAuthToken(req, authToken);
        }
        i := i + 1;
      }
      err := None;
    }

    method Do(httpMethod: string, path: string, hasBody: bool, expected: seq<int>) returns (resp: Option<Response>, err: Option<Error>)
      modifies this
      ensures Done(resp, err, State()) == DoSpec(authURL, endpoint, old(State()), httpMethod, path, hasBody, expected)
    {
      var request := PrepareHTTPRequest(authToken, endpoint, httpMethod, path, hasBody);
      resp, err := DoHTTPRequestRetryingOn401(request);
      if err.Some? {
        return None, err;
      }
      err := CheckStatusCode(expected, resp.value.statusCode);
      if err.Some? {
        return;
      }
      if httpMethod == "DELETE" {
        return;
      }
      if !resp.value.bodyDecodes {
        err := Some(DecodingFailed);
      }
    }

    method Create(path: string, hasData: bool) returns (resp: Option<Response>, err: Option<Error>)
      modifies this
      ensures Done(resp, err, State()) == DoSpec(authURL, endpoint, old(State()), "POST", path, hasData, [StatusCreated])
    {
      resp, err := Do(MethodOf(Verb.Create), path, hasData, ExpectedCodes(Verb.Create));
    }

    method Read(path: string) returns (resp: Option<Response>, err: Option<Error>)
      modifies this
      ensures Done(resp, err, State()) == DoSpec(authURL, endpoint, old(State()), "GET", path, false, [StatusOK])
    {
      resp, err := Do(MethodOf(Verb.Read), path, false, ExpectedCodes(Verb.Read));
    }

    method Update(path: string, hasData: bool) returns (resp: Option<Response>, err: Option<Error>)
      modifies this
      ensures Done(resp, err, State()) == DoSpec(authURL, endpoint, old(State()), "PUT", path, hasData, [StatusOK])
    {
      resp, err := Do(MethodOf(Verb.Update), path, hasData, ExpectedCodes(Verb.Update));
    }

    method Delete(path: string) returns (resp: Option<Response>, err: Option<Error>)
      modifies this
      ensures Done(resp, err, State()) == DoSpec(authURL, endpoint, old(State()), "DELETE", path, false, [StatusNoContent])
    {
      resp, err := Do(MethodOf(Verb.Delete), path, false, ExpectedCodes(Verb.Delete));
    }

    method EnsureDeleted(path: string) returns (resp: Option<Response>, err: Option<Error>)
      modifies this
      ensures Done(resp, err, State()) ==
        DoSpec(authURL, endpoint, old(State()), "DELETE", path, false, [StatusNoContent, StatusNotFound])
    {
      resp, err := Do(MethodOf(Verb.EnsureDeleted), path, false, ExpectedCodes(Verb.EnsureDeleted));
    }

    method DoRequest(request: Request) returns (resp: Option<Response>, err: Option<Error>)
      modifies this
      ensures Done(resp, err, State()) == DoRequestSpec(authURL, endpoint, old(State()), request)
    {
      resp, err := Do(request.httpMethod, request.path, request.hasData, request.expected);
    }

    method Batch(requests: seq<Request>) returns (err: Option<Error>)
      modifies this
      ensures Batched(err, State()) == BatchSpec(authURL, endpoint, old(State()), requests)
    {
      ghost var s0 := State();
      for i := 0 to |requests|
        invariant BatchSpec(authURL, endpoint, s0, requests) ==
                  Shift(BatchSpec(authURL, endpoint, State(), requests[i..]), i)
      {
        ghost var si := State();
        assert requests[i..][0] == requests[i] && requests[i..][1..] == requests[i + 1..];
        var resp, e := DoRequest(requests[i]);
        if e.Some? {
          assert BatchSpec(authURL, endpoint, si, requests[i..]) == Batched(Some(RequestFailed(0, e.value)), State());
          return Some(RequestFailed(i, e.value));
        }
        assert BatchSpec(authURL, endpoint, si, requests[i..]) ==
               Shift(BatchSpec(authURL, endpoint, State(), requests[i + 1..]), 1);
        ShiftTwice(BatchSpec(authURL, endpoint, State(), requests[i + 1..]), 1, i);
      }
      assert requests[|requests|..] == [];
      err := None;
    }
  }
}
