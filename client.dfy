/**
  The API client of vkmusix/client.py: the open/closed session state, the
  request dispatcher `_req` with its parameter clean-up and its error-code
  loop, the captcha-service poll loop, the response finalizer and the proxy
  normalisation of the constructor.

  Replies come from scripts: `first` is the reply to the first request and
  `rounds[k]` holds the k-th captcha round: the solution the user would type
  in, the answer of the solving service (used when the session has a
  RuCaptcha key) and the reply to the request re-issued with the solution. A script that runs out
  while the source would still be looping ends in `Unfinished`.
 */
module ApiClient {
  import opened Wrappers
  import opened PyValue
  import opened Errors
  import Text

  // ---------------------------------------------------------------------
  // Parameter clean-up and method naming
  // ---------------------------------------------------------------------

  /** Python `isinstance(v, int)`: bools are ints too. */
  predicate IsPyInt(v: Value) {
    v.VInt? || v.VBool?
  }

  /** The parameters `_req` sends: None-valued entries are dropped, then a
      truthy `count` that is not an int becomes None and a negative one
      becomes 300. */
  function CleanParams(params: map<string, Value>): (r: map<string, Value>)
    ensures r.Keys == set k | k in params && params[k] != VNone
    ensures forall k :: k in r && k != "count" ==> r[k] == params[k] && r[k] != VNone
    ensures "count" in r && Truthy(params["count"]) && !IsPyInt(params["count"]) ==> r["count"] == VNone
    ensures "count" in r && params["count"].VInt? && params["count"].i < 0 ==> r["count"] == VInt(300)
    ensures "count" in r && (!Truthy(params["count"]) || params["count"].VBool? ||
                             (params["count"].VInt? && params["count"].i >= 0))
            ==> r["count"] == params["count"]
  {
    var kept := map k | k in params && params[k] != VNone :: params[k];
    if "count" in kept && Truthy(kept["count"]) then
      if !IsPyInt(kept["count"]) then kept["count" := VNone]
      else if kept["count"].VInt? && kept["count"].i < 0 then kept["count" := VInt(300)]
      else kept
    else kept
  }

  /** After the clean-up a `count` is never a negative int and, when truthy,
      is an int; every other parameter is non-None. */
  lemma CleanCountIsClamped(params: map<string, Value>)
    ensures var r := CleanParams(params);
            "count" in r ==> !(r["count"].VInt? && r["count"].i < 0) && (Truthy(r["count"]) ==> IsPyInt(r["count"]))
  {
  }

  /** A method name without "." is taken from the "audio." namespace. */
  function QualifyMethod(m: string): (r: string)
    ensures '.' in r
    ensures '.' in m ==> r == m
    ensures '.' !in m ==> r == "audio." + m
  {
    if '.' in m then m else "audio." + m
  }

  /** Qualifying is idempotent. */
  lemma QualifyIdempotent(m: string)
    ensures QualifyMethod(QualifyMethod(m)) == QualifyMethod(m)
  {
  }

  // ---------------------------------------------------------------------
  // Classification of one reply
  // ---------------------------------------------------------------------

  /** What the loop of `_req` does with one reply. */
  datatype Step =
    | Finish(value: Value)          // the loop ends and `_req` returns `value`
    | Raise(kind: ErrorKind)        // an exception leaves `_req`
    | Captcha(sid: Value, img: Value) // solve and re-issue the request

  /** The unwrapping after the loop: a 1-element list becomes its element. */
  function Unwrap(response: Value): (r: Value)
    ensures response.VList? && |response.items| == 1 ==> r == response.items[0]
    ensures !(response.VList? && |response.items| == 1) ==> r == response
  {
    if response.VList? && |response.items| == 1 then response.items[0] else response
  }

  /** Python's `phrase in message`; None is the TypeError it raises on a
      message that is neither a string nor a container. */
  function MessageHas(message: Value, phrase: string): Option<bool>
  {
    match message
    case VStr(s) => Some(Text.Contains(s, phrase))
    case VList(items) => Some(VStr(phrase) in items)
    case VDict(m) => Some(phrase in m)
    case _ => None
  }

  /** Raise one of two kinds according to whether the message holds the phrase. */
  function RaiseIfHas(message: Value, phrase: string, yes: ErrorKind, no: ErrorKind): Step
  {
    match MessageHas(message, phrase)
    case None => Raise(RuntimeFault)
    case Some(b) => if b then Raise(yes) else Raise(no)
  }

  /** Return the error or None according to whether the message holds the phrase. */
  function ReturnIfHas(message: Value, phrase: string, error: Value): Step
  {
    match MessageHas(message, phrase)
    case None => Raise(RuntimeFault)
    case Some(b) => if b then Finish(error) else Finish(VNone)
  }

  /** Methods for which error 104 means "nothing there" rather than NotFound. */
  const QuietNotFound: seq<string> := ["audio.getLyrics", "audio.getPlaylistById", "catalog.getSection"]

  /** The integer a reply's `error_code` compares equal to, if any (Python
      compares `True == 1` and `False == 0`). */
  function CodeOf(code: Value): (r: Option<int>)
    ensures forall n :: EqInt(code, n) <==> r == Some(n)
  {
    match code
    case VInt(i) => Some(i)
    case VBool(b) => Some(if b then 1 else 0)
    case _ => None
  }

  /** One pass of the loop of `_req` on `response`, for qualified method `m`. */
  function Classify(m: string, response: Value): Step
  {
    if !Truthy(response) || !response.VDict? then Finish(Unwrap(response))
    else
      var error := Get(response, "error");
      if !Truthy(error) then Finish(Unwrap(response))
      else if !error.VDict? then Raise(RuntimeFault)  // `.get` on a non-dict error
      else ClassifyError(m, error)
  }

  /** The branch taken on a truthy error dict. The kinds are those
      `_raiseError` maps the names "invalidMethod", "VKInvalidToken",
      "tooHighRequestSendingRate", "chatNotFound", "trackRestorationTimeEnded",
      "accessDenied", "userWasDeletedOrBanned" and "notFound" to. */
  function ClassifyError(m: string, error: Value): Step
  {
    var message := Get(error, "error_msg");
    match CodeOf(Get(error, "error_code"))
    case None => Finish(error)
    case Some(code) =>
      if code == 3 then Raise(InvalidMethod)
      else if code == 5 then Raise(VKInvalidToken)
      else if code == 6 || code == 9 then Raise(TooHighRequestSendingRate)
      else if code == 10 && m == "audio.createChatPlaylist" then Raise(ChatNotFound)
      else if code == 14 then Captcha(Get(error, "captcha_sid"), Get(error, "captcha_img"))
      else if code == 15 || code == 201 || code == 203 then
        RaiseIfHas(message, ": can not restore too late", TrackRestorationTimeEnded, AccessDenied)
      else if code == 18 then Raise(UserWasDeletedOrBanned)
      else if code == 100 then ReturnIfHas(message, "One of the parameters", error)
      else if code == 104 then
        if m in QuietNotFound then Finish(VNone) else Raise(NotFound)
      else Finish(error)
  }

  /** The kinds the loop raises are the ones `_raiseError` gives for the
      names the source passes it. */
  lemma ClassifyKindsMatchTable()
    ensures RaiseError("invalidMethod") == Some(InvalidMethod)
    ensures RaiseError("VKInvalidToken") == Some(VKInvalidToken)
    ensures RaiseError("tooHighRequestSendingRate") == Some(TooHighRequestSendingRate)
    ensures RaiseError("chatNotFound") == Some(ChatNotFound)
    ensures RaiseError("trackRestorationTimeEnded") == Some(TrackRestorationTimeEnded)
    ensures RaiseError("accessDenied") == Some(AccessDenied)
    ensures RaiseError("userWasDeletedOrBanned") == Some(UserWasDeletedOrBanned)
    ensures RaiseError("notFound") == Some(NotFound)
  {
    VKKindsMatchTable();
    ContentKindsMatchTable();
  }

  /** The kinds of the request-level codes 3, 5, 6/9 and 10. */
  lemma VKKindsMatchTable()
    ensures RaiseError("invalidMethod") == Some(InvalidMethod)
    ensures RaiseError("VKInvalidToken") == Some(VKInvalidToken)
    ensures RaiseError("tooHighRequestSendingRate") == Some(TooHighRequestSendingRate)
    ensures RaiseError("chatNotFound") == Some(ChatNotFound)
  {
    RaiseByName(InvalidMethod);
    RaiseByName(VKInvalidToken);
    RaiseByName(TooHighRequestSendingRate);
    RaiseByName(ChatNotFound);
  }

  /** The kinds of the content-level codes 15/201/203, 18 and 104. */
  lemma ContentKindsMatchTable()
    ensures RaiseError("trackRestorationTimeEnded") == Some(TrackRestorationTimeEnded)
    ensures RaiseError("accessDenied") == Some(AccessDenied)
    ensures RaiseError("userWasDeletedOrBanned") == Some(UserWasDeletedOrBanned)
    ensures RaiseError("notFound") == Some(NotFound)
  {
    RaiseByName(TrackRestorationTimeEnded);
    RaiseByName(AccessDenied);
    RaiseByName(UserWasDeletedOrBanned);
    RaiseByName(NotFound);
  }

  /** The error dict of a reply, when the reply carries a truthy dict error. */
  predicate HasError(response: Value, error: map<string, Value>) {
    response.VDict? && Get(response, "error") == VDict(error) && |error| > 0
  }

  /** The outcome of each VK error code, for a reply whose error message is a string. */
  lemma ClassifyByCode(m: string, response: Value, error: map<string, Value>, code: int, message: string)
    requires HasError(response, error)
    requires EqInt(Get(VDict(error), "error_code"), code)
    requires Get(VDict(error), "error_msg") == VStr(message)
    ensures var step := Classify(m, response);
            (code == 3 ==> step == Raise(InvalidMethod)) &&
            (code == 5 ==> step == Raise(VKInvalidToken)) &&
            (code in {6, 9} ==> step == Raise(TooHighRequestSendingRate)) &&
            (code == 10 ==> step == (if m == "audio.createChatPlaylist" then Raise(ChatNotFound) else Finish(VDict(error)))) &&
            (code == 14 ==> step == Captcha(Get(VDict(error), "captcha_sid"), Get(VDict(error), "captcha_img"))) &&
            (code in {15, 201, 203} ==>
               step == Raise(if Text.Contains(message, ": can not restore too late") then TrackRestorationTimeEnded else AccessDenied)) &&
            (code == 18 ==> step == Raise(UserWasDeletedOrBanned)) &&
            (code == 100 ==> step == Finish(if Text.Contains(message, "One of the parameters") then VDict(error) else VNone)) &&
            (code == 104 ==> step == (if m in QuietNotFound then Finish(VNone) else Raise(NotFound))) &&
            (code !in {3, 5, 6, 9, 10, 14, 15, 18, 100, 104, 201, 203} ==> step == Finish(VDict(error)))
  {
    assert Truthy(response) && Truthy(VDict(error));
  }

  /** Only code 14 keeps the loop going, and only the listed codes can raise. */
  lemma ClassifyCodesPartition(m: string, response: Value, error: map<string, Value>)
    requires HasError(response, error)
    ensures var step := Classify(m, response);
            var code := CodeOf(Get(VDict(error), "error_code"));
            (step.Captcha? <==> code == Some(14)) &&
            (step.Raise? ==> code.Some? && code.value in {3, 5, 6, 9, 10, 15, 18, 100, 104, 201, 203})
  {
    assert Truthy(response) && Truthy(VDict(error));
  }

  /** A reply with no error that is a 1-element list comes back as its element. */
  lemma SingletonListUnwrapped(m: string, x: Value)
    ensures Classify(m, VList([x])) == Finish(x)
  {
  }

  // ---------------------------------------------------------------------
  // Requests and the dispatch loop
  // ---------------------------------------------------------------------

  datatype HttpMethod = GET | POST

  /** The arguments `_req` forwards to the transport on the first request only. */
  datatype Extras = Extras(json: Value, data: Value, cookies: Value, headers: Value, files: Value)

  /** One request handed to the transport. */
  datatype Request = Request(url: string, params: map<string, Value>, extras: Option<Extras>, httpMethod: HttpMethod)

  /** One captcha round of the script: the solution typed in at the prompt,
      the solving service's answer (or the error it raised) and the reply to
      the request re-issued with the solution. */
  datatype Round = Round(typed: Value, solved: Result<Value>, reply: Value)

  /** The solution of a round: the solving service's answer when the session
      has a RuCaptcha key, the typed one otherwise. */
  function Solution(hasKey: bool, round: Round): Result<Value> {
    if hasKey then round.solved else Ok(round.typed)
  }

  /** How a call ends. */
  datatype Outcome = Returned(value: Value) | Raised(kind: ErrorKind) | Unfinished

  /** The first request of `_req`: URL from the qualified method, the cleaned
      parameters overlaid by the session's own (token and version), and a
      truthy `version` overriding "v". */
  function FirstRequest(apiBase: string, base: map<string, Value>, m: string, params: map<string, Value>,
                        extras: Extras, version: Value, httpMethod: Option<HttpMethod>): (r: Request)
    ensures r.url == apiBase + QualifyMethod(m)
    ensures r.extras == Some(extras) && r.httpMethod == httpMethod.GetOr(GET)
    ensures r.params.Keys == CleanParams(params).Keys + base.Keys + (if Truthy(version) then {"v"} else {})
    ensures forall k :: k in base && !(k == "v" && Truthy(version)) ==> r.params[k] == base[k]
    ensures Truthy(version) ==> r.params["v"] == version
    ensures forall k :: k in CleanParams(params) && k !in base && !(k == "v" && Truthy(version)) ==>
              r.params[k] == CleanParams(params)[k]
  {
    var full := CleanParams(params) + base;
    var full' := if Truthy(version) then full["v" := version] else full;
    Request(apiBase + QualifyMethod(m), full', Some(extras), httpMethod.GetOr(GET))
  }

  /** The request re-issued after a captcha: same URL, the previous
      parameters plus the captcha id and solution, and nothing else (no JSON,
      body, cookies, headers or files; default GET). */
  function CaptchaRequest(prev: Request, sid: Value, solution: Value): Request
  {
    Request(prev.url, prev.params["captcha_sid" := sid]["captcha_key" := solution], None, GET)
  }

  /** The loop of `_req` from reply `response` to request `req`, with the
      captcha rounds `rounds[k..]` still scripted: the outcome and the
      requests the loop sends after `req`. */
  function Settle(m: string, hasKey: bool, req: Request, response: Value, rounds: seq<Round>, k: nat): (Outcome, seq<Request>)
    decreases |rounds| - k
  {
    match Classify(m, response)
    case Finish(v) => (Returned(v), [])
    case Raise(kind) => (Raised(kind), [])
    case Captcha(sid, img) =>
      // Without a key the prompt `captchaUrl + "..."` needs a string image url.
      if !hasKey && !img.VStr? then (Raised(RuntimeFault), [])
      else if k >= |rounds| then (Unfinished, [])
      else match Solution(hasKey, rounds[k])
        case Fail(kind) => (Raised(kind), [])
        case Ok(solution) =>
          var next := CaptchaRequest(req, sid, solution);
          var rest := Settle(m, hasKey, next, rounds[k].reply, rounds, k + 1);
          (rest.0, [next] + rest.1)
  }

  /** Every re-issued request goes to the same URL, by GET and without the
      extra arguments, carrying all parameters of the first request (with the
      captcha pair added); there is at most one per scripted round. */
  lemma {:induction false} SettleReissues(m: string, hasKey: bool, req: Request, response: Value, rounds: seq<Round>, k: nat)
    ensures var sent := Settle(m, hasKey, req, response, rounds, k).1;
            (k <= |rounds| ==> |sent| <= |rounds| - k) &&
            (forall i :: 0 <= i < |sent| ==> ReissueOf(sent[i], req))
    decreases |rounds| - k
  {
    match Classify(m, response)
    case Finish(_) =>
    case Raise(_) =>
    case Captcha(sid, img) =>
      if (hasKey || img.VStr?) && k < |rounds| && Solution(hasKey, rounds[k]).Ok? {
        var next := CaptchaRequest(req, sid, Solution(hasKey, rounds[k]).value);
        var rest := Settle(m, hasKey, next, rounds[k].reply, rounds, k + 1).1;
        SettleReissues(m, hasKey, next, rounds[k].reply, rounds, k + 1);
        assert Settle(m, hasKey, req, response, rounds, k).1 == [next] + rest;
        ReissueOfNext(req, next, sid, Solution(hasKey, rounds[k]).value);
        forall i | 0 <= i < |rest| ensures ReissueOf(rest[i], req) {
          ReissueOfTwice(rest[i], next, req);
        }
      }
  }

  /** `x` re-issues `req`: same URL, by GET, without the extra arguments,
      with every parameter of `req` and the captcha pair. */
  predicate ReissueOf(x: Request, req: Request) {
    x.url == req.url && x.extras == None && x.httpMethod == GET &&
    x.params.Keys == req.params.Keys + {"captcha_sid", "captcha_key"} &&
    (forall p :: p in req.params && p !in {"captcha_sid", "captcha_key"} ==> x.params[p] == req.params[p])
  }

  /** The request re-issued after a captcha re-issues the one before it. */
  lemma ReissueOfNext(req: Request, next: Request, sid: Value, solution: Value)
    requires next == CaptchaRequest(req, sid, solution)
    ensures ReissueOf(next, req)
  {
  }

  /** A re-issue of a re-issue of `req` re-issues `req`. */
  lemma ReissueOfTwice(x: Request, next: Request, req: Request)
    requires ReissueOf(x, next) && ReissueOf(next, req)
    ensures ReissueOf(x, req)
  {
  }

  /** The loop stops short of the end of the script only by returning or
      raising; it is `Unfinished` only after asking for a round it does not have. */
  lemma {:induction false} SettleUnfinished(m: string, hasKey: bool, req: Request, response: Value, rounds: seq<Round>, k: nat)
    requires k <= |rounds|
    ensures var r := Settle(m, hasKey, req, response, rounds, k);
            r.0 == Unfinished ==> |r.1| == |rounds| - k
    decreases |rounds| - k
  {
    match Classify(m, response)
    case Finish(_) =>
    case Raise(_) =>
    case Captcha(sid, img) =>
      if (hasKey || img.VStr?) && k < |rounds| && Solution(hasKey, rounds[k]).Ok? {
        SettleUnfinished(m, hasKey, CaptchaRequest(req, sid, Solution(hasKey, rounds[k]).value), rounds[k].reply, rounds, k + 1);
      }
  }

  /** Each re-issued request carries the solution of its round: the solving
      service's answer with a RuCaptcha key, the typed one without. */
  lemma {:induction false} SettleSolutions(m: string, hasKey: bool, req: Request, response: Value, rounds: seq<Round>, k: nat)
    ensures AllSolved(Settle(m, hasKey, req, response, rounds, k).1, hasKey, rounds, k)
    decreases |rounds| - k
  {
    var r := Settle(m, hasKey, req, response, rounds, k);
    match Classify(m, response)
    case Finish(_) =>
    case Raise(kind) =>
    case Captcha(sid, img) =>
      if (hasKey || img.VStr?) && k < |rounds| && Solution(hasKey, rounds[k]).Ok? {
        var next := CaptchaRequest(req, sid, Solution(hasKey, rounds[k]).value);
        var rest := Settle(m, hasKey, next, rounds[k].reply, rounds, k + 1);
        SettleSolutions(m, hasKey, next, rounds[k].reply, rounds, k + 1);
        assert SolvedWith(next, hasKey, rounds, k);
        assert r.1 == [next] + rest.1;
        AllSolvedCons(next, rest.1, hasKey, rounds, k);
      }
  }

  /** The requests `sent` carry the solutions of rounds `k`, `k + 1`, ... */
  predicate AllSolved(sent: seq<Request>, hasKey: bool, rounds: seq<Round>, k: nat) {
    forall i :: 0 <= i < |sent| ==> SolvedWith(sent[i], hasKey, rounds, k + i)
  }

  /** Request `req` carries the solution of round `k`: the service's answer
      with a key, the typed one without. */
  predicate SolvedWith(req: Request, hasKey: bool, rounds: seq<Round>, k: nat) {
    k < |rounds| && (hasKey ==> rounds[k].solved.Ok?) && "captcha_key" in req.params &&
    req.params["captcha_key"] == (if hasKey then rounds[k].solved.value else rounds[k].typed)
  }

  /** The step of `SettleSolutions`: one more request in front, one round earlier. */
  lemma AllSolvedCons(first: Request, rest: seq<Request>, hasKey: bool, rounds: seq<Round>, k: nat)
    requires SolvedWith(first, hasKey, rounds, k) && AllSolved(rest, hasKey, rounds, k + 1)
    ensures AllSolved([first] + rest, hasKey, rounds, k)
  {
    var all := [first] + rest;
    forall i | 0 <= i < |all| ensures SolvedWith(all[i], hasKey, rounds, k + i) {
      if i > 0 {
        var j := i - 1;
        assert all[i] == rest[j];
        assert SolvedWith(rest[j], hasKey, rounds, k + 1 + j);
      }
    }
  }

  /** Without a RuCaptcha key the typed solution is used, so no
      captcha-service error can leave the loop; a captcha error whose image
      url is not a string faults while the prompt is built. */
  lemma {:induction false} SettleWithoutKey(m: string, req: Request, response: Value, rounds: seq<Round>, k: nat)
    ensures var r := Settle(m, false, req, response, rounds, k);
            r.0.Raised? ==> !IsCaptchaServiceError(r.0.kind)
    ensures Classify(m, response).Captcha? && !Classify(m, response).img.VStr? ==>
              Settle(m, false, req, response, rounds, k) == (Raised(RuntimeFault), [])
    decreases |rounds| - k
  {
    match Classify(m, response)
    case Finish(_) =>
    case Raise(kind) =>
      ClassifyRaisesNoServiceError(m, response);
    case Captcha(sid, img) =>
      if img.VStr? && k < |rounds| {
        assert Solution(false, rounds[k]) == Ok(rounds[k].typed);
        SettleWithoutKey(m, CaptchaRequest(req, sid, rounds[k].typed), rounds[k].reply, rounds, k + 1);
      }
  }

  /** The loop of `_req` raises only the API errors, never a captcha-service one. */
  lemma ClassifyRaisesNoServiceError(m: string, response: Value)
    ensures Classify(m, response).Raise? ==> !IsCaptchaServiceError(Classify(m, response).kind)
  {
  }

  /** The whole of `_req`: its outcome and every request it sends. */
  function ReqSpec(closed: bool, hasKey: bool, apiBase: string, base: map<string, Value>, m: string, params: map<string, Value>,
                   extras: Extras, version: Value, httpMethod: Option<HttpMethod>,
                   first: Value, rounds: seq<Round>): (Outcome, seq<Request>)
  {
    if closed then (Raised(SessionClosed), [])
    else
      var req := FirstRequest(apiBase, base, m, params, extras, version, httpMethod);
      var rest := Settle(QualifyMethod(m), hasKey, req, first, rounds, 0);
      (rest.0, [req] + rest.1)
  }

  /** A closed session raises SessionClosed and sends nothing; an open one
      sends the first request and then at most one request per captcha round. */
  lemma ReqSendsFirstThenRetries(closed: bool, hasKey: bool, apiBase: string, base: map<string, Value>, m: string,
                                 params: map<string, Value>, extras: Extras, version: Value,
                                 httpMethod: Option<HttpMethod>, first: Value, rounds: seq<Round>)
    ensures var r := ReqSpec(closed, hasKey, apiBase, base, m, params, extras, version, httpMethod, first, rounds);
            (closed ==> r == (Raised(SessionClosed), [])) &&
            (!closed ==> 1 <= |r.1| <= |rounds| + 1 &&
                         r.1[0] == FirstRequest(apiBase, base, m, params, extras, version, httpMethod) &&
                         forall i :: 1 <= i < |r.1| ==> r.1[i].url == r.1[0].url && r.1[i].extras == None)
  {
    if !closed {
      var req := FirstRequest(apiBase, base, m, params, extras, version, httpMethod);
      SettleReissues(QualifyMethod(m), hasKey, req, first, rounds, 0);
    }
  }

  // ---------------------------------------------------------------------
  // The session
  // ---------------------------------------------------------------------

  /** A `Client`: its open/closed flag, the parameters it adds to every
      request, the number of transports it has opened and the log of
      requests handed to the transport. */
  class Client {
    var closed: bool
    var apiBase: string
    var base: map<string, Value>
    var proxy: Option<map<string, string>>
    var hasCaptchaKey: bool
    var transports: nat
    var sent: seq<Request>

    /** A new open session. An empty token is replaced by the one the user
        types in; the proxy is the normalised one. */
    constructor(token: string, typedToken: string, apiVersion: Value, apiBase: string,
                proxy: Option<map<string, string>>, ruCaptchaKey: string)
      ensures !closed && transports == 1 && sent == []
      ensures base == map["access_token" := VStr(if token == "" then typedToken else token), "v" := apiVersion]
      ensures this.apiBase == apiBase && this.proxy == proxy && hasCaptchaKey == (ruCaptchaKey != "")
    {
      closed := false;
      this.apiBase := apiBase;
      base := map["access_token" := VStr(if token == "" then typedToken else token), "v" := apiVersion];
      this.proxy := proxy;
      hasCaptchaKey := ruCaptchaKey != "";
      transports := 1;
      sent := [];
    }

    /** `close`: raises SessionAlreadyClosed on a closed session, otherwise
        closes it. Either way the session ends up closed. */
    method Close() returns (raised: Option<ErrorKind>)
      modifies this
      ensures old(closed) ==> raised == Some(SessionAlreadyClosed)
      ensures !old(closed) ==> raised == None
      ensures closed
      ensures transports == old(transports) && sent == old(sent) && base == old(base)
    {
      if closed {
        return Some(SessionAlreadyClosed);
      }
      closed := true;
      return None;
    }

    /** `__exit__`: closing, with SessionAlreadyClosed swallowed. */
    method Exit()
      modifies this
      ensures closed
      ensures transports == old(transports) && sent == old(sent) && base == old(base)
    {
      var _ := Close();
    }

    /** `reconnect`: raises SessionAlreadyOpened on an open session,
        otherwise reopens it on a fresh transport. */
    method Reconnect() returns (raised: Option<ErrorKind>)
      modifies this
      ensures old(closed) ==> raised == None && !closed && transports == old(transports) + 1
      ensures !old(closed) ==> raised == Some(SessionAlreadyOpened) && !closed && transports == old(transports)
      ensures sent == old(sent) && base == old(base)
    {
      if !closed {
        return Some(SessionAlreadyOpened);
      }
      closed := false;
      transports := transports + 1;
      return None;
    }

    /** `_req`: the outcome and the requests sent are those of `ReqSpec`. */
    method Req(m: string, params: map<string, Value>, extras: Extras, version: Value,
               httpMethod: Option<HttpMethod>, first: Value, rounds: seq<Round>) returns (outcome: Outcome)
      modifies this
      ensures var r := ReqSpec(old(closed), hasCaptchaKey, apiBase, base, m, params, extras, version, httpMethod, first, rounds);
              outcome == r.0 && sent == old(sent) + r.1
      ensures closed == old(closed) && apiBase == old(apiBase) && base == old(base)
      ensures transports == old(transports)
    {
      if closed {
        return Raised(SessionClosed);
      }
      var req := FirstRequest(apiBase, base, m, params, extras, version, httpMethod);
      var reissued;
      outcome, reissued := SettleLoop(QualifyMethod(m), hasCaptchaKey, req, first, rounds);
      sent := sent + ([req] + reissued);
    }
  }

  /** The loop of `_req` after the first request `req`, answered by
      `first`: the outcome and the requests it re-issues. */
  method SettleLoop(m: string, hasKey: bool, req: Request, first: Value, rounds: seq<Round>) returns (outcome: Outcome, reissued: seq<Request>)
    ensures (outcome, reissued) == Settle(m, hasKey, req, first, rounds, 0)
  {
    var current := req;
    var response := first;
    var k := 0;
    reissued := [];
    while true
      invariant 0 <= k <= |rounds|
      invariant Settle(m, hasKey, req, first, rounds, 0).0 == Settle(m, hasKey, current, response, rounds, k).0
      invariant Settle(m, hasKey, req, first, rounds, 0).1 == reissued + Settle(m, hasKey, current, response, rounds, k).1
      decreases |rounds| - k
    {
      var step := Classify(m, response);
      match step {
        case Finish(v) =>
          assert reissued + [] == reissued;
          return Returned(v), reissued;
        case Raise(kind) =>
          assert reissued + [] == reissued;
          return Raised(kind), reissued;
        case Captcha(sid, img) =>
          if !hasKey && !img.VStr? {
            assert reissued + [] == reissued;
            return Raised(RuntimeFault), reissued;
          }
          if k >= |rounds| {
            assert reissued + [] == reissued;
            return Unfinished, reissued;
          }
          match Solution(hasKey, rounds[k]) {
            case Fail(kind) =>
              assert reissued + [] == reissued;
              return Raised(kind), reissued;
            case Ok(solution) =>
              var next := CaptchaRequest(current, sid, solution);
              ghost var rest := Settle(m, hasKey, next, rounds[k].reply, rounds, k + 1);
              assert Settle(m, hasKey, current, response, rounds, k) == (rest.0, [next] + rest.1);
              assert reissued + ([next] + rest.1) == (reissued + [next]) + rest.1;
              reissued := reissued + [next];
              current := next;
              response := rounds[k].reply;
              k := k + 1;
          }
      }
    }
  }

  // ---------------------------------------------------------------------
  // The captcha-service poll loop of `_solveCaptcha`
  // ---------------------------------------------------------------------

  /** What one `getTaskResult` reply makes the loop do. */
  datatype PollStep = Ready(text: Value) | PollFails(kind: ErrorKind) | Resubmit | Wait

  /** The classification of a poll reply by its `errorId`. A reply that is
      not a dict (the client's `None` after failed attempts) faults on
      `.get`, and so does a "ready" reply whose solution is not a dict. */
  function ClassifyPoll(reply: Value): PollStep
  {
    if !reply.VDict? then PollFails(RuntimeFault)
    else
      var errorId := CodeOf(Get(reply, "errorId"));
      if errorId == Some(0) && Get(reply, "status") == VStr("ready") then
        var solution := Get(reply, "solution");
        if solution.VDict? then Ready(Get(solution, "text")) else PollFails(RuntimeFault)
      else if errorId == Some(1) then PollFails(RuCaptchaInvalidKey)
      else if errorId == Some(10) then PollFails(RuCaptchaZeroBalance)
      else if errorId == Some(12) then Resubmit
      else if errorId == Some(21) then PollFails(RuCaptchaBannedIP)
      else if errorId == Some(55) then PollFails(RuCaptchaBannedAccount)
      else Wait
  }

  /** A poll reply the loop cannot read: not a dict, or "ready" with a
      solution that is not a dict. */
  predicate Unreadable(reply: Value) {
    !reply.VDict? ||
    (CodeOf(Get(reply, "errorId")) == Some(0) && Get(reply, "status") == VStr("ready") &&
     !Get(reply, "solution").VDict?)
  }

  /** The captcha-service failures. */
  predicate IsCaptchaServiceError(k: ErrorKind) {
    k in {RuCaptchaInvalidKey, RuCaptchaZeroBalance, RuCaptchaBannedIP, RuCaptchaBannedAccount}
  }

  /** The loop from poll `j` on, polling `taskId`, with `createTask` replies
      `creates[c..]` left for resubmissions: the outcome and the task ids
      polled. A `createTask` reply that is not a dict faults on `.get`. */
  function PollLoop(taskId: Value, creates: seq<Value>, c: nat, polls: seq<Value>, j: nat): (Outcome, seq<Value>)
    decreases |polls| - j
  {
    if j >= |polls| then (Unfinished, [])
    else match ClassifyPoll(polls[j])
      case Ready(text) => (Returned(text), [taskId])
      case PollFails(kind) => (Raised(kind), [taskId])
      case Resubmit =>
        if c >= |creates| then (Unfinished, [taskId])
        else if !creates[c].VDict? then (Raised(RuntimeFault), [taskId])
        else
          var rest := PollLoop(Get(creates[c], "taskId"), creates, c + 1, polls, j + 1);
          (rest.0, [taskId] + rest.1)
      case Wait =>
        var rest := PollLoop(taskId, creates, c, polls, j + 1);
        (rest.0, [taskId] + rest.1)
  }

  /** `_solveCaptcha` with the `createTask` replies and the poll replies scripted. */
  function SolveCaptchaSpec(creates: seq<Value>, polls: seq<Value>): (Outcome, seq<Value>)
  {
    if |creates| == 0 then (Unfinished, [])
    else if !creates[0].VDict? then (Raised(RuntimeFault), [])
    else PollLoop(Get(creates[0], "taskId"), creates, 1, polls, 0)
  }

  /** How many of the poll replies `ps` ask for a resubmission (errorId 12). */
  function Resubmits(ps: seq<Value>): nat
  {
    if |ps| == 0 then 0
    else (if ClassifyPoll(ps[0]).Resubmit? then 1 else 0) + Resubmits(ps[1..])
  }

  /** A solution is returned only from a dict poll whose errorId is 0, whose
      status is "ready" and whose solution is a dict; the errors raised are
      the four captcha-service ones, or a fault that an unreadable poll
      reply or a `createTask` reply that is not a dict caused; at most one
      task id is polled per reply. */
  lemma {:induction false} PollLoopOutcome(taskId: Value, creates: seq<Value>, c: nat, polls: seq<Value>, j: nat)
    requires j <= |polls|
    ensures var r := PollLoop(taskId, creates, c, polls, j);
            (r.0.Returned? ==> exists i :: j <= i < |polls| && polls[i].VDict? &&
                                 CodeOf(Get(polls[i], "errorId")) == Some(0) &&
                                 Get(polls[i], "status") == VStr("ready") &&
                                 Get(polls[i], "solution").VDict? &&
                                 r.0.value == Get(Get(polls[i], "solution"), "text")) &&
            (r.0.Raised? ==> IsCaptchaServiceError(r.0.kind) || r.0.kind == RuntimeFault) &&
            (r.0 == Raised(RuntimeFault) ==>
               (exists i :: j <= i < |polls| && Unreadable(polls[i])) ||
               (exists k :: c <= k < |creates| && !creates[k].VDict?)) &&
            |r.1| <= |polls| - j
    decreases |polls| - j
  {
    if j < |polls| {
      match ClassifyPoll(polls[j])
      case Ready(text) =>
      case PollFails(kind) =>
        assert kind == RuntimeFault ==> Unreadable(polls[j]);
      case Resubmit =>
        if c < |creates| && creates[c].VDict? {
          PollLoopOutcome(Get(creates[c], "taskId"), creates, c + 1, polls, j + 1);
        }
      case Wait =>
        PollLoopOutcome(taskId, creates, c, polls, j + 1);
    }
  }

  /** The ids `ids` polled from reply `j` on ask each about the task the
      newest `createTask` reply gave: the id polled with reply `j + i` is
      that of the `c`-th reply, advanced by the resubmissions (errorId 12)
      the replies before it asked for. */
  predicate IdsNewest(ids: seq<Value>, creates: seq<Value>, c: nat, polls: seq<Value>, j: nat)
  {
    1 <= c && j <= |polls| && |ids| <= |polls| - j &&
    forall i :: 0 <= i < |ids| ==> IdAt(ids, creates, c, polls, j, i)
  }

  /** The id polled with reply `j + i` is that of `createTask` reply
      `c - 1` advanced by the resubmissions of the replies before it. */
  predicate IdAt(ids: seq<Value>, creates: seq<Value>, c: nat, polls: seq<Value>, j: nat, i: nat)
    requires 1 <= c && j + i <= |polls| && i < |ids|
  {
    c - 1 + Resubmits(polls[j..j + i]) < |creates| &&
    ids[i] == Get(creates[c - 1 + Resubmits(polls[j..j + i])], "taskId")
  }

  /** Each poll asks about the task of the newest `createTask` reply. */
  lemma {:induction false} PolledIdsNewest(taskId: Value, creates: seq<Value>, c: nat, polls: seq<Value>, j: nat)
    requires 1 <= c <= |creates| && taskId == Get(creates[c - 1], "taskId") && j <= |polls|
    ensures IdsNewest(PollLoop(taskId, creates, c, polls, j).1, creates, c, polls, j)
    decreases |polls| - j
  {
    var ids := PollLoop(taskId, creates, c, polls, j).1;
    if j == |polls| {
      assert ids == [];
    } else {
      match ClassifyPoll(polls[j])
      case Ready(text) =>
        PolledIdsSingle(ids, creates, c, polls, j);
      case PollFails(kind) =>
        PolledIdsSingle(ids, creates, c, polls, j);
      case Resubmit =>
        if c < |creates| && creates[c].VDict? {
          var next := Get(creates[c], "taskId");
          var rest := PollLoop(next, creates, c + 1, polls, j + 1).1;
          PolledIdsNewest(next, creates, c + 1, polls, j + 1);
          assert ids == [taskId] + rest;
          ResubmitsShift(polls, j, ids, rest, c, 1, creates);
        } else {
          PolledIdsSingle(ids, creates, c, polls, j);
        }
      case Wait =>
        var rest := PollLoop(taskId, creates, c, polls, j + 1).1;
        PolledIdsNewest(taskId, creates, c, polls, j + 1);
        assert ids == [taskId] + rest;
        ResubmitsShift(polls, j, ids, rest, c, 0, creates);
    }
  }

  /** A loop that stops at reply `j` polled only the current task. */
  lemma PolledIdsSingle(ids: seq<Value>, creates: seq<Value>, c: nat, polls: seq<Value>, j: nat)
    requires 1 <= c <= |creates| && j < |polls| && ids == [Get(creates[c - 1], "taskId")]
    ensures IdsNewest(ids, creates, c, polls, j)
  {
    assert polls[j..j + 0] == [];
    assert Resubmits(polls[j..j + 0]) == 0;
  }

  /** The ids polled from reply `j` on, `ids`, and from reply `j + 1` on,
      `rest`, with `c` the `createTask` replies used so far and `d` the
      resubmission reply `j` asks for. */
  predicate ShiftedIds(polls: seq<Value>, j: nat, ids: seq<Value>, rest: seq<Value>, c: nat, d: nat, creates: seq<Value>)
  {
    j < |polls| && 1 <= c && c + d <= |creates| &&
    |ids| == |rest| + 1 && ids == [ids[0]] + rest &&
    d == (if ClassifyPoll(polls[j]).Resubmit? then 1 else 0) &&
    ids[0] == Get(creates[c - 1], "taskId") &&
    IdsNewest(rest, creates, c + d, polls, j + 1)
  }

  /** The step of `PolledIdsNewest`: the ids polled after reply `j` are
      those of the loop from `j + 1`, whose resubmission count starts `d`
      higher. */
  lemma ResubmitsShift(polls: seq<Value>, j: nat, ids: seq<Value>, rest: seq<Value>, c: nat, d: nat, creates: seq<Value>)
    requires ShiftedIds(polls, j, ids, rest, c, d, creates)
    ensures IdsNewest(ids, creates, c, polls, j)
  {
    assert |ids| <= |polls| - j;
    forall i | 0 <= i < |ids|
      ensures IdAt(ids, creates, c, polls, j, i)
    {
      ResubmitsShiftAt(polls, j, ids, rest, c, d, creates, i);
    }
  }

  /** `ResubmitsShift` at one position. */
  lemma ResubmitsShiftAt(polls: seq<Value>, j: nat, ids: seq<Value>, rest: seq<Value>, c: nat, d: nat, creates: seq<Value>, i: nat)
    requires ShiftedIds(polls, j, ids, rest, c, d, creates) && i < |ids|
    ensures IdAt(ids, creates, c, polls, j, i)
  {
    if i == 0 {
      assert polls[j..j] == [];
    } else {
      assert IdAt(rest, creates, c + d, polls, j + 1, i - 1);
      assert ids[i] == rest[i - 1];
      ResubmitsHead(polls, j, i);
    }
  }

  /** Counting the resubmissions of `polls[j..j + n]` starts with reply `j`. */
  lemma ResubmitsHead(polls: seq<Value>, j: nat, n: nat)
    requires 1 <= n && j + n <= |polls|
    ensures Resubmits(polls[j..j + n]) ==
              (if ClassifyPoll(polls[j]).Resubmit? then 1 else 0) + Resubmits(polls[j + 1..j + 1 + (n - 1)])
  {
    assert polls[j..j + n][0] == polls[j];
    assert polls[j..j + n][1..] == polls[j + 1..j + 1 + (n - 1)];
  }

  /** The first poll reply that is not a wait decides the loop: every
      earlier reply polled the same task again; a reply that is not a dict
      faults; a "ready" reply returns its solution's text, or faults when
      the solution is not a dict; errorId 1, 10, 21 and 55 raise their
      captcha-service error; and errorId 12 goes on with the next
      `createTask` reply's task, faults when that reply is not a dict, or
      leaves the loop unfinished when there is none. */
  lemma {:induction false} FirstDecisivePoll(taskId: Value, creates: seq<Value>, c: nat, polls: seq<Value>, j: nat, i: nat)
    requires j <= i < |polls|
    requires forall k :: j <= k < i ==> ClassifyPoll(polls[k]) == Wait
    ensures var r := PollLoop(taskId, creates, c, polls, j);
            var e := CodeOf(Get(polls[i], "errorId"));
            var ready := e == Some(0) && Get(polls[i], "status") == VStr("ready");
            |r.1| >= i - j + 1 && (forall k :: 0 <= k <= i - j ==> r.1[k] == taskId) &&
            (!polls[i].VDict? ==> r.0 == Raised(RuntimeFault)) &&
            (polls[i].VDict? && ready && Get(polls[i], "solution").VDict? ==>
               r.0 == Returned(Get(Get(polls[i], "solution"), "text"))) &&
            (polls[i].VDict? && ready && !Get(polls[i], "solution").VDict? ==> r.0 == Raised(RuntimeFault)) &&
            (polls[i].VDict? && e == Some(1) ==> r.0 == Raised(RuCaptchaInvalidKey)) &&
            (polls[i].VDict? && e == Some(10) ==> r.0 == Raised(RuCaptchaZeroBalance)) &&
            (polls[i].VDict? && e == Some(21) ==> r.0 == Raised(RuCaptchaBannedIP)) &&
            (polls[i].VDict? && e == Some(55) ==> r.0 == Raised(RuCaptchaBannedAccount)) &&
            (polls[i].VDict? && e == Some(12) && c < |creates| && creates[c].VDict? ==>
               r.0 == PollLoop(Get(creates[c], "taskId"), creates, c + 1, polls, i + 1).0) &&
            (polls[i].VDict? && e == Some(12) && c < |creates| && !creates[c].VDict? ==>
               r.0 == Raised(RuntimeFault)) &&
            (polls[i].VDict? && e == Some(12) && c >= |creates| ==> r.0 == Unfinished)
    decreases i - j
  {
    var r := PollLoop(taskId, creates, c, polls, j);
    if j < i {
      FirstDecisivePoll(taskId, creates, c, polls, j + 1, i);
      assert ClassifyPoll(polls[j]) == Wait;
      var rest := PollLoop(taskId, creates, c, polls, j + 1);
      assert r == (rest.0, [taskId] + rest.1);
      forall k | 0 <= k <= i - j ensures r.1[k] == taskId {
        if k > 0 {
          assert r.1[k] == rest.1[k - 1];
        }
      }
    } else {
      assert r.1[0] == taskId;
    }
  }

  /** One poll of the loop: the outcome when the reply ends the loop, or
      else the task id and the `createTask` position the loop goes on with. */
  method PollOnce(taskId: Value, creates: seq<Value>, c: nat, polls: seq<Value>, j: nat)
    returns (stop: Option<Outcome>, nextTask: Value, nextC: nat)
    requires j < |polls| && 1 <= c <= |creates|
    ensures stop.Some? ==> PollLoop(taskId, creates, c, polls, j) == (stop.value, [taskId])
    ensures stop.None? ==>
              1 <= nextC <= |creates| &&
              var rest := PollLoop(nextTask, creates, nextC, polls, j + 1);
              PollLoop(taskId, creates, c, polls, j) == (rest.0, [taskId] + rest.1)
  {
    nextTask, nextC := taskId, c;
    match ClassifyPoll(polls[j]) {
      case Ready(text) =>
        stop := Some(Returned(text));
      case PollFails(kind) =>
        stop := Some(Raised(kind));
      case Resubmit =>
        if c >= |creates| {
          stop := Some(Unfinished);
        } else if !creates[c].VDict? {
          stop := Some(Raised(RuntimeFault));
        } else {
          stop := None;
          nextTask, nextC := Get(creates[c], "taskId"), c + 1;
        }
      case Wait =>
        stop := None;
    }
  }

  /** `_solveCaptcha`: create a task, then poll until the service answers. */
  method SolveCaptcha(creates: seq<Value>, polls: seq<Value>) returns (outcome: Outcome, polled: seq<Value>)
    ensures (outcome, polled) == SolveCaptchaSpec(creates, polls)
  {
    if |creates| == 0 {
      return Unfinished, [];
    }
    if !creates[0].VDict? {
      return Raised(RuntimeFault), [];
    }
    var taskId := Get(creates[0], "taskId");
    var c := 1;
    var j := 0;
    polled := [];
    while j < |polls|
      invariant 1 <= c <= |creates| && j <= |polls|
      invariant SolveCaptchaSpec(creates, polls).0 == PollLoop(taskId, creates, c, polls, j).0
      invariant SolveCaptchaSpec(creates, polls).1 == polled + PollLoop(taskId, creates, c, polls, j).1
      decreases |polls| - j
    {
      var stop, nextTask, nextC := PollOnce(taskId, creates, c, polls, j);
      ghost var before := polled;
      polled := polled + [taskId];
      if stop.Some? {
        return stop.value, polled;
      }
      ghost var rest := PollLoop(nextTask, creates, nextC, polls, j + 1).1;
      assert before + ([taskId] + rest) == polled + rest;
      taskId, c := nextTask, nextC;
      j := j + 1;
    }
    assert PollLoop(taskId, creates, c, polls, j) == (Unfinished, []);
    assert polled + [] == polled;
    return Unfinished, polled;
  }

  // ---------------------------------------------------------------------
  // The response finalizer
  // ---------------------------------------------------------------------

  /** The object classes a reply can be finalized into. */
  datatype ObjectType = TrackType | AlbumType | PlaylistType | ArtistType | SectionType | MessageType | GenreType

  /** A finalized object: the class constructor called and its arguments. */
  datatype Entity =
    | PlaylistOf(raw: Value, own: Option<bool>)
    | AlbumOf(raw: Value, playlistMode: bool)
    | PlainOf(t: ObjectType, raw: Value)

  /** `objectType(obj)`: Album and Playlist with their default second argument. */
  function Construct(t: ObjectType, obj: Value): Entity
  {
    match t
    case AlbumType => AlbumOf(obj, false)
    case PlaylistType => PlaylistOf(obj, None)
    case _ => PlainOf(t, obj)
  }

  /** The finalization of one element. */
  function FinalizeOne(t: ObjectType, obj: Value): (e: Entity)
    ensures t !in {AlbumType, PlaylistType} ==> e == Construct(t, obj)
    ensures t in {AlbumType, PlaylistType} && CodeOf(Get(obj, "type")) in {Some(0), Some(5)} ==>
              e == PlaylistOf(obj, Some(!Truthy(Get(obj, "original"))))
    ensures t in {AlbumType, PlaylistType} && CodeOf(Get(obj, "type")) == Some(1) ==> e == AlbumOf(obj, true)
    ensures t in {AlbumType, PlaylistType} && CodeOf(Get(obj, "type")) !in {Some(0), Some(1), Some(5)} ==>
              e == Construct(t, obj)
  {
    if t == AlbumType || t == PlaylistType then
      var kind := CodeOf(Get(obj, "type"));
      if kind == Some(0) || kind == Some(5) then PlaylistOf(obj, Some(!Truthy(Get(obj, "original"))))
      else if kind == Some(1) then AlbumOf(obj, true)
      else Construct(t, obj)
    else Construct(t, obj)
  }

  datatype Finalized = One(entity: Entity) | Many(entities: seq<Entity>)

  /** The value `_finalizeResponse` produces, for use in specifications. */
  function Finalization(response: Value, t: ObjectType): Option<Finalized>
  {
    if !Truthy(response) || response.VBool? then None
    else if response.VList? then
      Some(Many(seq(|response.items|, i requires 0 <= i < |response.items| => FinalizeOne(t, response.items[i]))))
    else Some(One(FinalizeOne(t, response)))
  }

  /** `_finalizeResponse`: None for a falsy or bool reply; a list is turned,
      element by element and in order, into a list of objects of the same
      length; any other reply into a single object. */
  method Finalize(response: Value, t: ObjectType) returns (r: Option<Finalized>)
    ensures !Truthy(response) || response.VBool? ==> r == None
    ensures Truthy(response) && response.VList? ==>
              r.Some? && r.value.Many? && |r.value.entities| == |response.items| &&
              forall i :: 0 <= i < |response.items| ==> r.value.entities[i] == FinalizeOne(t, response.items[i])
    ensures Truthy(response) && !response.VList? && !response.VBool? ==> r == Some(One(FinalizeOne(t, response)))
    ensures r == Finalization(response, t)
  {
    if !Truthy(response) || response.VBool? {
      return None;
    }
    var wasList := response.VList?;
    var items := if wasList then response.items else [response];
    var objects := new Entity[|items|];
    for index := 0 to |items|
      invariant forall i :: 0 <= i < index ==> objects[i] == FinalizeOne(t, items[i])
    {
      objects[index] := FinalizeOne(t, items[index]);
    }
    if wasList {
      assert objects[..] == Finalization(response, t).value.entities;
      return Some(Many(objects[..]));
    }
    return Some(One(objects[0]));
  }

  // ---------------------------------------------------------------------
  // Proxy normalisation in the constructor
  // ---------------------------------------------------------------------

  /** The `proxy` argument: a dict, as its entries in insertion order, or any
      other value. */
  datatype ProxyArg = ProxyDict(entries: seq<(string, Value)>) | ProxyOther(v: Value)

  const ProxySchemes: set<string> := {"http", "https", "socks4", "socks5"}

  /** The key a scheme is stored under. */
  function ProxyKey(scheme: string): string {
    Text.Lower(scheme) + (if Text.EndsWith(scheme, "://") then "" else "://")
  }

  /** The URL stored: prefixed with the key unless it already names a scheme. */
  function ProxyUrl(key: string, url: string): string {
    (if Text.Contains(url, "://") then "" else key) + url
  }

  /** The loop over the entries, as written: the scheme is checked
      case-insensitively against the four names before anything else. */
  function ProxyFold(entries: seq<(string, Value)>): Result<map<string, string>>
  {
    if |entries| == 0 then Ok(map[])
    else match ProxyFold(entries[..|entries| - 1])
      case Fail(k) => Fail(k)
      case Ok(m) =>
        var (scheme, url) := entries[|entries| - 1];
        if Text.Lower(scheme) !in ProxySchemes then Fail(InvalidProxyDict)
        else if !url.VStr? then Fail(RuntimeFault)  // `in` / `+` on a non-string URL
        else Ok(m[ProxyKey(scheme) := ProxyUrl(ProxyKey(scheme), url.s)])
  }

  /** The whole proxy set-up: a falsy proxy means none; a non-dict raises
      InvalidProxyType. */
  function ProxySpec(proxy: ProxyArg): Result<Option<map<string, string>>>
  {
    match proxy
    case ProxyOther(v) => if Truthy(v) then Fail(InvalidProxyType) else Ok(None)
    case ProxyDict(entries) =>
      if |entries| == 0 then Ok(None)
      else match ProxyFold(entries)
        case Fail(k) => Fail(k)
        case Ok(m) => Ok(Some(m))
  }

  /** `Client.__init__` as a whole: the proxy argument is normalised first,
      and an InvalidProxyType or InvalidProxyDict it raises means no session
      is made; otherwise a new open session holds the normalised proxy. */
  method NewClient(token: string, typedToken: string, apiVersion: Value, apiBase: string,
                   proxy: ProxyArg, ruCaptchaKey: string) returns (r: Result<Client>)
    ensures r.Fail? <==> ProxySpec(proxy).Fail?
    ensures r.Fail? ==> r.kind == ProxySpec(proxy).kind
    ensures r.Ok? ==> fresh(r.value) && !r.value.closed && r.value.transports == 1 && r.value.sent == [] &&
                      r.value.proxy == ProxySpec(proxy).value &&
                      r.value.base == map["access_token" := VStr(if token == "" then typedToken else token),
                                          "v" := apiVersion] &&
                      r.value.hasCaptchaKey == (ruCaptchaKey != "")
  {
    var normalised := NormaliseProxy(proxy);
    if normalised.Fail? {
      return Fail(normalised.kind);
    }
    var c := new Client(token, typedToken, apiVersion, apiBase, normalised.value, ruCaptchaKey);
    return Ok(c);
  }

  /** The proxy normalisation loop of `Client.__init__`. */
  method NormaliseProxy(proxy: ProxyArg) returns (r: Result<Option<map<string, string>>>)
    ensures r == ProxySpec(proxy)
  {
    if proxy.ProxyOther? {
      if Truthy(proxy.v) {
        return Fail(InvalidProxyType);
      }
      return Ok(None);
    }
    var entries := proxy.entries;
    if |entries| == 0 {
      return Ok(None);
    }
    var normalised: map<string, string> := map[];
    for i := 0 to |entries|
      invariant ProxyFold(entries[..i]) == Ok(normalised)
    {
      assert entries[..i + 1][..i] == entries[..i];
      var (scheme, url) := entries[i];
      if Text.Lower(scheme) !in ProxySchemes {
        ProxyFailureSticks(entries, i + 1);
        return Fail(InvalidProxyDict);
      }
      if !url.VStr? {
        ProxyFailureSticks(entries, i + 1);
        return Fail(RuntimeFault);
      }
      var key := ProxyKey(scheme);
      normalised := normalised[key := ProxyUrl(key, url.s)];
    }
    assert entries[..|entries|] == entries;
    return Ok(Some(normalised));
  }

  /** Once an entry raises, the whole loop raises that error. */
  lemma {:induction false} ProxyFailureSticks(entries: seq<(string, Value)>, n: nat)
    requires n <= |entries| && ProxyFold(entries[..n]).Fail?
    ensures ProxyFold(entries) == ProxyFold(entries[..n])
    decreases |entries| - n
  {
    if n < |entries| {
      assert entries[..n + 1][..n] == entries[..n];
      ProxyFailureSticks(entries, n + 1);
    } else {
      assert entries[..n] == entries;
    }
  }

  /** A string containing `p` still contains it with anything appended. */
  lemma ContainsExtend(a: string, b: string, p: string)
    requires Text.Contains(a, p)
    ensures Text.Contains(a + b, p)
  {
    var i :| 0 <= i <= |a| - |p| && Text.OccursAt(a, p, i);
    assert Text.OccursAt(a + b, p, i) by {
      assert (a + b)[i..i + |p|] == a[i..i + |p|];
    }
  }

  /** The keys a normalised proxy dict can hold. */
  const ProxyKeys: set<string> := {"http://", "https://", "socks4://", "socks5://"}

  /** One accepted entry: its key is one of the four and its URL names a scheme. */
  lemma ProxyEntryWellFormed(scheme: string, url: string)
    requires Text.Lower(scheme) in ProxySchemes
    ensures ProxyKey(scheme) in ProxyKeys
    ensures Text.Contains(ProxyUrl(ProxyKey(scheme), url), "://")
  {
    ProxySuffixBranchDead(scheme);
    var low := Text.Lower(scheme);
    KeyOfScheme(low);
    SuffixedUrlHasScheme(low, url);
  }

  /** A scheme name with "://" appended is one of the four keys. */
  lemma KeyOfScheme(low: string)
    requires low in ProxySchemes
    ensures low + "://" in ProxyKeys
  {
    if low == "http" {
      assert low + "://" == "http://";
    } else if low == "https" {
      assert low + "://" == "https://";
    } else if low == "socks4" {
      assert low + "://" == "socks4://";
    } else {
      assert low + "://" == "socks5://";
    }
  }

  /** A URL stored under "<scheme>://" names a scheme. */
  lemma SuffixedUrlHasScheme(low: string, url: string)
    ensures Text.Contains(ProxyUrl(low + "://", url), "://")
  {
    var key := low + "://";
    if !Text.Contains(url, "://") {
      assert key[|low|..] == "://";
      assert Text.OccursAt(key, "://", |low|);
      ContainsExtend(key, url, "://");
    } else {
      assert ProxyUrl(key, url) == url;
    }
  }

  /** Every accepted entry is stored under "<scheme>://" for one of the four
      schemes, and every stored URL names a scheme. */
  lemma {:induction false} ProxyFoldWellFormed(entries: seq<(string, Value)>)
    ensures ProxyFold(entries).Ok? ==>
              forall k :: k in ProxyFold(entries).value ==>
                k in ProxyKeys && Text.Contains(ProxyFold(entries).value[k], "://")
  {
    if |entries| > 0 && ProxyFold(entries).Ok? {
      ProxyFoldWellFormed(entries[..|entries| - 1]);
      var (scheme, url) := entries[|entries| - 1];
      ProxyEntryWellFormed(scheme, url.s);
    }
  }

  /** The "://" suffix test in the key computation can never succeed: a
      scheme that passes the check is one of four plain names. */
  lemma ProxySuffixBranchDead(scheme: string)
    requires Text.Lower(scheme) in ProxySchemes
    ensures !Text.EndsWith(scheme, "://")
    ensures ProxyKey(scheme) == Text.Lower(scheme) + "://"
  {
    var low := Text.Lower(scheme);
    if |scheme| >= 3 {
      var n := |scheme|;
      assert low[n - 1] != '/';
      assert scheme[n - 1] != '/';
      assert scheme[n - 3..][2] == scheme[n - 1];
    }
  }

  /** A key written "socks5://", the form the suffix test anticipates, is rejected. */
  lemma ProxySchemeWithSuffixRejected()
    ensures ProxySpec(ProxyDict([("socks5://", VStr("127.0.0.1:1080"))])) == Fail(InvalidProxyDict)
  {
    var entries := [("socks5://", VStr("127.0.0.1:1080"))];
    assert entries[..0] == [];
    Text.LowerNoCapitals("socks5://");
    assert |"socks5://"| == 9;
  }

  /** The scheme name a key stands for once a trailing "://" is set aside. */
  function BareScheme(scheme: string): string {
    var low := Text.Lower(scheme);
    if Text.EndsWith(low, "://") then low[..|low| - 3] else low
  }

  /** The loop with the check applied to the bare scheme, so that keys with
      and without "://" are both accepted. */
  function ProxyFoldIntended(entries: seq<(string, Value)>): Result<map<string, string>>
  {
    if |entries| == 0 then Ok(map[])
    else match ProxyFoldIntended(entries[..|entries| - 1])
      case Fail(k) => Fail(k)
      case Ok(m) =>
        var (scheme, url) := entries[|entries| - 1];
        var key := BareScheme(scheme) + "://";
        if BareScheme(scheme) !in ProxySchemes then Fail(InvalidProxyDict)
        else if !url.VStr? then Fail(RuntimeFault)
        else Ok(m[key := ProxyUrl(key, url.s)])
  }

  /** The corrected loop accepts "socks5://" keys, and it agrees with the
      loop as written on every dict whose keys carry no "://" suffix. */
  lemma {:induction false} ProxyFoldIntendedAgrees(entries: seq<(string, Value)>)
    ensures (forall i :: 0 <= i < |entries| ==> !Text.EndsWith(Text.Lower(entries[i].0), "://")) ==>
              ProxyFoldIntended(entries) == ProxyFold(entries)
  {
    if |entries| > 0 && forall i :: 0 <= i < |entries| ==> !Text.EndsWith(Text.Lower(entries[i].0), "://") {
      var init := entries[..|entries| - 1];
      forall i | 0 <= i < |init| ensures !Text.EndsWith(Text.Lower(init[i].0), "://") {
        assert init[i] == entries[i];
      }
      ProxyFoldIntendedAgrees(init);
      var scheme := entries[|entries| - 1].0;
      assert BareScheme(scheme) == Text.Lower(scheme);
      if Text.Lower(scheme) in ProxySchemes {
        ProxySuffixBranchDead(scheme);
      }
    }
  }

  /** With the correction a "socks5://" key is kept as written. */
  lemma ProxyIntendedAcceptsSuffix(address: string)
    ensures ProxyFoldIntended([("socks5://", VStr("socks5://" + address))]) ==
            Ok(map["socks5://" := "socks5://" + address])
  {
    SuffixedSchemeIsBare();
    assert "socks5" in ProxySchemes;
    ProxyFoldIntendedSingle("socks5://", "socks5://" + address);
    PrefixedUrlKept(address);
  }

  /** The corrected loop on a dict of one accepted entry. */
  lemma ProxyFoldIntendedSingle(scheme: string, url: string)
    requires BareScheme(scheme) in ProxySchemes
    ensures var key := BareScheme(scheme) + "://";
            ProxyFoldIntended([(scheme, VStr(url))]) == Ok(map[key := ProxyUrl(key, url)])
  {
    var entries := [(scheme, VStr(url))];
    assert entries[..0] == [];
  }

  /** "socks5://" stands for the bare scheme "socks5". */
  lemma SuffixedSchemeIsBare()
    ensures BareScheme("socks5://") == "socks5"
    ensures BareScheme("socks5://") + "://" == "socks5://"
  {
    Text.LowerNoCapitals("socks5://");
    assert "socks5://"[6..] == "://";
    assert "socks5://"[..6] == "socks5";
    assert "socks5://"[..6] + "socks5://"[6..] == "socks5://";
  }

  /** A URL that already starts with "socks5://" is stored unchanged. */
  lemma PrefixedUrlKept(address: string)
    ensures ProxyUrl("socks5://", "socks5://" + address) == "socks5://" + address
  {
    assert "socks5://"[6..] == "://";
    assert Text.OccursAt("socks5://", "://", 6);
    ContainsExtend("socks5://", address, "://");
  }
}
