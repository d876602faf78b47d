/**
  The HTTP transport wrapper of vkmusix/web.py: scheme defaulting of URLs,
  normalisation of a cookie list, the bounded retry loop and the decoding of
  a reply according to the requested response type. The HTTP client itself
  is an oracle: attempt `k` either fails with a connection-level error or
  yields a reply.
 */
module Web {
  import opened Wrappers
  import opened PyValue
  import opened Errors
  import Text

  /** How many attempts `Client.__call__` makes before giving up. */
  const Retries: nat := 5

  /** `addHTTPsToUrl`: prefix "https://" unless the URL already mentions a scheme. */
  function AddHttps(url: string): (r: string)
    ensures Text.Contains(url, "https://") || Text.Contains(url, "http://") ==> r == url
    ensures !(Text.Contains(url, "https://") || Text.Contains(url, "http://")) ==> r == "https://" + url
  {
    if Text.Contains(url, "https://") || Text.Contains(url, "http://") then url
    else "https://" + url
  }

  /** A URL mentions a scheme after `AddHttps`, and it is left alone exactly
      when it already did. */
  lemma AddHttpsSchemes(url: string)
    ensures Text.Contains(AddHttps(url), "https://") || Text.Contains(AddHttps(url), "http://")
    ensures AddHttps(url) == url <==> (Text.Contains(url, "https://") || Text.Contains(url, "http://"))
  {
    if !(Text.Contains(url, "https://") || Text.Contains(url, "http://")) {
      assert Text.OccursAt("https://" + url, "https://", 0);
    }
  }

  /** Applying `AddHttps` twice is the same as applying it once. */
  lemma AddHttpsIdempotent(url: string)
    ensures AddHttps(AddHttps(url)) == AddHttps(url)
  {
    AddHttpsSchemes(url);
  }

  /** The `cookies` argument after normalisation: passed through, or the
      name-to-value dict built from a non-empty list of cookie records. */
  datatype CookieJar = PassedThrough(v: Value) | Built(jar: map<Value, Value>)

  /** The dict the loop of `__call__` builds from a list of cookie records:
      record `k` sets `name := value`, so a later record overwrites an
      earlier one with the same name. */
  function CookieMap(records: seq<Value>): map<Value, Value>
  {
    if |records| == 0 then map[]
    else
      var last := records[|records| - 1];
      CookieMap(records[..|records| - 1])[Get(last, "name") := Get(last, "value")]
  }

  /** The jar holds exactly the names of the records. */
  lemma {:induction false} CookieMapKeys(records: seq<Value>)
    ensures forall k :: k in CookieMap(records) <==>
              exists i :: 0 <= i < |records| && Get(records[i], "name") == k
  {
    if |records| > 0 {
      var init := records[..|records| - 1];
      CookieMapKeys(init);
      forall k ensures k in CookieMap(records) <==>
                 exists i :: 0 <= i < |records| && Get(records[i], "name") == k
      {
        if k in CookieMap(init) {
          var i :| 0 <= i < |init| && Get(init[i], "name") == k;
          assert records[i] == init[i];
        }
        if exists i :: 0 <= i < |records| && Get(records[i], "name") == k {
          var i :| 0 <= i < |records| && Get(records[i], "name") == k;
          if i < |init| {
            assert init[i] == records[i];
          }
        }
      }
    }
  }

  /** Each name is bound to the value of the LAST record carrying it: a
      record no later record renames is the one whose value is kept. */
  lemma {:induction false} CookieMapLastWins(records: seq<Value>, i: nat)
    requires i < |records|
    requires forall j :: i < j < |records| ==> Get(records[j], "name") != Get(records[i], "name")
    ensures Get(records[i], "name") in CookieMap(records)
    ensures CookieMap(records)[Get(records[i], "name")] == Get(records[i], "value")
  {
    var init := records[..|records| - 1];
    if i < |init| {
      assert init[i] == records[i];
      forall j | i < j < |init| ensures Get(init[j], "name") != Get(init[i], "name") {
        assert init[j] == records[j];
      }
      CookieMapLastWins(init, i);
    }
  }

  /** The cookie normalisation of `__call__`: a truthy list of records
      becomes a dict built record by record; anything else is passed on. */
  method NormaliseCookies(cookies: Value) returns (jar: CookieJar)
    ensures cookies.VList? && |cookies.items| > 0 ==> jar == Built(CookieMap(cookies.items))
    ensures !(cookies.VList? && |cookies.items| > 0) ==> jar == PassedThrough(cookies)
  {
    if !(Truthy(cookies) && cookies.VList?) {
      return PassedThrough(cookies);
    }
    var records := cookies.items;
    var built: map<Value, Value> := map[];
    var i := 0;
    while i < |records|
      invariant 0 <= i <= |records|
      invariant built == CookieMap(records[..i])
    {
      assert records[..i + 1][..i] == records[..i];
      built := built[Get(records[i], "name") := Get(records[i], "value")];
      i := i + 1;
    }
    assert records[..i] == records;
    return Built(built);
  }

  /** The four reply decodings of `ResponseType`. */
  datatype ResponseType = Json | Code | File | RawResponse

  /** What the HTTP client hands back for one request: the body parsed as
      JSON (None when it is not valid JSON), the body as text, its bytes, and
      an identity for the response object. */
  datatype HttpReply = HttpReply(json: Option<Value>, text: string, content: seq<int>, handle: nat)

  /** One attempt of the retry loop: a caught transport error (timeout,
      connection, request or read error) or a reply. */
  datatype Attempt = TransportError | Replied(reply: HttpReply)

  /** What `__call__` returns. */
  datatype Payload = JsonPayload(value: Value) | TextPayload(text: string)
                   | BytesPayload(bytes: seq<int>) | ReplyPayload(reply: HttpReply)

  /** Python's `'response' in v`: None stands for the TypeError it raises. */
  function HasResponseKey(v: Value): Option<bool>
  {
    match v
    case VDict(m) => Some("response" in m)
    case VList(items) => Some(VStr("response") in items)
    case VStr(s) => Some(Text.Contains(s, "response"))
    case _ => None
  }

  /** The JSON branch: undecodable body → None; a top-level "response" key is
      unwrapped; `.get` on a non-dict that contains "response" faults. */
  function DecodeJson(json: Option<Value>): (r: Result<Option<Payload>>)
    ensures json == None ==> r == Ok(None)
    ensures json.Some? && json.value.VDict? && "response" in json.value.fields ==>
              r == Ok(Some(JsonPayload(json.value.fields["response"])))
    ensures json.Some? && json.value.VDict? && "response" !in json.value.fields ==>
              r == Ok(Some(JsonPayload(json.value)))
  {
    match json
    case None => Ok(None)
    case Some(v) =>
      match HasResponseKey(v)
      case None => Fail(RuntimeFault)
      case Some(has) =>
        if !has then Ok(Some(JsonPayload(v)))
        else if v.VDict? then Ok(Some(JsonPayload(v.fields["response"])))
        else Fail(RuntimeFault)
  }

  /** The per-type decoding of one reply. */
  function Decode(mode: ResponseType, reply: HttpReply): Result<Option<Payload>>
  {
    match mode
    case Json => DecodeJson(reply.json)
    case Code => Ok(Some(TextPayload(Text.Replace(reply.text, "<br/>", "\n"))))
    case File => Ok(Some(BytesPayload(reply.content)))
    case RawResponse => Ok(Some(ReplyPayload(reply)))
  }

  /** In CODE mode no "<br/>" survives in the returned text, and text without
      one is returned unchanged. */
  lemma CodeModeRemovesBreaks(reply: HttpReply)
    ensures Decode(Code, reply).Ok? && Decode(Code, reply).value.Some?
    ensures !Text.Contains(Decode(Code, reply).value.value.text, "<br/>")
    ensures !Text.Contains(reply.text, "<br/>") ==> Decode(Code, reply).value.value.text == reply.text
  {
    Text.ReplaceRemovesAll(reply.text, "<br/>", "\n");
  }

  /** In CODE mode each "<br/>" becomes a newline: a text made of lines
      (free of '<') joined by "<br/>" comes back as the same lines joined by
      newlines. */
  lemma CodeModeBreaksBecomeNewlines(reply: HttpReply, lines: seq<string>)
    requires reply.text == Text.Join(lines, "<br/>")
    requires forall k :: 0 <= k < |lines| ==> '<' !in lines[k]
    ensures Decode(Code, reply).Ok? && Decode(Code, reply).value.Some?
    ensures Decode(Code, reply).value.value.text == Text.Join(lines, "\n")
  {
    Text.ReplaceJoin(lines, "<br/>", "\n");
  }

  /** The result of the retry loop when `remaining` attempts are left and
      `used` have been spent: the first reply is decoded; when every attempt
      fails the call returns None. */
  function RetryLoop(transport: nat -> Attempt, mode: ResponseType, used: nat, remaining: nat): Result<Option<Payload>>
    decreases remaining
  {
    if remaining == 0 then Ok(None)
    else match transport(used)
      case TransportError => RetryLoop(transport, mode, used + 1, remaining - 1)
      case Replied(reply) => Decode(mode, reply)
  }

  /** The retry loop of `Client.__call__` as it runs: a counter starting at
      `Retries`, decremented by each caught transport error. */
  method Fetch(transport: nat -> Attempt, mode: ResponseType) returns (r: Result<Option<Payload>>, attempts: nat)
    ensures r == RetryLoop(transport, mode, 0, Retries)
    ensures 1 <= attempts <= Retries
    ensures forall k :: 0 <= k < attempts - 1 ==> transport(k) == TransportError
    ensures transport(attempts - 1).Replied? ==> r == Decode(mode, transport(attempts - 1).reply)
    ensures transport(attempts - 1) == TransportError ==> attempts == Retries && r == Ok(None)
  {
    var retriesLocal := Retries;
    attempts := 0;
    while retriesLocal > 0
      invariant 0 <= retriesLocal <= Retries && attempts == Retries - retriesLocal
      invariant forall k :: 0 <= k < attempts ==> transport(k) == TransportError
      invariant RetryLoop(transport, mode, attempts, retriesLocal) == RetryLoop(transport, mode, 0, Retries)
      decreases retriesLocal
    {
      var a := transport(attempts);
      attempts := attempts + 1;
      match a {
        case Replied(reply) =>
          return Decode(mode, reply), attempts;
        case TransportError =>
          retriesLocal := retriesLocal - 1;
      }
    }
    return Ok(None), attempts;
  }

  /** Five failed attempts end the call with None. */
  lemma {:induction false} RetryLoopAllFail(transport: nat -> Attempt, mode: ResponseType, used: nat, remaining: nat)
    requires forall k :: used <= k < used + remaining ==> transport(k) == TransportError
    ensures RetryLoop(transport, mode, used, remaining) == Ok(None)
    decreases remaining
  {
    if remaining > 0 {
      assert transport(used) == TransportError;
      RetryLoopAllFail(transport, mode, used + 1, remaining - 1);
    }
  }

  /** A reply at attempt `k`, after failures at every earlier attempt, is
      what the call returns, decoded. */
  lemma {:induction false} RetryLoopFirstReply(transport: nat -> Attempt, mode: ResponseType, used: nat, remaining: nat, k: nat)
    requires used <= k < used + remaining && transport(k).Replied?
    requires forall j :: used <= j < k ==> transport(j) == TransportError
    ensures RetryLoop(transport, mode, used, remaining) == Decode(mode, transport(k).reply)
    decreases remaining
  {
    if k > used {
      assert transport(used) == TransportError;
      RetryLoopFirstReply(transport, mode, used + 1, remaining - 1, k);
    }
  }
}
