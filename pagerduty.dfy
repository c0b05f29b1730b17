/** The incident-platform helpers of `pd.py`: the `Authorization` scheme chosen from the
    token's shape, the event-routing URLs, the integration-key and event-payload checks, the
    request guard and header assembly, and the paginated `fetch` loop. The HTTP transport is
    the abstract remote of module Http: a request that passes the guard is appended to a
    call log, and its reply is taken from a finite script. */
module PagerDuty {
  import opened Options
  import opened Text
  import opened Http
  import Regex

  const BASE_URL := "https://api.pagerduty.com"
  const ACCEPT := "application/vnd.pagerduty+json;version=2"
  const JSON_TYPE := "application/json"

  // ---------------------------------------------------------------------------------------
  // Authorization scheme

  /** `[0-9a-f]` */
  const LOWER_HEX := [Regex.Range('0', '9'), Regex.Range('a', 'f')]
  /** `^[0-9a-f]{64}$` */
  const TOKEN_PATTERN := [Regex.Repeat(LOWER_HEX, 64)]

  /** `auth_header_for_token`: a token shaped like a personal OAuth token gets the bearer
      scheme, any other token the `Token token=` scheme. */
  function AuthHeader(token: string): string
  {
    if Regex.FullMatch(TOKEN_PATTERN, token, false) then "Bearer " + token else "Token token=" + token
  }

  /** The token an `Authorization` value carries, for either scheme. */
  function TokenOf(header: string): string
  {
    if StartsWith(header, "Bearer ") then header[7..]
    else if StartsWith(header, "Token token=") then header[12..]
    else header
  }

  lemma LowerHexClass(c: char)
    ensures Regex.InClass(c, LOWER_HEX, false) <==> IsLowerHexDigit(c)
  {
    assert LOWER_HEX[1..] == [Regex.Range('a', 'f')];
    assert LOWER_HEX[1..][1..] == [];
  }

  /** The bearer scheme is chosen exactly for 64 lower-case hex digits, optionally followed by
      one newline (Python's `$`); either way the header gives the token back unchanged. */
  lemma AuthHeaderScheme(token: string)
    ensures StartsWith(AuthHeader(token), "Bearer ")
        <==> (|token| == 64 || (|token| == 65 && token[64] == '\n'))
             && forall i :: 0 <= i < 64 ==> IsLowerHexDigit(token[i])
    ensures !StartsWith(AuthHeader(token), "Bearer ") ==> AuthHeader(token) == "Token token=" + token
    ensures TokenOf(AuthHeader(token)) == token
  {
    Regex.SingleAtom(LOWER_HEX, 64, token, false);
    if |token| == 64 || (|token| == 65 && token[64] == '\n') {
      forall i | 0 <= i < 64 ensures Regex.InClass(token[i], LOWER_HEX, false) <==> IsLowerHexDigit(token[i]) {
        LowerHexClass(token[i]);
      }
    }
    var h := AuthHeader(token);
    if Regex.FullMatch(TOKEN_PATTERN, token, false) {
      assert h[..7] == "Bearer ";
      assert h[7..] == token;
    } else {
      assert h[0] == 'T';
      assert !StartsWith(h, "Bearer ");
      assert h[..12] == "Token token=";
      assert h[12..] == token;
    }
  }

  // ---------------------------------------------------------------------------------------
  // Event routing

  /** `url_for_routing_key`: keys starting with "R" go to the event-rules endpoint. */
  function UrlForRoutingKey(routingKey: string, baseUrl: string): string
  {
    if StartsWith(routingKey, "R") then baseUrl + "/x-ere/" + routingKey else baseUrl + "/v2/enqueue"
  }

  const RULES_DESTINATIONS := {"x-ere", "routing", "ger"}
  const CLASSIC_DESTINATIONS := {"v1", "cet", "raw"}

  /** The URL `send_event` posts to for a destination type. */
  function SendEventUrl(routingKey: string, baseUrl: string, destinationType: string): string
  {
    if destinationType in RULES_DESTINATIONS then baseUrl + "/x-ere/" + routingKey
    else if destinationType in CLASSIC_DESTINATIONS then baseUrl + "/integration/" + routingKey + "/enqueue"
    else baseUrl + "/v2/enqueue"
  }

  /** The three endpoint forms differ right after the base URL, so the URL `send_event` picks
      tells the destination class apart, in both directions. */
  lemma SendEventUrlSelects(routingKey: string, baseUrl: string, destinationType: string)
    ensures SendEventUrl(routingKey, baseUrl, destinationType) == baseUrl + "/x-ere/" + routingKey
        <==> destinationType in RULES_DESTINATIONS
    ensures SendEventUrl(routingKey, baseUrl, destinationType) == baseUrl + "/integration/" + routingKey + "/enqueue"
        <==> destinationType in CLASSIC_DESTINATIONS
    ensures SendEventUrl(routingKey, baseUrl, destinationType) == baseUrl + "/v2/enqueue"
        <==> destinationType !in RULES_DESTINATIONS && destinationType !in CLASSIC_DESTINATIONS
  {
    var n := |baseUrl|;
    var rules := baseUrl + "/x-ere/" + routingKey;
    var classic := baseUrl + "/integration/" + routingKey + "/enqueue";
    var v2 := baseUrl + "/v2/enqueue";
    assert rules[n + 1] == 'x';
    assert classic[n + 1] == 'i';
    assert v2[n + 1] == 'v';
  }

  /** `send_event` and `url_for_routing_key` agree on an "R" key sent to the rules endpoint and
      on any other key sent to the default one. */
  lemma SendEventAgreesWithRoutingKey(routingKey: string, baseUrl: string, destinationType: string)
    ensures destinationType in RULES_DESTINATIONS && StartsWith(routingKey, "R")
        ==> SendEventUrl(routingKey, baseUrl, destinationType) == UrlForRoutingKey(routingKey, baseUrl)
    ensures destinationType !in RULES_DESTINATIONS && destinationType !in CLASSIC_DESTINATIONS
            && !StartsWith(routingKey, "R")
        ==> SendEventUrl(routingKey, baseUrl, destinationType) == UrlForRoutingKey(routingKey, baseUrl)
  {
  }

  // ---------------------------------------------------------------------------------------
  // Integration keys

  /** `[0-9A-Z]` */
  const UPPER_ALNUM := [Regex.Range('0', '9'), Regex.Range('A', 'Z')]
  /** `^[0-9a-f]{32}$` */
  const CLASSIC_PATTERN := [Regex.Repeat(LOWER_HEX, 32)]
  /** `^R[0-9A-Z]{31}$` */
  const RULES_PATTERN := [Regex.Repeat([Regex.Range('R', 'R')], 1), Regex.Repeat(UPPER_ALNUM, 31)]

  /** `is_classic_integration_key`: the classic pattern, ignoring case. */
  predicate IsClassicIntegrationKey(key: string)
  {
    Regex.FullMatch(CLASSIC_PATTERN, key, true)
  }

  /** `is_rules_engine_key`: the rules-engine pattern, ignoring case. */
  predicate IsRulesEngineKey(key: string)
  {
    Regex.FullMatch(RULES_PATTERN, key, true)
  }

  /** `is_valid_integration_key` */
  predicate IsValidIntegrationKey(key: string)
  {
    IsClassicIntegrationKey(key) || IsRulesEngineKey(key)
  }

  lemma HexClassIgnoringCase(c: char)
    ensures Regex.InClass(c, LOWER_HEX, true) <==> IsHexDigit(c)
  {
    LowerHexClass(c);
    LowerHexClass(Regex.SwapCase(c));
  }

  lemma AlnumClassIgnoringCase(c: char)
    ensures Regex.InClass(c, UPPER_ALNUM, true) <==> IsAlphanumeric(c)
  {
    assert UPPER_ALNUM[1..] == [Regex.Range('A', 'Z')];
    assert UPPER_ALNUM[1..][1..] == [];
  }

  lemma LetterRClassIgnoringCase(c: char)
    ensures Regex.InClass(c, [Regex.Range('R', 'R')], true) <==> c == 'R' || c == 'r'
  {
    assert [Regex.Range('R', 'R')][1..] == [];
  }

  /** A classic key is 32 hex digits in either case, optionally followed by one newline
      (Python's `$`). */
  lemma ClassicKeyShape(key: string)
    ensures IsClassicIntegrationKey(key)
        <==> (|key| == 32 || (|key| == 33 && key[32] == '\n'))
             && forall i :: 0 <= i < 32 ==> IsHexDigit(key[i])
  {
    Regex.SingleAtom(LOWER_HEX, 32, key, true);
    if |key| == 32 || (|key| == 33 && key[32] == '\n') {
      forall i | 0 <= i < 32 ensures Regex.InClass(key[i], LOWER_HEX, true) <==> IsHexDigit(key[i]) {
        HexClassIgnoringCase(key[i]);
      }
    }
  }

  /** A rules-engine key is an "R" or "r" followed by 31 ASCII letters or digits, optionally
      followed by one newline. */
  lemma RulesKeyShape(key: string)
    ensures IsRulesEngineKey(key)
        <==> (|key| == 32 || (|key| == 33 && key[32] == '\n'))
             && (key[0] == 'R' || key[0] == 'r')
             && forall i :: 1 <= i < 32 ==> IsAlphanumeric(key[i])
  {
    Regex.TwoAtoms([Regex.Range('R', 'R')], UPPER_ALNUM, 31, key, true);
    if |key| == 32 || (|key| == 33 && key[32] == '\n') {
      forall i | 1 <= i < 32 ensures Regex.InClass(key[i], UPPER_ALNUM, true) <==> IsAlphanumeric(key[i]) {
        AlnumClassIgnoringCase(key[i]);
      }
      LetterRClassIgnoringCase(key[0]);
    }
  }

  /** A valid integration key is 32 characters (plus an optional final newline) that are all
      hex digits of either case, or an "R" or "r" followed by 31 ASCII letters or digits. */
  lemma ValidIntegrationKeyShape(key: string)
    ensures IsValidIntegrationKey(key)
        <==> (|key| == 32 || (|key| == 33 && key[32] == '\n'))
             && ((forall i :: 0 <= i < 32 ==> IsHexDigit(key[i]))
                 || ((key[0] == 'R' || key[0] == 'r') && forall i :: 1 <= i < 32 ==> IsAlphanumeric(key[i])))
  {
    ClassicKeyShape(key);
    RulesKeyShape(key);
  }

  /** Every rules-engine key written with a lower-case "r" is a valid integration key, yet
      `url_for_routing_key` sends it to the default endpoint rather than the rules endpoint;
      such keys exist. */
  lemma LowercaseRulesKeyRoutesToDefault(key: string, baseUrl: string)
    ensures IsRulesEngineKey(key) && |key| > 0 && key[0] == 'r'
            ==> IsValidIntegrationKey(key) && UrlForRoutingKey(key, baseUrl) == baseUrl + "/v2/enqueue"
    ensures IsRulesEngineKey("r" + seq(31, _ => 'A'))
  {
    if |key| > 0 && key[0] == 'r' {
      assert !StartsWith(key, "R") by {
        assert |key| < 1 || key[..1][0] == 'r';
      }
    }
    var sample := "r" + seq(31, _ => 'A');
    RulesKeyShape(sample);
    assert forall i :: 1 <= i < 32 ==> sample[i] == 'A';
  }

  // ---------------------------------------------------------------------------------------
  // Events API v2 payloads

  /** A decoded JSON value (numbers are integers here). */
  datatype Json = JNull | JBool(b: bool) | JNumber(n: int) | JString(s: string)
                | JArray(elems: seq<Json>) | JObject(fields: map<string, Json>)

  /** Python truthiness of a decoded JSON value. */
  predicate Truthy(j: Json)
  {
    match j
    case JNull => false
    case JBool(b) => b
    case JNumber(n) => n != 0
    case JString(s) => s != ""
    case JArray(elems) => elems != []
    case JObject(fields) => fields != map[]
  }

  /** `j[key]`, or None where Python raises (not an object, or a missing key). */
  function Field(j: Json, key: string): Option<Json>
  {
    if j.JObject? && key in j.fields then Some(j.fields[key]) else None
  }

  const ACTIONS := {"trigger", "acknowledge", "resolve"}
  const SEVERITIES := {"info", "warning", "error", "critical"}

  predicate IsOneOf(v: Option<Json>, names: set<string>)
  {
    v.Some? && v.value.JString? && v.value.s in names
  }

  predicate IsTruthy(v: Option<Json>)
  {
    v.Some? && Truthy(v.value)
  }

  /** `is_valid_v2_payload`: any exception inside the checks makes the payload invalid. */
  predicate IsValidV2Payload(payload: Json)
  {
    var action := Field(payload, "event_action");
    IsOneOf(action, ACTIONS)
    && (action == Some(JString("trigger")) ==>
          var inner := Field(payload, "payload");
          inner.Some?
          && IsOneOf(Field(inner.value, "severity"), SEVERITIES)
          && IsTruthy(Field(inner.value, "summary"))
          && IsTruthy(Field(inner.value, "source")))
  }

  /** Acknowledge and resolve events pass whatever else the payload holds; an event whose
      action is none of the three never passes, and neither does a payload that is not an
      object or whose `event_action` is missing or not a string. */
  lemma V2ActionRule(fields: map<string, Json>, action: string, rest: Json, p: Json)
    ensures action in {"acknowledge", "resolve"}
        ==> IsValidV2Payload(JObject(fields["event_action" := JString(action)]["payload" := rest]))
    ensures action !in ACTIONS ==> !IsValidV2Payload(JObject(fields["event_action" := JString(action)]))
    ensures !IsOneOf(Field(p, "event_action"), ACTIONS) ==> !IsValidV2Payload(p)
  {
  }

  /** A trigger event passes exactly when its inner payload has a known severity and a truthy
      summary and source; other keys of the inner payload do not matter. */
  lemma V2TriggerRule(fields: map<string, Json>, inner: map<string, Json>, key: string, v: Json)
    requires key !in {"severity", "summary", "source"}
    ensures var p := JObject(fields["event_action" := JString("trigger")]["payload" := JObject(inner)]);
            (IsValidV2Payload(p)
             <==> IsOneOf(Field(JObject(inner), "severity"), SEVERITIES)
                  && IsTruthy(Field(JObject(inner), "summary")) && IsTruthy(Field(JObject(inner), "source")))
    ensures var p := JObject(fields["event_action" := JString("trigger")]["payload" := JObject(inner)]);
            var q := JObject(fields["event_action" := JString("trigger")]["payload" := JObject(inner[key := v])]);
            (IsValidV2Payload(p) == IsValidV2Payload(q))
  {
  }

  // ---------------------------------------------------------------------------------------
  // Requests

  /** `request` returns None without sending when the endpoint or the token is empty. */
  predicate RequestAllowed(token: string, endpoint: string)
  {
    endpoint != "" && token != ""
  }

  /** The headers `request` sends: the three defaults, then the caller's extra headers, which
      win on a clash. */
  function RequestHeaders(token: string, body: Body, addheaders: map<string, string>): map<string, string>
  {
    var headers := map["Accept" := ACCEPT, "Authorization" := AuthHeader(token), "Content-Type" := JSON_TYPE];
    var headers := if body != NoBody then headers["Content-Type" := JSON_TYPE] else headers;
    headers + addheaders
  }

  /** The headers `request` sends are the three defaults overridden by the caller's extra
      headers: every extra header is sent as given, and a default is sent unless overridden. */
  lemma RequestHeadersOverride(token: string, body: Body, addheaders: map<string, string>)
    ensures var h := RequestHeaders(token, body, addheaders);
            && h.Keys == {"Accept", "Authorization", "Content-Type"} + addheaders.Keys
            && (forall k :: k in addheaders ==> h[k] == addheaders[k])
            && ("Accept" !in addheaders ==> h["Accept"] == ACCEPT)
            && ("Authorization" !in addheaders ==> h["Authorization"] == AuthHeader(token))
            && ("Content-Type" !in addheaders ==> h["Content-Type"] == JSON_TYPE)
  {
  }

  /** The call `request` sends once its guard has passed. */
  function PdCall(token: string, endpoint: string, verb: Verb, params: map<string, Param>,
                  body: Body, addheaders: map<string, string>): Call
  {
    Call(verb, BASE_URL + "/" + endpoint, RequestHeaders(token, body, addheaders), params, body, NoBasicAuth)
  }

  /** `request`: the call it sends, or None when its guard refuses. */
  function Request(token: string, endpoint: string, verb: Verb, params: map<string, Param>,
                   body: Body, addheaders: map<string, string>): (r: Option<Call>)
    ensures r.None? <==> token == "" || endpoint == ""
    ensures r.Some? ==> r.value.url == BASE_URL + "/" + endpoint && r.value.verb == verb
                        && r.value.params == params && r.value.body == body
  {
    if RequestAllowed(token, endpoint) then Some(PdCall(token, endpoint, verb, params, body, addheaders)) else None
  }

  // ---------------------------------------------------------------------------------------
  // Pagination

  /** One decoded list page: arrays by name, the optional `more` flag and the page `limit`. */
  datatype Page<T> = Page(arrays: map<string, seq<T>>, more: Option<bool>, limit: int)

  predicate HasMore<T>(p: Page<T>)
  {
    p.more == Some(true)
  }

  /** The items a page contributes: its array of the given name, or none when that array is
      missing (`fetch` catches the KeyError). */
  function PageItems<T>(p: Page<T>, name: string): seq<T>
  {
    if name in p.arrays then p.arrays[name] else []
  }

  /** What `fetch` ends with: the accumulated list; an exception that escapes `fetch`; or, on
      a finite reply script, the point where the script ran out while `more` still held. */
  datatype Listing<T> = Complete(items: seq<T>) | Crash | Unfinished(items: seq<T>)

  /** A run of the loop: its result and, per request sent, the `offset` parameter it carried
      (None for the first request, which carries the caller's parameters unchanged). */
  datatype FetchRun<T> = FetchRun(result: Listing<T>, sent: seq<Option<int>>)

  function Prepend<T>(sent: seq<Option<int>>, run: FetchRun<T>): FetchRun<T>
  {
    FetchRun(run.result, sent + run.sent)
  }

  /** The reply `r` holds after a request: a page, the stale previous reply when the
      request raised, or None. */
  function NextReply<T>(reply: Reply<Page<T>>, last: Option<Page<T>>): Option<Page<T>>
  {
    match reply
    case Answered(p) => Some(p)
    case Raised => last
    case NoContent => None
  }

  /** The accumulated items after a request: only a page that was answered adds any. */
  function NextItems<T>(reply: Reply<Page<T>>, name: string, acc: seq<T>): seq<T>
  {
    if reply.Answered? then acc + PageItems(reply.value, name) else acc
  }

  /** The `while True` loop of `fetch`, from a state: the previous reply `last` (None while
      `r` is unbound), the offset the next request carries, and the items so far. A raised
      request keeps the stale `r`, so its `more` and `limit` are read again. */
  function Loop<T>(replies: seq<Reply<Page<T>>>, i: nat, name: string, last: Option<Page<T>>,
                   param: Option<int>, offset: int, acc: seq<T>): FetchRun<T>
    decreases |replies| - i
  {
    if i >= |replies| then FetchRun(Unfinished(acc), [])
    else
      var r := NextReply(replies[i], last);
      if r.None? then FetchRun(Crash, [param])
      else
        var acc' := NextItems(replies[i], name, acc);
        if !HasMore(r.value) then FetchRun(Complete(acc'), [param])
        else
          var next := offset + r.value.limit;
          Prepend([param], Loop(replies, i + 1, name, r, Some(next), next, acc'))
  }

  /** One turn of the loop: the request it sends, then either the end of the run or the
      state the next turn starts from. */
  lemma LoopTurn<T>(replies: seq<Reply<Page<T>>>, i: nat, name: string, last: Option<Page<T>>,
                    param: Option<int>, offset: int, acc: seq<T>, sent: seq<Option<int>>)
    requires i < |replies|
    ensures var r := NextReply(replies[i], last);
            var run := Prepend(sent, Loop(replies, i, name, last, param, offset, acc));
            && (r.None? ==> run == FetchRun(Crash, sent + [param]))
            && (r.Some? && !HasMore(r.value) ==> run == FetchRun(Complete(NextItems(replies[i], name, acc)), sent + [param]))
            && (r.Some? && HasMore(r.value) ==>
                  var next := offset + r.value.limit;
                  run == Prepend(sent + [param], Loop(replies, i + 1, name, r, Some(next), next, NextItems(replies[i], name, acc))))
  {
    var r := NextReply(replies[i], last);
    var step := Loop(replies, i, name, last, param, offset, acc);
    if r.Some? && HasMore(r.value) {
      var next := offset + r.value.limit;
      var rest := Loop(replies, i + 1, name, r, Some(next), next, NextItems(replies[i], name, acc));
      assert step == Prepend([param], rest);
      assert sent + ([param] + rest.sent) == sent + [param] + rest.sent;
    }
  }

  /** `fetch(token, endpoint, ...)` answered by `replies`, one per request sent. */
  function FetchSpec<T>(token: string, endpoint: string, replies: seq<Reply<Page<T>>>): FetchRun<T>
  {
    if !RequestAllowed(token, endpoint) then FetchRun(Crash, [])
    else Loop(replies, 0, LastSegment(endpoint), None, None, 0, [])
  }

  /** The parameters of a request: the caller's, with `offset` written in after the first. */
  function FetchParams(params: map<string, Param>, offset: Option<int>): map<string, Param>
  {
    match offset
    case None => params
    case Some(o) => params["offset" := Number(o)]
  }

  /** The GET request `fetch` sends with a given offset parameter. */
  function FetchCall(token: string, endpoint: string, params: map<string, Param>,
                     addheaders: map<string, string>, offset: Option<int>): Call
  {
    PdCall(token, endpoint, GET, FetchParams(params, offset), NoBody, addheaders)
  }

  /** The GET requests a run of `fetch` sends. */
  function FetchCalls(token: string, endpoint: string, params: map<string, Param>,
                      addheaders: map<string, string>, sent: seq<Option<int>>): seq<Call>
    decreases |sent|
  {
    if sent == [] then []
    else FetchCalls(token, endpoint, params, addheaders, sent[..|sent| - 1])
         + [FetchCall(token, endpoint, params, addheaders, sent[|sent| - 1])]
  }

  /** One more request appends one more call to a log. */
  lemma FetchCallsAppend(log: seq<Call>, token: string, endpoint: string, params: map<string, Param>,
                         addheaders: map<string, string>, sent: seq<Option<int>>, o: Option<int>)
    ensures log + FetchCalls(token, endpoint, params, addheaders, sent + [o])
         == log + FetchCalls(token, endpoint, params, addheaders, sent) + [FetchCall(token, endpoint, params, addheaders, o)]
  {
    assert (sent + [o])[..|sent|] == sent;
  }

  /** Every request `fetch` sends is a GET to the endpoint's URL, one per reply consumed. */
  lemma {:induction false} FetchCallsAreGets(token: string, endpoint: string, params: map<string, Param>,
                                             addheaders: map<string, string>, sent: seq<Option<int>>)
    ensures |FetchCalls(token, endpoint, params, addheaders, sent)| == |sent|
    ensures forall c :: c in FetchCalls(token, endpoint, params, addheaders, sent)
              ==> c.verb == GET && c.url == BASE_URL + "/" + endpoint && c.body == NoBody
    decreases |sent|
  {
    if sent != [] {
      FetchCallsAreGets(token, endpoint, params, addheaders, sent[..|sent| - 1]);
    }
  }

  /** Request `k` of a run carries the caller's parameters with, after the first, only
      `offset` written in: the caller's dict itself is never sent modified. */
  lemma {:induction false} FetchCallsCarryOffsets(token: string, endpoint: string, params: map<string, Param>,
                                                  addheaders: map<string, string>, sent: seq<Option<int>>)
    ensures |FetchCalls(token, endpoint, params, addheaders, sent)| == |sent|
    ensures forall k :: 0 <= k < |sent| ==>
              FetchCalls(token, endpoint, params, addheaders, sent)[k].params == FetchParams(params, sent[k])
    decreases |sent|
  {
    if sent != [] {
      var init := sent[..|sent| - 1];
      FetchCallsCarryOffsets(token, endpoint, params, addheaders, init);
      assert forall k :: 0 <= k < |init| ==> init[k] == sent[k];
    }
  }

  /** With the offsets of a run that starts without one, the first request carries exactly
      the caller's parameters and every later one differs only in `offset`. */
  lemma FetchParamsCopy(params: map<string, Param>, o: Option<int>)
    ensures o.None? ==> FetchParams(params, o) == params
    ensures FetchParams(params, o).Keys - {"offset"} == params.Keys - {"offset"}
    ensures forall k :: k in params && k != "offset" ==> FetchParams(params, o)[k] == params[k]
  {
  }

  /** Writing `offset` twice leaves only the second value. */
  lemma RewriteOffset(params: map<string, Param>, a: Option<int>, b: int)
    ensures FetchParams(params, a)["offset" := Number(b)] == FetchParams(params, Some(b))
  {
  }

  /** The `try` block of `fetch`: one request, whose page replaces `r` and extends the items.
      A raised request leaves `r` as it was; no content sets it to None. */
  method Attempt<T>(log: CallLog, token: string, endpoint: string, myParams: map<string, Param>,
                    addheaders: map<string, string>, reply: Reply<Page<T>>, r: Option<Page<T>>, name: string,
                    fetched: seq<T>)
    returns (r': Option<Page<T>>, fetched': seq<T>)
    requires RequestAllowed(token, endpoint)
    modifies log
    ensures r' == NextReply(reply, r) && fetched' == NextItems(reply, name, fetched)
    ensures log.calls == old(log.calls) + [PdCall(token, endpoint, GET, myParams, NoBody, addheaders)]
  {
    var call := Request(token, endpoint, GET, myParams, NoBody, addheaders);
    log.Send(call.value);
    r' := NextReply(reply, r);
    fetched' := if reply.Answered? then fetched + PageItems(reply.value, name) else fetched;
  }

  /** `fetch`. The caller's `params` is a value, so it cannot change; the requests carry a
      copy into which `offset` is written. */
  method Fetch<T>(log: CallLog, token: string, endpoint: string, params: map<string, Param>,
                  addheaders: map<string, string>, replies: seq<Reply<Page<T>>>)
    returns (result: Listing<T>)
    modifies log
    ensures result == FetchSpec(token, endpoint, replies).result
    ensures log.calls == old(log.calls)
                         + FetchCalls(token, endpoint, params, addheaders, FetchSpec(token, endpoint, replies).sent)
  {
    var myParams := params;
    var fetched: seq<T> := [];
    var offset := 0;
    var arrayName := LastSegment(endpoint);
    var r: Option<Page<T>> := None;
    var i := 0;
    ghost var spec := FetchSpec(token, endpoint, replies);
    ghost var param: Option<int> := None;
    ghost var sent: seq<Option<int>> := [];
    while true
      invariant 0 <= i <= |replies|
      invariant i == 0 ==> sent == []
      invariant i > 0 ==> RequestAllowed(token, endpoint)
      invariant myParams == FetchParams(params, param)
      invariant RequestAllowed(token, endpoint)
                ==> spec == Prepend(sent, Loop(replies, i, arrayName, r, param, offset, fetched))
      invariant log.calls == old(log.calls) + FetchCalls(token, endpoint, params, addheaders, sent)
      decreases |replies| - i
    {
      if !RequestAllowed(token, endpoint) {
        // `request` returned None: reading `"more" in r` raises
        return Crash;
      }
      if i == |replies| {
        assert sent + [] == sent;
        return Unfinished(fetched);
      }
      LoopTurn(replies, i, arrayName, r, param, offset, fetched, sent);
      FetchCallsAppend(old(log.calls), token, endpoint, params, addheaders, sent, param);
      r, fetched := Attempt(log, token, endpoint, myParams, addheaders, replies[i], r, arrayName, fetched);
      sent := sent + [param];
      if r.None? {
        // `"more" in r` raises on None; with `r` still unbound the `except` clause's
        // `print` has already raised
        return Crash;
      }
      if !HasMore(r.value) {
        return Complete(fetched);
      }
      i := i + 1;
      offset := offset + r.value.limit;
      RewriteOffset(params, param, offset);
      myParams := myParams["offset" := Number(offset)];
      param := Some(offset);
    }
  }

  // ---------------------------------------------------------------------------------------
  // What a fetch returns

  /** The items of a sequence of replies, page after page. */
  function AllItems<T>(replies: seq<Reply<Page<T>>>, name: string): seq<T>
    decreases |replies|
  {
    if replies == [] then []
    else (if replies[0].Answered? then PageItems(replies[0].value, name) else []) + AllItems(replies[1..], name)
  }

  /** The sum of the `limit` of the answered pages. */
  function SumLimits<T>(replies: seq<Reply<Page<T>>>): int
    decreases |replies|
  {
    if replies == [] then 0
    else (if replies[0].Answered? then replies[0].value.limit else 0) + SumLimits(replies[1..])
  }

  /** The offsets carried by the requests that follow the given pages. */
  function Offsets<T>(replies: seq<Reply<Page<T>>>, offset: int): seq<Option<int>>
    decreases |replies|
  {
    if replies == [] then []
    else
      var next := offset + (if replies[0].Answered? then replies[0].value.limit else 0);
      [Some(next)] + Offsets(replies[1..], next)
  }

  lemma {:induction false} OffsetsAreRunningSums<T>(replies: seq<Reply<Page<T>>>, offset: int, k: nat)
    requires k < |replies|
    ensures |Offsets(replies, offset)| == |replies|
    ensures Offsets(replies, offset)[k] == Some(offset + SumLimits(replies[..k + 1]))
    decreases k
  {
    var next := offset + (if replies[0].Answered? then replies[0].value.limit else 0);
    assert replies[..1][1..] == [];
    if k == 0 {
      OffsetsLength(replies[1..], next);
    } else {
      OffsetsAreRunningSums(replies[1..], next, k - 1);
      assert replies[..k + 1][1..] == replies[1..][..k];
    }
  }

  lemma {:induction false} OffsetsLength<T>(replies: seq<Reply<Page<T>>>, offset: int)
    ensures |Offsets(replies, offset)| == |replies|
    decreases |replies|
  {
    if replies != [] {
      OffsetsLength(replies[1..], offset + (if replies[0].Answered? then replies[0].value.limit else 0));
    }
  }

  lemma {:induction false} LoopOverPages<T>(replies: seq<Reply<Page<T>>>, i: nat, name: string, last: Option<Page<T>>,
                                            param: Option<int>, offset: int, acc: seq<T>, n: nat)
    requires i <= n < |replies|
    requires forall k :: i <= k <= n ==> replies[k].Answered?
    requires forall k :: i <= k < n ==> HasMore(replies[k].value)
    requires !HasMore(replies[n].value)
    ensures Loop(replies, i, name, last, param, offset, acc)
         == FetchRun(Complete(acc + AllItems(replies[i..n + 1], name)), [param] + Offsets(replies[i..n], offset))
    decreases n - i
  {
    var p := replies[i].value;
    var acc' := NextItems(replies[i], name, acc);
    assert replies[i..n + 1][0] == replies[i] && replies[i..n + 1][1..] == replies[i + 1..n + 1];
    if n == i {
      assert replies[i + 1..n + 1] == [];
      assert AllItems(replies[i..n + 1], name) == PageItems(p, name);
      assert replies[i..n] == [];
    } else {
      var next := offset + p.limit;
      LoopOverPages(replies, i + 1, name, Some(p), Some(next), next, acc', n);
      assert replies[i..n][0] == replies[i] && replies[i..n][1..] == replies[i + 1..n];
      assert acc' + AllItems(replies[i + 1..n + 1], name) == acc + AllItems(replies[i..n + 1], name);
    }
  }

  /** When every reply up to the first page without `more` is a page, `fetch` returns those
      pages' arrays concatenated in page order (a page missing the array adds nothing and
      does not stop the loop); the first request carries no offset and request `k` carries
      the sum of the first `k` pages' limits. */
  lemma FetchInPageOrder<T>(token: string, endpoint: string, replies: seq<Reply<Page<T>>>, n: nat)
    requires RequestAllowed(token, endpoint)
    requires n < |replies|
    requires forall k :: 0 <= k <= n ==> replies[k].Answered?
    requires forall k :: 0 <= k < n ==> HasMore(replies[k].value)
    requires !HasMore(replies[n].value)
    ensures FetchSpec(token, endpoint, replies).result == Complete(AllItems(replies[..n + 1], LastSegment(endpoint)))
    ensures |FetchSpec(token, endpoint, replies).sent| == n + 1
    ensures FetchSpec(token, endpoint, replies).sent[0] == None
    ensures forall k :: 1 <= k <= n ==> FetchSpec(token, endpoint, replies).sent[k] == Some(SumLimits(replies[..k]))
  {
    var name := LastSegment(endpoint);
    LoopOverPages(replies, 0, name, None, None, 0, [], n);
    assert replies[0..n + 1] == replies[..n + 1] && replies[0..n] == replies[..n];
    PrefixOffsets(replies, n);
  }

  /** The offsets after the first `n` pages are the running sums of their limits. */
  lemma PrefixOffsets<T>(replies: seq<Reply<Page<T>>>, n: nat)
    requires n <= |replies|
    ensures |Offsets(replies[..n], 0)| == n
    ensures forall k :: 1 <= k <= n ==> Offsets(replies[..n], 0)[k - 1] == Some(SumLimits(replies[..k]))
  {
    OffsetsLength(replies[..n], 0);
    forall k | 1 <= k <= n ensures Offsets(replies[..n], 0)[k - 1] == Some(SumLimits(replies[..k])) {
      OffsetsAreRunningSums(replies[..n], 0, k - 1);
      assert replies[..n][..k] == replies[..k];
    }
  }

  /** From any state of the loop whose `r` holds a page with `more`, a request that raises
      leaves that stale page in `r` and adds no items: the loop goes on, and the next request
      adds the stale page's `limit` to the offset once more. */
  lemma RaisedRequestKeepsPage<T>(replies: seq<Reply<Page<T>>>, i: nat, name: string, p: Page<T>,
                                  param: Option<int>, offset: int, acc: seq<T>)
    requires i < |replies| && replies[i].Raised? && HasMore(p)
    ensures Loop(replies, i, name, Some(p), param, offset, acc)
         == Prepend([param], Loop(replies, i + 1, name, Some(p), Some(offset + p.limit), offset + p.limit, acc))
  {
  }

  /** A request the loop sends from state `i` carries the state's `param`. */
  lemma LoopSendsParam<T>(replies: seq<Reply<Page<T>>>, i: nat, name: string, last: Option<Page<T>>,
                          param: Option<int>, offset: int, acc: seq<T>)
    requires i < |replies|
    ensures |Loop(replies, i, name, last, param, offset, acc).sent| >= 1
    ensures Loop(replies, i, name, last, param, offset, acc).sent[0] == param
  {
  }

  lemma PrependTwice<T>(a: seq<Option<int>>, b: seq<Option<int>>, run: FetchRun<T>)
    ensures Prepend(a, Prepend(b, run)) == Prepend(a + b, run)
  {
    assert a + (b + run.sent) == (a + b) + run.sent;
  }

  /** A page with `more` takes the loop to the next request with that page in `r`. */
  lemma PageTurn<T>(replies: seq<Reply<Page<T>>>, i: nat, name: string, last: Option<Page<T>>,
                    param: Option<int>, offset: int, acc: seq<T>)
    requires i < |replies| && replies[i].Answered? && HasMore(replies[i].value)
    ensures var pg := replies[i].value;
            Loop(replies, i, name, last, param, offset, acc)
            == Prepend([param], Loop(replies, i + 1, name, Some(pg), Some(offset + pg.limit), offset + pg.limit,
                                     acc + PageItems(pg, name)))
  {
  }

  /** The folds over `replies[i..n]` split off their first page. */
  lemma SliceFold<T>(replies: seq<Reply<Page<T>>>, i: nat, n: nat, name: string, offset: int)
    requires i < n <= |replies| && replies[i].Answered?
    ensures SumLimits(replies[i..n]) == replies[i].value.limit + SumLimits(replies[i + 1..n])
    ensures AllItems(replies[i..n], name) == PageItems(replies[i].value, name) + AllItems(replies[i + 1..n], name)
    ensures i + 1 < n ==> Offsets(replies[i..n - 1], offset)
                          == [Some(offset + replies[i].value.limit)]
                             + Offsets(replies[i + 1..n - 1], offset + replies[i].value.limit)
  {
    assert replies[i..n][0] == replies[i] && replies[i..n][1..] == replies[i + 1..n];
    if i + 1 < n {
      assert replies[i..n - 1][0] == replies[i] && replies[i..n - 1][1..] == replies[i + 1..n - 1];
    }
  }

  lemma AppendTwice<T>(a: seq<T>, b: seq<T>, c: seq<T>)
    ensures (a + b) + c == a + (b + c)
  {
  }

  /** Pages `i` to `n - 1`, all with `more`, take the loop to request `n` with the last of
      them in `r`, the offset advanced by their limits and their arrays appended. */
  lemma {:induction false} LoopPastPages<T>(replies: seq<Reply<Page<T>>>, i: nat, name: string, last: Option<Page<T>>,
                                            param: Option<int>, offset: int, acc: seq<T>, n: nat)
    requires i < n <= |replies|
    requires forall k :: i <= k < n ==> replies[k].Answered? && HasMore(replies[k].value)
    ensures var o := offset + SumLimits(replies[i..n]);
            Loop(replies, i, name, last, param, offset, acc)
            == Prepend([param] + Offsets(replies[i..n - 1], offset),
                       Loop(replies, n, name, Some(replies[n - 1].value), Some(o), o, acc + AllItems(replies[i..n], name)))
    decreases n - i
  {
    var pg := replies[i].value;
    var o1 := offset + pg.limit;
    var acc1 := acc + PageItems(pg, name);
    PageTurn(replies, i, name, last, param, offset, acc);
    SliceFold(replies, i, n, name, offset);
    AppendTwice(acc, PageItems(pg, name), AllItems(replies[i + 1..n], name));
    if n == i + 1 {
      assert replies[i + 1..n] == [] && replies[i..n - 1] == [];
      assert [param] + Offsets(replies[i..n - 1], offset) == [param];
      assert SumLimits(replies[i..n]) == pg.limit;
      assert AllItems(replies[i..n], name) == PageItems(pg, name);
    } else {
      LoopPastPages(replies, i + 1, name, Some(pg), Some(o1), o1, acc1, n);
      var rest := Loop(replies, n, name, Some(replies[n - 1].value), Some(offset + SumLimits(replies[i..n])),
                       offset + SumLimits(replies[i..n]), acc + AllItems(replies[i..n], name));
      PrependTwice([param], [Some(o1)] + Offsets(replies[i + 1..n - 1], o1), rest);
    }
  }

  /** From request `n`, with a page with `more` in `r`, a raise at `n` makes requests `n` and
      `n + 1` carry `o` and `o` plus the stale page's limit. */
  lemma StaleTail<T>(replies: seq<Reply<Page<T>>>, n: nat, name: string, p: Page<T>, o: int, items: seq<T>)
    requires n + 1 < |replies| && replies[n].Raised? && HasMore(p)
    ensures var sent := Loop(replies, n, name, Some(p), Some(o), o, items).sent;
            |sent| >= 2 && sent[0] == Some(o) && sent[1] == Some(o + p.limit)
  {
    RaisedRequestKeepsPage(replies, n, name, p, Some(o), o, items);
    LoopSendsParam(replies, n + 1, name, Some(p), Some(o + p.limit), o + p.limit, items);
  }

  /** After `n` pages with `more`, `fetch` stands at request `n` with page `n - 1` in `r`,
      having sent `n` requests. */
  lemma FetchReachesRequest<T>(token: string, endpoint: string, replies: seq<Reply<Page<T>>>, n: nat)
    requires RequestAllowed(token, endpoint)
    requires 0 < n <= |replies|
    requires forall k :: 0 <= k < n ==> replies[k].Answered? && HasMore(replies[k].value)
    ensures var o := SumLimits(replies[..n]);
            var front := [None] + Offsets(replies[..n - 1], 0);
            && |front| == n
            && FetchSpec(token, endpoint, replies)
               == Prepend(front, Loop(replies, n, LastSegment(endpoint), Some(replies[n - 1].value), Some(o), o,
                                      AllItems(replies[..n], LastSegment(endpoint))))
  {
    assert replies[0..n] == replies[..n] && replies[0..n - 1] == replies[..n - 1];
    OffsetsLength(replies[..n - 1], 0);
    assert [] + AllItems(replies[..n], LastSegment(endpoint)) == AllItems(replies[..n], LastSegment(endpoint));
    LoopPastPages(replies, 0, LastSegment(endpoint), None, None, 0, [], n);
  }

  lemma IndexPastFront(front: seq<Option<int>>, tail: seq<Option<int>>)
    requires |tail| >= 2
    ensures |front + tail| >= |front| + 2
    ensures (front + tail)[|front|] == tail[0] && (front + tail)[|front| + 1] == tail[1]
  {
  }

  /** A request `n` that raises after `n` pages with `more` leaves the stale page `n - 1` in
      `r`: the loop goes on, request `n` carries the sum of the first `n` limits, and request
      `n + 1` adds the stale page's `limit` to it a second time. */
  lemma RaisedRequestReusesStalePage<T>(token: string, endpoint: string, replies: seq<Reply<Page<T>>>, n: nat)
    requires RequestAllowed(token, endpoint)
    requires 0 < n && n + 1 < |replies|
    requires forall k :: 0 <= k < n ==> replies[k].Answered? && HasMore(replies[k].value)
    requires replies[n].Raised?
    ensures var run := FetchSpec(token, endpoint, replies);
            var o := SumLimits(replies[..n]);
            && |run.sent| >= n + 2
            && run.sent[n] == Some(o)
            && run.sent[n + 1] == Some(o + replies[n - 1].value.limit)
  {
    var name := LastSegment(endpoint);
    var o := SumLimits(replies[..n]);
    var front := [None] + Offsets(replies[..n - 1], 0);
    var tail := Loop(replies, n, name, Some(replies[n - 1].value), Some(o), o, AllItems(replies[..n], name)).sent;
    FetchReachesRequest(token, endpoint, replies, n);
    StaleTail(replies, n, name, replies[n - 1].value, o, AllItems(replies[..n], name));
    IndexPastFront(front, tail);
  }

  /** From any state of the loop, a request answered with an empty body sets `r` to None,
      and reading `"more"` in it raises outside the `try`: `fetch` ends with that request. */
  lemma EmptyReplyCrashes<T>(replies: seq<Reply<Page<T>>>, i: nat, name: string, last: Option<Page<T>>,
                             param: Option<int>, offset: int, acc: seq<T>)
    requires i < |replies| && replies[i].NoContent?
    ensures Loop(replies, i, name, last, param, offset, acc) == FetchRun(Crash, [param])
  {
  }

  /** If the first request raises or returns no content, the exception leaves `fetch`. */
  lemma FirstFailureEscapes<T>(token: string, endpoint: string, replies: seq<Reply<Page<T>>>)
    requires |replies| > 0 && !replies[0].Answered?
    ensures FetchSpec(token, endpoint, replies).result == Crash
    ensures |FetchSpec(token, endpoint, replies).sent| <= 1
  {
  }
}
