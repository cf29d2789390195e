/** The decision logic of the `POST /api/tools/mint-treat` handler: choose the
    wallet, validate the request, normalise the wallet's network suffix, build
    the request forwarded to the treat service, and turn the service's answer
    into the caller's response. The network call is the parameter `service`. */
module MintTreat {
  import opened Wrappers
  import opened Json
  import opened JsString

  const MissingFieldsMessage := "Missing required fields. Need channelId, apiKey and either receiverId or wallet"
  const MintingFailedMessage := "Minting failed"
  const InternalErrorMessage := "Internal server error"
  /** What V8 says when `errorJson.message` is read off `null`. */
  const NullMessageRead := "Cannot read properties of null (reading 'message')"
  /** What undici's `Response` constructor (behind `NextResponse.json`) says
      for a status outside 200 to 599. */
  const StatusRangeError := "init[\"status\"] must be in the range of 200 to 599, inclusive."
  /** What it says when a body is given with a null body status; the only such
      status that is in range and not ok is 304. */
  const NullBodyStatusError := "Response constructor: Invalid response status code 304"

  const DevelopmentMode := "development"
  const DevelopmentBaseUrl := "http://localhost:3001"
  const ProductionBaseUrl := "https://sharddog.ai"
  const MintPath := "/api/receipts/mint/"

  const MainnetSuffix := ".near"
  const TestnetSuffix := ".testnet"

  /** The fields destructured from the caller's JSON body; each may be absent.
      `None` also stands for a falsy non-string (`null`, `false`, `0`), which
      the handler treats exactly as a missing field. */
  datatype MintRequest = MintRequest(
    channelId: Option<string>,
    receiverId: Option<string>,
    wallet: Option<string>,
    apiKey: Option<string>)

  /** `await req.json()` and the destructuring after it: either they throw
      with some message, or they produce the four fields. */
  datatype Incoming = Unreadable(message: string) | Body(request: MintRequest)

  /** The `fetch` the handler issues. */
  datatype UpstreamCall = UpstreamCall(
    verb: string,
    url: string,
    headers: map<string, string>,
    body: Json)

  /** What validation decides: reject with status 400, or forward. */
  datatype Decision = BadRequest(message: string) | Forward(call: UpstreamCall)

  /** `JSON.parse` of a body text: a value, or a `SyntaxError` with its message. */
  datatype ParseResult = Parsed(value: Json) | SyntaxError(message: string)

  /** What the treat service gives back: an exception (network failure, body
      that cannot be read), or a reply with its status, its body text and the
      result of parsing that text as JSON. */
  datatype Upstream =
    | Threw(message: string)
    | Answered(status: int, text: string, parsed: ParseResult)

  /** The caller's response: an HTTP status and a JSON body. */
  datatype Response = Response(status: int, body: Json)

  /** JavaScript truthiness of a string that may be `undefined`. */
  predicate Present(o: Option<string>) {
    o.Some? && o.value != ""
  }

  /** `Response.ok`: a status in the range 200 to 299. */
  predicate IsOk(status: int) {
    200 <= status <= 299
  }

  /** The statuses a response may carry: `new Response` throws for any other. */
  predicate InStatusRange(status: int) {
    200 <= status <= 599
  }

  /** The Fetch standard's null body statuses: a response with one of these
      may not carry a body. */
  predicate IsNullBodyStatus(status: int) {
    status in {101, 103, 204, 205, 304}
  }

  /** A mirrored failure can be sent back with its own status exactly when
      that status is in range and allows a body. */
  predicate CanMirror(status: int) {
    InStatusRange(status) && !IsNullBodyStatus(status)
  }

  /** `receiverId || wallet`. */
  function TargetWallet(receiverId: Option<string>, wallet: Option<string>): (t: Option<string>)
    ensures Present(receiverId) ==> t == receiverId
    ensures !Present(receiverId) ==> t == wallet
    ensures Present(t) <==> Present(receiverId) || Present(wallet)
  {
    if Present(receiverId) then receiverId else wallet
  }

  /** The wallet carries one of the two network suffixes. */
  predicate HasNetworkSuffix(w: string) {
    EndsWith(w, MainnetSuffix) || EndsWith(w, TestnetSuffix)
  }

  /** The formatted receiver: kept when it already names a network, otherwise
      suffixed with `.near`. The original wallet is always a prefix of it. */
  function Normalise(w: string): (r: string)
    ensures HasNetworkSuffix(r)
    ensures w <= r
    ensures HasNetworkSuffix(w) ==> r == w
    ensures !HasNetworkSuffix(w) ==> r == w + MainnetSuffix
  {
    if HasNetworkSuffix(w) then w else w + MainnetSuffix
  }

  /** The upstream base URL chosen by `NODE_ENV` (which may be unset). */
  function BaseUrl(nodeEnv: Option<string>): (u: string)
    ensures u == DevelopmentBaseUrl <==> nodeEnv == Some(DevelopmentMode)
    ensures u == ProductionBaseUrl <==> nodeEnv != Some(DevelopmentMode)
  {
    if nodeEnv == Some(DevelopmentMode) then DevelopmentBaseUrl else ProductionBaseUrl
  }

  /** `${baseUrl}/api/receipts/mint/${channelId}`: the channel id can be read
      back off the end of the URL. */
  function MintUrl(base: string, channelId: string): (url: string)
    ensures base + MintPath <= url
    ensures url[|base| + |MintPath|..] == channelId
  {
    var url := base + MintPath + channelId;
    assert url[|base| + |MintPath|..] == channelId;
    url
  }

  /** The request sent to the treat service for a validated request. */
  function MintCall(base: string, channelId: string, apiKey: string, receiver: string): (c: UpstreamCall)
    ensures c.verb == "POST"
    ensures c.url == MintUrl(base, channelId)
    ensures "x-api-key" in c.headers && c.headers["x-api-key"] == apiKey
    ensures c.body == Obj(map["receiverId" := Str(receiver)])
  {
    UpstreamCall(
      "POST",
      MintUrl(base, channelId),
      map["x-api-key" := apiKey, "Content-Type" := "application/json"],
      Obj(map["receiverId" := Str(receiver)]))
  }

  /** Validation and construction of the forwarded request. */
  function Decide(req: MintRequest, nodeEnv: Option<string>): (d: Decision)
    ensures d.BadRequest? <==>
      !Present(req.channelId) || !Present(req.apiKey)
      || (!Present(req.receiverId) && !Present(req.wallet))
    ensures d.BadRequest? ==> d.message == MissingFieldsMessage
    ensures d.Forward? ==>
      var target := if Present(req.receiverId) then req.receiverId.value else req.wallet.value;
      d.call == MintCall(BaseUrl(nodeEnv), req.channelId.value, req.apiKey.value, Normalise(target))
  {
    var target := TargetWallet(req.receiverId, req.wallet);
    if !Present(req.channelId) || !Present(target) || !Present(req.apiKey) then
      BadRequest(MissingFieldsMessage)
    else
      Forward(MintCall(BaseUrl(nodeEnv), req.channelId.value, req.apiKey.value, Normalise(target.value)))
  }

  /** The 500 response the `catch` block builds from an exception's message. */
  function InternalError(message: string): (r: Response)
    ensures r.status == 500
    ensures r.body.Obj? && r.body.fields.Keys == {"error", "details"}
    ensures r.body.fields["error"] == Str(InternalErrorMessage)
    ensures r.body.fields["details"] == Str(message)
  {
    Response(500, Obj(map["error" := Str(InternalErrorMessage), "details" := Str(message)]))
  }

  /** `errorJson`: the parsed error body, or `{raw: text}` when it is not JSON. */
  function ErrorDetails(text: string, parsed: ParseResult): (d: Json)
    ensures parsed.Parsed? ==> d == parsed.value
    ensures parsed.SyntaxError? ==> d == Obj(map["raw" := Str(text)])
  {
    match parsed
    case Parsed(v) => v
    case SyntaxError(_) => Obj(map["raw" := Str(text)])
  }

  /** The caller's response for the service's answer. */
  function Respond(u: Upstream): (r: Response)
    ensures r.status == 200 || r.status == 500 || (u.Answered? && !IsOk(u.status) && r.status == u.status)
    ensures u.Threw? ==> r == InternalError(u.message)
    ensures u.Answered? && IsOk(u.status) && u.parsed.SyntaxError? ==> r == InternalError(u.parsed.message)
  {
    match u
    case Threw(message) => InternalError(message)
    case Answered(status, text, parsed) =>
      if !IsOk(status) then
        var details := ErrorDetails(text, parsed);
        match ReadMessage(details)
        case TypeError => InternalError(NullMessageRead)
        case Value(message) =>
          if !InStatusRange(status) then InternalError(StatusRangeError)
          else if IsNullBodyStatus(status) then
            assert status == 304;
            InternalError(NullBodyStatusError)
          else Response(status, Obj(map["error" := Or(message, Str(MintingFailedMessage)), "details" := details]))
      else
        match parsed
        case Parsed(data) => Response(200, data)
        case SyntaxError(message) => InternalError(message)
  }

  /** The whole handler. `service` is the treat service: whatever it answers
      to the call it is given. */
  function Post(incoming: Incoming, nodeEnv: Option<string>, service: UpstreamCall -> Upstream): (r: Response)
    ensures incoming.Unreadable? ==> r == InternalError(incoming.message)
    ensures r.status in {200, 400, 500} || !IsOk(r.status)
    ensures r.status !in {200, 400, 500} ==>
      && incoming.Body?
      && Decide(incoming.request, nodeEnv).Forward?
      && var u := service(Decide(incoming.request, nodeEnv).call);
         u.Answered? && !IsOk(u.status) && r.status == u.status
  {
    match incoming
    case Unreadable(message) => InternalError(message)
    case Body(req) =>
      match Decide(req, nodeEnv)
      case BadRequest(message) => Response(400, Obj(map["error" := Str(message)]))
      case Forward(call) => Respond(service(call))
  }

  // ---------------------------------------------------------------------
  // Properties of the handler

  /** When `receiverId` is given it is the wallet that is minted to, whatever
      `wallet` holds. */
  lemma ReceiverIdTakesPrecedence(req: MintRequest, nodeEnv: Option<string>)
    requires Present(req.channelId) && Present(req.apiKey) && Present(req.receiverId)
    ensures Decide(req, nodeEnv).Forward?
    ensures Decide(req, nodeEnv).call.body == Obj(map["receiverId" := Str(Normalise(req.receiverId.value))])
  {
  }

  /** `wallet` is used only when `receiverId` is absent or empty. */
  lemma WalletOnlyAsFallback(req: MintRequest, nodeEnv: Option<string>)
    requires Present(req.channelId) && Present(req.apiKey) && !Present(req.receiverId) && Present(req.wallet)
    ensures Decide(req, nodeEnv).Forward?
    ensures Decide(req, nodeEnv).call.body == Obj(map["receiverId" := Str(Normalise(req.wallet.value))])
  {
  }

  /** Normalising twice is normalising once. */
  lemma NormaliseIdempotent(w: string)
    ensures Normalise(Normalise(w)) == Normalise(w)
  {
  }

  /** The wallets left unchanged are exactly those already carrying a suffix. */
  lemma NormaliseFixedPoints(w: string)
    ensures Normalise(w) == w <==> HasNetworkSuffix(w)
  {
  }

  /** The formatted receiver is some string (possibly empty, possibly itself
      suffixed) followed by one of the two network suffixes. */
  lemma {:induction false} NormalisedSplits(w: string)
    ensures exists name :: Normalise(w) == name + MainnetSuffix || Normalise(w) == name + TestnetSuffix
  {
    var r := Normalise(w);
    if EndsWith(r, MainnetSuffix) {
      EndsWithIffSplit(r, MainnetSuffix);
    } else {
      EndsWithIffSplit(r, TestnetSuffix);
    }
  }

  /** A rejected request never reaches the treat service: the response is
      the fixed 400 whatever the service would have answered. */
  lemma RejectionMakesNoCall(req: MintRequest, nodeEnv: Option<string>, s1: UpstreamCall -> Upstream, s2: UpstreamCall -> Upstream)
    requires !Present(req.channelId) || !Present(req.apiKey) || (!Present(req.receiverId) && !Present(req.wallet))
    ensures Post(Body(req), nodeEnv, s1) == Post(Body(req), nodeEnv, s2)
    ensures Post(Body(req), nodeEnv, s1) == Response(400, Obj(map["error" := Str(MissingFieldsMessage)]))
  {
  }

  /** A valid request is answered with whatever the service answers to
      exactly the call built from it. */
  lemma ValidRequestIsForwarded(req: MintRequest, nodeEnv: Option<string>, service: UpstreamCall -> Upstream)
    requires Present(req.channelId) && Present(req.apiKey) && (Present(req.receiverId) || Present(req.wallet))
    ensures Post(Body(req), nodeEnv, service) ==
      Respond(service(MintCall(BaseUrl(nodeEnv), req.channelId.value, req.apiKey.value,
                               Normalise(TargetWallet(req.receiverId, req.wallet).value))))
  {
  }

  /** A non-ok reply whose body is not JSON `null`, with a status that can be
      sent back, is mirrored: same status, `details` is the parsed body (or
      `{raw: text}`), and `error` is its `message` when truthy, otherwise
      "Minting failed". */
  lemma FailureMirrorsStatus(status: int, text: string, parsed: ParseResult)
    requires !IsOk(status) && CanMirror(status) && parsed != Parsed(Null)
    ensures Respond(Answered(status, text, parsed)).status == status
    ensures var details := if parsed.Parsed? then parsed.value else Obj(map["raw" := Str(text)]);
      var error :=
        if details.Obj? && "message" in details.fields && Truthy(details.fields["message"])
        then details.fields["message"] else Str(MintingFailedMessage);
      Respond(Answered(status, text, parsed)).body == Obj(map["error" := error, "details" := details])
  {
  }

  /** A non-ok reply whose status cannot be sent back (304, or outside 200 to
      599) makes `NextResponse.json` throw, so the caller gets a 500. */
  lemma UnsendableStatusIsInternalError(status: int, text: string, parsed: ParseResult)
    requires !IsOk(status) && !CanMirror(status) && parsed != Parsed(Null)
    ensures Respond(Answered(status, text, parsed)) ==
      InternalError(if InStatusRange(status) then NullBodyStatusError else StatusRangeError)
    ensures InStatusRange(status) ==> status == 304
  {
  }

  /** An ok reply whose body is not JSON makes `response.json()` throw, so the
      caller gets a 500 carrying the parse error's message. */
  lemma OkUnparsableIsInternalError(status: int, text: string, message: string)
    requires IsOk(status)
    ensures Respond(Answered(status, text, SyntaxError(message))) == InternalError(message)
  {
  }

  /** An upstream 304 carries an empty body, so `errorJson` is `{raw: ""}`;
      it is not mirrored, and the caller gets the 500 response. */
  lemma NotModifiedIsInternalError(message: string)
    ensures Respond(Answered(304, "", SyntaxError(message))) == InternalError(NullBodyStatusError)
  {
  }

  /** A non-ok reply whose body parses to `null` makes `errorJson.message`
      throw, so the caller gets a 500 rather than the upstream status. */
  lemma NullFailureBodyIsInternalError(status: int, text: string)
    requires !IsOk(status)
    ensures Respond(Answered(status, text, Parsed(Null))) == InternalError(NullMessageRead)
  {
  }

  /** An ok reply is passed through with status 200 whatever its own ok status. */
  lemma SuccessPassesThrough(status: int, text: string, data: Json)
    requires IsOk(status)
    ensures Respond(Answered(status, text, Parsed(data))) == Response(200, data)
  {
  }

  /** Every response other than a pass-through success is a JSON object with
      a truthy `error`; and a 200 can only be a pass-through of an ok reply
      to the call built from a valid request. */
  lemma {:induction false} ResponseShape(incoming: Incoming, nodeEnv: Option<string>, service: UpstreamCall -> Upstream)
    ensures var r := Post(incoming, nodeEnv, service);
      r.status == 200 ==>
        && incoming.Body?
        && Decide(incoming.request, nodeEnv).Forward?
        && var u := service(Decide(incoming.request, nodeEnv).call);
           u.Answered? && IsOk(u.status) && u.parsed.Parsed? && r.body == u.parsed.value
    ensures var r := Post(incoming, nodeEnv, service);
      r.status != 200 ==> r.body.Obj? && "error" in r.body.fields && Truthy(r.body.fields["error"])
  {
  }

  // ---------------------------------------------------------------------
  // Worked cases

  /** A bare wallet is minted to as `<wallet>.near`. */
  lemma BareWalletGetsNearSuffix()
    ensures Normalise("alice") == "alice.near"
    ensures Normalise("alice.testnet") == "alice.testnet"
    ensures Normalise("alice.near") == "alice.near"
  {
  }

  /** Upstream `{"message": "bad key"}` with status 401. */
  lemma BadKeyExample(text: string)
    ensures var body := Obj(map["message" := Str("bad key")]);
      Respond(Answered(401, text, Parsed(body))) ==
        Response(401, Obj(map["error" := Str("bad key"), "details" := body]))
  {
  }

  /** Upstream non-JSON body `oops` with status 502. */
  lemma RawTextExample()
    ensures Respond(Answered(502, "oops", SyntaxError("Unexpected token"))) ==
      Response(502, Obj(map["error" := Str(MintingFailedMessage), "details" := Obj(map["raw" := Str("oops")])]))
  {
  }

}
