# ShardDog mint-treat gateway, modelled in Dafny

This project models the request-decision logic of the endpoint
`POST /api/tools/mint-treat`. The endpoint takes a caller's request to mint a
ShardDog "treat" (a receipt token) to a NEAR wallet and forwards it to the
ShardDog treat service. The model covers these steps:

1. Choose the target wallet: `receiverId`, or `wallet` when `receiverId` is
   absent or empty. This uses JavaScript truthiness.
2. Reject with 400 when `channelId`, `apiKey` or the target wallet is missing.
3. Append `.near` to a wallet that ends in neither `.near` nor `.testnet`.
4. Build the forwarded `POST {base}/api/receipts/mint/{channelId}` with an
   `x-api-key` header and the body `{receiverId}`. The base URL comes from
   `NODE_ENV`.
5. Map the service's answer to the caller's response. A non-ok status is
   mirrored with `{error, details}`. The parsed value of an ok answer is passed
   through with 200.
   Every exception becomes a 500.

Files:

- `wrappers.dfy`: `Option`, where `None` stands for `undefined`. For a request
  field it also stands for `null`, `false` or `0`: these are falsy, so the
  handler treats them exactly as a missing field.
- `js_string.dfy`: `String.prototype.endsWith` and its characterisation.
- `json.dfy`: parsed JSON values, JavaScript truthiness, and reading
  `.message` (which throws on `null`).
- `mint_treat.dfy`: the handler, its properties and worked cases.

The network call is the parameter `service: UpstreamCall -> Upstream` of
`Post`. Because it is a parameter, "a rejected request makes no outbound
call" can be stated as a lemma: the response does not depend on `service`.

A reply from the service is its status, its body text, and the abstract
result of parsing that text as JSON. `Response.ok` is the range 200–299.

The deployment mode is the parameter `nodeEnv`. It may be `None` when the
variable is unset.

The exception messages produced by the runtime are parameters:
`Incoming.Unreadable`, `Upstream.Threw` and `ParseResult.SyntaxError`.
`Incoming.Unreadable` also covers a request body that parses to `null`: the
destructuring at route.ts:9 then throws, with a message the model does not
spell out. Two other exceptions are fixed by the handler's own code, so the
model spells out their messages:

- Reading `message` off a parsed `null` error body. The model uses V8's
  wording, "Cannot read properties of null (reading 'message')".
- `NextResponse.json` refusing to mirror a status. A status outside 200–599
  is refused, and so is 304, a status that may not carry a body. The model
  uses the wording of undici, the `Response` implementation in Node.

Four behaviours of the handler worth noting:

- The `error` field of a mirrored failure is the upstream `message` value
  itself when truthy. That value can be any truthy JSON value, not only a
  string.
- An upstream error body that parses to `null` produces a 500, not the
  upstream status.
- A successful reply is answered with 200 even when the upstream status is
  another 2xx such as 201.
- An upstream 304, or a status outside 200–599, is not mirrored. It ends in
  the 500 response.

## Model

| member | source | states |
|---|---|---|
| `JsString.EndsWithAppend` | src/app/api/tools/mint-treat/route.ts:34-36 | a wallet with `.near` appended ends with `.near` |
| `JsString.EndsWithIffSplit` | src/app/api/tools/mint-treat/route.ts:34 | `endsWith(s, t)` holds exactly when `s` is some string followed by `t` |
| `JsString.EndsWith` | src/app/api/tools/mint-treat/route.ts:34 | `s.endsWith(t)`: `t` is no longer than `s` and equals its last `\|t\|` characters |
| `Json.Truthy` | src/app/api/tools/mint-treat/route.ts:78 | `null`, `false`, `0` (and `-0`) and `""` are falsy; every other value, every array and object included, is truthy |
| `Json.ReadMessage` | src/app/api/tools/mint-treat/route.ts:78 | `errorJson.message` throws exactly on `null`; it is defined exactly when an object owns `message`, and is then that field |
| `Json.Or` | src/app/api/tools/mint-treat/route.ts:78 | `a \|\| b` is `a` when `a` is truthy, and `b` otherwise; it is truthy whenever `b` is |
| `MintTreat.Present` | src/app/api/tools/mint-treat/route.ts:12-22 | a request field is truthy exactly when it is given and is not the empty string |
| `MintTreat.IsOk` | src/app/api/tools/mint-treat/route.ts:60 | `response.ok`: the status is in the range 200 to 299 |
| `MintTreat.InStatusRange` | src/app/api/tools/mint-treat/route.ts:77-80 | `NextResponse.json` accepts only statuses in the range 200 to 599 |
| `MintTreat.IsNullBodyStatus` | src/app/api/tools/mint-treat/route.ts:77-80 | the statuses that may not carry a body: 101, 103, 204, 205 and 304 |
| `MintTreat.CanMirror` | src/app/api/tools/mint-treat/route.ts:77-80 | `NextResponse.json` can send a body with the status exactly when it is in range and not a null body status |
| `MintTreat.TargetWallet` | src/app/api/tools/mint-treat/route.ts:12 | a non-empty `receiverId` is chosen; otherwise `wallet` is chosen; the choice is present exactly when one of the two is |
| `MintTreat.HasNetworkSuffix` | src/app/api/tools/mint-treat/route.ts:34 | the wallet ends with `.near` or with `.testnet` |
| `MintTreat.Normalise` | src/app/api/tools/mint-treat/route.ts:34-36 | the result always ends in `.near` or `.testnet` and extends the input; a suffixed wallet is unchanged; any other wallet gets `.near` appended |
| `MintTreat.BaseUrl` | src/app/api/tools/mint-treat/route.ts:38-40 | the base is `http://localhost:3001` exactly when `NODE_ENV` is `development`, and `https://sharddog.ai` exactly otherwise |
| `MintTreat.MintUrl` | src/app/api/tools/mint-treat/route.ts:51 | the URL starts with `base + "/api/receipts/mint/"` and the channel id is exactly what follows |
| `MintTreat.MintCall` | src/app/api/tools/mint-treat/route.ts:42-58 | the call is a POST to the mint URL, its `x-api-key` header is the caller's key, and its body is `{receiverId: receiver}` |
| `MintTreat.Decide` | src/app/api/tools/mint-treat/route.ts:12-58 | rejection happens exactly when `channelId`, `apiKey`, or both wallet fields are missing or empty, always with the fixed message; otherwise the call carries the base URL, the channel, the key and the normalised target |
| `MintTreat.InternalError` | src/app/api/tools/mint-treat/route.ts:86-92 | status 500 with `error` "Internal server error" and the exception message in `details` |
| `MintTreat.ErrorDetails` | src/app/api/tools/mint-treat/route.ts:61-67 | `details` is the parsed body, or `{raw: text}` when the text is not JSON |
| `MintTreat.Respond` | src/app/api/tools/mint-treat/route.ts:60-92 | the status is 200, 500, or the upstream status of a non-ok reply; a thrown failure gives the 500 response with its message; an ok reply whose body is not JSON gives the 500 response with the parse error's message |
| `MintTreat.Post` | src/app/api/tools/mint-treat/route.ts:7-93 | an unreadable request body gives the 500 response; any status other than 200, 400 and 500 is the status of a non-ok reply from the service to the call built from a valid request |
| `MintTreat.ReceiverIdTakesPrecedence` | src/app/api/tools/mint-treat/route.ts:12 | with both fields set, the normalised `receiverId` is forwarded and never `wallet` |
| `MintTreat.WalletOnlyAsFallback` | src/app/api/tools/mint-treat/route.ts:12 | the normalised `wallet` is forwarded when `receiverId` is absent or empty |
| `MintTreat.NormaliseIdempotent` | src/app/api/tools/mint-treat/route.ts:34-36 | normalising twice equals normalising once |
| `MintTreat.NormaliseFixedPoints` | src/app/api/tools/mint-treat/route.ts:34-36 | a wallet is left unchanged exactly when it already ends in `.near` or `.testnet` |
| `MintTreat.NormalisedSplits` | src/app/api/tools/mint-treat/route.ts:34-36 | the forwarded receiver is some string followed by `.near` or `.testnet` |
| `MintTreat.RejectionMakesNoCall` | src/app/api/tools/mint-treat/route.ts:22-31 | a rejected request receives the fixed 400 response whatever the service would answer, so no call is made |
| `MintTreat.ValidRequestIsForwarded` | src/app/api/tools/mint-treat/route.ts:42-58 | a valid request is answered with exactly what the service says about the call built from it |
| `MintTreat.FailureMirrorsStatus` | src/app/api/tools/mint-treat/route.ts:60-80 | unless the body is JSON `null` or the status cannot be sent back, a non-ok reply keeps its status; `details` is the parsed body, or `{raw: text}`; `error` is the body's own `message` field when that field is truthy, and "Minting failed" otherwise |
| `MintTreat.UnsendableStatusIsInternalError` | src/app/api/tools/mint-treat/route.ts:77-91 | a non-ok reply with status 304 or a status outside 200–599 makes `NextResponse.json` throw, so the caller gets the 500 response; 304 is the only such status in range |
| `MintTreat.OkUnparsableIsInternalError` | src/app/api/tools/mint-treat/route.ts:83-91 | an ok reply whose body is not JSON makes `response.json()` throw, so the caller gets the 500 response with the parse error's message |
| `MintTreat.NotModifiedIsInternalError` | src/app/api/tools/mint-treat/route.ts:60-91 | an upstream 304, whose empty body does not parse, is answered with the 500 response, not mirrored |
| `MintTreat.NullFailureBodyIsInternalError` | src/app/api/tools/mint-treat/route.ts:78 | a non-ok reply whose body is JSON `null` yields the 500 response |
| `MintTreat.SuccessPassesThrough` | src/app/api/tools/mint-treat/route.ts:83-85 | an ok reply gives status 200 with the parsed upstream value unchanged |
| `MintTreat.ResponseShape` | src/app/api/tools/mint-treat/route.ts:7-93 | a 200 is only ever the pass-through of an ok reply to the call built from a valid request; every other response is an object with a truthy `error` |
| `MintTreat.BareWalletGetsNearSuffix` | src/app/api/tools/mint-treat/route.ts:34-36 | `alice` becomes `alice.near`; `alice.near` and `alice.testnet` stay as they are |
| `MintTreat.BadKeyExample` | src/app/api/tools/mint-treat/route.ts:60-80 | upstream `{message: "bad key"}` gives `{error: "bad key", details: {message: "bad key"}}` with the upstream status |
| `MintTreat.RawTextExample` | src/app/api/tools/mint-treat/route.ts:62-80 | upstream text `oops` gives `{error: "Minting failed", details: {raw: "oops"}}` |

## Left out

- `src/app/api/ai-plugin/route.ts`: a static manifest literal with no decision logic to verify.
- The `fetch` call, awaiting it, and reading the reply body. These are the parameter `service`, whose answer is given abstractly, including any exception.
- `JSON.parse`, `req.json()` and `JSON.stringify`. Their results are abstract values: a parsed value, or a failure with a message.
- JSON numbers are IEEE doubles; the model holds them as exact reals. So it does not capture rounding of long numbers, or a number too large for a double, which parses to an infinity and is written back as `null`.
- Re-serialising the passed-through value at route.ts:85 drops whitespace and duplicate keys. The model states that the parsed value is unchanged, not the text.
- `NextResponse.json` and HTTP framing. A response is a status plus a JSON value, and key order is not modelled.
- The `Content-Type` header is built but is not the subject of any property.
- Logging with `console.log` and `console.error`. It has no effect on results.
- The `channelStore` global. It is declared but never read or written by the handler, so no channel-registry check is modelled.
- Request fields that are truthy non-strings, such as a non-zero number, `true`, an array or an object. The model takes each field as an optional string, with `None` also covering the falsy non-strings `null`, `false` and `0`.
  - A truthy non-string that is the chosen target wallet, and that passes validation, makes `.endsWith` throw, which gives the 500 response.
  - A non-string `wallet` is never read when `receiverId` is truthy.
  - A truthy non-string `channelId` or `apiKey` would be converted to a string by the URL template and the header.
- JavaScript strings are sequences of UTF-16 code units; a Dafny `string` is a sequence of Unicode scalar values. So a lone surrogate, which `JSON.parse` can produce, is not representable. On every string that is representable, `endsWith` with the ASCII suffixes, concatenation and the emptiness test agree with JavaScript.
- URL parsing and normalisation done by `fetch`. A `channelId` is placed in the URL verbatim, as in the template string.
