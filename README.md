# dingtalk-suite: callback envelope, dispatcher and token caches in Dafny

This project models the core of the DingTalk suite SDK: the parts that DingTalk callbacks and API calls depend on.

- **The callback envelope** (`DingTalkCrypt`). A message is framed as 16 random bytes, a big-endian 32-bit length, the message bytes and the app id. The frame is padded with PKCS#7-style padding to whole 32-byte blocks, encrypted with AES-256-CBC and encoded as base64. The AES key is the base64 `encodingAESKey` with a `=` appended, and the IV is the first 16 bytes of that key. A signature is the SHA-1 hex digest of the sorted arguments joined together with the token.
- **The callback dispatcher** (`CallBack`). It checks a request's signature, decrypts and parses the body, then does one of three things: answers a URL-check challenge, stores a suite ticket and acknowledges it, or hands the message to the application's handler together with a `reply` capability. The Koa and Express bindings share one decision function, `Handler.Decide`. Each binding is a method on a `Callback` object that updates the host's context or response object.
- **The enterprise API client.** `raw`/`sign` build the canonical `k=v&…` string. The jsapi-ticket cache is a state machine. `getUrlSign` assembles the fields it signs.
- **The suite API client.** It holds the constructor defaults, the suite-ticket lookup and the suite-access-token cache state machine.

Modules:
- `Results`: Option and Result types.
- `Buffers`: Node `Buffer` slicing and 32-bit big-endian integers.
- `Strings`: JavaScript's default `sort()`, `join`, `toString()` and `parseInt`.
- `Primitives`: the opaque cryptographic and encoding functions.
- `Crypto`: `DingTalkCrypt`.
- `SuiteCallback`: the dispatcher.
- `Caches`: the `{value, expires}` entry.
- `Enterprise` and `Suite`: the two API clients.

The sources below are in TypeScript. Node's AES, SHA-1, base64 and UTF-8 are not modelled. They are parameters of type `Primitives`, and the round-trip lemmas assume only what the predicate `Primitives.Sound` states:
- CBC decryption inverts encryption on whole blocks and keeps the length;
- base64 and UTF-8 decoding invert encoding.

Clocks, random bytes, the nonce, stored hook values and network replies are parameters too.

## Model

| member | source | states |
|---|---|---|
| Buffers.Slice | src/lib/crypto.ts:11 | `buf.slice(start, end)` is the ordinary subsequence whenever both indices are in range, and it is never longer than the buffer |
| Buffers.WriteUInt32BE | src/lib/crypto.ts:68-69 | a length below 2^32 is written into exactly four bytes |
| Buffers.ReadUInt32BE | src/lib/crypto.ts:56 | the four bytes read back form a value below 2^32 whose most significant byte is the first and least significant byte the fourth (big-endian) |
| Buffers.ReadWriteUInt32BE | src/lib/crypto.ts:68-69 | reading back the 4-byte big-endian length written by `writeUInt32BE` gives the original length, for every length below 2^32 |
| Strings.SortSorted | src/lib/crypto.ts:42 | the default `sort()` yields strings in code-unit lexicographic order |
| Strings.Sort | src/lib/crypto.ts:42 | `sort()` returns a permutation of its input |
| Strings.SortedUnique | src/lib/crypto.ts:42 | two ordered arrangements of the same strings are equal, so the sorted result is determined by the strings alone |
| Strings.SortPermutationInvariant | src/lib/enterprise.ts:93 | any rearrangement of the keys sorts to the same sequence |
| Strings.ParseInt | src/lib/suite_callback.ts:72 | `parseInt(s, 10)` fails (NaN) exactly when `s` is empty or does not start with a decimal digit |
| Strings.ParseIntDecimal | src/lib/suite_callback.ts:72 | parsing the decimal rendering of a natural number gives the number back |
| Strings.Decimal | src/lib/enterprise.ts:321 | `toString()` of a non-negative integer is a non-empty string of decimal digits |
| Crypto.Pkcs7Encode | src/lib/crypto.ts:14-21 | the result is whole 32-byte blocks and starts with the input; 1 to 32 pad bytes are appended, each equal to the pad length, and a full block is added when the input is already aligned |
| Crypto.Pkcs7Decode | src/lib/crypto.ts:6-12 | an empty buffer gives empty output; a last byte outside 1..32 leaves the buffer unchanged; otherwise that many bytes are cut, with Node's negative-index `slice` rule when the pad byte exceeds the length |
| Crypto.Pkcs7RoundTrip | src/lib/crypto.ts:6-21 | decoding undoes encoding for every byte sequence |
| Crypto.Frame | src/lib/crypto.ts:64-73 | the frame is 20 + msg + id bytes: the random prefix, the big-endian message length, the message and then the app id |
| Crypto.Unframe | src/lib/crypto.ts:55-61 | succeeds iff at least 20 bytes remain after unpadding; the message is the next L bytes, clamped to the buffer, and the id is the rest; message ++ id is everything after byte 20 |
| Crypto.FrameRoundTrip | src/lib/crypto.ts:55-73 | unframing a frame recovers exactly the message and the app id |
| Crypto.SignedTextIsSortedJoin | src/lib/crypto.ts:37-46 | the hashed text is the concatenation of the unique ordered arrangement of the arguments and the token |
| Crypto.Crypt.GetSignature | src/lib/crypto.ts:37-46 | with no arguments the signature is the SHA-1 of the token alone; the full text hashed is characterised by the two lemmas around it |
| Crypto.SignatureOrderIndependent | src/lib/crypto.ts:37-46 | `getSignature` gives the same digest for any permutation of its arguments |
| Crypto.DeriveIv | src/lib/crypto.ts:34 | the IV is the first 16 bytes of the AES key |
| Crypto.NewCrypt | src/lib/crypto.ts:28-35 | construction succeeds iff `encodingAESKey + '='` decodes to exactly 32 bytes, and otherwise fails with 'encodingAESKey invalid'; the key is that decoding and the IV is its first half |
| Crypto.Crypt.Plaintext | src/lib/crypto.ts:64-75 | the padded plaintext is whole blocks, longer than the frame, and unpads to the frame of the UTF-8 message and id |
| Crypto.Crypt.Encrypt | src/lib/crypto.ts:64-83 | `encrypt` succeeds iff the UTF-8 message length fits the 32-bit length field; otherwise `writeUInt32BE` throws |
| Crypto.Crypt.Decrypt | src/lib/crypto.ts:48-62 | `decrypt` succeeds iff the ciphertext is whole 16-byte blocks and at least 20 bytes remain after unpadding; a partial block fails in `final()` |
| Crypto.EncryptDecrypt | src/lib/crypto.ts:48-83 | decrypting the output of `encrypt` gives back the text and the app id, for any random prefix |
| SuiteCallback.GenResponse | src/lib/suite_callback.ts:38-47 | the response echoes timestamp and nonce, carries the encrypted text and is signed over timestamp, nonce and that ciphertext; it fails exactly when encryption does |
| SuiteCallback.TicketEntryOf | src/lib/suite_callback.ts:70-73 | the saved entry's value is `SuiteTicket`; its expiry is `parseInt(TimeStamp) + ticketExpiresIn`, or NaN when `TimeStamp` is absent or not numeric |
| SuiteCallback.Handler.Decide | src/lib/suite_callback.ts:49-80 | rejected iff the signature does not match; a challenge answers with the encrypted `Random`; a suite ticket is saved only when `saveTicket` is configured and is acknowledged with 'success'; every other message reaches the handler |
| SuiteCallback.NewHandler | src/lib/suite_callback.ts:35-36 | the app id defaults to 'suite4xxxxxxxxxxxxxxx' and the ticket lifetime to 20 minutes when it is unset or 0; construction fails only on an invalid key; the handler's crypt is `new DingTalkCrypt(token, encodingAESKey, id)` over the given primitives, and it parses with the given JSON parser |
| SuiteCallback.KoaContext.Reply | src/lib/suite_callback.ts:66-68 | `ctx.reply()` sets the body to the signed, encrypted 'success' and touches nothing else |
| SuiteCallback.ExpressResponse.Reply | src/lib/suite_callback.ts:97-99 | `res.reply()` sends the signed, encrypted 'success' as JSON |
| SuiteCallback.Callback.Koa2 | src/lib/suite_callback.ts:49-80 | a rejection sets 401 'Invalid signature'; a challenge sets the body; a ticket is saved once and acknowledged; a delegated message gets `reply` and one handler call; failures throw with the context unchanged |
| SuiteCallback.Callback.Express | src/lib/suite_callback.ts:82-111 | the same outcomes through `res.status(401).end`, `res.json` and `res.reply` |
| SuiteCallback.ResponseVerifies | src/lib/suite_callback.ts:38-57 | a generated response, sent back as a request, passes the signature check, and its `encrypt` decrypts to the text and the app id |
| SuiteCallback.RejectIgnoresPayload | src/lib/suite_callback.ts:53-57 | a bad signature is rejected whatever the body, the parser or the random bytes |
| SuiteCallback.ChallengeEchoesRandom | src/lib/suite_callback.ts:62-64 | the challenge answer decrypts to the message's `Random` |
| SuiteCallback.DecideByEventType | src/lib/suite_callback.ts:62-79 | once signature, decryption and parsing succeed, the event type and the `saveTicket` option alone select challenge, save or delegate |
| SuiteCallback.TicketExample | src/lib/suite_callback.ts:70-73 | a ticket stamped "1000" with the default lifetime expires at 1201000 |
| Enterprise.Raw | src/lib/enterprise.ts:92-94 | `raw` of an object with no keys is empty, and of one key is `k=v` |
| Enterprise.Sign | src/lib/enterprise.ts:96-98 | `sign` of an object with no keys hashes the empty string, and of one key hashes `k=v` |
| Enterprise.RawOrderIndependent | src/lib/enterprise.ts:92-94 | `raw` depends only on the key/value pairs, not on insertion order |
| Enterprise.UrlSignFields | src/lib/enterprise.ts:312-317 | the object `getUrlSign` signs has four distinct keys, each mapped to its value: the ticket (or `null`), the nonce, the decimal timestamp and the url |
| Enterprise.UrlSignKeysSorted | src/lib/enterprise.ts:312-317 | the four signed keys sort to jsapi_ticket, noncestr, timestamp, url |
| Enterprise.UrlSignText | src/lib/enterprise.ts:312-318 | the signed text is exactly `jsapi_ticket=T&noncestr=N&timestamp=S&url=U` |
| Enterprise.LoadedOrEmpty | src/lib/enterprise.ts:297 | a stored entry is adopted as is; nothing stored becomes `{value: null, expires: 0}` |
| Enterprise.Refreshed | src/lib/enterprise.ts:303 | the refreshed entry carries the fetched ticket and, for a positive `expires_in`, expires after `now` |
| Enterprise.Api.constructor | src/lib/enterprise.ts:108-115 | the jsapi cache starts empty and no hook has been called |
| Enterprise.Api.StartEntry | src/lib/enterprise.ts:295-298 | the entry checked against the clock is the cache, or the stored value when the cache is empty, or `{null, 0}` when nothing is stored or no hook is set |
| Enterprise.Api.LoadJsApiTicket | src/lib/enterprise.ts:113 | a missing `getJsApiTicket` resolves `null` |
| Enterprise.Api.GetLatestJsApiTicket | src/lib/enterprise.ts:294-308 | an empty cache is loaded once, becoming `{null, 0}` when nothing is stored; a fresh entry is returned with no fetch or save; an expired one is refreshed to `{ticket, now + expires_in*1000}` and saved; a failed fetch leaves the cache alone |
| Enterprise.Api.GetUrlSign | src/lib/enterprise.ts:310-325 | the call makes the same cache transition as `getLatestJsApiTicket` and fails exactly when that lookup fails (an expired entry and a failed fetch); otherwise the signature is SHA-1 of the canonical string over the ticket now cached, `timeStamp` is the decimal of the signed timestamp and `nonceStr` is the signed nonce |
| Suite.TokenLifetime | src/lib/suite.ts:45 | a missing or zero `token_expires_in` becomes 7190000 ms, and any other value is kept |
| Suite.Api.constructor | src/lib/suite.ts:41-58 | the ticket lifetime is 1200000 ms, the ticket cache is `{null, 0}`, the token cache is null and the token lifetime follows `TokenLifetime` |
| Suite.Api.LatestTicket | src/lib/suite.ts:60-67 | the cached ticket is returned only while `expires > now`; otherwise `getTicket` is asked, and it throws when unset |
| Suite.Api.LoadToken | src/lib/suite.ts:52-54 | the default `getToken` resolves the current token cache |
| Suite.Api.TicketSent | src/lib/suite.ts:69-75 | a token request is sent iff the ticket lookup resolves to an entry, and it carries that entry's value |
| Suite.Api.SaveToken | src/lib/suite.ts:55-57 | the default `saveToken` writes its argument into the token cache; a configured one receives it |
| Suite.Api.Refresh | src/lib/suite.ts:84-92 | a successful request caches `{token, now + token_expires_in}`, saves that entry and returns it; a failure leaves the cache and the saves alone |
| Suite.Api.GetLatestToken | src/lib/suite.ts:80-112 | an empty cache consults the store once; a stored token is adopted and then checked for expiry; a fresh cache is returned with no request; an expired or missing one is refreshed and saved; the ticket cache is never written |
| Suite.TicketAlwaysDelegates | src/lib/suite.ts:44-67 | since nothing writes the ticket cache, `getLatestTicket` at any time since the epoch asks `getTicket` |

## Left out

- AES-256-CBC, SHA-1, base64 and UTF-8 are opaque functions. Their internals are not modelled, and the round trips rely on `Primitives.Sound`.
- `pseudoRandomBytes(16)`, `Date.now()` and `createNonceStr()` are parameters. Each cache call sees one `now`, although the source may read the clock twice across awaits.
- Promises and concurrency are not modelled. Two overlapping `getLatestToken` or `getLatestJsApiTicket` calls can both fetch in the source; the model runs one call at a time.
- `Suite.Api.GetLatestToken`: a throw from a missing `getTicket` is modelled as a failed call (`None`). The source makes it a rejection on the empty-cache path and a synchronous throw on the expired path.
- The REST calls (`_get_access_token`, `_get_jsApi_ticket`, `gettoken` and the other endpoints), `wrapper`, and src/lib/sso.ts are network glue. Their replies appear only as the `fetched` parameters, where `None` means a rejected call or a non-zero `errcode`.
- `Enterprise.Api.GetLatestJsApiTicket` abstracts `_get_jsApi_ticket` into the `fetched` parameter, including the access token it fetches through `getLatestToken` on every call. `getLatestToken` and `fromSuite` are not part of this model.
- `Strings.ParseInt` covers only the part of `parseInt` this code relies on. Leading whitespace, a sign and the precision limit of large numbers are not modelled.
- `Strings.Below` compares characters as code points, which matches JavaScript's UTF-16 code-unit order except for characters outside the Basic Multilingual Plane.
- `SuiteCallback.Callback.Koa2` does not model Koa setting the status to 200 when the body is assigned. It does not model the value the user callback returns either, nor anything that callback does to the context.
- `SuiteCallback.Callback.Express` records `res.status(401).end(...)` as a status code and a text body. It does not model the rest of the Express response object.
- The query values `signature`, `timestamp` and `nonce` are always strings in the model. A missing query parameter (`undefined` in the source) is not modelled.
- `SuiteCallback.TicketEntryOf` models a non-numeric timestamp as `None` where JavaScript produces `NaN`. The `NaN` arithmetic itself is not modelled.
- `Enterprise.Api.GetLatestJsApiTicket` and `Suite.Api.GetLatestToken`: a configured `getJsApiTicket` or `getToken` that rejects is not modelled. `stored` always resolves, so the model never shows that call rejecting with the cache still null.
- `SuiteCallback.Callback.Koa2` and `SuiteCallback.Callback.Express`: a `saveTicket` hook that throws is not modelled. In the source it skips `reply()` and makes the handler throw; the model always saves and then replies.
- `Suite.Api.SaveToken`: a configured `saveToken` that throws after the cache is written is not modelled.
- `SuiteCallback.Handler.Decide`: a request body without `encrypt` is not modelled, because `Request.encrypt` is a string. In the source `sort()` puts `undefined` last, `join('')` renders it as '', and `decrypt(undefined)` then throws.
- The compiled `dist/` copies of these files are not part of this model.
