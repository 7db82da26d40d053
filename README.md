# Dahua PTZ RPC client, modelled in Dafny

This project models `DahuaRpc`, the client the Home Assistant `dahua_ptz`
integration uses to move a Dahua camera. The same class ships twice, in
`custom_components/dahua_ptz/dahua_rpc.py` and `dahua_rpc.py`. The two files
are byte-identical, so the model covers both. The client does three things:

- it posts JSON-RPC bodies to `http://<host>/RPC2`, counting request ids and
  attaching the session token it holds;
- it logs in with the two-request `global.login` handshake against
  `http://<host>/RPC2_Login`, hashing the password in two rounds of
  `upper(hex(MD5(...)))` over colon-joined strings;
- it sends `ptz.<action>` commands.

Files:

- `wrappers.dfy`: `Option` and `Result`.
- `json.dfy`: JSON values, and `Obj` for a string-keyed object.
- `encoding.dfy`: UTF-8 encoding (RFC 3629), `hexdigest()`, `str.upper()` and a
  decoder of upper-case hex, used to show that the hex digest loses nothing.
  MD5 is the type `Md5`: any function from bytes to a 16-byte digest.
- `rpc.dfy`: the request body, the reply-parsing rule, the login challenge and
  verdict, the two-round hash, and the class `DahuaRpc`. The class has the
  source's fields: `session` (the transport), `sessionId` and `id`.
- `scenarios.dfy`: runs of one client against a scripted camera. They are
  proved from the class's contracts alone.

The network is an oracle held by the client. `replies` lists what the camera
does with each coming POST: it either fails (`TransportError`, which also
stands for the 10-second timeout) or answers with a `Reply`. Once the list is
used up, every exchange fails. `sent` records every POST as a URL and a body.
A `Reply` carries the outcome of both decoders on the body: the structured
`response.json()` and `json.loads(response.text())`. `Parse` picks between
them exactly as `request` does.

`DahuaRpc.Valid()` says that one POST was made per id handed out. `IdsInOrder()`
says that the k-th POST carried id k + 1. The constructor establishes both.
`Login`, `PtzControl` and `Close` preserve them, so every id one client sends
goes up by exactly 1, starting at 1, across failures and re-logins. `Request` preserves
`IdsInOrder()` only when `extra` has no `id` key. This is because, in the
source, `extra` is merged after `id` and can override it, just as it can
override `method`, `params` and `object`. Only `session` is written after
`extra`.

Behaviour of the source worth knowing, all of it kept in the model:

- After a successful login the stored token is the probe's. The token in the
  second reply is ignored (`Scenarios.ProbeTokenKept`).
- `ptz_control` does not require a session. On a client that never logged in,
  it posts a body with no `session` key and returns the camera's reply
  normally (`Scenarios.CommandWithoutLogin`).
- Login uses two ids, so the first command after a login on a fresh client
  carries id 3 (`Scenarios.LoginThenMove`).
- The probe's `result` is never inspected. A probe that lacks `session`,
  `params`, `params.realm` or `params.random` fails with a missing key.
- A re-login does not clear the held token first. The probe carries the old
  token if it is non-empty.
- `arg1` to `arg3` are passed on as given, integer or float
  (`Scenarios.FractionalSpeed`).

The ghost counters `created` and `released` count the transports opened by
`initialize` and shut down by `close`. `Valid()` says they differ by exactly
the transport held, so after any failure, when nothing is held, every
transport ever opened has been shut down.

## Model

| member | source | states |
|---|---|---|
| Rpc.DahuaRpc.constructor | custom_components/dahua_ptz/dahua_rpc.py:11-18 | a new client keeps the credentials and `force_text`, has no transport, no token and counter 0, and has sent nothing |
| Rpc.DahuaRpc.Initialize | custom_components/dahua_ptz/dahua_rpc.py:20-23 | an open transport is kept as it is and no new one is created; with none, or a closed one, exactly one new open transport is created; `Valid()` is kept |
| Rpc.DahuaRpc.Close | custom_components/dahua_ptz/dahua_rpc.py:25-30 | from any state, transport and token become None; an open transport is shut down (`released` goes up by one) and a missing one is not; the counter, the log, the pending replies and `created` are unchanged, so closing again changes nothing |
| Rpc.DahuaRpc.Send | custom_components/dahua_ptz/dahua_rpc.py:51-60 | the POST is appended to the log and consumes exactly the network's next answer |
| Rpc.Body | custom_components/dahua_ptz/dahua_rpc.py:39-47 | the body always has `method` and `id`; its `id` is the counter unless `extra` overrides it; with a non-empty token held, `session` is that token |
| Rpc.BodyShape | custom_components/dahua_ptz/dahua_rpc.py:39-47 | `method` and `id` are always present; `params` iff given or in `extra`; `object` iff non-empty or in `extra`; `session` iff a non-empty token is held or `extra` has one; the keys of `extra` override all others except a held token's `session`, which equals the token whatever `extra` says; no other keys |
| Rpc.TargetUrl | custom_components/dahua_ptz/dahua_rpc.py:48-49 | a non-empty URL given is the target; with none or an empty one, the target is `http://<host>/RPC2` |
| Rpc.BodyId | custom_components/dahua_ptz/dahua_rpc.py:37-45 | the body's `id` is the counter value it was built with, unless `extra` overrides it |
| Rpc.IdsFromOneAppend | custom_components/dahua_ptz/dahua_rpc.py:37-39 | a log whose k-th POST carries id k + 1 keeps that property when a POST with the next id is appended |
| Rpc.DahuaRpc.Request | custom_components/dahua_ptz/dahua_rpc.py:32-79 | the counter goes up by exactly 1 before the body is built, and the body posted is `Body` with the new counter and the token held; the target is `TargetUrl`; the result is the parse of the next reply; a transport is created only when none is held; success keeps the token and leaves an open transport; any failure shuts the transport down, leaves transport and token None and returns the error |
| Rpc.Parse | custom_components/dahua_ptz/dahua_rpc.py:61-79 | a transport error is a transport failure; a parsed result is the raw-text decode, or, only without `force_text`, the structured decode; a reply that fails is a parse failure |
| Rpc.ParseModes | custom_components/dahua_ptz/dahua_rpc.py:61-74 | with `force_text` the structured decode is never looked at; without it, a successful structured decode is the result, and a failed one leaves the raw-text path that `force_text` takes |
| Rpc.ParseFallback | custom_components/dahua_ptz/dahua_rpc.py:61-74 | a reply that only the raw-text decode accepts parses in both modes |
| Rpc.ParseFails | custom_components/dahua_ptz/dahua_rpc.py:61-74 | a reply fails to parse iff the raw-text decode fails and either `force_text` is set or the structured decode fails too |
| Rpc.Challenge | dahua_rpc.py:90-93 | the probe reply succeeds iff it has `session`, `params`, `params.realm` and `params.random`, and then it yields exactly those three values; otherwise the error is the missing key, the first of `session`, `params`, `realm`, `random` that is absent |
| Encoding.Utf8Char | dahua_rpc.py:96 | one to four bytes per character, and one byte (its own code) exactly for ASCII |
| Encoding.Utf8Concat | dahua_rpc.py:95-98 | encoding a concatenation is the concatenation of the encodings |
| Encoding.Utf8Ascii | dahua_rpc.py:95-98 | an ASCII string encodes to one byte per character, each equal to the character's code |
| Encoding.HexDigest | dahua_rpc.py:96 | two lower-case hex digits per byte, high nibble first |
| Encoding.UpperHexDigest | dahua_rpc.py:96 | `hexdigest().upper()` gives two upper-case hex digits per byte, high nibble first, and contains nothing but `0`-`9` and `A`-`F` |
| Encoding.UpperHexRoundTrip | dahua_rpc.py:96-98 | decoding the upper-case hex digest gives back the digest |
| Encoding.Utf8 | dahua_rpc.py:96 | `encode('utf-8')` gives at least one and at most four bytes per character |
| Rpc.PhraseBytes | dahua_rpc.py:95-98 | the bytes hashed are the UTF-8 bytes of the three parts, separated by the colon byte 0x3A |
| Rpc.PwdHash | dahua_rpc.py:95-96 | round one is a 32-character upper-case hex string |
| Rpc.PassHash | dahua_rpc.py:97-98 | round two, the password sent, is a 32-character upper-case hex string |
| Rpc.PwdHashDecodes | dahua_rpc.py:95-96 | round one is the upper-hex MD5 of the UTF-8 bytes of `username`, `:`, `realm`, `:`, `password`: decoding it gives exactly that digest |
| Rpc.PassHashDecodes | dahua_rpc.py:97-98 | the password sent is the upper-hex MD5 of the UTF-8 bytes of `username`, `:`, `random`, `:` and round one: decoding it gives exactly that digest |
| Rpc.PwdHashBytes | dahua_rpc.py:96-98 | round one is ASCII, so the second phrase hashes it as 32 bytes, each the code of its upper-case hex digit |
| Rpc.ProbeParamsShape | dahua_rpc.py:85-87 | the probe's params are exactly `userName`, `password: ""` and `clientType: "Web3.0"` |
| Rpc.AuthParamsShape | dahua_rpc.py:100-106 | the authenticated login's params are exactly `userName`, the hashed `password`, `clientType: "Web3.0"`, `authorityType: "Default"` and `passwordType: "Default"` |
| Rpc.Verdict | dahua_rpc.py:107-110 | the authenticated login succeeds iff its exchange succeeds and its `result` is true; a false `result` is a login failure carrying the reply; a missing `result` is a missing-key error; an exchange error is passed on |
| Rpc.DahuaRpc.Login | dahua_rpc.py:81-115 | the probe goes to `/RPC2_Login` as `global.login` with id n+1, params exactly `{userName, password: "", clientType: "Web3.0"}` and the token held. The second request is sent iff the probe parses and yields session, realm and random. It goes to the same URL with id n+2, the probe's token, and params `{userName, password: PassHash, clientType: "Web3.0", authorityType: "Default", passwordType: "Default"}`. Login succeeds iff `Verdict` accepts the second reply, and then the token held is the probe's and the transport is open. Every failure shuts the transport down and leaves token and transport None. A transport is created only when none is held |
| Rpc.PtzParams | dahua_rpc.py:121-127 | the command's params are exactly `code`, `arg1`, `arg2`, `arg3` as given (integer or float) and `arg4` = 0 |
| Rpc.CommandOutcome | dahua_rpc.py:129-132 | a parsed reply with a `result` key is returned unchanged, whether `result` is true or false; a reply without `result` is a missing-key error; an exchange error is passed on |
| Rpc.DahuaRpc.PtzControl | dahua_rpc.py:117-136 | one POST to `/RPC2` with method `ptz.<action>`, the next id, `PtzParams` and the token held, if any (none is required); the defaults are `stop`, `""`, 0, 0, 5; the result is `CommandOutcome` of the reply; a returned reply (even a rejected one) keeps token and transport; any failure shuts the transport down and leaves both None |
| Scenarios.LoginThenMove | dahua_rpc.py:81-129 | a login followed by `ptz.start Left 1 0 5` keeps token `s1` and sends the command as request 3 with `session: "s1"`, `method: "ptz.start"` and params `{code: "Left", arg1: 1, arg2: 0, arg3: 5, arg4: 0}` |
| Scenarios.ProbeTokenKept | dahua_rpc.py:91-110 | when the authenticated reply carries another token, the client still holds the probe's |
| Scenarios.CommandWithoutLogin | dahua_rpc.py:117-132 | a command on a fresh client is request 1, carries no `session` key, and returns normally |
| Scenarios.FractionalSpeed | dahua_rpc.py:117-129 | a float `arg3` is sent unchanged, next to integer `arg1` and `arg2` and `arg4` = 0 |
| Scenarios.RejectedThenTimedOut | dahua_rpc.py:128-136 | a rejected command is returned with `result: false` and the token is kept; a timed-out command fails with a transport error and clears the token |
| Scenarios.FailureThenLogin | custom_components/dahua_ptz/dahua_rpc.py:37-79 | a command that fails to parse does not reset the counter: the login after it sends ids 2 and 3, and reads a reply through the raw-text fallback |
| Scenarios.CloseTwice | custom_components/dahua_ptz/dahua_rpc.py:25-30 | closing twice leaves the same transport, token and counter as closing once |

## Left out

- aiohttp, `async_timeout` and the request headers are network I/O: the reply oracle replaces them, and a timeout is a `TransportError`.
- async/await: each call is one sequential step.
- JSON decoding is a foreign library call. A `Reply` states what each decoder returns. A decoded reply keeps only `result` (a boolean), `session` (a string) and `params` (strings). The reply's other keys, non-boolean `result` values and non-string `realm`, `random` or `session` values are not modelled.
- Rpc.Challenge: a reply, or a probe's `params`, that is not a JSON object (an array, a string, a number, `null`, or the `None` that `response.json(content_type=None)` returns for an empty body) makes the source raise `TypeError` on the key lookup. The model can only write such a reply as one with missing keys, so the error it reports is `MissingKey`; the close-and-raise that follows is the same. The same holds for the `result` lookups of `Verdict` and `CommandOutcome`.
- Encoding.Utf8: a Dafny `char` is a Unicode scalar value, so a lone surrogate, which `json.loads` can put in `realm` or `random`, cannot be written down. The `UnicodeEncodeError` that `.encode('utf-8')` then raises, and the close-and-raise of `login` that follows, are not modelled.
- MD5 (RFC 1321) is a parameter of `Login`, `PwdHash` and `PassHash`, so every property holds for any 16-byte digest function.
- `Encoding.UpperChar`: does not model `str.upper()` beyond ASCII letters, because it is only applied to hex digits here.
- The key order of a body: Python sends keys in insertion order; the model's body is a map, so it keeps which keys are present and their values, not the order.
- Logging (`_LOGGER`) and the text of the raised exceptions are left out. Errors are kinds: transport, parse, missing key, login failed with the reply.
- A transport that is closed while still held: the state can be written down, and `Initialize` replaces it, but nothing in the model closes a transport without dropping it.
- `__init__.py`, `config_flow.py` and `const.py` are Home Assistant glue, forms and constants. They are not part of this model.
