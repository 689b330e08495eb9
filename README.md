# rocket_ws_chat: the chat protocol engine, modelled in Dafny

The server keeps two pieces of shared state in the `WsChat` object: a set of
registered user names and an append-only log of `(author, text)` messages.
Every WebSocket text frame is parsed as JSON and handed to `dispatch`, which
routes on the request's `type`:

- `login` registers a fresh `uname`, signs a token whose claim `sub` is that
  name and returns the whole log;
- `ping` checks a token and returns the whole log;
- `message` checks a token and appends `(sub of the token, request's "message")`
  to the log, then returns the whole new log.

A frame that does not parse is dispatched as JSON `null`. Every error is a
response object with `status: "failure"` and an `err` code; some echo the
request `type` and some do not, exactly as the handlers build them.

The project has five modules:

- `Wrappers` (wrappers.dfy): `Option`.
- `Json` (json.dfy): the JSON `Value` tree and `Get`, which reads a field as
  serde_json's indexing does (`Null` for a missing key or a non-object).
- `Protocol` (protocol.dfy): the state as a value (`Store`), the handlers as
  pure functions (`Login`, `Ping`, `Post`, `Dispatch`), the rendering of the log
  (`ConvMessage`, `Snapshot`) and the browser client's reading of it
  (`DecodeLog`). The handlers' contracts give every branch: which error code,
  whether `type` is echoed, and how the state changes.
- `Sessions` (sessions.dfy): `Run` replays a sequence of requests against the
  state. Its lemmas cover whole runs. Names and log only grow. A name is granted
  at most once. Every logged entry was posted by a request whose token verifies
  to its author. Two successful pings with no post between them are identical.
  The history a client sees only grows.
- `Chat` (chat.dfy): the class `WsChat` with fields `users` and `messages`. Its
  methods update those fields in place and build each response field by field,
  as the Rust code does. Each method is proved to compute exactly the matching
  `Protocol` function.

The signing library appears as a `Jwt` value holding two functions:
`encode(sub, secret)` and `decode(token, secret)`, each of which may fail.
Nothing is assumed about them. `AliceSession` takes, as a hypothesis, that
decoding the token signed for "alice" gives back "alice". Whether each mutex
can be locked is an input (`Locks`): `false` stands for a poisoned mutex.

The comment block at src/main.rs:59-72 describes the request and response
fields. Where it disagrees with the code, the model follows the code:

- The comment gives the request's text field as `text` (line 63). The code reads
  the field `"message"` (line 170).
- The comment gives the success status as `ok` (line 68). The code writes
  `"success"` (lines 123, 150, 177).

Other behaviour of the code worth noting, which the model keeps:

- Login's `already_exists` and `format` errors both include `"type":"login"`
  (src/main.rs:106, 113-115). The unreadable-type, unsupported-type, lock
  errors and ping's authentication error do not include `type`.
- Ping and message check only that the token verifies. They never look at the
  registered names (`TokenAloneAuthenticates`).
- If signing fails, the name is already registered, and the error string is
  `"authentication failed"` with a space (src/main.rs:122, 130). That name can
  never be obtained again (`FailedSigningBurnsName`).

## Model

| member | source | states |
|---|---|---|
| Protocol.ConvMessage | src/main.rs:97-102 | an entry becomes an object with exactly the keys `uname` and `message`, from which the client reads back the same author and text |
| Protocol.Snapshot | src/main.rs:133 | the `messages` array has one element per log entry, in log order, the i-th being the i-th entry rendered |
| Protocol.SnapshotRoundTrip | static/chat.js:6-14 | reading the raw `uname` and `message` fields of a `messages` array gives back exactly the server's log, in order |
| Protocol.SnapshotAppend | src/main.rs:176-178 | appending an entry to the log appends exactly its rendering to the snapshot; `Post` uses it for its new `messages` |
| Protocol.Login | src/main.rs:104-140 | non-string `uname`: typed `format` failure, no change; users lock fails: untyped `system`, no change; name taken: typed `already_exists`, no change; messages lock fails: untyped `system`, no change, before any insert; otherwise the name is added; signing fails: untyped `authentication failed`; success iff both locks, a fresh name and a signed token, and then the response has exactly the keys `type`, `status`, `token`, `messages` (no `err`), `type:"login"`, the signed token, and `messages` equal to the snapshot of the whole log; the log never changes |
| Protocol.Ping | src/main.rs:142-161 | non-string token: typed `format`; token fails verification: untyped `authentication_failed`; lock fails: untyped `system`; success iff the token verifies and the lock is taken, and then the response has exactly the keys `type`, `status`, `messages` (no `err`), `type:"ping"`, and `messages` equal to the snapshot of the whole log; the state cannot change |
| Protocol.Post | src/main.rs:163-192 | non-string token: typed `format`; failed verification: typed `authentication_failed`; non-string `message`: typed `format`; lock fails: untyped `system`; any failure leaves the state unchanged; success iff token verifies, text is a string and the lock is taken, and then the log gains exactly `(verified sub, text)` at its end, and the response has exactly the keys `type`, `status`, `messages` (no `err`), `type:"message"`, and `messages` equal to the old snapshot followed by the new entry's rendering, which is the snapshot of the whole new log; names never change |
| Protocol.Dispatch | src/main.rs:194-205 | unreadable `type`: exactly `{status:failure, err:format}`, no change; unsupported string `type`: exactly `{status:failure, err:unsupported}`, no change; the three kinds route to their handlers; only a login adds a name, only one not yet taken; only a successful `message` changes the log, by one entry at its end whose author the token verifies to and whose text is the request's `message`; every `messages` field lists the whole log after the request |
| Protocol.RequestOf | src/main.rs:227-231 | a parsed frame is dispatched as its value; an unparsable one as a value with no readable field |
| Protocol.UnparsableFrame | src/main.rs:227-231 | an unparsable frame is answered `{status:failure, err:format}` and changes nothing |
| Protocol.TokenAloneAuthenticates | src/main.rs:147-169 | ping and message responses and the resulting log do not depend on the registered names |
| Sessions.Run | src/main.rs:222-234 | a run gives one response per request, and each step is one dispatch from the state the previous one left |
| Sessions.Monotone | src/main.rs:122-176 | between any two points of a run the names only grow and the earlier log is a prefix of the later one |
| Sessions.TakenNameRejected | src/main.rs:109-115 | once a name is registered, every later login for it is answered `{type:login, status:failure, err:already_exists}` when the users lock is taken, and untyped `system` when it is not |
| Sessions.UniqueRegistration | src/main.rs:109-122 | two logins for the same name in a run never both succeed; none succeeds for a name registered at the start |
| Sessions.RegisteredOnlyByLogin | src/main.rs:122 | every name registered during a run was the `uname` of an earlier login |
| Sessions.LogEntriesAuthenticated | src/main.rs:169-176 | every entry appended during a run comes from a successful `message` request whose token verifies to its author and whose `message` is its text |
| Sessions.LogUnchangedWithoutPosts | src/main.rs:163-178 | with no successful post between two points of a run, the log is the same at both |
| Sessions.PingIdempotent | src/main.rs:150-155 | two successful pings with no successful post between them return identical responses |
| Sessions.HistoryGrows | src/main.rs:133-178 | the log listed by an earlier response is a prefix of the log listed by any later response |
| Sessions.FailedSigningBurnsName | src/main.rs:122-131 | a login whose signing fails still registers the name, and the next login for it is refused as `already_exists` |
| Sessions.AliceSession | src/main.rs:104-192 | on an empty server: "alice" logs in and gets her token and an empty history; a second login is `already_exists`; her post of "hi" is logged as `("alice", "hi")` and returned |
| Chat.WsChat.constructor | src/main.rs:87-96 | a new server has no names, an empty log and the given secret |
| Chat.WsChat.ProcessLogin | src/main.rs:104-140 | leaves the log alone, adds at most the requested fresh name, and gives the response and new state of `Protocol.Login` |
| Chat.WsChat.ProcessPing | src/main.rs:142-161 | changes nothing and returns the response of `Protocol.Ping` |
| Chat.WsChat.ProcessMessage | src/main.rs:163-192 | leaves the names alone, keeps the old log as a prefix of at most one more entry, and gives the response and new state of `Protocol.Post` |
| Chat.WsChat.Dispatch | src/main.rs:194-205 | names and log only grow, and the response and new state are those of `Protocol.Dispatch` |
| Chat.HandleTextFrame | src/main.rs:226-233 | a text frame is dispatched as its parse, or as `Null` when it does not parse |

## Left out

- The static file route and the cookie endpoints (src/main.rs:25-57): HTTP handling unrelated to the chat state.
- `main`, the WebSocket listener, threads, `Arc` sharing and the refusal of binary frames (src/main.rs:212-241): transport and concurrency. Only the parse-failure mapping (227-231) is kept.
- Concurrency: requests are modelled one after another, as the mutexes serialise them; interleavings inside a request are not modelled.
- Mutex poisoning: whether each lock can be taken is a per-request input (`Locks`). The model does not capture that a poisoned mutex stays poisoned.
- The JWT library (src/main.rs:128, 147, 169): a pair of functions given as parameters, with no property assumed. Header, algorithm and expiry checks are its business.
- JSON text parsing and serialisation by serde: the model works on `Value` trees. Numbers are integers only; floating point is not modelled.
- static/chat.js beyond its reading of the `messages` array (`DecodeLog`): browser UI over a WebSocket.
- Protocol.SnapshotRoundTrip: reads the raw `uname` and `message` fields only. The client's `encodeURI` before sending and `decodeURI` on display (static/chat.js:81, 11) are not modelled, and `decodeURI` can change or reject texts containing `%`.
