/**
 * The chat protocol of `WsChat` as pure functions over the server's state:
 * each handler maps the state and a request to the response and the new state.
 * The class in module Chat is proved to compute exactly these functions.
 */
module Protocol {
  import opened Wrappers
  import opened Json

  type ChatUser = string
  type ChatMessage = string

  /** One log entry: author and text. */
  type Entry = (ChatUser, ChatMessage)

  /** The shared state: the registered names and the append-only message log. */
  datatype Store = Store(users: set<ChatUser>, log: seq<Entry>)

  /**
   * The signing library, seen only through its two calls: `encode(sub, secret)`
   * signs the claim `sub`, `decode(token, secret)` checks a token and yields its
   * claim `sub`. Either may fail. Nothing else is assumed about them.
   */
  datatype Jwt = Jwt(
    encode: (ChatUser, string) -> Option<string>,
    decode: (string, string) -> Option<ChatUser>)

  /** Whether taking each mutex succeeds on this request (false: it is poisoned). */
  datatype Locks = Locks(users: bool, messages: bool)

  /** What a handler gives back: the response object and the state after the request. */
  datatype Reply = Reply(response: Value, store: Store)

  const ErrFormat: string := "format"
  const ErrAlreadyExists: string := "already_exists"
  const ErrAuthenticationFailed: string := "authentication_failed"
  const ErrUnsupported: string := "unsupported"
  const ErrSystem: string := "system"
  /** The error a failed signing reports: spelled with a space, unlike ErrAuthenticationFailed. */
  const ErrSigningFailed: string := "authentication failed"

  /** `{status: failure, err}`, without a `type` field. */
  function Failure(err: string): Value {
    Obj(map["status" := Str("failure"), "err" := Str(err)])
  }

  /** `{type, status: failure, err}`. */
  function TypedFailure(kind: string, err: string): Value {
    Obj(map["type" := Str(kind), "status" := Str("failure"), "err" := Str(err)])
  }

  predicate Succeeded(response: Value) {
    Get(response, "status") == Str("success")
  }

  predicate IsRequest(req: Value, kind: string) {
    Get(req, "type") == Str(kind)
  }

  /** The name a request's `token` verifies to, if it is a string that verifies. */
  function Claim(secret: string, jwt: Jwt, req: Value): Option<ChatUser> {
    match Get(req, "token")
    case Str(t) => jwt.decode(t, secret)
    case _ => None
  }

  // ---------------------------------------------------------------------------
  // Rendering the log, and reading it back as the browser client does

  /** One log entry as the object `{uname, message}`. */
  function ConvMessage(entry: Entry): (v: Value)
    ensures DecodeEntry(v) == Some(entry)
    ensures v.Obj? && v.fields.Keys == {"uname", "message"}
  {
    Obj(map["uname" := Str(entry.0), "message" := Str(entry.1)])
  }

  /** The whole log, entry by entry and in order, as the `messages` array. */
  function Snapshot(log: seq<Entry>): (items: seq<Value>)
    ensures |items| == |log|
    ensures forall i :: 0 <= i < |log| ==> items[i] == ConvMessage(log[i])
  {
    if log == [] then [] else [ConvMessage(log[0])] + Snapshot(log[1..])
  }

  /** The client's reading of one rendered entry: its `uname` and `message` strings. */
  function DecodeEntry(v: Value): Option<Entry> {
    if Get(v, "uname").Str? && Get(v, "message").Str?
    then Some((Get(v, "uname").s, Get(v, "message").s))
    else None
  }

  function DecodeEntries(items: seq<Value>): Option<seq<Entry>> {
    if items == [] then Some([])
    else
      match DecodeEntry(items[0])
      case None => None
      case Some(e) =>
        match DecodeEntries(items[1..])
        case None => None
        case Some(rest) => Some([e] + rest)
  }

  /** The client's reading of a `messages` field: the log it lists, if it is an array of entries. */
  function DecodeLog(v: Value): Option<seq<Entry>> {
    if v.Arr? then DecodeEntries(v.items) else None
  }

  /** Rendering loses nothing: the client reads back exactly the log, in order. */
  lemma {:induction false} SnapshotRoundTrip(log: seq<Entry>)
    ensures DecodeLog(Arr(Snapshot(log))) == Some(log)
  {
    if log != [] {
      SnapshotRoundTrip(log[1..]);
      assert Snapshot(log)[1..] == Snapshot(log[1..]);
      assert [log[0]] + log[1..] == log;
    }
  }

  /** Appending to the log appends one rendered entry to its snapshot. */
  lemma SnapshotAppend(log: seq<Entry>, e: Entry)
    ensures Snapshot(log + [e]) == Snapshot(log) + [ConvMessage(e)]
  {
    var a, b := Snapshot(log + [e]), Snapshot(log) + [ConvMessage(e)];
    assert |a| == |b|;
    forall i | 0 <= i < |a| ensures a[i] == b[i] {
      if i < |log| {
        assert (log + [e])[i] == log[i];
      }
    }
  }

  // ---------------------------------------------------------------------------
  // The three handlers and the router

  /** `process_login`: register a new name, sign a token for it and return the history. */
  function Login(s: Store, secret: string, jwt: Jwt, locks: Locks, req: Value): (r: Reply)
    ensures r.store.log == s.log
    ensures !Get(req, "uname").Str? ==> r == Reply(TypedFailure("login", ErrFormat), s)
    ensures Get(req, "uname").Str? ==>
      var u := Get(req, "uname").s;
      && (!locks.users ==> r == Reply(Failure(ErrSystem), s))
      && (locks.users && u in s.users ==> r == Reply(TypedFailure("login", ErrAlreadyExists), s))
      && (locks.users && u !in s.users && !locks.messages ==> r == Reply(Failure(ErrSystem), s))
      && (locks.users && locks.messages && u !in s.users ==> r.store.users == s.users + {u})
      && (locks.users && locks.messages && u !in s.users && jwt.encode(u, secret).None? ==>
            r.response == Failure(ErrSigningFailed))
      && (Succeeded(r.response) <==>
            locks.users && locks.messages && u !in s.users && jwt.encode(u, secret).Some?)
      && (Succeeded(r.response) ==>
            && r.response.Obj? && r.response.fields.Keys == {"type", "status", "token", "messages"}
            && Get(r.response, "type") == Str("login")
            && Get(r.response, "token") == Str(jwt.encode(u, secret).value)
            && Get(r.response, "messages") == Arr(Snapshot(s.log))
            && DecodeLog(Get(r.response, "messages")) == Some(s.log))
  {
    match Get(req, "uname")
    case Str(u) =>
      if !locks.users then Reply(Failure(ErrSystem), s)
      else if u in s.users then Reply(TypedFailure("login", ErrAlreadyExists), s)
      else if !locks.messages then Reply(Failure(ErrSystem), s)
      else
        var s' := s.(users := s.users + {u});
        (match jwt.encode(u, secret)
         case None => Reply(Failure(ErrSigningFailed), s')
         case Some(token) =>
           SnapshotRoundTrip(s.log);
           Reply(Obj(map["type" := Str("login"), "status" := Str("success"),
                         "token" := Str(token), "messages" := Arr(Snapshot(s.log))]), s'))
    case _ => Reply(TypedFailure("login", ErrFormat), s)
  }

  /** `process_ping`: check the token and return the history. Ping has no state to change. */
  function Ping(s: Store, secret: string, jwt: Jwt, locks: Locks, req: Value): (r: Value)
    ensures !Get(req, "token").Str? ==> r == TypedFailure("ping", ErrFormat)
    ensures Get(req, "token").Str? && Claim(secret, jwt, req).None? ==> r == Failure(ErrAuthenticationFailed)
    ensures Claim(secret, jwt, req).Some? && !locks.messages ==> r == Failure(ErrSystem)
    ensures Succeeded(r) <==> Claim(secret, jwt, req).Some? && locks.messages
    ensures Succeeded(r) ==>
      && r.Obj? && r.fields.Keys == {"type", "status", "messages"}
      && Get(r, "type") == Str("ping")
      && Get(r, "messages") == Arr(Snapshot(s.log))
      && DecodeLog(Get(r, "messages")) == Some(s.log)
  {
    match Get(req, "token")
    case Str(t) =>
      if jwt.decode(t, secret).None? then Failure(ErrAuthenticationFailed)
      else if !locks.messages then Failure(ErrSystem)
      else
        SnapshotRoundTrip(s.log);
        Obj(map["type" := Str("ping"), "status" := Str("success"), "messages" := Arr(Snapshot(s.log))])
    case _ => TypedFailure("ping", ErrFormat)
  }

  /**
   * `process_message`: check the token and append `(verified sub, request's "message")`
   * to the log, then return the whole new log.
   */
  function Post(s: Store, secret: string, jwt: Jwt, locks: Locks, req: Value): (r: Reply)
    ensures r.store.users == s.users
    ensures !Get(req, "token").Str? ==> r == Reply(TypedFailure("message", ErrFormat), s)
    ensures Get(req, "token").Str? && Claim(secret, jwt, req).None? ==>
      r == Reply(TypedFailure("message", ErrAuthenticationFailed), s)
    ensures Claim(secret, jwt, req).Some? && !Get(req, "message").Str? ==>
      r == Reply(TypedFailure("message", ErrFormat), s)
    ensures Claim(secret, jwt, req).Some? && Get(req, "message").Str? && !locks.messages ==>
      r == Reply(Failure(ErrSystem), s)
    ensures Succeeded(r.response) <==>
      Claim(secret, jwt, req).Some? && Get(req, "message").Str? && locks.messages
    ensures !Succeeded(r.response) ==> r.store == s
    ensures Succeeded(r.response) ==>
      var entry := (Claim(secret, jwt, req).value, Get(req, "message").s);
      && r.store.log == s.log + [entry]
      && r.response.Obj? && r.response.fields.Keys == {"type", "status", "messages"}
      && Get(r.response, "type") == Str("message")
      && Get(r.response, "messages") == Arr(Snapshot(r.store.log))
      && Get(r.response, "messages") == Arr(Snapshot(s.log) + [ConvMessage(entry)])
      && DecodeLog(Get(r.response, "messages")) == Some(r.store.log)
  {
    match Get(req, "token")
    case Str(t) =>
      (match jwt.decode(t, secret)
       case None => Reply(TypedFailure("message", ErrAuthenticationFailed), s)
       case Some(sub) =>
         (match Get(req, "message")
          case Str(text) =>
            if !locks.messages then Reply(Failure(ErrSystem), s)
            else
              var log' := s.log + [(sub, text)];
              SnapshotRoundTrip(log');
              SnapshotAppend(s.log, (sub, text));
              Reply(Obj(map["type" := Str("message"), "status" := Str("success"),
                            "messages" := Arr(Snapshot(log'))]), s.(log := log'))
          case _ => Reply(TypedFailure("message", ErrFormat), s)))
    case _ => Reply(TypedFailure("message", ErrFormat), s)
  }

  /** `dispatch`: route a request by its `type` field. */
  function Dispatch(s: Store, secret: string, jwt: Jwt, locks: Locks, req: Value): (r: Reply)
    // routing
    ensures !Get(req, "type").Str? ==> r == Reply(Failure(ErrFormat), s)
    ensures Get(req, "type").Str? && Get(req, "type").s !in {"login", "ping", "message"} ==>
      r == Reply(Failure(ErrUnsupported), s)
    ensures IsRequest(req, "login") ==> r == Login(s, secret, jwt, locks, req)
    ensures IsRequest(req, "ping") ==> r == Reply(Ping(s, secret, jwt, locks, req), s)
    ensures IsRequest(req, "message") ==> r == Post(s, secret, jwt, locks, req)
    // effects: only a login adds a name, and only a name not yet taken
    ensures r.store.users != s.users ==>
      && IsRequest(req, "login") && Get(req, "uname").Str?
      && Get(req, "uname").s !in s.users
      && r.store.users == s.users + {Get(req, "uname").s}
    // effects: only a successful post changes the log, by one entry at the end
    ensures r.store.log != s.log ==>
      && IsRequest(req, "message") && Succeeded(r.response)
      && |r.store.log| == |s.log| + 1 && r.store.log[..|s.log|] == s.log
      && Claim(secret, jwt, req) == Some(r.store.log[|s.log|].0)
      && Get(req, "message") == Str(r.store.log[|s.log|].1)
    ensures r.store.users == s.users || r.store.log == s.log
    // every `messages` field lists the whole log as it stands after the request
    ensures Get(r.response, "messages") != Null ==>
      Succeeded(r.response) && DecodeLog(Get(r.response, "messages")) == Some(r.store.log)
  {
    match Get(req, "type")
    case Str(kind) =>
      if kind == "login" then Login(s, secret, jwt, locks, req)
      else if kind == "ping" then Reply(Ping(s, secret, jwt, locks, req), s)
      else if kind == "message" then Post(s, secret, jwt, locks, req)
      else Reply(Failure(ErrUnsupported), s)
    case _ => Reply(Failure(ErrFormat), s)
  }

  /** The request a text frame becomes: its parse, or `Null` when it does not parse. */
  function RequestOf(parsed: Option<Value>): (v: Value)
    ensures parsed.Some? ==> v == parsed.value
    ensures parsed.None? ==> forall key :: Get(v, key) == Null
  {
    match parsed
    case Some(value) => value
    case None => Null
  }

  /** A frame that does not parse is answered `{status: failure, err: format}` and changes nothing. */
  lemma UnparsableFrame(s: Store, secret: string, jwt: Jwt, locks: Locks)
    ensures Dispatch(s, secret, jwt, locks, RequestOf(None)) == Reply(Failure(ErrFormat), s)
  {
  }

  /**
   * Ping and post look only at the token, never at the registered names: two states
   * with the same log give the same answers.
   */
  lemma TokenAloneAuthenticates(s1: Store, s2: Store, secret: string, jwt: Jwt, locks: Locks, req: Value)
    requires s1.log == s2.log
    ensures Ping(s1, secret, jwt, locks, req) == Ping(s2, secret, jwt, locks, req)
    ensures Post(s1, secret, jwt, locks, req).response == Post(s2, secret, jwt, locks, req).response
    ensures Post(s1, secret, jwt, locks, req).store.log == Post(s2, secret, jwt, locks, req).store.log
  {
  }
}
