/**
 * The server object `WsChat`: the set of registered names and the message log,
 * updated in place by the handlers, which build their responses field by field.
 * Each method is proved to compute exactly the corresponding function of module
 * Protocol, whose properties are proved there and in module Sessions.
 */
module Chat {
  import opened Wrappers
  import opened Json
  import opened Protocol

  class WsChat {
    var users: set<ChatUser>
    var messages: seq<Entry>
    const secret: string

    /** The state the handlers share, as a value. */
    function State(): Store
      reads this
    {
      Store(users, messages)
    }

    /** `WsChat::new`: no names, an empty log, the signing secret. */
    constructor (secret: string)
      ensures this.secret == secret
      ensures users == {} && messages == []
    {
      this.secret := secret;
      users := {};
      messages := [];
    }

    method ProcessLogin(value: Value, jwt: Jwt, locks: Locks) returns (res: Value)
      modifies this
      ensures messages == old(messages)
      ensures users == old(users) ||
        (Get(value, "uname").Str? && Get(value, "uname").s !in old(users) && users == old(users) + {Get(value, "uname").s})
      ensures Reply(res, State()) == Login(old(State()), secret, jwt, locks, value)
    {
      var uname := Get(value, "uname");
      var body: map<string, Value> := map["type" := Str("login")];
      if uname.Str? {
        var u := uname.s;
        if !locks.users {
          return Failure(ErrSystem);
        }
        if u in users {
          body := body["status" := Str("failure")];
          body := body["err" := Str(ErrAlreadyExists)];
        } else {
          if !locks.messages {
            return Failure(ErrSystem);
          }
          users := users + {u};
          body := body["status" := Str("success")];
          var token := jwt.encode(u, secret);
          if token.None? {
            return Failure(ErrSigningFailed);
          }
          body := body["token" := Str(token.value)];
          body := body["messages" := Arr(Snapshot(messages))];
        }
      } else {
        body := body["status" := Str("failure")];
        body := body["err" := Str(ErrFormat)];
      }
      res := Obj(body);
    }

    /** `process_ping` only reads the state. */
    method ProcessPing(value: Value, jwt: Jwt, locks: Locks) returns (res: Value)
      ensures res == Ping(State(), secret, jwt, locks, value)
    {
      var body: map<string, Value> := map["type" := Str("ping")];
      var token := Get(value, "token");
      if token.Str? {
        if jwt.decode(token.s, secret).None? {
          return Failure(ErrAuthenticationFailed);
        }
        body := body["status" := Str("success")];
        if !locks.messages {
          return Failure(ErrSystem);
        }
        body := body["messages" := Arr(Snapshot(messages))];
      } else {
        body := body["status" := Str("failure")];
        body := body["err" := Str(ErrFormat)];
      }
      res := Obj(body);
    }

    method ProcessMessage(value: Value, jwt: Jwt, locks: Locks) returns (res: Value)
      modifies this
      ensures users == old(users)
      ensures messages == old(messages) || (|messages| == |old(messages)| + 1 && messages[..|old(messages)|] == old(messages))
      ensures Reply(res, State()) == Post(old(State()), secret, jwt, locks, value)
    {
      var body: map<string, Value> := map["type" := Str("message")];
      var token := Get(value, "token");
      if token.Str? {
        var claim := jwt.decode(token.s, secret);
        if claim.Some? {
          var text := Get(value, "message");
          if text.Str? {
            if !locks.messages {
              return Failure(ErrSystem);
            }
            messages := messages + [(claim.value, text.s)];
            body := body["status" := Str("success")];
            body := body["messages" := Arr(Snapshot(messages))];
          } else {
            body := body["status" := Str("failure")];
            body := body["err" := Str(ErrFormat)];
          }
        } else {
          body := body["status" := Str("failure")];
          body := body["err" := Str(ErrAuthenticationFailed)];
        }
      } else {
        body := body["status" := Str("failure")];
        body := body["err" := Str(ErrFormat)];
      }
      res := Obj(body);
    }

    method Dispatch(value: Value, jwt: Jwt, locks: Locks) returns (res: Value)
      modifies this
      ensures old(users) <= users && old(messages) <= messages
      ensures Reply(res, State()) == Protocol.Dispatch(old(State()), secret, jwt, locks, value)
    {
      var kind := Get(value, "type");
      if kind.Str? {
        if kind.s == "login" {
          res := ProcessLogin(value, jwt, locks);
        } else if kind.s == "ping" {
          res := ProcessPing(value, jwt, locks);
        } else if kind.s == "message" {
          res := ProcessMessage(value, jwt, locks);
        } else {
          res := Failure(ErrUnsupported);
        }
      } else {
        res := Failure(ErrFormat);
      }
    }
  }

  /**
   * The text-frame handler of the listener: a frame that failed to parse is
   * dispatched as `Null`; the response goes back to the client.
   */
  method HandleTextFrame(chat: WsChat, parsed: Option<Value>, jwt: Jwt, locks: Locks) returns (response: Value)
    modifies chat
    ensures Reply(response, chat.State()) == Protocol.Dispatch(old(chat.State()), chat.secret, jwt, locks, RequestOf(parsed))
  {
    var v := RequestOf(parsed);
    response := chat.Dispatch(v, jwt, locks);
  }
}
