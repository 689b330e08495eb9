/**
 * Runs of the protocol over a sequence of requests, one after the other, as the
 * shared `WsChat` sees them, and what holds across a whole run: the names and the
 * log only grow, a name is granted at most once, every logged entry was posted by
 * the holder of a verifying token, and a ping with nothing posted since repeats itself.
 */
module Sessions {
  import opened Wrappers
  import opened Json
  import opened Protocol

  /** One request as it reaches `dispatch`, with the lock outcomes it meets. */
  datatype Frame = Frame(request: Value, locks: Locks)

  /** The responses of a run, and the states before each request and after the last. */
  datatype Trace = Trace(responses: seq<Value>, stores: seq<Store>)

  function Run(s: Store, secret: string, jwt: Jwt, frames: seq<Frame>): (t: Trace)
    ensures |t.responses| == |frames| && |t.stores| == |frames| + 1
    ensures t.stores[0] == s
    ensures forall i :: 0 <= i < |frames| ==>
      Dispatch(t.stores[i], secret, jwt, frames[i].locks, frames[i].request) == Reply(t.responses[i], t.stores[i + 1])
    decreases |frames|
  {
    if frames == [] then Trace([], [s])
    else
      var r := Dispatch(s, secret, jwt, frames[0].locks, frames[0].request);
      var rest := Run(r.store, secret, jwt, frames[1..]);
      assert forall i :: 1 <= i < |frames| ==> frames[i] == frames[1..][i - 1];
      Trace([r.response] + rest.responses, [s] + rest.stores)
  }

  predicate IsLoginFor(req: Value, u: ChatUser) {
    IsRequest(req, "login") && Get(req, "uname") == Str(u)
  }

  predicate IsPost(req: Value, response: Value) {
    IsRequest(req, "message") && Succeeded(response)
  }

  /** Between any two points of a run the names only grow and the log only grows at its end. */
  lemma {:induction false} Monotone(s: Store, secret: string, jwt: Jwt, frames: seq<Frame>, i: nat, j: nat)
    requires i <= j <= |frames|
    ensures Run(s, secret, jwt, frames).stores[i].users <= Run(s, secret, jwt, frames).stores[j].users
    ensures Run(s, secret, jwt, frames).stores[i].log <= Run(s, secret, jwt, frames).stores[j].log
    decreases j - i
  {
    if i < j {
      Monotone(s, secret, jwt, frames, i, j - 1);
      var t := Run(s, secret, jwt, frames);
      assert Dispatch(t.stores[j - 1], secret, jwt, frames[j - 1].locks, frames[j - 1].request)
        == Reply(t.responses[j - 1], t.stores[j]);
    }
  }

  /**
   * Once a name is registered, every later login for it is refused: `already_exists`
   * when the users lock is taken, `system` when it is not.
   */
  lemma TakenNameRejected(s: Store, secret: string, jwt: Jwt, frames: seq<Frame>, u: ChatUser, i: nat, j: nat)
    requires i <= j < |frames|
    requires u in Run(s, secret, jwt, frames).stores[i].users
    requires IsLoginFor(frames[j].request, u)
    ensures Run(s, secret, jwt, frames).responses[j] ==
      if frames[j].locks.users then TypedFailure("login", ErrAlreadyExists) else Failure(ErrSystem)
    ensures !Succeeded(Run(s, secret, jwt, frames).responses[j])
  {
    Monotone(s, secret, jwt, frames, i, j);
    var t := Run(s, secret, jwt, frames);
    assert Dispatch(t.stores[j], secret, jwt, frames[j].locks, frames[j].request) == Reply(t.responses[j], t.stores[j + 1]);
  }

  /** Two logins for the same name never both succeed, and none succeeds for a name taken at the start. */
  lemma UniqueRegistration(s: Store, secret: string, jwt: Jwt, frames: seq<Frame>, u: ChatUser, i: nat, j: nat)
    requires i < j < |frames|
    requires IsLoginFor(frames[i].request, u) && IsLoginFor(frames[j].request, u)
    ensures !(Succeeded(Run(s, secret, jwt, frames).responses[i]) && Succeeded(Run(s, secret, jwt, frames).responses[j]))
    ensures u in s.users ==> !Succeeded(Run(s, secret, jwt, frames).responses[i])
  {
    var t := Run(s, secret, jwt, frames);
    assert Dispatch(t.stores[i], secret, jwt, frames[i].locks, frames[i].request) == Reply(t.responses[i], t.stores[i + 1]);
    if u in s.users {
      TakenNameRejected(s, secret, jwt, frames, u, 0, i);
    }
    if Succeeded(t.responses[i]) {
      assert u in t.stores[i + 1].users;
      TakenNameRejected(s, secret, jwt, frames, u, i + 1, j);
    }
  }

  /** A name registered during a run was the `uname` of some earlier login. */
  lemma {:induction false} RegisteredOnlyByLogin(s: Store, secret: string, jwt: Jwt, frames: seq<Frame>, u: ChatUser, k: nat)
    requires k <= |frames|
    requires u in Run(s, secret, jwt, frames).stores[k].users && u !in s.users
    ensures exists i :: 0 <= i < k && IsLoginFor(frames[i].request, u)
  {
    var t := Run(s, secret, jwt, frames);
    assert k > 0;
    assert Dispatch(t.stores[k - 1], secret, jwt, frames[k - 1].locks, frames[k - 1].request)
      == Reply(t.responses[k - 1], t.stores[k]);
    if u in t.stores[k - 1].users {
      RegisteredOnlyByLogin(s, secret, jwt, frames, u, k - 1);
    } else {
      assert IsLoginFor(frames[k - 1].request, u);
    }
  }

  /**
   * Every entry appended during a run was posted by a successful `message` request
   * whose token verifies to the entry's author and whose `message` field is its text.
   */
  lemma {:induction false} LogEntriesAuthenticated(s: Store, secret: string, jwt: Jwt, frames: seq<Frame>, k: nat, p: nat)
    requires k <= |frames|
    requires |s.log| <= p < |Run(s, secret, jwt, frames).stores[k].log|
    ensures var e := Run(s, secret, jwt, frames).stores[k].log[p];
      exists i :: && 0 <= i < k
                  && IsPost(frames[i].request, Run(s, secret, jwt, frames).responses[i])
                  && Claim(secret, jwt, frames[i].request) == Some(e.0)
                  && Get(frames[i].request, "message") == Str(e.1)
  {
    var t := Run(s, secret, jwt, frames);
    assert k > 0;
    assert Dispatch(t.stores[k - 1], secret, jwt, frames[k - 1].locks, frames[k - 1].request)
      == Reply(t.responses[k - 1], t.stores[k]);
    Monotone(s, secret, jwt, frames, k - 1, k);
    if p < |t.stores[k - 1].log| {
      assert t.stores[k].log[p] == t.stores[k - 1].log[p];
      LogEntriesAuthenticated(s, secret, jwt, frames, k - 1, p);
    } else {
      assert IsPost(frames[k - 1].request, t.responses[k - 1]);
    }
  }

  /** With no successful post from step i up to step j, the log is the same at both. */
  lemma {:induction false} LogUnchangedWithoutPosts(s: Store, secret: string, jwt: Jwt, frames: seq<Frame>, i: nat, j: nat)
    requires i <= j <= |frames|
    requires forall k :: i <= k < j ==> !IsPost(frames[k].request, Run(s, secret, jwt, frames).responses[k])
    ensures Run(s, secret, jwt, frames).stores[i].log == Run(s, secret, jwt, frames).stores[j].log
    decreases j - i
  {
    if i < j {
      LogUnchangedWithoutPosts(s, secret, jwt, frames, i, j - 1);
      var t := Run(s, secret, jwt, frames);
      assert Dispatch(t.stores[j - 1], secret, jwt, frames[j - 1].locks, frames[j - 1].request)
        == Reply(t.responses[j - 1], t.stores[j]);
    }
  }

  /** Two successful pings with no successful post between them return identical responses. */
  lemma PingIdempotent(s: Store, secret: string, jwt: Jwt, frames: seq<Frame>, i: nat, j: nat)
    requires i < j < |frames|
    requires IsRequest(frames[i].request, "ping") && IsRequest(frames[j].request, "ping")
    requires Succeeded(Run(s, secret, jwt, frames).responses[i]) && Succeeded(Run(s, secret, jwt, frames).responses[j])
    requires forall k :: i <= k < j ==> !IsPost(frames[k].request, Run(s, secret, jwt, frames).responses[k])
    ensures Run(s, secret, jwt, frames).responses[i] == Run(s, secret, jwt, frames).responses[j]
  {
    var t := Run(s, secret, jwt, frames);
    LogUnchangedWithoutPosts(s, secret, jwt, frames, i, j);
    assert Dispatch(t.stores[i], secret, jwt, frames[i].locks, frames[i].request) == Reply(t.responses[i], t.stores[i + 1]);
    assert Dispatch(t.stores[j], secret, jwt, frames[j].locks, frames[j].request) == Reply(t.responses[j], t.stores[j + 1]);
  }

  /**
   * The history a client is shown only grows: the log listed by an earlier response
   * is a prefix of the log listed by any later one.
   */
  lemma HistoryGrows(s: Store, secret: string, jwt: Jwt, frames: seq<Frame>, i: nat, j: nat)
    requires i <= j < |frames|
    requires Get(Run(s, secret, jwt, frames).responses[i], "messages") != Null
    requires Get(Run(s, secret, jwt, frames).responses[j], "messages") != Null
    ensures DecodeLog(Get(Run(s, secret, jwt, frames).responses[i], "messages")).Some?
    ensures DecodeLog(Get(Run(s, secret, jwt, frames).responses[j], "messages")).Some?
    ensures DecodeLog(Get(Run(s, secret, jwt, frames).responses[i], "messages")).value
         <= DecodeLog(Get(Run(s, secret, jwt, frames).responses[j], "messages")).value
  {
    var t := Run(s, secret, jwt, frames);
    assert Dispatch(t.stores[i], secret, jwt, frames[i].locks, frames[i].request) == Reply(t.responses[i], t.stores[i + 1]);
    assert Dispatch(t.stores[j], secret, jwt, frames[j].locks, frames[j].request) == Reply(t.responses[j], t.stores[j + 1]);
    Monotone(s, secret, jwt, frames, i + 1, j + 1);
  }

  /**
   * A login whose signing fails still registers the name, so the name can never
   * be obtained afterwards: the next login for it is refused as taken.
   */
  lemma FailedSigningBurnsName(s: Store, secret: string, jwt: Jwt, u: ChatUser, locks: Locks)
    requires u !in s.users && locks.users && locks.messages
    requires jwt.encode(u, secret).None?
    ensures var req := Obj(map["type" := Str("login"), "uname" := Str(u)]);
      var t := Run(s, secret, jwt, [Frame(req, locks), Frame(req, locks)]);
      && t.responses[0] == Failure(ErrSigningFailed)
      && u in t.stores[1].users
      && t.responses[1] == TypedFailure("login", ErrAlreadyExists)
  {
    var req := Obj(map["type" := Str("login"), "uname" := Str(u)]);
    var frames := [Frame(req, locks), Frame(req, locks)];
    var t := Run(s, secret, jwt, frames);
    assert IsRequest(req, "login") && Get(req, "uname") == Str(u);
    assert Dispatch(t.stores[0], secret, jwt, locks, req) == Reply(t.responses[0], t.stores[1]);
    assert Dispatch(t.stores[1], secret, jwt, locks, req) == Reply(t.responses[1], t.stores[2]);
  }

  /**
   * The usual session: "alice" logs in on an empty server, a second login for
   * "alice" is refused, and a post with her token is logged under her name.
   */
  lemma AliceSession(secret: string, jwt: Jwt, t1: string)
    requires jwt.encode("alice", secret) == Some(t1)
    requires jwt.decode(t1, secret) == Some("alice")
    ensures var ok := Locks(true, true);
      var login := Obj(map["type" := Str("login"), "uname" := Str("alice")]);
      var post := Obj(map["type" := Str("message"), "token" := Str(t1), "message" := Str("hi")]);
      var t := Run(Store({}, []), secret, jwt, [Frame(login, ok), Frame(login, ok), Frame(post, ok)]);
      && t.responses[0] == Obj(map["type" := Str("login"), "status" := Str("success"),
                                   "token" := Str(t1), "messages" := Arr([])])
      && t.responses[1] == TypedFailure("login", ErrAlreadyExists)
      && t.responses[2] == Obj(map["type" := Str("message"), "status" := Str("success"),
                                   "messages" := Arr([ConvMessage(("alice", "hi"))])])
      && t.stores[3] == Store({"alice"}, [("alice", "hi")])
  {
    var ok := Locks(true, true);
    var login := Obj(map["type" := Str("login"), "uname" := Str("alice")]);
    var post := Obj(map["type" := Str("message"), "token" := Str(t1), "message" := Str("hi")]);
    var frames := [Frame(login, ok), Frame(login, ok), Frame(post, ok)];
    var t := Run(Store({}, []), secret, jwt, frames);
    assert IsRequest(login, "login") && Get(login, "uname") == Str("alice");
    assert IsRequest(post, "message") && Get(post, "token") == Str(t1) && Get(post, "message") == Str("hi");
    assert Dispatch(t.stores[0], secret, jwt, ok, login) == Reply(t.responses[0], t.stores[1]);
    assert Dispatch(t.stores[1], secret, jwt, ok, login) == Reply(t.responses[1], t.stores[2]);
    assert Dispatch(t.stores[2], secret, jwt, ok, post) == Reply(t.responses[2], t.stores[3]);
    assert Snapshot([("alice", "hi")]) == [ConvMessage(("alice", "hi"))];
  }
}
