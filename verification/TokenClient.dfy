/**
 The authenticated client: one token under one mutex, a lazy login, and a single
 invalidate-and-retry on a 401 (internal/clients/strapi/strapi.go).
 */
module TokenClient {
  import opened Outcomes
  import opened GoStrings

  const UNAUTHORIZED := 401

  /** How POST /admin/login ends: an error, a status other than 200, or a body with this token. */
  datatype LoginReply = LoginFailed | LoginBody(token: string)

  /** How a request ends: an error, or a response with this status. */
  datatype Reply = RequestFailed | Response(status: nat)

  /** `login`: a body without a token is an error too. */
  function Login(reply: LoginReply): Option<string> {
    if reply.LoginBody? && reply.token != "" then Some(reply.token) else None
  }

  // ------------------------------------------------------------ construction

  datatype Credentials = Credentials(email: string, password: string)

  datatype Config = Config(endpoint: string, credentials: Credentials, insecureSkipTlsVerify: bool)

  /** The part of a client that never changes. */
  datatype Settings = Settings(endpoint: string, credentials: Credentials, insecureSkipTlsVerify: bool)

  datatype Error = EndpointRequired | CredentialsRequired

  /** `New`, without the allocation: the checks, and the endpoint without its trailing slashes. */
  function New(cfg: Config): Result<Settings, Error> {
    if cfg.endpoint == "" then Err(EndpointRequired)
    else if cfg.credentials.email == "" || cfg.credentials.password == "" then Err(CredentialsRequired)
    else Ok(Settings(TrimRight(cfg.endpoint, '/'), cfg.credentials, cfg.insecureSkipTlsVerify))
  }

  lemma {:induction false} TrimSlash(s: string)
    ensures TrimRight(s + "/", '/') == TrimRight(s, '/')
  {
    assert (s + "/")[..|s|] == s;
  }

  /**
   `New` refuses a configuration with a missing part and nothing else; it keeps the credentials,
   and of the endpoint everything but trailing slashes, so one more slash makes no difference.
   */
  lemma NewMeaning(cfg: Config)
    ensures New(cfg).Ok? <==> cfg.endpoint != "" && cfg.credentials.email != "" && cfg.credentials.password != ""
    ensures New(cfg) == Err(EndpointRequired) <==> cfg.endpoint == ""
    ensures New(cfg).Ok? ==>
              var s := New(cfg).value;
              && s.credentials == cfg.credentials && s.insecureSkipTlsVerify == cfg.insecureSkipTlsVerify
              && s.endpoint <= cfg.endpoint && (s.endpoint == "" || s.endpoint[|s.endpoint| - 1] != '/')
              && (forall i :: |s.endpoint| <= i < |cfg.endpoint| ==> cfg.endpoint[i] == '/')
    ensures cfg.endpoint != "" ==> New(cfg.(endpoint := cfg.endpoint + "/")) == New(cfg)
  {
    TrimSlash(cfg.endpoint);
  }

  // ------------------------------------------------------- concurrent calls

  /** Where one `Do` stands. `retry` tells its second attempt from its first. */
  datatype Pc =
    | WantToken(retry: bool)
    | LoggingIn(retry: bool)
    | Sending(retry: bool)
    | WantInvalidate
    | Done(reply: Reply)

  /**
   One `Do` call, and its history: the login behind its first token, the logins begun when it
   invalidated, and the login behind its second token. Logins are numbered from 1 as they begin.
   `bearers` are the tokens it took for its requests.
   */
  datatype Call = Call(pc: Pc, first: nat, cutoff: nat, second: nat, bearers: seq<string>)

  const NEW_CALL := Call(WantToken(false), 0, 0, 0, [])

  /** The shared client: its token, the mutex, the calls in flight, and counters of what has happened. */
  datatype Shared = Shared(
    token: string, holder: Option<nat>, calls: seq<Call>,
    minted: nat,          // the login behind the token held
    begun: nat,           // logins begun
    logins: nat,          // logins that gave a token
    invalidations: nat,   // calls of invalidate
    cleared: nat,         // those that dropped a token
    rejected: nat)        // 401 responses to a first attempt

  datatype Event =
    | Start
    | Acquire(t: nat)
    | LoggedIn(t: nat, login: LoginReply)
    | Sent(t: nat, reply: Reply)
    | Invalidate(t: nat)

  const IDLE := Shared("", None, [], 0, 0, 0, 0, 0, 0)

  /** An event can happen: the mutex is free for those that take it. */
  predicate CanHappen(s: Shared, e: Event) {
    match e
    case Start => true
    case Acquire(t) => t < |s.calls| && s.calls[t].pc.WantToken? && s.holder.None?
    case LoggedIn(t, _) => t < |s.calls| && s.calls[t].pc.LoggingIn?
    case Sent(t, _) => t < |s.calls| && s.calls[t].pc.Sending?
    case Invalidate(t) => t < |s.calls| && s.calls[t].pc.WantInvalidate? && s.holder.None?
  }

  /** The call goes on to send with this token, which login `n` gave. */
  function WithToken(c: Call, n: nat, token: string): Call {
    if c.pc.WantToken? || c.pc.LoggingIn? then
      if c.pc.retry then c.(pc := Sending(true), second := n, bearers := c.bearers + [token])
      else c.(pc := Sending(false), first := n, bearers := c.bearers + [token])
    else c
  }

  function Happen(s: Shared, e: Event): Shared
    requires CanHappen(s, e)
  {
    match e
    case Start => s.(calls := s.calls + [NEW_CALL])
    case Acquire(t) =>
      var c := s.calls[t];
      if s.token != "" then s.(calls := s.calls[t := WithToken(c, s.minted, s.token)])
      else s.(holder := Some(t), begun := s.begun + 1, calls := s.calls[t := c.(pc := LoggingIn(c.pc.retry))])
    case LoggedIn(t, login) =>
      (match Login(login)
       case None => s.(holder := None, calls := s.calls[t := s.calls[t].(pc := Done(RequestFailed))])
       case Some(token) =>
         s.(holder := None, token := token, minted := s.begun, logins := s.logins + 1,
         calls := s.calls[t := WithToken(s.calls[t], s.begun, token)]))
    case Sent(t, reply) =>
      var c := s.calls[t];
      if reply == Response(UNAUTHORIZED) && !c.pc.retry
      then s.(rejected := s.rejected + 1, calls := s.calls[t := c.(pc := WantInvalidate)])
      else s.(calls := s.calls[t := c.(pc := Done(reply))])
    case Invalidate(t) =>
      s.(token := "", invalidations := s.invalidations + 1,
      cleared := s.cleared + if s.token != "" then 1 else 0,
      calls := s.calls[t := s.calls[t].(pc := WantToken(true), cutoff := s.begun)])
  }

  /** An event that cannot happen changes nothing, so every sequence of events is a schedule. */
  function Step(s: Shared, e: Event): Shared {
    if CanHappen(s, e) then Happen(s, e) else s
  }

  function Run(s: Shared, es: seq<Event>): Shared {
    if es == [] then s else Step(Run(s, es[..|es| - 1]), es[|es| - 1])
  }

  // -------------------------------------------------------------- invariants

  predicate Fresh(c: Call) {
    c.first == c.cutoff == c.second == 0
  }

  predicate SentOnce(c: Call, begun: nat) {
    1 <= c.first <= begun && c.cutoff == c.second == 0
  }

  predicate Dropped(c: Call, begun: nat) {
    1 <= c.first <= c.cutoff <= begun && c.second == 0
  }

  predicate Retried(c: Call, begun: nat) {
    1 <= c.first <= c.cutoff < c.second <= begun
  }

  /**
   What is known about one call after `begun` logins, where `armed` says that a token is held
   or a login is under way: that token is then newer than any pending invalidation.
   */
  predicate CallOk(c: Call, begun: nat, armed: bool) {
    match c.pc
    case WantToken(retry) => if retry then Dropped(c, begun) && (armed ==> c.cutoff < begun) else Fresh(c)
    case LoggingIn(retry) => begun > 0 && if retry then Dropped(c, begun) && c.cutoff < begun else Fresh(c)
    case Sending(retry) => if retry then Retried(c, begun) else SentOnce(c, begun)
    case WantInvalidate => SentOnce(c, begun)
    case Done(reply) =>
      SentOnce(c, begun) || Retried(c, begun) || (reply.RequestFailed? && (Fresh(c) || Dropped(c, begun)))
  }

  predicate Armed(s: Shared) {
    s.token != "" || s.holder.Some?
  }

  ghost predicate CallsOk(s: Shared) {
    forall t :: 0 <= t < |s.calls| ==> CallOk(s.calls[t], s.begun, Armed(s))
  }

  /** The mutex is held exactly while its holder logs in, and a held token is the latest login's. */
  ghost predicate LockOk(s: Shared) {
    && (s.holder.Some? ==>
          s.holder.value < |s.calls| && s.calls[s.holder.value].pc.LoggingIn? && s.token == "" && s.begun >= 1)
    && (forall t :: 0 <= t < |s.calls| && s.calls[t].pc.LoggingIn? ==> s.holder == Some(t))
    && (s.token != "" ==> 1 <= s.minted == s.begun)
  }

  /** The calls that were answered 401 and have not invalidated yet. */
  function Pending(calls: seq<Call>): nat {
    if calls == [] then 0
    else Pending(calls[..|calls| - 1]) + if calls[|calls| - 1].pc.WantInvalidate? then 1 else 0
  }

  ghost predicate CountsOk(s: Shared) {
    && s.logins == s.cleared + (if s.token != "" then 1 else 0)
    && s.cleared <= s.invalidations
    && s.invalidations + Pending(s.calls) == s.rejected
  }

  /** A call has a token only after some login gave one. */
  ghost predicate PaidOk(s: Shared) {
    forall t :: 0 <= t < |s.calls| && s.calls[t].first > 0 ==> s.logins > 0
  }

  ghost predicate Inv(s: Shared) {
    LockOk(s) && CallsOk(s) && CountsOk(s) && PaidOk(s)
  }

  lemma LockStep(s: Shared, e: Event)
    requires LockOk(s)
    ensures LockOk(Step(s, e))
  {
  }

  lemma CallOkLater(c: Call, begun: nat, armed: bool, begun': nat, armed': bool)
    requires CallOk(c, begun, armed) && begun <= begun' && (armed' ==> armed || begun < begun')
    ensures CallOk(c, begun', armed')
  {
  }

  lemma ChangedCallOk(s: Shared, e: Event, t: nat)
    requires LockOk(s) && CallsOk(s) && CanHappen(s, e) && t < |s.calls|
    requires Happen(s, e).calls[t] != s.calls[t]
    ensures CallOk(Happen(s, e).calls[t], Happen(s, e).begun, Armed(Happen(s, e)))
  {
    assert CallOk(s.calls[t], s.begun, Armed(s));
  }

  lemma CallsStep(s: Shared, e: Event)
    requires LockOk(s) && CallsOk(s)
    ensures CallsOk(Step(s, e))
  {
    if CanHappen(s, e) {
      var s' := Happen(s, e);
      forall t | 0 <= t < |s'.calls| ensures CallOk(s'.calls[t], s'.begun, Armed(s')) {
        if t < |s.calls| && s'.calls[t] == s.calls[t] {
          CallOkLater(s.calls[t], s.begun, Armed(s), s'.begun, Armed(s'));
        } else if t < |s.calls| {
          ChangedCallOk(s, e, t);
        }
      }
    }
  }

  lemma {:induction false} PendingUpdate(calls: seq<Call>, t: nat, c: Call)
    requires t < |calls|
    ensures Pending(calls[t := c])
         == Pending(calls) - (if calls[t].pc.WantInvalidate? then 1 else 0) + (if c.pc.WantInvalidate? then 1 else 0)
  {
    var n := |calls| - 1;
    if t == n {
      assert calls[t := c][..n] == calls[..n];
    } else {
      PendingUpdate(calls[..n], t, c);
      assert calls[t := c][..n] == calls[..n][t := c];
    }
  }

  /** 1 if the event brings its call to an invalidation, -1 if it invalidates. */
  function PendingChange(s: Shared, e: Event): int
    requires CanHappen(s, e)
  {
    match e
    case Sent(t, reply) => if reply == Response(UNAUTHORIZED) && !s.calls[t].pc.retry then 1 else 0
    case Invalidate(t) => -1
    case _ => 0
  }

  lemma PendingStep(s: Shared, e: Event)
    requires CanHappen(s, e)
    ensures Pending(Happen(s, e).calls) == Pending(s.calls) + PendingChange(s, e)
  {
    var s' := Happen(s, e);
    if e.Start? {
      assert s'.calls[..|s.calls|] == s.calls;
    } else {
      PendingUpdate(s.calls, e.t, s'.calls[e.t]);
    }
  }

  lemma CountsStep(s: Shared, e: Event)
    requires LockOk(s) && CountsOk(s)
    ensures CountsOk(Step(s, e))
  {
    if CanHappen(s, e) {
      PendingStep(s, e);
    }
  }

  lemma PaidStep(s: Shared, e: Event)
    requires CountsOk(s) && PaidOk(s)
    ensures PaidOk(Step(s, e))
  {
  }

  lemma InvStep(s: Shared, e: Event)
    requires Inv(s)
    ensures Inv(Step(s, e))
  {
    LockStep(s, e);
    CallsStep(s, e);
    CountsStep(s, e);
    PaidStep(s, e);
  }

  lemma IdleOk()
    ensures Inv(IDLE)
  {
  }

  lemma {:induction false} Reachable(es: seq<Event>)
    ensures Inv(Run(IDLE, es))
  {
    if es == [] {
    } else {
      Reachable(es[..|es| - 1]);
      InvStep(Run(IDLE, es[..|es| - 1]), es[|es| - 1]);
    }
  }

  /**
   In every interleaving, the token a call retries with comes from a login that began after
   that call invalidated, and so after the login behind its first token.
   */
  lemma RetryTokenIsNewer(es: seq<Event>, t: nat)
    requires t < |Run(IDLE, es).calls|
    ensures var c := Run(IDLE, es).calls[t];
            (c.pc == Sending(true) || c.second != 0) ==> 1 <= c.first <= c.cutoff < c.second
  {
    Reachable(es);
    var s := Run(IDLE, es);
    assert CallOk(s.calls[t], s.begun, Armed(s));
  }

  /** Nobody gets a response without a login: the request went out with a token that some login gave. */
  lemma ResponseNeedsLogin(s: Shared, t: nat)
    requires Inv(s) && t < |s.calls| && s.calls[t].pc.Done? && s.calls[t].pc.reply.Response?
    ensures s.calls[t].first >= 1 && s.logins >= 1
  {
    assert CallOk(s.calls[t], s.begun, Armed(s));
  }

  /**
   Login accounting in every interleaving: each successful login is paid for by an
   invalidation that dropped a token, or its token is still held. So there is at most one
   more login than first attempts answered 401.
   */
  lemma LoginAccounting(es: seq<Event>)
    ensures var s := Run(IDLE, es);
            && s.logins == s.cleared + (if s.token != "" then 1 else 0)
            && s.cleared <= s.invalidations <= s.rejected
            && s.logins <= 1 + s.rejected
  {
    Reachable(es);
  }

  lemma RunSnoc(s: Shared, es: seq<Event>, e: Event)
    ensures Run(s, es + [e]) == Step(Run(s, es), e)
  {
    assert (es + [e])[..|es|] == es;
  }

  lemma RunMore(s: Shared, es: seq<Event>, a: Event, b: Event, c: Event)
    ensures Run(s, es + [a, b, c]) == Step(Step(Step(Run(s, es), a), b), c)
  {
    RunSnoc(s, es, a);
    RunSnoc(s, es + [a], b);
    RunSnoc(s, es + [a] + [b], c);
    assert es + [a] + [b] + [c] == es + [a, b, c];
  }

  // ---------------------------------------------------------------- progress

  /** Steps a call can still take. */
  function Left(pc: Pc): nat {
    match pc
    case WantToken(retry) => if retry then 3 else 7
    case LoggingIn(retry) => if retry then 2 else 6
    case Sending(retry) => if retry then 1 else 5
    case WantInvalidate => 4
    case Done(_) => 0
  }

  /** A step of a call brings that call nearer to its end, and leaves every other call alone. */
  lemma StepsRunOut(s: Shared, e: Event, t: nat)
    requires CanHappen(s, e) && !e.Start? && t < |s.calls|
    ensures var s' := Happen(s, e);
            && |s'.calls| == |s.calls|
            && (t == e.t ==> Left(s'.calls[t].pc) < Left(s.calls[t].pc))
            && (t != e.t ==> s'.calls[t] == s.calls[t])
  {
  }

  /** As long as a call is not done, something can happen to some call: the mutex never locks everybody out. */
  lemma NoDeadlock(es: seq<Event>, t: nat)
    requires t < |Run(IDLE, es).calls| && !Run(IDLE, es).calls[t].pc.Done?
    ensures exists e: Event :: !e.Start? && CanHappen(Run(IDLE, es), e)
  {
    Reachable(es);
    var s := Run(IDLE, es);
    if s.holder.Some? {
      assert CanHappen(s, LoggedIn(s.holder.value, LoginFailed));
    } else {
      match s.calls[t].pc {
        case WantToken(_) => assert CanHappen(s, Acquire(t));
        case Sending(_) => assert CanHappen(s, Sent(t, RequestFailed));
        case WantInvalidate => assert CanHappen(s, Invalidate(t));
      }
    }
  }

  // -------------------------------------------------- the client of the code

  /** The replies one `Do` may meet. */
  datatype Replies = Replies(login1: LoginReply, reply1: Reply, login2: LoginReply, reply2: Reply)

  /** `tokenLocked`: the token afterwards, and the token returned. */
  function Locked(token: string, login: LoginReply): (string, Option<string>) {
    if token != "" then (token, Some(token))
    else
      match Login(login)
      case None => (token, None)
      case Some(tok) => (tok, Some(tok))
  }

  /** What a call has come to: the token held afterwards, its reply, and the tokens its requests carried. */
  datatype Ending = Ending(token: string, reply: Reply, bearers: seq<string>)

  /** `do`: without a token the request is not sent; `left` is the token that others have left when it ends. */
  function Attempted(token: string, login: LoginReply, reply: Reply, left: string): Ending {
    var locked := Locked(token, login);
    match locked.1
    case None => Ending(locked.0, RequestFailed, [])
    case Some(bearer) => Ending(left, reply, [bearer])
  }

  /** The token that others have left when the first attempt ends, the second begins, and the second ends. */
  datatype Lefts = Lefts(sent1: string, retry: string, sent2: string)

  /** `Do` among other calls. */
  function Among(token: string, r: Replies, left: Lefts): Ending {
    var first := Attempted(token, r.login1, r.reply1, left.sent1);
    if first.reply != Response(UNAUTHORIZED) then first
    else
      var second := Attempted(left.retry, r.login2, r.reply2, left.sent2);
      second.(bearers := first.bearers + second.bearers)
  }

  /** The token a client has for a request: the one held, or else the one of a login that gives one. */
  ghost predicate TokenFor(held: string, login: LoginReply, token: string) {
    token != "" && (token == held || (held == "" && login == LoginBody(token)))
  }

  /** The attempt came to nothing for want of a token. */
  ghost predicate NoToken(held: string, login: LoginReply) {
    forall token :: !TokenFor(held, login, token)
  }

  /** `tokenLocked` returns the token there is for a request and keeps it; else the token stays as it is. */
  lemma LockedMeaning(held: string, login: LoginReply)
    ensures forall token :: Locked(held, login).1 == Some(token) <==> TokenFor(held, login, token)
    ensures Locked(held, login).1 == None <==> NoToken(held, login)
    ensures forall token :: TokenFor(held, login, token) ==> Locked(held, login).0 == token
    ensures NoToken(held, login) ==> Locked(held, login).0 == held
  {
    var tok := Locked(held, login).1;
    if tok.Some? {
      assert TokenFor(held, login, tok.value);
    }
  }

  /**
   What `Do` does about a status. Without a token it sends nothing and fails. With one it sends,
   and anything but a 401 is what it returns. After a 401 it tries once more, with a token there
   is then: that reply is what it returns, even another 401.
   */
  lemma DoMeaning(held: string, r: Replies, left: Lefts)
    ensures NoToken(held, r.login1) ==> Among(held, r, left) == Ending(held, RequestFailed, [])
    ensures forall token :: TokenFor(held, r.login1, token) && r.reply1 != Response(401) ==>
                              Among(held, r, left) == Ending(left.sent1, r.reply1, [token])
    ensures forall token :: TokenFor(held, r.login1, token) && r.reply1 == Response(401)
                            && NoToken(left.retry, r.login2) ==>
                              Among(held, r, left) == Ending(left.retry, RequestFailed, [token])
    ensures forall token, token' :: TokenFor(held, r.login1, token) && r.reply1 == Response(401)
                                    && TokenFor(left.retry, r.login2, token') ==>
                                      Among(held, r, left) == Ending(left.sent2, r.reply2, [token, token'])
  {
    LockedMeaning(held, r.login1);
    LockedMeaning(left.retry, r.login2);
  }

  /** `Client`: what `New` made it from, and the token, with the methods that read and write it. */
  class Client {
    const settings: Settings
    var token: string

    constructor (settings: Settings)
      ensures this.settings == settings && token == ""
    {
      this.settings := settings;
      token := "";
    }

    method TokenLocked(login: LoginReply) returns (tok: Option<string>)
      modifies this
      ensures (token, tok) == Locked(old(token), login)
    {
      if token != "" {
        return Some(token);
      }
      tok := Login(login);
      if tok.Some? {
        token := tok.value;
      }
    }

    method Invalidate()
      modifies this
      ensures token == ""
    {
      token := "";
    }

    /** The request is sent with a bearer token, if there is one. */
    method Attempt(login: LoginReply, reply: Reply, left: string) returns (r: Reply, bearers: seq<string>)
      modifies this
      ensures Ending(token, r, bearers) == Attempted(old(token), login, reply, left)
    {
      var tok := TokenLocked(login);
      if tok.None? {
        return RequestFailed, [];
      }
      token := left;
      return reply, [tok.value];
    }

    /** The mutex is free while a request is under way and before the second attempt, so others may change the token. */
    method Do(rs: Replies, left: Lefts) returns (r: Reply, bearers: seq<string>)
      modifies this
      ensures Ending(token, r, bearers) == Among(old(token), rs, left)
    {
      r, bearers := Attempt(rs.login1, rs.reply1, left.sent1);
      if r != Response(UNAUTHORIZED) {
        return;
      }
      Invalidate();
      token := left.retry;
      var more;
      r, more := Attempt(rs.login2, rs.reply2, left.sent2);
      bearers := bearers + more;
    }
  }
}
