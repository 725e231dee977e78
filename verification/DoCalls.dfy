/**
 What each `Do` call does, whatever the others do at the same time: its requests, its
 invalidations, and its one retry (internal/clients/strapi/strapi.go).
 */
module DoCalls {
  import opened Outcomes
  import opened TokenClient

  /** What a step of a call may be. */
  datatype Kind = AnyStep | Request | Rejection | Invalidation

  /** The event is such a step of call `t`. */
  predicate Is(s: Shared, e: Event, t: nat, kind: Kind) {
    && CanHappen(s, e) && !e.Start? && e.t == t
    && match kind
       case AnyStep => true
       case Request => e.Sent?
       case Rejection => e.Sent? && e.reply == Response(401) && !s.calls[t].pc.retry
       case Invalidation => e.Invalidate?
  }

  /** How often call `t` has taken such a step. */
  function Taken(es: seq<Event>, t: nat, kind: Kind): nat {
    if es == [] then 0
    else
      var init := es[..|es| - 1];
      Taken(init, t, kind) + if Is(Run(IDLE, init), es[|es| - 1], t, kind) then 1 else 0
  }

  /** The requests, first attempts answered 401 and invalidations of a call that stands where `c` does. */
  predicate Counted(c: Call, requests: nat, rejections: nat, invalidations: nat) {
    match c.pc
    case WantInvalidate => requests == 1 && rejections == 1 && invalidations == 0
    case Done(reply) =>
      || (c.first == 0 && c.second == 0 && reply == RequestFailed
          && requests == 0 && rejections == 0 && invalidations == 0)
      || (c.first > 0 && c.cutoff == 0 && c.second == 0 && reply != Response(401)
          && requests == 1 && rejections == 0 && invalidations == 0)
      || (c.cutoff > 0 && c.second == 0 && reply == RequestFailed
          && requests == 1 && rejections == 1 && invalidations == 1)
      || (c.second > 0 && requests == 2 && rejections == 1 && invalidations == 1)
    case _ =>
      if c.pc.retry then requests == 1 && rejections == 1 && invalidations == 1
      else requests == 0 && rejections == 0 && invalidations == 0
  }

  lemma CountedStep(s: Shared, e: Event, t: nat, requests: nat, rejections: nat, invalidations: nat)
    requires Inv(s) && t < |s.calls| && Counted(s.calls[t], requests, rejections, invalidations)
    ensures t < |Step(s, e).calls|
    ensures Counted(Step(s, e).calls[t],
                    requests + if Is(s, e, t, Request) then 1 else 0,
                    rejections + if Is(s, e, t, Rejection) then 1 else 0,
                    invalidations + if Is(s, e, t, Invalidation) then 1 else 0)
  {
    assert CallOk(s.calls[t], s.begun, Armed(s));
  }

  lemma CallsStay(s: Shared, e: Event)
    ensures |s.calls| <= |Step(s, e).calls| <= |s.calls| + 1
    ensures |Step(s, e).calls| == |s.calls| + 1 ==> Step(s, e).calls[|s.calls|] == NEW_CALL
  {
  }

  lemma {:induction false} NotBegun(es: seq<Event>, t: nat, kind: Kind)
    requires t >= |Run(IDLE, es).calls|
    ensures Taken(es, t, kind) == 0
  {
    if es == [] {
    } else {
      CallsStay(Run(IDLE, es[..|es| - 1]), es[|es| - 1]);
      NotBegun(es[..|es| - 1], t, kind);
    }
  }

  lemma {:induction false} CallIsCounted(es: seq<Event>, t: nat)
    requires t < |Run(IDLE, es).calls|
    ensures Counted(Run(IDLE, es).calls[t],
                    Taken(es, t, Request), Taken(es, t, Rejection), Taken(es, t, Invalidation))
  {
    if es == [] {
    } else {
      var init, e := es[..|es| - 1], es[|es| - 1];
      var s := Run(IDLE, init);
      CallsStay(s, e);
      if t < |s.calls| {
        CallIsCounted(init, t);
        Reachable(init);
        CountedStep(s, e, t, Taken(init, t, Request), Taken(init, t, Rejection), Taken(init, t, Invalidation));
      } else {
        NotBegun(init, t, Request);
        NotBegun(init, t, Rejection);
        NotBegun(init, t, Invalidation);
      }
    }
  }

  /**
   At most two requests and one invalidation; an invalidation only after a first attempt was
   answered 401, a second request only after an invalidation. Done means retried exactly if rejected.
   */
  predicate OnceRetried(c: Call, requests: nat, rejections: nat, invalidations: nat) {
    && requests <= 1 + invalidations
    && invalidations <= rejections <= 1
    && (c.pc.Done? ==>
          && invalidations == rejections
          && (requests == 2 <==> c.second > 0)
          && (c.pc.reply == Response(401) ==> requests == 2))
  }

  lemma CountedMeaning(c: Call, requests: nat, rejections: nat, invalidations: nat)
    requires Counted(c, requests, rejections, invalidations)
    ensures OnceRetried(c, requests, rejections, invalidations)
  {
  }

  /** Every call, in every interleaving, is retried at most once, and only when its first attempt was answered 401. */
  lemma RetriedOnce(es: seq<Event>, t: nat)
    requires t < |Run(IDLE, es).calls|
    ensures OnceRetried(Run(IDLE, es).calls[t],
                        Taken(es, t, Request), Taken(es, t, Rejection), Taken(es, t, Invalidation))
  {
    CallIsCounted(es, t);
    CountedMeaning(Run(IDLE, es).calls[t],
                   Taken(es, t, Request), Taken(es, t, Rejection), Taken(es, t, Invalidation));
  }

  /** A call takes at most seven steps, whatever the others do. */
  lemma {:induction false} BoundedWork(es: seq<Event>, t: nat)
    requires t < |Run(IDLE, es).calls|
    ensures Taken(es, t, AnyStep) + Left(Run(IDLE, es).calls[t].pc) <= 7
  {
    if es == [] {
    } else {
      var init, e := es[..|es| - 1], es[|es| - 1];
      var s := Run(IDLE, init);
      CallsStay(s, e);
      if t >= |s.calls| {
        NotBegun(init, t, AnyStep);
      } else {
        BoundedWork(init, t);
        if CanHappen(s, e) && !e.Start? {
          StepsRunOut(s, e, t);
        }
      }
    }
  }

  // ------------------------------------- the code's `Do` among the other calls

  /** None of the events is a step of call `t`. */
  predicate Others(es: seq<Event>, t: nat) {
    forall e :: e in es && !e.Start? ==> e.t != t
  }

  lemma OthersKeepStep(s: Shared, e: Event, t: nat)
    requires LockOk(s) && t < |s.calls| && (!e.Start? ==> e.t != t)
    ensures Step(s, e).calls[t] == s.calls[t]
    ensures s.holder == Some(t) ==> Step(s, e).holder == Some(t) && Step(s, e).token == s.token
  {
  }

  /** The other calls cannot touch a call, and not even the token while that call holds the mutex. */
  lemma {:induction false} OthersKeep(s: Shared, es: seq<Event>, t: nat)
    requires LockOk(s) && t < |s.calls| && Others(es, t)
    ensures var s' := Run(s, es);
            && LockOk(s') && |s.calls| <= |s'.calls| && s'.calls[t] == s.calls[t]
            && (s.holder == Some(t) ==> s'.holder == Some(t) && s'.token == s.token)
  {
    if es == [] {
    } else {
      var init, e := es[..|es| - 1], es[|es| - 1];
      assert e in es && forall x :: x in init ==> x in es;
      OthersKeep(s, init, t);
      LockStep(Run(s, init), e);
      CallsStay(Run(s, init), e);
      OthersKeepStep(Run(s, init), e, t);
    }
  }

  /** The token section of call `t`: `tokenLocked`, with other calls' events while it logs in. */
  function Section(s: Shared, t: nat, login: LoginReply, gap: seq<Event>): Shared {
    Step(Run(Step(s, Acquire(t)), gap), LoggedIn(t, login))
  }

  /** The tokens a token section takes for requests: the one `tokenLocked` returns, if it does. */
  function Taking(tok: Option<string>): seq<string> {
    match tok
    case None => []
    case Some(token) => [token]
  }

  /**
   However long the login takes and whatever runs meanwhile, a token section does what
   `tokenLocked` does, and the call goes on with the token that it returns.
   */
  lemma SectionIsLocked(s: Shared, t: nat, login: LoginReply, gap: seq<Event>)
    requires LockOk(s) && s.holder.None? && t < |s.calls| && s.calls[t].pc.WantToken? && Others(gap, t)
    ensures var s', locked := Section(s, t, login, gap), Locked(s.token, login);
            && LockOk(s') && |s.calls| <= |s'.calls|
            && s'.calls[t].pc == (if locked.1.None? then Done(RequestFailed) else Sending(s.calls[t].pc.retry))
            && s'.calls[t].bearers == s.calls[t].bearers + Taking(locked.1)
            && (s.token == "" ==> s'.token == locked.0)
  {
    var s1 := Step(s, Acquire(t));
    LockStep(s, Acquire(t));
    OthersKeep(s1, gap, t);
    LockStep(Run(s1, gap), LoggedIn(t, login));
  }

  /** One attempt of call `t`, with other calls' events in the gaps. */
  function AttemptAmong(
    s: Shared, t: nat, login: LoginReply, reply: Reply, gap: seq<Event>, gap': seq<Event>): Shared
  {
    Step(Run(Section(s, t, login, gap), gap'), Sent(t, reply))
  }

  lemma AttemptIsAttempted(
    s: Shared, t: nat, login: LoginReply, reply: Reply, gap: seq<Event>, gap': seq<Event>)
    requires LockOk(s) && s.holder.None? && t < |s.calls| && s.calls[t].pc.WantToken?
    requires Others(gap, t) && Others(gap', t)
    ensures var s', done := AttemptAmong(s, t, login, reply, gap, gap'), Attempted(s.token, login, reply, "");
            && LockOk(s') && |s.calls| <= |s'.calls|
            && s'.calls[t].bearers == s.calls[t].bearers + done.bearers
            && s'.calls[t].pc == if done.reply == Response(401) && !s.calls[t].pc.retry then WantInvalidate
                                 else Done(done.reply)
  {
    SectionIsLocked(s, t, login, gap);
    OthersKeep(Section(s, t, login, gap), gap', t);
    LockStep(Run(Section(s, t, login, gap), gap'), Sent(t, reply));
  }

  /** What the other calls do during a `Do`: in its attempts, before it invalidates, and before it tries again. */
  datatype Gaps = Gaps(login1: seq<Event>, send1: seq<Event>, invalidate: seq<Event>,
                       retry: seq<Event>, login2: seq<Event>, send2: seq<Event>)

  predicate AllOthers(g: Gaps, t: nat) {
    && Others(g.login1, t) && Others(g.send1, t) && Others(g.invalidate, t)
    && Others(g.retry, t) && Others(g.login2, t) && Others(g.send2, t)
  }

  /** Where call `t` is when its first attempt is over, when it invalidates, and when it tries again. */
  function Tried(s: Shared, t: nat, r: Replies, g: Gaps): Shared {
    AttemptAmong(s, t, r.login1, r.reply1, g.login1, g.send1)
  }

  function Dropping(s: Shared, t: nat, r: Replies, g: Gaps): Shared {
    Run(Tried(s, t, r, g), g.invalidate)
  }

  function Retrying(s: Shared, t: nat, r: Replies, g: Gaps): Shared {
    Run(Step(Dropping(s, t, r, g), Invalidate(t)), g.retry)
  }

  /** Where it ends. */
  function Ended(s: Shared, t: nat, r: Replies, g: Gaps): Shared {
    AttemptAmong(Retrying(s, t, r, g), t, r.login2, r.reply2, g.login2, g.send2)
  }

  /** The first attempt was answered 401, so the call goes on. */
  predicate TriesAgain(s: Shared, t: nat, r: Replies, g: Gaps) {
    t < |Tried(s, t, r, g).calls| && Tried(s, t, r, g).calls[t].pc.WantInvalidate?
  }

  /** The mutex is free each time the call takes it. */
  predicate Admitted(s: Shared, t: nat, r: Replies, g: Gaps) {
    && s.holder.None?
    && (TriesAgain(s, t, r, g) ==> Dropping(s, t, r, g).holder.None? && Retrying(s, t, r, g).holder.None?)
  }

  /** The tokens that the others leave. */
  function LeftBy(s: Shared, t: nat, r: Replies, g: Gaps): Lefts {
    Lefts(Tried(s, t, r, g).token, Retrying(s, t, r, g).token, Ended(s, t, r, g).token)
  }

  lemma {:induction false} DoneIsDone(s: Shared, t: nat, r: Replies, g: Gaps)
    requires LockOk(Tried(s, t, r, g)) && AllOthers(g, t)
    requires t < |Tried(s, t, r, g).calls| && Tried(s, t, r, g).calls[t].pc.Done?
    ensures t < |Ended(s, t, r, g).calls| && Ended(s, t, r, g).calls[t] == Tried(s, t, r, g).calls[t]
  {
    var s1, s2, s3 := Tried(s, t, r, g), Dropping(s, t, r, g), Retrying(s, t, r, g);
    OthersKeep(s1, g.invalidate, t);
    OthersKeep(s2, g.retry, t);
    OthersKeep(s3, g.login2, t);
    OthersKeep(Run(s3, g.login2), g.send2, t);
  }

  /** The second attempt, where the first was answered 401. */
  lemma RetryAmongOthers(s: Shared, t: nat, r: Replies, g: Gaps)
    requires LockOk(Tried(s, t, r, g)) && TriesAgain(s, t, r, g) && AllOthers(g, t) && Admitted(s, t, r, g)
    ensures t < |Ended(s, t, r, g).calls|
    ensures var call := Ended(s, t, r, g).calls[t];
            var second := Attempted(Retrying(s, t, r, g).token, r.login2, r.reply2, Ended(s, t, r, g).token);
            call.pc == Done(second.reply) && call.bearers == Tried(s, t, r, g).calls[t].bearers + second.bearers
  {
    var s1, s2, s3 := Tried(s, t, r, g), Dropping(s, t, r, g), Retrying(s, t, r, g);
    OthersKeep(s1, g.invalidate, t);
    LockStep(s2, Invalidate(t));
    OthersKeep(Step(s2, Invalidate(t)), g.retry, t);
    AttemptIsAttempted(s3, t, r.login2, r.reply2, g.login2, g.send2);
  }

  /**
   The code's `Do` in any interleaving: wherever the other calls' events fall, the call ends
   with the reply that `Do` returns among the tokens they leave, and its requests carry the
   tokens that those of `Do` do.
   */
  lemma DoAmongOthers(s: Shared, t: nat, r: Replies, g: Gaps)
    requires LockOk(s) && t < |s.calls| && s.calls[t].pc == WantToken(false)
    requires AllOthers(g, t) && Admitted(s, t, r, g)
    ensures t < |Ended(s, t, r, g).calls|
    ensures var call, done := Ended(s, t, r, g).calls[t], Among(s.token, r, LeftBy(s, t, r, g));
            call.pc == Done(done.reply) && call.bearers == s.calls[t].bearers + done.bearers
  {
    AttemptIsAttempted(s, t, r.login1, r.reply1, g.login1, g.send1);
    if Tried(s, t, r, g).calls[t].pc.Done? {
      DoneIsDone(s, t, r, g);
    } else {
      RetryAmongOthers(s, t, r, g);
    }
  }

  lemma AttemptAlone(s: Shared, t: nat, login: LoginReply, reply: Reply)
    requires LockOk(s) && s.holder.None? && t < |s.calls| && s.calls[t].pc.WantToken?
    ensures var s', done := AttemptAmong(s, t, login, reply, [], []),
                            Attempted(s.token, login, reply, Locked(s.token, login).0);
            && LockOk(s') && s'.holder.None? && |s'.calls| == |s.calls| && s'.token == done.token
            && s'.calls[t].bearers == s.calls[t].bearers + done.bearers
            && s'.calls[t].pc == if done.reply == Response(401) && !s.calls[t].pc.retry then WantInvalidate
                                 else Done(done.reply)
  {
    AttemptIsAttempted(s, t, login, reply, [], []);
  }

  /** What `Do` leaves of the token when no other call runs. */
  function LeftAlone(token: string, r: Replies): Lefts {
    Lefts(Locked(token, r.login1).0, "", Locked("", r.login2).0)
  }

  /** Alone, a call finds the mutex free, tries again without a token, and leaves the token and the reply of `Do`. */
  lemma DoAlone(s: Shared, t: nat, r: Replies)
    requires LockOk(s) && s.holder.None? && t < |s.calls| && s.calls[t].pc == WantToken(false)
    ensures var g := Gaps([], [], [], [], [], []);
            var s', done := Ended(s, t, r, g), Among(s.token, r, LeftAlone(s.token, r));
            && t < |s'.calls| && s'.token == done.token
            && s'.calls[t].pc == Done(done.reply) && s'.calls[t].bearers == s.calls[t].bearers + done.bearers
  {
    var g := Gaps([], [], [], [], [], []);
    AttemptAlone(s, t, r.login1, r.reply1);
    if Tried(s, t, r, g).calls[t].pc.Done? {
      DoneIsDone(s, t, r, g);
    } else {
      LockStep(Tried(s, t, r, g), Invalidate(t));
      AttemptAlone(Retrying(s, t, r, g), t, r.login2, r.reply2);
    }
  }
}
