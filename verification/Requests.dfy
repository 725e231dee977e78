/**
 The requests of each `Do` call, in every interleaving: which replies they got, what the call did
 about them, and which tokens they carried (internal/clients/strapi/strapi.go).
 */
module Requests {
  import opened TokenClient
  import opened DoCalls

  // ----------------------------------------------------------------- replies

  /** The replies to the requests of call `t`, in order. */
  function RepliesOf(es: seq<Event>, t: nat): seq<Reply> {
    if es == [] then []
    else
      var init, e := es[..|es| - 1], es[|es| - 1];
      RepliesOf(init, t) + if Is(Run(IDLE, init), e, t, Request) then [e.reply] else []
  }

  /** How a call ends, by the replies it got, the tokens it had and its invalidations. */
  predicate EndsWith(reply: Reply, replies: seq<Reply>, bearers: seq<string>, invalidations: nat) {
    && |bearers| == |replies|
    && match |replies|
       case 0 => reply == RequestFailed && invalidations == 0
       case 1 => if replies[0] == Response(401) then reply == RequestFailed && invalidations == 1
                 else reply == replies[0] && invalidations == 0
       case 2 => replies[0] == Response(401) && reply == replies[1] && invalidations == 1
       case _ => false
  }

  /** What a call has done so far, by where it stands. */
  predicate History(c: Call, replies: seq<Reply>, invalidations: nat) {
    match c.pc
    case Done(reply) => EndsWith(reply, replies, c.bearers, invalidations)
    case WantInvalidate => replies == [Response(401)] && |c.bearers| == 1 && invalidations == 0
    case Sending(retry) =>
      if retry then replies == [Response(401)] && |c.bearers| == 2 && invalidations == 1
      else replies == [] && |c.bearers| == 1 && invalidations == 0
    case _ =>
      if c.pc.retry then replies == [Response(401)] && |c.bearers| == 1 && invalidations == 1
      else replies == [] && |c.bearers| == 0 && invalidations == 0
  }

  lemma HistoryStep(s: Shared, e: Event, t: nat, replies: seq<Reply>, invalidations: nat)
    requires t < |s.calls| && History(s.calls[t], replies, invalidations)
    ensures t < |Step(s, e).calls|
    ensures History(Step(s, e).calls[t],
                    replies + if Is(s, e, t, Request) then [e.reply] else [],
                    invalidations + if Is(s, e, t, Invalidation) then 1 else 0)
  {
  }

  lemma {:induction false} NoReplies(es: seq<Event>, t: nat)
    requires t >= |Run(IDLE, es).calls|
    ensures RepliesOf(es, t) == []
  {
    if es == [] {
    } else {
      CallsStay(Run(IDLE, es[..|es| - 1]), es[|es| - 1]);
      NoReplies(es[..|es| - 1], t);
    }
  }

  lemma LastReply(es: seq<Event>, t: nat, s: Shared)
    requires es != [] && s == Run(IDLE, es[..|es| - 1])
    ensures RepliesOf(es, t) == RepliesOf(es[..|es| - 1], t)
                                + if Is(s, es[|es| - 1], t, Request) then [es[|es| - 1].reply] else []
    ensures Taken(es, t, Invalidation) == Taken(es[..|es| - 1], t, Invalidation)
                                          + if Is(s, es[|es| - 1], t, Invalidation) then 1 else 0
    ensures Run(IDLE, es) == Step(s, es[|es| - 1])
  {
  }

  lemma NewHistory(s: Shared, e: Event)
    requires |Step(s, e).calls| > |s.calls|
    ensures History(Step(s, e).calls[|s.calls|], [], 0)
    ensures !Is(s, e, |s.calls|, Request) && !Is(s, e, |s.calls|, Invalidation)
  {
  }

  /**
   What each call makes of its replies, whatever the others do. Nothing is sent without a token,
   and the call fails. An error or a status other than 401 is what it returns, and it sends
   nothing more. After a 401 it invalidates once, and returns the reply to one more request, or
   fails if it has no token for it.
   */
  lemma {:induction false} CallHistory(es: seq<Event>, t: nat)
    requires t < |Run(IDLE, es).calls|
    ensures History(Run(IDLE, es).calls[t], RepliesOf(es, t), Taken(es, t, Invalidation))
  {
    if es == [] {
    } else {
      var init, e := es[..|es| - 1], es[|es| - 1];
      var s := Run(IDLE, init);
      LastReply(es, t, s);
      CallsStay(s, e);
      if t < |s.calls| {
        CallHistory(init, t);
        HistoryStep(s, e, t, RepliesOf(init, t), Taken(init, t, Invalidation));
      } else {
        NoReplies(init, t);
        NotBegun(init, t, Invalidation);
        NewHistory(s, e);
      }
    }
  }

  // ------------------------------------------------------------------ tokens

  /** Event `k` of the run ended login `n`, with a body that has this token. */
  ghost predicate Gave(es: seq<Event>, k: nat, n: nat, token: string) {
    && k < |es| && es[k].LoggedIn? && CanHappen(Run(IDLE, es[..k]), es[k])
    && Run(IDLE, es[..k]).begun == n && es[k].login == LoginBody(token) && token != ""
  }

  /** The tokens given after an event. */
  function IssuedNext(s: Shared, e: Event, issued: map<nat, string>): map<nat, string> {
    if CanHappen(s, e) && e.LoggedIn? && e.login.LoginBody? && e.login.token != ""
    then issued[s.begun := e.login.token] else issued
  }

  /** The tokens that logins have given, by the number of the login. */
  function Issued(es: seq<Event>): map<nat, string> {
    if es == [] then map[] else IssuedNext(Run(IDLE, es[..|es| - 1]), es[|es| - 1], Issued(es[..|es| - 1]))
  }

  lemma {:induction false} IssuedByLogin(es: seq<Event>, n: nat) returns (k: nat)
    requires n in Issued(es)
    ensures Gave(es, k, n, Issued(es)[n])
  {
    var init, e := es[..|es| - 1], es[|es| - 1];
    if CanHappen(Run(IDLE, init), e) && e.LoggedIn? && e.login.LoginBody? && e.login.token != ""
       && Run(IDLE, init).begun == n {
      k := |init|;
    } else {
      k := IssuedByLogin(init, n);
      assert init[..k] == es[..k];
    }
  }

  /** The call's requests carry the tokens of the logins it remembers. */
  predicate Carries(c: Call, issued: map<nat, string>) {
    && |c.bearers| == (if c.first > 0 then 1 else 0) + (if c.second > 0 then 1 else 0)
    && (c.second > 0 ==> c.first > 0)
    && (c.first > 0 ==> c.first in issued && c.bearers[0] == issued[c.first])
    && (c.second > 0 ==> c.second in issued && c.bearers[1] == issued[c.second])
  }

  /** A held token is the latest login's; a login under way has given none yet. */
  ghost predicate TokensOk(s: Shared, issued: map<nat, string>) {
    && (forall n :: n in issued ==> n <= s.begun && issued[n] != "")
    && (s.holder.Some? ==> s.begun !in issued)
    && (s.token != "" ==> s.begun in issued && issued[s.begun] == s.token)
    && forall t :: 0 <= t < |s.calls| ==> Carries(s.calls[t], issued)
  }

  lemma CarriesStep(s: Shared, e: Event, t: nat, issued: map<nat, string>, issued': map<nat, string>)
    requires Inv(s) && TokensOk(s, issued) && CanHappen(s, e) && t < |s.calls|
    requires forall n :: n in issued ==> n in issued' && issued'[n] == issued[n]
    requires e.LoggedIn? && Login(e.login).Some? ==> s.begun in issued' && issued'[s.begun] == e.login.token
    ensures Carries(Happen(s, e).calls[t], issued')
  {
    assert CallOk(s.calls[t], s.begun, Armed(s));
    assert Carries(s.calls[t], issued);
  }

  lemma NothingIsOverwritten(s: Shared, e: Event, issued: map<nat, string>)
    requires Inv(s) && TokensOk(s, issued)
    ensures forall n :: n in issued ==> n in IssuedNext(s, e, issued) && IssuedNext(s, e, issued)[n] == issued[n]
  {
  }

  lemma HeldStep(s: Shared, e: Event, issued: map<nat, string>)
    requires Inv(s) && TokensOk(s, issued)
    ensures var s', issued' := Step(s, e), IssuedNext(s, e, issued);
            && (forall n :: n in issued' ==> n <= s'.begun && issued'[n] != "")
            && (s'.holder.Some? ==> s'.begun !in issued')
            && (s'.token != "" ==> s'.begun in issued' && issued'[s'.begun] == s'.token)
  {
  }

  lemma TokensStep(s: Shared, e: Event, issued: map<nat, string>)
    requires Inv(s) && TokensOk(s, issued)
    ensures TokensOk(Step(s, e), IssuedNext(s, e, issued))
  {
    HeldStep(s, e, issued);
    NothingIsOverwritten(s, e, issued);
    if CanHappen(s, e) {
      forall t | 0 <= t < |s.calls| ensures Carries(Happen(s, e).calls[t], IssuedNext(s, e, issued)) {
        CarriesStep(s, e, t, issued, IssuedNext(s, e, issued));
      }
    }
  }

  lemma {:induction false} TokensRun(es: seq<Event>)
    ensures TokensOk(Run(IDLE, es), Issued(es))
  {
    if es == [] {
    } else {
      var init := es[..|es| - 1];
      TokensRun(init);
      Reachable(init);
      TokensStep(Run(IDLE, init), es[|es| - 1], Issued(init));
    }
  }

  /**
   The tokens of each call's requests, in every interleaving: none is empty, and each is the
   token in the body that ended the login the call remembers for it.
   */
  lemma BearersAreIssued(es: seq<Event>, t: nat, i: nat) returns (k: nat)
    requires t < |Run(IDLE, es).calls| && i < |Run(IDLE, es).calls[t].bearers|
    ensures var c := Run(IDLE, es).calls[t];
            i <= 1 && c.bearers[i] != "" && Gave(es, k, if i == 0 then c.first else c.second, c.bearers[i])
  {
    TokensRun(es);
    var c := Run(IDLE, es).calls[t];
    assert Carries(c, Issued(es));
    k := IssuedByLogin(es, if i == 0 then c.first else c.second);
  }

  /** A call that finds a token held goes on with that one. */
  lemma HeldIsCarried(s: Shared, t: nat)
    requires CanHappen(s, Acquire(t)) && s.token != ""
    ensures var s' := Step(s, Acquire(t));
            s'.token == s.token && s'.calls[t].bearers == s.calls[t].bearers + [s.token] && s'.calls[t].pc.Sending?
  {
  }
}
