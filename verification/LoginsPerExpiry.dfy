/**
 One login per expired token: when the client of internal/clients/strapi/strapi.go keeps to it,
 and how far it is missed when calls overlap.
 */
module LoginsPerExpiry {
  import opened TokenClient

  // ------------------------------------------------------------ the property

  /** The first attempt of the call was answered 401. */
  predicate Rejected(c: Call) {
    c.pc.WantInvalidate? || c.cutoff > 0
  }

  /** The logins whose token some call saw rejected on its first attempt. */
  function Expired(calls: seq<Call>): set<nat> {
    set t | 0 <= t < |calls| && Rejected(calls[t]) :: calls[t].first
  }

  /** One login to begin with, and one for every token that expired. */
  predicate OneLoginPerExpiry(s: Shared) {
    s.logins <= 1 + |Expired(s.calls)|
  }

  /** Calls that are not done. */
  function Unfinished(calls: seq<Call>): nat {
    if calls == [] then 0
    else Unfinished(calls[..|calls| - 1]) + if calls[|calls| - 1].pc.Done? then 0 else 1
  }

  /** The schedule never has more than `n` calls in flight at once. */
  predicate InFlightAtMost(es: seq<Event>, n: nat) {
    forall k :: 0 <= k <= |es| ==> Unfinished(Run(IDLE, es[..k]).calls) <= n
  }

  // ------------------------------------------------------- one call at a time

  lemma {:induction false} UnfinishedAtMostAll(calls: seq<Call>)
    ensures Unfinished(calls) <= |calls|
  {
    if calls == [] {
    } else {
      UnfinishedAtMostAll(calls[..|calls| - 1]);
    }
  }

  lemma {:induction false} SomeUnfinished(calls: seq<Call>, t: nat)
    requires t < |calls| && !calls[t].pc.Done?
    ensures Unfinished(calls) >= 1
  {
    if t == |calls| - 1 {
    } else {
      SomeUnfinished(calls[..|calls| - 1], t);
    }
  }

  lemma {:induction false} OnlyOneUnfinished(calls: seq<Call>, t: nat, u: nat)
    requires Unfinished(calls) <= 1 && t < u < |calls|
    ensures calls[t].pc.Done? || calls[u].pc.Done?
  {
    var n := |calls| - 1;
    if u < n {
      OnlyOneUnfinished(calls[..n], t, u);
    } else if !calls[t].pc.Done? {
      SomeUnfinished(calls[..n], t);
    }
  }

  /** The logins whose token was rejected in a call that has invalidated. */
  function Invalidated(calls: seq<Call>): set<nat> {
    set t | 0 <= t < |calls| && calls[t].cutoff > 0 :: calls[t].first
  }

  /** A held token, or one being fetched, is newer than every invalidation so far. */
  ghost predicate CutsAreOld(s: Shared) {
    Armed(s) ==> forall t :: 0 <= t < |s.calls| ==> s.calls[t].cutoff < s.begun
  }

  lemma CutsAreOldStep(s: Shared, e: Event)
    requires Inv(s) && CutsAreOld(s)
    ensures CutsAreOld(Step(s, e))
  {
    assert forall t :: 0 <= t < |s.calls| ==> CallOk(s.calls[t], s.begun, Armed(s));
  }

  /** A call that has sent once and not invalidated sent the token that is held, if one is. */
  ghost predicate SentHeld(s: Shared) {
    forall t :: 0 <= t < |s.calls| && (s.calls[t].pc == Sending(false) || s.calls[t].pc.WantInvalidate?)
                ==> s.token != "" ==> s.calls[t].first == s.begun
  }

  lemma SentHeldStep(s: Shared, e: Event)
    requires Inv(s) && SentHeld(s) && Unfinished(s.calls) <= 1
    ensures SentHeld(Step(s, e))
  {
    if CanHappen(s, e) && !e.Start? {
      forall t | 0 <= t < |s.calls| && t != e.t ensures s.calls[t].pc.Done? {
        if t < e.t {
          OnlyOneUnfinished(s.calls, t, e.t);
        } else {
          OnlyOneUnfinished(s.calls, e.t, t);
        }
      }
    }
  }

  lemma Grows(a: set<nat>, b: set<nat>)
    requires a <= b
    ensures |a| <= |b|
  {
    assert b == a + (b - a);
  }

  /** Logins of earlier invalidations stay recorded, and an invalidation records the login of its call. */
  lemma InvalidatedGrows(s: Shared, e: Event)
    requires Inv(s)
    ensures Invalidated(s.calls) <= Invalidated(Step(s, e).calls)
    ensures e.Invalidate? && CanHappen(s, e) ==> s.calls[e.t].first in Invalidated(Step(s, e).calls)
  {
    if CanHappen(s, e) {
      var s' := Happen(s, e);
      assert forall t :: 0 <= t < |s.calls| ==> CallOk(s.calls[t], s.begun, Armed(s));
      assert forall t :: 0 <= t < |s.calls| && s.calls[t].cutoff > 0
                         ==> s'.calls[t].cutoff > 0 && s'.calls[t].first == s.calls[t].first;
      if e.Invalidate? {
        assert s'.calls[e.t].cutoff > 0;
      }
    }
  }

  /** A token held now belongs to a login that no invalidation was about. */
  lemma HeldIsNew(s: Shared)
    requires Inv(s) && CutsAreOld(s) && s.token != ""
    ensures s.begun !in Invalidated(s.calls)
  {
    assert forall t :: 0 <= t < |s.calls| ==> CallOk(s.calls[t], s.begun, Armed(s));
  }

  /** No login is paid for by two invalidations. */
  predicate ClearedOnce(s: Shared) {
    s.cleared <= |Invalidated(s.calls)|
  }

  lemma ClearedOnceStep(s: Shared, e: Event)
    requires Inv(s) && CutsAreOld(s) && SentHeld(s) && ClearedOnce(s)
    ensures ClearedOnce(Step(s, e))
  {
    var s' := Step(s, e);
    InvalidatedGrows(s, e);
    if e.Invalidate? && CanHappen(s, e) && s.token != "" {
      HeldIsNew(s);
      Grows(Invalidated(s.calls) + {s.begun}, Invalidated(s'.calls));
    } else {
      Grows(Invalidated(s.calls), Invalidated(s'.calls));
    }
  }

  lemma OneMore(s: Shared, e: Event)
    requires Inv(s) && CutsAreOld(s) && SentHeld(s) && ClearedOnce(s) && Unfinished(s.calls) <= 1
    ensures CutsAreOld(Step(s, e)) && SentHeld(Step(s, e)) && ClearedOnce(Step(s, e))
  {
    CutsAreOldStep(s, e);
    SentHeldStep(s, e);
    ClearedOnceStep(s, e);
  }

  lemma {:induction false} OneAtATime(es: seq<Event>)
    requires InFlightAtMost(es, 1)
    ensures CutsAreOld(Run(IDLE, es)) && SentHeld(Run(IDLE, es)) && ClearedOnce(Run(IDLE, es))
  {
    if es == [] {
    } else {
      var init, e := es[..|es| - 1], es[|es| - 1];
      assert forall k :: 0 <= k <= |init| ==> init[..k] == es[..k];
      OneAtATime(init);
      Reachable(init);
      OneMore(Run(IDLE, init), e);
    }
  }

  /** As long as calls do not overlap, there is one login per expired token. */
  lemma SequentialCalls(es: seq<Event>)
    requires InFlightAtMost(es, 1)
    ensures OneLoginPerExpiry(Run(IDLE, es))
  {
    OneAtATime(es);
    Reachable(es);
    var s := Run(IDLE, es);
    Grows(Invalidated(s.calls), Expired(s.calls));
  }

  // ----------------------------------------------------------- calls overlap

  const JWT := "jwt"

  /** `n` calls have sent the token of login 1; the first `k` of them were rejected and renewed it in turn. */
  predicate Renewed(s: Shared, n: nat, k: nat) {
    && k <= n && s.token == JWT && s.holder.None? && |s.calls| == n
    && s.minted == s.begun == s.logins == k + 1
    && s.rejected == s.invalidations == s.cleared == k
    && (forall t :: 0 <= t < n ==> s.calls[t].first == 1)
    && (forall t :: 0 <= t < k ==> s.calls[t].pc == Sending(true))
    && (forall t :: k <= t < n ==> s.calls[t].pc == Sending(false))
  }

  lemma {:induction false} AllSend(n: nat) returns (es: seq<Event>)
    requires n >= 1
    ensures Renewed(Run(IDLE, es), n, 0)
  {
    if n == 1 {
      es := [] + [Start, Acquire(0), LoggedIn(0, LoginBody(JWT))];
      RunMore(IDLE, [], Start, Acquire(0), LoggedIn(0, LoginBody(JWT)));
    } else {
      var es1 := AllSend(n - 1);
      es := es1 + [Start] + [Acquire(n - 1)];
      RunSnoc(IDLE, es1, Start);
      RunSnoc(IDLE, es1 + [Start], Acquire(n - 1));
    }
  }

  /** A rejection of the first token drops the token that is held, which is not the rejected one, and costs a login. */
  lemma NextRenews(s: Shared, n: nat, k: nat)
    requires k < n && Renewed(s, n, k)
    ensures var s1 := Step(Step(s, Sent(k, Response(UNAUTHORIZED))), Invalidate(k));
            Renewed(Step(Step(s1, Acquire(k)), LoggedIn(k, LoginBody(JWT))), n, k + 1)
  {
  }

  lemma {:induction false} SomeRenew(n: nat, k: nat) returns (es: seq<Event>)
    requires 1 <= n && k <= n
    ensures Renewed(Run(IDLE, es), n, k)
  {
    if k == 0 {
      es := AllSend(n);
    } else {
      var t := k - 1;
      var es1 := SomeRenew(n, t);
      NextRenews(Run(IDLE, es1), n, t);
      var es2 := es1 + [Sent(t, Response(UNAUTHORIZED)), Invalidate(t), Acquire(t)];
      RunMore(IDLE, es1, Sent(t, Response(UNAUTHORIZED)), Invalidate(t), Acquire(t));
      es := es2 + [LoggedIn(t, LoginBody(JWT))];
      RunSnoc(IDLE, es2, LoggedIn(t, LoginBody(JWT)));
    }
  }

  /** `n` calls that sent the token of one login and were all rejected, at the cost of `n` more logins. */
  predicate AllRenewed(s: Shared, n: nat) {
    && |s.calls| == n && s.rejected == n && s.logins == n + 1
    && forall t :: 0 <= t < n ==> s.calls[t].first == 1 && Rejected(s.calls[t])
  }

  /**
   The bound of `LoginAccounting` is reached by any number of calls that share one token: each
   rejection drops the token that the one before has just renewed.
   */
  lemma BoundIsReached(n: nat)
    requires n >= 1
    ensures exists es :: AllRenewed(Run(IDLE, es), n)
  {
    var es := SomeRenew(n, n);
    Reachable(es);
    var s := Run(IDLE, es);
    assert forall t :: 0 <= t < n ==> CallOk(s.calls[t], s.begun, Armed(s));
    assert AllRenewed(s, n);
  }

  lemma {:induction false} CallsOnlyGrow(es: seq<Event>, k: nat)
    requires k <= |es|
    ensures |Run(IDLE, es[..k]).calls| <= |Run(IDLE, es).calls|
  {
    if k == |es| {
      assert es[..k] == es;
    } else {
      CallsOnlyGrow(es[..|es| - 1], k);
      assert es[..|es| - 1][..k] == es[..k];
    }
  }

  /** Two overlapping calls can miss it. */
  lemma TwoCallsMissIt() returns (es: seq<Event>)
    ensures InFlightAtMost(es, 2) && !OneLoginPerExpiry(Run(IDLE, es))
  {
    es := SomeRenew(2, 2);
    var s := Run(IDLE, es);
    forall k | 0 <= k <= |es| ensures Unfinished(Run(IDLE, es[..k]).calls) <= 2 {
      UnfinishedAtMostAll(Run(IDLE, es[..k]).calls);
      CallsOnlyGrow(es, k);
    }
    Grows(Expired(s.calls), {1});
  }

  /**
   There is one login per expired token in every schedule with at most `n` calls in flight if
   and only if `n` is at most one.
   */
  lemma OneLoginPerExpiryIff(n: nat)
    ensures (forall es :: InFlightAtMost(es, n) ==> OneLoginPerExpiry(Run(IDLE, es))) <==> n <= 1
  {
    if n <= 1 {
      forall es | InFlightAtMost(es, n) ensures OneLoginPerExpiry(Run(IDLE, es)) {
        SequentialCalls(es);
      }
    } else {
      var es := TwoCallsMissIt();
      assert InFlightAtMost(es, n);
    }
  }
}
