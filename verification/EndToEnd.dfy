/**
 What a run of the whole provider guarantees for its resources, down to the calls of its clients:
 a deletion that ends was carried out by a call that got through, and resources settle together.
 */
module EndToEnd {
  import opened Outcomes
  import opened GoStrings
  import opened Permissions
  import opened ClientCache
  import opened Provider
  import opened ReconcileCalls
  import Sessions
  import Deletion

  // ----------------------------------------------------------------- deletion

  /** Resource `k` is deleted and its permissions were cleared. */
  ghost predicate Cleared(p: State, k: nat) {
    k < |p.fleet.crs| && p.fleet.crs[k].deleted && p.fleet.crs[k].status.cleared
  }

  /** Resource `k` has its finalizer and was not cleared. */
  ghost predicate Uncleared(s: Fleet.State, k: nat) {
    k < |s.crs| && k !in s.gone && !s.crs[k].status.cleared
  }

  /** The event is a reconcile of resource `k` that can have happened. */
  ghost predicate ReconcilesAt(hash: string -> string, p: State, e: Event, k: nat) {
    e.Reconciled? && e.k == k && Fits(hash, p, e)
  }

  /**
   The event is a reconcile of resource `k` that wiped role `role`: its PUT was the call `put`,
   its own, on the cached client, which got a 2xx response and so was sent with a token that a
   login gave.
   */
  ghost predicate WipedByCall(hash: string -> string, p: State, e: Event, k: nat, role: GoInt, put: Request) {
    && ReconcilesAt(hash, p, e, k)
    && put.client == ClientOf(hash, p, e) && e.calls.put == Some(put.call)
    && put !in p.puts && put !in p.listings
    && Got2xx(p.clients[put.client], put.call)
    && p.clients[put.client].calls[put.call].first >= 1 && p.clients[put.client].logins >= 1
    && k < |Step(hash, p, e).fleet.crs|
    && Deletion.Wiped(Fleet.Member(p.fleet, k), Fleet.Member(Step(hash, p, e).fleet, k), role)
  }

  lemma DrainNeedsFlag(s: Reconcile.Cluster, t: Reconcile.Turn)
    requires !s.drained && !s.cr.status.cleared
    ensures !Reconcile.Turned(s, t).drained
  {
  }

  /** The flag and the finalizer of resource `k` are the same, and a deletion mark stays. */
  ghost predicate KeepsFlag(s: Fleet.State, s': Fleet.State, k: nat)
    requires k < |s.crs|
  {
    && |s'.crs| == |s.crs| && s'.crs[k].status == s.crs[k].status
    && (k in s'.gone <==> k in s.gone)
    && (s.crs[k].deleted ==> s'.crs[k].deleted)
  }

  lemma VisitKeepsFlag(s: Fleet.State, v: Fleet.Visit, k: nat)
    requires k < |s.crs| && !(v.k == k && v.event.Reconciled?)
    ensures KeepsFlag(s, Fleet.Visited(s, v), k)
  {
  }

  /** Only a reconcile of a resource touches its flag and its finalizer. */
  lemma OthersKeepFlag(hash: string -> string, p: State, e: Event, k: nat)
    requires k < |p.fleet.crs| && !ReconcilesAt(hash, p, e, k)
    ensures KeepsFlag(p.fleet, Step(hash, p, e).fleet, k)
  {
    StepFleet(hash, p, e);
    var vs := Visits(hash, p, e);
    if vs == [] {
    } else {
      VisitKeepsFlag(p.fleet, vs[0], k);
    }
  }

  lemma WipeIsACall(hash: string -> string, p: State, e: Event, k: nat) returns (role: GoInt, put: Request)
    requires Consistent(p) && RequestsOk(p) && Uncleared(p.fleet, k) && !Uncleared(Step(hash, p, e).fleet, k)
    ensures WipedByCall(hash, p, e, k, role, put)
  {
    assert ReconcilesAt(hash, p, e, k) by {
      if !ReconcilesAt(hash, p, e, k) {
        OthersKeepFlag(hash, p, e, k);
      }
    }
    var id := ClientOf(hash, p, e);
    var c := p.clients[id];
    var t := TurnOf(c, e);
    ReconcileStep(hash, p, e);
    DrainNeedsFlag(Fleet.Member(p.fleet, k), t);
    role := Deletion.ClearedByWipe(Fleet.Member(p.fleet, k), t);
    assert e.calls.put.Some?;
    put := Request(id, e.calls.put.value);
    assert put in ListingsOf(id, e.calls) + PutsOf(id, e.calls);
    SucceededIff(c, put.call);
    TokenClient.ResponseNeedsLogin(c, put.call);
  }

  lemma {:induction false} FirstFlip(flags: seq<bool>) returns (j: nat)
    requires |flags| >= 1 && flags[0] && !flags[|flags| - 1]
    ensures j + 1 < |flags| && flags[j] && !flags[j + 1]
  {
    if flags[|flags| - 2] {
      j := |flags| - 2;
    } else {
      j := FirstFlip(flags[..|flags| - 1]);
    }
  }

  /** Whether the flag of resource `k` was not kept yet, before the run and after each event. */
  ghost function Flags(hash: string -> string, p: State, es: seq<Event>, k: nat): seq<bool> {
    seq(|es| + 1, j requires 0 <= j <= |es| => Uncleared(Run(hash, p, es[..j]).fleet, k))
  }

  /** Where the flag of resource `k` was first kept. */
  lemma Crossing(hash: string -> string, p: State, es: seq<Event>, k: nat) returns (j: nat)
    requires Uncleared(p.fleet, k) && !Uncleared(Run(hash, p, es).fleet, k)
    ensures j < |es|
    ensures Uncleared(Run(hash, p, es[..j]).fleet, k) && !Uncleared(Run(hash, p, es[..j + 1]).fleet, k)
  {
    assert es[..0] == [] && es[..|es|] == es;
    j := FirstFlip(Flags(hash, p, es, k));
  }

  /** Event `j` of the run wiped role `role` by call `put`. */
  ghost predicate WipedAt(
    hash: string -> string, p: State, es: seq<Event>, j: nat, k: nat, role: GoInt, put: Request)
  {
    j < |es| && WipedByCall(hash, Run(hash, p, es[..j]), es[j], k, role, put)
  }

  lemma ClearedByCall(hash: string -> string, fleet: Fleet.State, es: seq<Event>, k: nat)
    returns (j: nat, role: GoInt, put: Request)
    requires Uncleared(fleet, k) && !Uncleared(Run(hash, Started(fleet), es).fleet, k)
    ensures WipedAt(hash, Started(fleet), es, j, k, role, put)
  {
    j := Crossing(hash, Started(fleet), es, k);
    RunAt(hash, Started(fleet), es, j);
    PartsRun(hash, fleet, es[..j]);
    role, put := WipeIsACall(hash, Run(hash, Started(fleet), es[..j]), es[j], k);
  }

  /** Somebody other than resource `k` writes the roles. */
  predicate Foreign(e: Event, k: nat) {
    || e.Drifted?
    || (e.Reconciled?
        && (e.others.drift.Some? || e.others.meanwhile.Some? || (e.k != k && e.calls.put.Some?)))
  }

  predicate AnyForeign(es: seq<Event>, k: nat) {
    exists e :: e in es && Foreign(e, k)
  }

  lemma AnyForeignSnoc(es: seq<Event>, e: Event, k: nat)
    ensures AnyForeign(es + [e], k) <==> AnyForeign(es, k) || Foreign(e, k)
  {
    assert e in es + [e] && forall x :: x in es ==> x in es + [e];
  }

  /** Without a drift and a PUT a reconcile changes no role. */
  lemma SilentTurn(s: Reconcile.Cluster, t: Reconcile.Turn)
    requires t.drift.None? && !s.drained && !Reconcile.SendsPut(s, t)
    ensures Reconcile.Turned(s, t).world == s.world
  {
  }

  /** The event is a reconcile of resource `k` that makes a call for a PUT. */
  ghost predicate SendsFor(hash: string -> string, p: State, e: Event, k: nat) {
    ReconcilesAt(hash, p, e, k) && e.calls.put.Some?
  }

  lemma ClearedReconcile(hash: string -> string, p: State, e: Event, k: nat)
    requires Cleared(p, k) && e.Reconciled? && Fits(hash, p, e)
    ensures Cleared(Step(hash, p, e), k) && !SendsFor(hash, p, e, k)
    ensures !Foreign(e, k) ==> Step(hash, p, e).fleet.world == p.fleet.world
  {
    var c := Fleet.Member(p.fleet, e.k);
    var t := TurnOf(p.clients[ClientOf(hash, p, e)], e);
    if e.k == k {
      Deletion.StillCleared(c, Reconcile.Reconciled(t));
    }
    if t.drift.None? && !Reconcile.SendsPut(c, t) {
      SilentTurn(c, t);
    }
  }

  /** A cleared resource stays cleared, and makes no call for a PUT. */
  lemma ClearedStep(hash: string -> string, p: State, e: Event, k: nat)
    requires Cleared(p, k)
    ensures Cleared(Step(hash, p, e), k) && !SendsFor(hash, p, e, k)
    ensures !Foreign(e, k) ==> Step(hash, p, e).fleet.world == p.fleet.world
  {
    if e.Reconciled? {
      if Fits(hash, p, e) {
        ClearedReconcile(hash, p, e, k);
      }
    } else {
      OthersKeepFlag(hash, p, e, k);
    }
  }

  lemma {:induction false} ClearedFrom(hash: string -> string, p: State, es: seq<Event>, k: nat)
    requires Cleared(p, k)
    ensures Cleared(Run(hash, p, es), k)
  {
    if es == [] {
    } else {
      ClearedFrom(hash, p, es[..|es| - 1], k);
      ClearedStep(hash, Run(hash, p, es[..|es| - 1]), es[|es| - 1], k);
    }
  }

  lemma {:induction false} RolesStay(hash: string -> string, p: State, es: seq<Event>, k: nat)
    requires Cleared(p, k) && !AnyForeign(es, k)
    ensures Run(hash, p, es).fleet.world == p.fleet.world
  {
    if es == [] {
    } else {
      var init, e := es[..|es| - 1], es[|es| - 1];
      assert es == init + [e];
      AnyForeignSnoc(init, e, k);
      RolesStay(hash, p, init, k);
      ClearedFrom(hash, p, init, k);
      ClearedStep(hash, Run(hash, p, init), e, k);
    }
  }

  /**
   After event `j` the resource made no call for a PUT, and unless somebody else writes, the role
   has nothing enabled at the end.
   */
  ghost predicate StillWiped(
    hash: string -> string, p: State, es: seq<Event>, j: nat, k: nat, role: GoInt)
    requires j < |es|
  {
    && (forall m :: j < m < |es| ==> !SendsFor(hash, Run(hash, p, es[..m]), es[m], k))
    && (!AnyForeign(es[j + 1..], k) ==>
          var roles := Run(hash, p, es).fleet.world.roles;
          && Sessions.Lists(roles, role)
          && forall r :: r in roles && r.id == role ==> Enabled(r.permissions) == {})
  }

  lemma SilentAfter(hash: string -> string, p: State, es: seq<Event>, j: nat, m: nat, k: nat)
    requires j < m < |es| && Cleared(Run(hash, p, es[..j + 1]), k)
    ensures !SendsFor(hash, Run(hash, p, es[..m]), es[m], k)
  {
    RunSplit(hash, p, es[..m], j + 1);
    assert es[..m][..j + 1] == es[..j + 1];
    ClearedFrom(hash, Run(hash, p, es[..j + 1]), es[..m][j + 1..], k);
    ClearedStep(hash, Run(hash, p, es[..m]), es[m], k);
  }

  lemma WipedStays(hash: string -> string, p: State, es: seq<Event>, j: nat, k: nat, role: GoInt, put: Request)
    requires WipedAt(hash, p, es, j, k, role, put)
    ensures StillWiped(hash, p, es, j, k, role)
  {
    RunAt(hash, p, es, j);
    var after := Run(hash, p, es[..j + 1]);
    forall m | j < m < |es| ensures !SendsFor(hash, Run(hash, p, es[..m]), es[m], k) {
      SilentAfter(hash, p, es, j, m, k);
    }
    RunSplit(hash, p, es, j + 1);
    if !AnyForeign(es[j + 1..], k) {
      RolesStay(hash, after, es[j + 1..], k);
    }
  }

  /**
   Deletion, end to end. In every run of the provider, a resource whose finalizer goes was wiped
   by a reconcile whose PUT was a call of its own, on the cached client that a Get had returned
   for its configuration. That call got a 2xx response with a token of a login. The resource
   sends nothing after it, and without other writers, its fellow resources among them, the role
   still has nothing enabled at the end.
   */
  lemma DrainedMeansWipedByCall(hash: string -> string, fleet: Fleet.State, es: seq<Event>, k: nat)
    returns (j: nat, role: GoInt, put: Request, i: nat)
    requires Uncleared(fleet, k) && k in Run(hash, Started(fleet), es).fleet.gone
    ensures WipedAt(hash, Started(fleet), es, j, k, role, put)
    ensures StillWiped(hash, Started(fleet), es, j, k, role)
    ensures var asked := Asked(es[..j]);
            && i < |asked| && hash(Fingerprint(asked[i])) == hash(Fingerprint(es[j].cfg))
            && Returned(hash, asked, i) == Ok(put.client)
  {
    j, role, put := ClearedByCall(hash, fleet, es, k);
    WipedStays(hash, Started(fleet), es, j, k, role, put);
    i := ClientWasGot(hash, fleet, es[..j], es[j]);
  }

  // -------------------------------------------------------------- convergence

  /** All calls of the reconcile got 2xx responses, and nobody else wrote during it. */
  ghost predicate AllServed(c: TokenClient.Shared, e: Event)
    requires e.Reconciled?
  {
    && Got2xx(c, e.calls.observe)
    && (e.calls.list.Some? ==> Got2xx(c, e.calls.list.value))
    && (e.calls.put.Some? ==> Got2xx(c, e.calls.put.value))
    && e.others.drift.None? && e.others.meanwhile.None?
  }

  /** Gets and calls of any kind, and reconciles of resources that stay, whose own calls succeeded. */
  ghost predicate Served(hash: string -> string, p: State, e: Event) {
    match e
    case Get(_) => true
    case OnClient(_, _) => true
    case Reconciled(k, _, _, _, _, _) =>
      Fits(hash, p, e) ==> !p.fleet.crs[k].deleted && AllServed(p.clients[ClientOf(hash, p, e)], e)
    case _ => false
  }

  ghost predicate AllEventsServed(hash: string -> string, p: State, es: seq<Event>) {
    forall j :: 0 <= j < |es| ==> Served(hash, Run(hash, p, es[..j]), es[j])
  }

  /** Every resource that stays is reconciled in the run. */
  ghost predicate AllReconciled(hash: string -> string, p: State, es: seq<Event>) {
    forall k :: Fleet.Stays(p.fleet, k) ==>
                  exists j :: 0 <= j < |es| && ReconcilesAt(hash, Run(hash, p, es[..j]), es[j], k)
  }

  lemma ServedTurn(c: TokenClient.Shared, e: Event)
    requires e.Reconciled? && AllServed(c, e)
    ensures Reconcile.Calm(TurnOf(c, e))
  {
    SucceededIff(c, e.calls.observe);
    if e.calls.list.Some? {
      SucceededIff(c, e.calls.list.value);
    }
    if e.calls.put.Some? {
      SucceededIff(c, e.calls.put.value);
    }
  }

  lemma ServedIsCalm(hash: string -> string, p: State, e: Event, s: Fleet.State)
    requires Served(hash, p, e) && Fleet.Alike(s, p.fleet)
    ensures Fleet.CalmVisits(s, Visits(hash, p, e))
  {
    if e.Reconciled? && Fits(hash, p, e) {
      ServedTurn(p.clients[ClientOf(hash, p, e)], e);
    }
  }

  lemma {:induction false} ServedRunIsCalm(hash: string -> string, fleet: Fleet.State, es: seq<Event>)
    requires Fleet.Sound(fleet) && AllEventsServed(hash, Started(fleet), es)
    ensures Fleet.CalmVisits(fleet, Projected(hash, Started(fleet), es))
  {
    if es == [] {
    } else {
      var init, e := es[..|es| - 1], es[|es| - 1];
      forall j | 0 <= j < |init| ensures Served(hash, Run(hash, Started(fleet), init[..j]), init[j]) {
        assert init[..j] == es[..j];
      }
      ServedRunIsCalm(hash, fleet, init);
      FleetRun(hash, fleet, init);
      Fleet.StaysAlike(fleet, Projected(hash, Started(fleet), init));
      assert es[..|init|] == init && Served(hash, Run(hash, Started(fleet), es[..|init|]), es[|init|]);
      ServedIsCalm(hash, Run(hash, Started(fleet), init), e, fleet);
    }
  }

  lemma ReconciledIsVisited(hash: string -> string, p: State, es: seq<Event>, j: nat, k: nat)
    requires j < |es| && ReconcilesAt(hash, Run(hash, p, es[..j]), es[j], k)
    ensures Fleet.Visits(Projected(hash, p, es), k)
  {
    var v := Visits(hash, Run(hash, p, es[..j]), es[j])[0];
    assert v.k == k;
    VisitInRun(hash, p, es, j, v);
  }

  lemma AllVisited(hash: string -> string, p: State, es: seq<Event>)
    requires AllReconciled(hash, p, es)
    ensures forall k :: Fleet.Stays(p.fleet, k) ==> Fleet.Visits(Projected(hash, p, es), k)
  {
    forall k: nat | Fleet.Stays(p.fleet, k) ensures Fleet.Visits(Projected(hash, p, es), k) {
      var j: nat :| j < |es| && ReconcilesAt(hash, Run(hash, p, es[..j]), es[j], k);
      ReconciledIsVisited(hash, p, es, j, k);
    }
  }

  /**
   Convergence, end to end. Take any run of the provider from its start in which nobody else
   writes, the reconciles' own calls succeed, however many 401s, logins and retries that takes,
   and every resource that stays is reconciled. Then all resources are satisfied if and only if
   they were compatible, and exactly one `Do` call was made for a PUT for each role that some
   resource wanted changed.
   */
  lemma ProviderConverges(hash: string -> string, fleet: Fleet.State, es: seq<Event>)
    requires Fleet.Sound(fleet)
    requires AllEventsServed(hash, Started(fleet), es) && AllReconciled(hash, Started(fleet), es)
    ensures var p := Run(hash, Started(fleet), es);
            && (Fleet.Quiet(p.fleet) <==> Fleet.Compatible(fleet))
            && (Fleet.Compatible(fleet) ==> |p.puts| == |Fleet.Wanting(fleet)|)
            && (!Fleet.Compatible(fleet) ==> |p.puts| > 0)
  {
    var vs := Projected(hash, Started(fleet), es);
    PartsRun(hash, fleet, es);
    ServedRunIsCalm(hash, fleet, es);
    AllVisited(hash, Started(fleet), es);
    Fleet.FleetConverges(fleet, vs);
  }
}
