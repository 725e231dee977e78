/**
 What a run of several resources is for each one of them: a run of its own in which the others
 are foreign writers.
 */
module Members {
  import opened Controller
  import opened Fleet
  import Deletion

  /** What an event of the fleet is for resource `k`: its own event, or a change of the roles by others. */
  ghost function SeenNext(s: State, v: Visit, k: nat): seq<Reconcile.Event> {
    if v.k == k then [v.event]
    else if Visited(s, v).world.roles == s.world.roles then []
    else [Reconcile.Drifted(Visited(s, v).world.roles)]
  }

  /** What the run of the fleet is for resource `k`. */
  ghost function Seen(s: State, vs: seq<Visit>, k: nat): seq<Reconcile.Event> {
    if vs == [] then []
    else Seen(s, vs[..|vs| - 1], k) + SeenNext(After(s, vs[..|vs| - 1]), vs[|vs| - 1], k)
  }

  /** The same up to the log of PUTs. */
  ghost predicate SameButLog(c: Reconcile.Cluster, c': Reconcile.Cluster) {
    c.cr == c'.cr && c.world.roles == c'.world.roles && c.drained == c'.drained
  }

  lemma CallsIgnoreLog(cr: Resource, w: World, w': World, env: Env)
    requires w.roles == w'.roles
    ensures var o, o' := AfterApply(cr, w, env), AfterApply(cr, w', env);
            o.cr == o'.cr && o.world.roles == o'.world.roles
    ensures var o, o' := AfterDelete(cr, w, env), AfterDelete(cr, w', env);
            o.cr == o'.cr && o.world.roles == o'.world.roles
  {
  }

  /** No event depends on the log. */
  lemma IgnoresLog(c: Reconcile.Cluster, c': Reconcile.Cluster, e: Reconcile.Event)
    requires SameButLog(c, c')
    ensures SameButLog(Reconcile.Step(c, e), Reconcile.Step(c', e))
  {
    if e.Reconciled? && !c.drained {
      var t := e.turn;
      var seen, seen' := AfterObserve(c.cr, c.world, t.observeUp), AfterObserve(c'.cr, c'.world, t.observeUp);
      assert seen.cr == seen'.cr && seen.result == seen'.result;
      CallsIgnoreLog(seen.cr, WithDrift(c.world, t.drift), WithDrift(c'.world, t.drift), t.env);
    }
  }

  lemma RunTwo(c: Reconcile.Cluster, es: seq<Reconcile.Event>, more: seq<Reconcile.Event>)
    requires |more| <= 1
    ensures Reconcile.Run(c, es + more)
         == if more == [] then Reconcile.Run(c, es) else Reconcile.Step(Reconcile.Run(c, es), more[0])
  {
    if more == [] {
      assert es + more == es;
    } else {
      assert more == [more[0]];
      Reconcile.RunSnoc(c, es, more[0]);
    }
  }

  /** A finalizer that is gone does not come back. */
  lemma KeepsGone(s: State, v: Visit)
    requires v.k < |s.crs|
    ensures v.k in s.gone ==> Reconcile.Step(Member(s, v.k), v.event).drained
    ensures Member(Visited(s, v), v.k) == Reconcile.Step(Member(s, v.k), v.event)
  {
  }

  lemma SeenStep(s: State, v: Visit, k: nat, c: Reconcile.Cluster)
    requires k < |s.crs| && SameButLog(Member(s, k), c)
    ensures var s', next := Visited(s, v), SeenNext(s, v, k);
            k < |s'.crs| && SameButLog(Member(s', k), if next == [] then c else Reconcile.Step(c, next[0]))
  {
    if v.k == k {
      IgnoresLog(Member(s, k), c, v.event);
      KeepsGone(s, v);
    }
  }

  /**
   Whatever happens to a fleet, each of its resources goes through a run of the reconciler of a
   single resource, with the same roles, in which the PUTs of the others are foreign changes.
   The log of that run holds the PUTs of this resource alone.
   */
  lemma {:induction false} MemberRun(s: State, vs: seq<Visit>, k: nat)
    requires k < |s.crs|
    ensures k < |After(s, vs).crs|
    ensures SameButLog(Member(After(s, vs), k), Reconcile.Run(Member(s, k), Seen(s, vs, k)))
  {
    if vs == [] {
    } else {
      var init, v := vs[..|vs| - 1], vs[|vs| - 1];
      MemberRun(s, init, k);
      SeenStep(After(s, init), v, k, Reconcile.Run(Member(s, k), Seen(s, init, k)));
      RunTwo(Member(s, k), Seen(s, init, k), SeenNext(After(s, init), v, k));
    }
  }

  /** The PUTs that resource `k` sent. */
  ghost function OwnPuts(s: State, vs: seq<Visit>, k: nat): int
    requires k < |s.crs|
  {
    |Reconcile.Run(Member(s, k), Seen(s, vs, k)).world.log| - |s.world.log|
  }

  /** The PUTs that each resource sent. */
  ghost function AllPuts(s: State, vs: seq<Visit>): (ns: seq<int>)
    ensures |ns| == |s.crs| && forall k :: 0 <= k < |ns| ==> ns[k] == OwnPuts(s, vs, k)
  {
    seq(|s.crs|, k requires 0 <= k < |s.crs| => OwnPuts(s, vs, k))
  }

  function Sum(ns: seq<int>): int {
    if ns == [] then 0 else Sum(ns[..|ns| - 1]) + ns[|ns| - 1]
  }

  lemma {:induction false} SumOfZeros(ns: seq<int>)
    requires forall k :: 0 <= k < |ns| ==> ns[k] == 0
    ensures Sum(ns) == 0
  {
    if ns == [] {
    } else {
      SumOfZeros(ns[..|ns| - 1]);
    }
  }

  lemma {:induction false} SumAdded(ns: seq<int>, ms: seq<int>, k: nat, more: int)
    requires |ns| == |ms| && forall i :: 0 <= i < |ns| ==> ms[i] == ns[i] + if i == k then more else 0
    ensures Sum(ms) == Sum(ns) + if k < |ns| then more else 0
  {
    if ns == [] {
    } else {
      SumAdded(ns[..|ns| - 1], ms[..|ms| - 1], k, more);
    }
  }

  /** The PUTs of one event. */
  ghost function Growth(s: State, v: Visit): int {
    |Visited(s, v).world.log| - |s.world.log|
  }

  lemma {:induction false} KeepsCount(s: State, vs: seq<Visit>)
    ensures |After(s, vs).crs| == |s.crs|
  {
    if vs == [] {
    } else {
      KeepsCount(s, vs[..|vs| - 1]);
    }
  }

  lemma SameGrowth(c: Reconcile.Cluster, c': Reconcile.Cluster, e: Reconcile.Event)
    requires SameButLog(c, c')
    ensures |Reconcile.Step(c, e).world.log| - |c.world.log| == |Reconcile.Step(c', e).world.log| - |c'.world.log|
  {
    if e.Reconciled? {
      Reconcile.PutsOfTurn(c, e.turn);
      Reconcile.PutsOfTurn(c', e.turn);
    }
  }

  lemma OwnPutsNext(s: State, vs: seq<Visit>, k: nat)
    requires k < |s.crs| && vs != []
    ensures OwnPuts(s, vs, k) == OwnPuts(s, vs[..|vs| - 1], k)
                                 + if vs[|vs| - 1].k == k then Growth(After(s, vs[..|vs| - 1]), vs[|vs| - 1]) else 0
  {
    var init, v := vs[..|vs| - 1], vs[|vs| - 1];
    var own := Reconcile.Run(Member(s, k), Seen(s, init, k));
    MemberRun(s, init, k);
    RunTwo(Member(s, k), Seen(s, init, k), SeenNext(After(s, init), v, k));
    if v.k == k {
      SameGrowth(Member(After(s, init), k), own, v.event);
    }
  }

  lemma AllPutsNext(s: State, vs: seq<Visit>, more: int)
    requires vs != [] && more == Growth(After(s, vs[..|vs| - 1]), vs[|vs| - 1])
    ensures forall k :: 0 <= k < |s.crs| ==>
                          AllPuts(s, vs)[k] == AllPuts(s, vs[..|vs| - 1])[k] + if k == vs[|vs| - 1].k then more else 0
  {
    forall k: nat | k < |s.crs|
      ensures OwnPuts(s, vs, k) == OwnPuts(s, vs[..|vs| - 1], k) + if k == vs[|vs| - 1].k then more else 0
    {
      OwnPutsNext(s, vs, k);
    }
  }

  /** The server's log holds the PUTs of these runs and no others: they add up, whatever happens. */
  lemma {:induction false} PutsAddUp(s: State, vs: seq<Visit>)
    ensures |After(s, vs).world.log| == |s.world.log| + Sum(AllPuts(s, vs))
  {
    if vs == [] {
      SumOfZeros(AllPuts(s, vs));
    } else {
      var init, v := vs[..|vs| - 1], vs[|vs| - 1];
      var more := Growth(After(s, init), v);
      PutsAddUp(s, init);
      AllPutsNext(s, vs, more);
      KeepsCount(s, init);
      SumAdded(AllPuts(s, init), AllPuts(s, vs), v.k, more);
    }
  }

  /** So deletion is safe for each resource of a fleet: one that goes was wiped, and sends nothing afterwards. */
  lemma MemberDeletionSafety(s: State, vs: seq<Visit>, k: nat)
    requires k < |s.crs| && k !in s.gone && !s.crs[k].status.cleared && k in After(s, vs).gone
    ensures exists j, id ::
              && Deletion.WipedAt(Member(s, k), Seen(s, vs, k), j, id)
              && Deletion.AfterWipe(Member(s, k), Seen(s, vs, k), j, id)
  {
    MemberRun(s, vs, k);
    Deletion.DeletionSafety(Member(s, k), Seen(s, vs, k));
  }
}
