/**
 Deletion of a RolePermissions resource over whole runs: it is reported gone only after its
 permissions were cleared, and it does go (internal/controller/rolepermissions/rolepermissions.go).
 */
module Deletion {
  import opened GoStrings
  import opened Permissions
  import opened PermissionLists
  import opened Roles
  import opened Controller
  import opened Sessions
  import opened Reconcile

  // ------------------------------------------------------------------ safety

  /** In the step from `s` to `s'` Delete sent an empty tree to role `id`, the server took it, and the flag was kept. */
  ghost predicate Wiped(s: Cluster, s': Cluster, id: GoInt) {
    && !s.drained && s.cr.deleted && !s.cr.status.cleared
    && s'.cr.deleted && s'.cr.status.cleared
    && |s'.world.log| == |s.world.log| + 1
    && (var put := s'.world.log[|s.world.log|]; put.id == id && put.body.permissions == map[])
    && Lists(s'.world.roles, id)
    && forall r :: r in s'.world.roles && r.id == id ==> Enabled(r.permissions) == {}
  }

  /** An event by which another writer changes the roles. */
  predicate Foreign(e: Event) {
    e.Drifted? || (e.Reconciled? && (e.turn.drift.Some? || e.turn.env.meanwhile.Some?))
  }

  /** An event by which somebody else changes what the resource targets. */
  predicate Retargets(e: Event) {
    e.Edited? || e.Annotated?
  }

  /** Foreign writers keep the IDs apart. */
  predicate Lawful(e: Event) {
    match e
    case Drifted(roles) => DistinctIds(roles)
    case Reconciled(t) =>
      && (t.drift.Some? ==> DistinctIds(t.drift.value))
      && (t.env.meanwhile.Some? ==> DistinctIds(t.env.meanwhile.value))
    case _ => true
  }

  lemma EmptyTree()
    ensures Enabled(map[]) == {}
  {
    EnabledIsGranted(map[]);
  }

  lemma EmptyPut(w: World, body: Role, env: Env)
    requires Lists(w.roles, body.id) && body.permissions == map[] && env.reply != Refused
    ensures var w' := AfterPut(w, body.id, body, env.reply, env.candidate);
            && Lists(w'.roles, body.id)
            && forall r :: r in w'.roles && r.id == body.id ==> Enabled(r.permissions) == {}
  {
    EmptyTree();
    var i := First(w.roles, ById(body.id));
    assert ById(body.id).Accepts(AfterPut(w, body.id, body, env.reply, env.candidate).roles[i]);
  }

  /** The flag is newly kept only by a reconcile that wiped the role its Delete targeted. */
  lemma ClearedByWipe(s: Cluster, t: Turn) returns (id: GoInt)
    requires !s.drained && !s.cr.status.cleared
    requires Turned(s, t).cr.status.cleared
    ensures Wiped(s, Turned(s, t), id) && t.env.up && t.env.reply == Acknowledged
    ensures var seen := AfterObserve(s.cr, s.world, t.observeUp);
            var roles := WithDrift(s.world, t.drift).roles;
            seen.result.Ok? && Target(roles, seen.cr) >= 0 && roles[Target(roles, seen.cr)].id == id
  {
    var seen := AfterObserve(s.cr, s.world, t.observeUp);
    assert seen.result.Ok?;
    var w := WithDrift(s.world, t.drift);
    assert s.cr.deleted;
    var done := AfterDelete(seen.cr, w, t.env);
    assert done.cr.status.cleared;
    var role := w.roles[Target(w.roles, seen.cr)];
    id := role.id;
    EmptyPut(WithDrift(w, t.env.meanwhile), role.(permissions := map[]), t.env);
  }

  /** Nothing is reported gone before the flag is kept. */
  lemma DrainedOnlyCleared(s: Cluster, t: Turn)
    requires !s.drained && Turned(s, t).drained
    ensures s.cr.deleted && s.cr.status.cleared
  {
  }

  /** A deleted and cleared resource is never cleared again: its flag stays, and only others change the roles. */
  lemma StillCleared(s: Cluster, e: Event)
    requires s.cr.deleted && s.cr.status.cleared
    ensures var s' := Step(s, e);
            && s'.cr.deleted && s'.cr.status.cleared
            && s'.world.log == s.world.log
            && (!Foreign(e) ==> s'.world == s.world)
  {
  }

  lemma {:induction false} ClearedStays(s: Cluster, es: seq<Event>)
    requires s.cr.deleted && s.cr.status.cleared
    ensures var s' := Run(s, es);
            && s'.cr.deleted && s'.cr.status.cleared
            && s'.world.log == s.world.log
            && ((forall e :: e in es ==> !Foreign(e)) ==> s'.world == s.world)
  {
    if es == [] {
    } else {
      var init, last := es[..|es| - 1], es[|es| - 1];
      ClearedStays(s, init);
      StillCleared(Run(s, init), last);
    }
  }

  /** Event `k` of the run is a reconcile that wiped role `id`. */
  ghost predicate WipedAt(s: Cluster, es: seq<Event>, k: nat, id: GoInt) {
    k < |es| && es[k].Reconciled? && Wiped(Run(s, es[..k]), Run(s, es[..k + 1]), id)
  }

  lemma Earlier(s: Cluster, es: seq<Event>, k: nat, id: GoInt)
    requires es != [] && WipedAt(s, es[..|es| - 1], k, id)
    ensures WipedAt(s, es, k, id)
  {
    var init := es[..|es| - 1];
    assert init[..k] == es[..k] && init[..k + 1] == es[..k + 1];
  }

  /** Where a kept flag, or a drained resource, comes from. */
  lemma {:induction false} ClearedWasWiped(s: Cluster, es: seq<Event>) returns (k: nat, id: GoInt)
    requires !s.drained && !s.cr.status.cleared
    requires Run(s, es).drained || Run(s, es).cr.status.cleared
    ensures WipedAt(s, es, k, id)
  {
    var init, e := es[..|es| - 1], es[|es| - 1];
    var before := Run(s, init);
    if before.drained || before.cr.status.cleared {
      k, id := ClearedWasWiped(s, init);
      Earlier(s, es, k, id);
    } else {
      var t := e.turn;
      if Turned(before, t).drained {
        DrainedOnlyCleared(before, t);
        assert false;
      }
      k := |init|;
      id := ClearedByWipe(before, t);
      assert es[..k] == init && es[..k + 1] == es;
    }
  }

  lemma {:induction false} RunSplit(s: Cluster, es: seq<Event>, k: nat)
    requires k <= |es|
    ensures Run(s, es) == Run(Run(s, es[..k]), es[k..])
  {
    if k == |es| {
      assert es[..k] == es;
    } else {
      var init := es[..|es| - 1];
      RunSplit(s, init, k);
      assert init[..k] == es[..k];
      assert es[k..][..|es| - k - 1] == init[k..];
    }
  }

  /** What holds at the end of a run whose event `k` wiped role `id`. */
  ghost predicate AfterWipe(s: Cluster, es: seq<Event>, k: nat, id: GoInt)
    requires k < |es|
  {
    var s' := Run(s, es);
    && s'.world.log == Run(s, es[..k + 1]).world.log
    && ((forall e :: e in es[k + 1..] ==> !Foreign(e)) ==>
          Lists(s'.world.roles, id) && forall r :: r in s'.world.roles && r.id == id ==> Enabled(r.permissions) == {})
  }

  /**
   Deletion safety. In any run, with failures, lost writes, edits and other writers, a resource
   that loses its finalizer had its role wiped by an earlier acknowledged PUT of an empty tree;
   after that reconcile the controller sends nothing more, and unless somebody else writes, the
   role still has no enabled permission when the finalizer goes.
   */
  lemma DeletionSafety(s: Cluster, es: seq<Event>)
    requires !s.drained && !s.cr.status.cleared && Run(s, es).drained
    ensures exists k, id :: WipedAt(s, es, k, id) && AfterWipe(s, es, k, id)
  {
    var k, id := ClearedWasWiped(s, es);
    RunSplit(s, es, k + 1);
    ClearedStays(Run(s, es[..k + 1]), es[k + 1..]);
    assert AfterWipe(s, es, k, id);
  }

  // ------------------------------------------------------ the role resolved last

  lemma PutKeepsIdsApart(w: World, id: GoInt, body: Role, env: Env)
    requires DistinctIds(w.roles)
    ensures DistinctIds(AfterPut(w, id, body, env.reply, env.candidate).roles)
  {
    var w' := AfterPut(w, id, body, env.reply, env.candidate);
    assert forall i :: 0 <= i < |w.roles| ==> w'.roles[i].id == w.roles[i].id;
  }

  lemma CallsKeepIdsApart(cr: Resource, w: World, env: Env)
    requires DistinctIds(w.roles) && (env.meanwhile.Some? ==> DistinctIds(env.meanwhile.value))
    ensures DistinctIds(AfterApply(cr, w, env).world.roles)
    ensures DistinctIds(AfterDelete(cr, w, env).world.roles)
  {
    if env.up && Target(w.roles, cr) >= 0 {
      var role, now := w.roles[Target(w.roles, cr)], WithDrift(w, env.meanwhile);
      PutKeepsIdsApart(now, role.id, role.(permissions := Expand(cr.permissions)), env);
      PutKeepsIdsApart(now, role.id, role.(permissions := map[]), env);
    }
  }

  lemma TurnKeepsIdsApart(s: Cluster, t: Turn)
    requires DistinctIds(s.world.roles) && Lawful(Reconciled(t))
    ensures DistinctIds(Turned(s, t).world.roles)
  {
    var w := WithDrift(s.world, t.drift);
    CallsKeepIdsApart(AfterObserve(s.cr, s.world, t.observeUp).cr, w, t.env);
  }

  lemma StepKeepsIdsApart(s: Cluster, e: Event)
    requires DistinctIds(s.world.roles) && Lawful(e)
    ensures DistinctIds(Step(s, e).world.roles)
  {
    if e.Reconciled? && !s.drained {
      TurnKeepsIdsApart(s, e.turn);
    }
  }

  lemma {:induction false} RunKeepsIdsApart(s: Cluster, es: seq<Event>)
    requires DistinctIds(s.world.roles) && forall e :: e in es ==> Lawful(e)
    ensures DistinctIds(Run(s, es).world.roles)
  {
    if es == [] {
    } else {
      var init, e := es[..|es| - 1], es[|es| - 1];
      assert e in es && forall x :: x in init ==> x in es;
      RunKeepsIdsApart(s, init);
      StepKeepsIdsApart(Run(s, init), e);
    }
  }

  /** A resource whose target is role `id`. */
  ghost predicate Targets(s: Cluster, id: GoInt) {
    var i := Target(s.world.roles, s.cr);
    i >= 0 && s.world.roles[i].id == id
  }

  /** If nobody else writes meanwhile, the wiped role is still the one the resource targets. */
  lemma WipedIsTarget(s: Cluster, t: Turn, id: GoInt)
    requires DistinctIds(s.world.roles) && t.drift.None? && t.env.meanwhile.None?
    requires Wiped(s, Turned(s, t), id)
    ensures Targets(Turned(s, t), id)
  {
    var i := Target(s.world.roles, s.cr);
    var seen := AfterObserve(s.cr, s.world, t.observeUp);
    assert seen.result.Ok?;
    NamedTarget(s.world.roles, seen.cr, i);
    var done := AfterDelete(seen.cr, s.world, t.env);
    PutFrame(s.world, i, map[], t.env.reply, t.env.candidate);
    PersistedTarget(s.world.roles, s.cr, done.cr, t, i);
    SameTarget(s.world.roles, done.world.roles, Turned(s, t).cr);
    assert SameIdentity(done.world.roles[i], s.world.roles[i]);
  }

  lemma TargetStays(s: Cluster, e: Event, id: GoInt)
    requires DistinctIds(s.world.roles) && s.cr.deleted && s.cr.status.cleared && Targets(s, id)
    requires !Foreign(e) && !Retargets(e)
    ensures Targets(Step(s, e), id)
  {
    var i := Target(s.world.roles, s.cr);
    if e.Reconciled? && !s.drained && e.turn.observeUp {
      var seen := AfterObserve(s.cr, s.world, true);
      PersistedTarget(s.world.roles, s.cr, seen.cr, e.turn, i);
    }
  }

  lemma {:induction false} TargetStaysOn(s: Cluster, es: seq<Event>, id: GoInt)
    requires DistinctIds(s.world.roles) && s.cr.deleted && s.cr.status.cleared && Targets(s, id)
    requires forall e :: e in es ==> !Foreign(e) && !Retargets(e)
    ensures Targets(Run(s, es), id)
  {
    if es == [] {
    } else {
      var init := es[..|es| - 1];
      TargetStaysOn(s, init, id);
      ClearedStays(s, init);
      TargetStays(Run(s, init), es[|es| - 1], id);
    }
  }

  lemma WipedIsTargetAt(s: Cluster, es: seq<Event>, k: nat, id: GoInt)
    requires DistinctIds(s.world.roles) && forall e :: e in es ==> Lawful(e)
    requires WipedAt(s, es, k, id) && !Foreign(es[k])
    ensures var after := Run(s, es[..k + 1]); Targets(after, id) && DistinctIds(after.world.roles)
  {
    var before := Run(s, es[..k]);
    RunKeepsIdsApart(s, es[..k + 1]);
    RunKeepsIdsApart(s, es[..k]);
    assert es[..k + 1][..k] == es[..k];
    WipedIsTarget(before, es[k].turn, id);
  }

  /**
   If nobody else writes or edits from the wiping reconcile on, the role that the resource
   resolves to at the end is the wiped one, whether or not its ID was ever written back.
   */
  lemma WipedTargetAtEnd(s: Cluster, es: seq<Event>, k: nat, id: GoInt)
    requires DistinctIds(s.world.roles) && forall e :: e in es ==> Lawful(e)
    requires WipedAt(s, es, k, id)
    requires forall e :: e in es[k..] ==> !Foreign(e) && !Retargets(e)
    ensures Targets(Run(s, es), id)
  {
    assert es[k] in es[k..];
    WipedIsTargetAt(s, es, k, id);
    RunSplit(s, es, k + 1);
    assert forall e :: e in es[k + 1..] ==> e in es[k..];
    TargetStaysOn(Run(s, es[..k + 1]), es[k + 1..], id);
  }

  // ---------------------------------------------------------------- progress

  /** How far a deletion still has to go. */
  function Phase(s: Cluster): nat {
    if s.drained then 0 else if s.cr.status.cleared then 1 else 2
  }

  /** A reconcile in which nothing fails and no status write is lost; others may write all the same. */
  predicate Clean(t: Turn) {
    t.observeUp && t.env.up && t.env.reply == Acknowledged && t.keepStatus
  }

  /** No request that the reconcile needs fails, and the flag is kept if it is new. */
  predicate Succeeds(s: Cluster, t: Turn) {
    if s.cr.status.cleared then t.observeUp else Clean(t)
  }

  /** Delete finds a role after the drift, and it is still listed when the PUT arrives. */
  ghost predicate DeleteFinds(s: Cluster, t: Turn) {
    var w := WithDrift(s.world, t.drift);
    var i := Target(w.roles, AfterObserve(s.cr, s.world, true).cr);
    i >= 0 && Lists(WithDrift(w, t.env.meanwhile).roles, w.roles[i].id)
  }

  /** Observe finds a role, and so does Delete, unless it is not called any more. */
  ghost predicate Finds(s: Cluster, t: Turn) {
    Target(s.world.roles, s.cr) >= 0 && (s.cr.status.cleared || DeleteFinds(s, t))
  }

  /** The event takes a deletion one phase further. */
  ghost predicate Advances(s: Cluster, e: Event) {
    !s.drained && e.Reconciled? && Succeeds(s, e.turn) && Finds(s, e.turn)
  }

  lemma ClearedTurn(s: Cluster, t: Turn)
    requires s.cr.deleted && !s.drained && s.cr.status.cleared
    ensures Turned(s, t).cr.deleted && Turned(s, t).cr.status.cleared
    ensures Turned(s, t).drained <==> Advances(s, Reconciled(t))
  {
  }

  lemma WipingTurn(s: Cluster, t: Turn)
    requires s.cr.deleted && !s.drained && !s.cr.status.cleared
    ensures Turned(s, t).cr.deleted && !Turned(s, t).drained
    ensures Turned(s, t).cr.status.cleared <==> Advances(s, Reconciled(t))
  {
  }

  /** A reconcile of a deleted resource moves it on by one phase exactly if its requests succeed and find a role. */
  lemma AdvancesIff(s: Cluster, e: Event)
    requires s.cr.deleted
    ensures Step(s, e).cr.deleted
    ensures Phase(Step(s, e)) == Phase(s) - if Advances(s, e) then 1 else 0
  {
    if e.Reconciled? && !s.drained {
      if s.cr.status.cleared {
        ClearedTurn(s, e.turn);
      } else {
        WipingTurn(s, e.turn);
      }
    }
  }

  /** The reconciles of a run that took the deletion further. */
  ghost function Advanced(s: Cluster, es: seq<Event>): nat {
    if es == [] then 0
    else Advanced(s, es[..|es| - 1]) + if Advances(Run(s, es[..|es| - 1]), es[|es| - 1]) then 1 else 0
  }

  /**
   Where a deletion stands after any run: each reconcile that advances takes it one phase
   further, and nothing else moves it. It is drained exactly when there were enough of them.
   */
  lemma {:induction false} DeletionIff(s: Cluster, es: seq<Event>)
    requires s.cr.deleted
    ensures Run(s, es).cr.deleted
    ensures Phase(Run(s, es)) == Phase(s) - Advanced(s, es)
    ensures Run(s, es).drained <==> Advanced(s, es) == Phase(s)
  {
    if es == [] {
    } else {
      DeletionIff(s, es[..|es| - 1]);
      AdvancesIff(Run(s, es[..|es| - 1]), es[|es| - 1]);
    }
  }

  function CleanTurns(es: seq<Event>): nat {
    if es == [] then 0
    else CleanTurns(es[..|es| - 1]) + if es[|es| - 1].Reconciled? && Clean(es[|es| - 1].turn) then 1 else 0
  }

  /** Whenever a clean reconcile looks for the role, it can be resolved. */
  ghost predicate Resolvable(s: Cluster, es: seq<Event>) {
    forall k :: 0 <= k < |es| && es[k].Reconciled? && Clean(es[k].turn)
                ==> Run(s, es[..k]).drained || Finds(Run(s, es[..k]), es[k].turn)
  }

  lemma {:induction false} CleanTurnsAdvance(s: Cluster, es: seq<Event>)
    requires s.cr.deleted && Resolvable(s, es)
    ensures CleanTurns(es) <= Advanced(s, es) || Run(s, es).drained
  {
    if es == [] {
    } else {
      var init := es[..|es| - 1];
      assert Resolvable(s, init) by {
        assert forall k :: 0 <= k < |init| ==> init[..k] == es[..k] && init[k] == es[k];
      }
      CleanTurnsAdvance(s, init);
      DeletionIff(s, init);
      AdvancesIff(Run(s, init), es[|es| - 1]);
      assert es[..|init|] == init;
    }
  }

  /**
   Deletion progress. Whatever fails or is written in between, and whatever others write even
   during them, two clean reconciles that can resolve their role drain a deleted resource.
   */
  lemma DeletionProgress(s: Cluster, es: seq<Event>)
    requires s.cr.deleted && Resolvable(s, es)
    ensures Run(s, es).cr.deleted
    ensures Phase(Run(s, es)) + CleanTurns(es) <= Phase(s) || Run(s, es).drained
    ensures CleanTurns(es) >= 2 ==> Run(s, es).drained
  {
    CleanTurnsAdvance(s, es);
    DeletionIff(s, es);
  }

  /** Without anybody else's writes it is enough that Observe finds the role. */
  lemma CalmFinds(s: Cluster, t: Turn)
    requires Calm(t) && Target(s.world.roles, s.cr) >= 0
    ensures Finds(s, t)
  {
    var role := s.world.roles[Target(s.world.roles, s.cr)];
    assert ById(role.id).Accepts(role);
    PinnedTarget(s.world.roles, AfterObserve(s.cr, s.world, true).cr, role.id);
  }

  /** No reconcile of the run finds a role when it observes. */
  ghost predicate NeverResolved(s: Cluster, es: seq<Event>) {
    forall k :: 0 <= k < |es| && es[k].Reconciled? ==> Target(Run(s, es[..k]).world.roles, Run(s, es[..k]).cr) < 0
  }

  lemma StuckStep(s: Cluster, e: Event)
    requires e.Reconciled? ==> Target(s.world.roles, s.cr) < 0
    ensures var s' := Step(s, e);
            s'.drained == s.drained && s'.cr.status == s.cr.status && s'.world.log == s.world.log
  {
  }

  /**
   While its role cannot be resolved a resource is stuck: nothing is sent, its status stays,
   and a deleted one never goes, even if its permissions were cleared, since Observe fails first.
   */
  lemma {:induction false} StuckWithoutRole(s: Cluster, es: seq<Event>)
    requires NeverResolved(s, es)
    ensures var s' := Run(s, es);
            s'.drained == s.drained && s'.cr.status == s.cr.status && s'.world.log == s.world.log
  {
    if es == [] {
    } else {
      var init := es[..|es| - 1];
      assert NeverResolved(s, init) by {
        assert forall k :: 0 <= k < |init| ==> init[..k] == es[..k] && init[k] == es[k];
      }
      StuckWithoutRole(s, init);
      assert es[..|init|] == init;
      StuckStep(Run(s, init), es[|init|]);
    }
  }
}
