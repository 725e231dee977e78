/**
 Whole runs of the RolePermissions controller under the managed reconciler.

 The reconciler of crossplane-runtime is not part of this repository. Its dispatch is an
 assumption, taken from the comments at internal/controller/rolepermissions/rolepermissions.go
 213-218, 263-266 and 277-278: Observe first; a deleted resource that exists is Deleted, one that
 is absent loses its finalizer; any other resource is Created when absent and Updated when it is
 not up to date; afterwards the annotation and the status are written back, either of which may
 be lost. Management policies include Delete.
 */
module Reconcile {
  import opened Outcomes
  import opened GoStrings
  import opened Sorting
  import opened Permissions
  import opened PermissionLists
  import opened Roles
  import opened Controller
  import opened Sessions

  /** What the environment decides during one reconcile; `drift` is a foreign change between its two calls. */
  datatype Turn = Turn(observeUp: bool, drift: Option<seq<Role>>, env: Env, keepName: bool, keepStatus: bool)

  /** `Annotated` is a user's or an initializer's write of the external name. */
  datatype Event =
    | Reconciled(turn: Turn)
    | Drifted(roles: seq<Role>)
    | Edited(selector: string, permissions: seq<string>)
    | Annotated(externalName: string)
    | MarkedDeleted

  /** The persisted resource, the server, and whether the finalizer is gone. */
  datatype Cluster = Cluster(cr: Resource, world: World, drained: bool)

  function Persisted(before: Resource, cr: Resource, t: Turn): Resource {
    before.(externalName := if t.keepName then cr.externalName else before.externalName,
    status := if t.keepStatus then cr.status else before.status)
  }

  /** One reconcile of a resource that still has its finalizer. */
  ghost function Turned(s: Cluster, t: Turn): Cluster {
    var seen := AfterObserve(s.cr, s.world, t.observeUp);
    match seen.result
    case Err(_) => s
    case Ok(o) =>
      if s.cr.deleted then
        if o.resourceExists then
          var done := AfterDelete(seen.cr, WithDrift(s.world, t.drift), t.env);
          Cluster(Persisted(s.cr, done.cr, t), done.world, false)
        else Cluster(Persisted(s.cr, seen.cr, t), s.world, true)
      else if o.resourceExists && o.resourceUpToDate then
        Cluster(Persisted(s.cr, seen.cr, t), s.world, false)
      else
        var done := AfterApply(seen.cr, WithDrift(s.world, t.drift), t.env);
        Cluster(Persisted(s.cr, done.cr, t), done.world, false)
  }

  ghost function Step(s: Cluster, e: Event): Cluster {
    match e
    case Reconciled(t) => if s.drained then s else Turned(s, t)
    case Drifted(roles) => s.(world := s.world.(roles := roles))
    case Edited(selector, permissions) => s.(cr := s.cr.(selector := selector, permissions := permissions))
    case Annotated(externalName) => s.(cr := s.cr.(externalName := externalName))
    case MarkedDeleted => s.(cr := s.cr.(deleted := true))
  }

  ghost function Run(s: Cluster, es: seq<Event>): Cluster {
    if es == [] then s else Step(Run(s, es[..|es| - 1]), es[|es| - 1])
  }

  lemma RunSnoc(s: Cluster, es: seq<Event>, e: Event)
    ensures Run(s, es + [e]) == Step(Run(s, es), e)
  {
    assert (es + [e])[..|es|] == es;
  }

  /** Observe is followed by a second call. */
  ghost predicate Acts(s: Cluster, observeUp: bool) {
    var seen := AfterObserve(s.cr, s.world, observeUp);
    && !s.drained && seen.result.Ok?
    && (s.cr.deleted ==> seen.result.value.resourceExists)
    && (!s.cr.deleted ==> !(seen.result.value.resourceExists && seen.result.value.resourceUpToDate))
  }

  /** The second call finds its role and sends a PUT. */
  ghost predicate SendsPut(s: Cluster, t: Turn) {
    && Acts(s, t.observeUp) && t.env.up
    && Target(WithDrift(s.world, t.drift).roles, AfterObserve(s.cr, s.world, t.observeUp).cr) >= 0
  }

  lemma PutsOfCall(cr: Resource, w: World, env: Env)
    ensures |AfterApply(cr, w, env).world.log| == |w.log| + if env.up && Target(w.roles, cr) >= 0 then 1 else 0
    ensures |AfterDelete(cr, w, env).world.log| == |w.log| + if env.up && Target(w.roles, cr) >= 0 then 1 else 0
  {
  }

  /** A reconcile sends at most one PUT, and only then. */
  lemma PutsOfTurn(s: Cluster, t: Turn)
    ensures |Step(s, Reconciled(t)).world.log| == |s.world.log| + if SendsPut(s, t) then 1 else 0
  {
    var seen, w := AfterObserve(s.cr, s.world, t.observeUp), WithDrift(s.world, t.drift);
    assert seen.world == s.world && |w.log| == |s.world.log|;
    PutsOfCall(seen.cr, w, t.env);
  }

  // ------------------------------------------------------------- convergence

  /** No call fails and nobody else writes; which writes of the resource are lost is left open. */
  predicate Calm(t: Turn) {
    t.observeUp && t.drift.None? && t.env.up && t.env.meanwhile.None? && t.env.reply == Acknowledged
  }

  /** A run of calm reconciles. */
  ghost predicate AllCalm(es: seq<Event>) {
    forall e :: e in es ==> e.Reconciled? && Calm(e.turn)
  }

  /** The specs that the comparison in Observe can be satisfied by. */
  ghost predicate Settles(permissions: seq<string>) {
    permissions != [] && Distinct(permissions) && AllNormal(permissions)
  }

  lemma SameMeaningSameList(t: Tree, u: Tree)
    requires Enabled(t) == Enabled(u)
    ensures Flatten(t) == Flatten(u)
  {
  }

  /** Observe calls a role that grants what the spec names up to date exactly on the specs that settle. */
  lemma UpToDateIff(role: Role, cr: Resource)
    requires Enabled(role.permissions) == Parsed(cr.permissions)
    ensures UpToDate(role, cr) <==> Settles(cr.permissions)
  {
    ExpandMeaning(cr.permissions);
    SameMeaningSameList(role.permissions, Expand(cr.permissions));
    RoundTripIff(cr.permissions);
  }

  /** A live resource with a resolvable role; `i` is the position of that role. */
  ghost predicate Live(s: Cluster, i: nat) {
    && !s.drained && !s.cr.deleted
    && DistinctIds(s.world.roles) && i < |s.world.roles| && Target(s.world.roles, s.cr) == i
  }

  lemma NamedTarget(roles: seq<Role>, cr: Resource, i: nat)
    requires DistinctIds(roles) && i < |roles| && cr.externalName == Itoa(roles[i].id)
    ensures Target(roles, cr) == i
  {
    AtoiOfItoa(roles[i].id);
    ListedAt(roles, i);
  }

  lemma TargetIgnoresRest(roles: seq<Role>, cr: Resource, cr': Resource)
    requires cr.externalName == cr'.externalName && cr.selector == cr'.selector
    ensures Target(roles, cr) == Target(roles, cr')
  {
  }

  /** The role a resource targets stays its target whether or not the external name was written. */
  lemma PersistedTarget(roles: seq<Role>, cr: Resource, mem: Resource, t: Turn, i: nat)
    requires DistinctIds(roles) && i < |roles| && Target(roles, cr) == i
    requires mem.externalName == Itoa(roles[i].id)
    ensures Target(roles, Persisted(cr, mem, t)) == i
  {
    if t.keepName {
      NamedTarget(roles, Persisted(cr, mem, t), i);
    } else {
      TargetIgnoresRest(roles, cr, Persisted(cr, mem, t));
    }
  }

  /** One calm reconcile: nothing is sent if the role is up to date, else one PUT makes it grant the spec. */
  lemma CalmTurn(s: Cluster, t: Turn, i: nat)
    requires Live(s, i) && Calm(t)
    ensures var s' := Turned(s, t);
            && Live(s', i) && s'.cr.permissions == s.cr.permissions
            && if UpToDate(s.world.roles[i], s.cr) then s'.world == s.world
               else |s'.world.log| == |s.world.log| + 1
                    && Enabled(s'.world.roles[i].permissions) == Parsed(s.cr.permissions)
  {
    var role := s.world.roles[i];
    var seen := AfterObserve(s.cr, s.world, true);
    NamedTarget(s.world.roles, seen.cr, i);
    PersistedTarget(s.world.roles, s.cr, seen.cr, t, i);
    if !UpToDate(role, s.cr) {
      ExpandMeaning(s.cr.permissions);
      PutFrame(s.world, i, Expand(s.cr.permissions), t.env.reply, t.env.candidate);
      var s' := Turned(s, t);
      SameTarget(s.world.roles, s'.world.roles, s'.cr);
      SameIds(s.world.roles, s'.world.roles);
    }
  }

  /** A calm reconcile changes no identity, and no other role than its target. */
  lemma CalmFrame(s: Cluster, t: Turn, i: nat)
    requires Live(s, i) && Calm(t)
    ensures var s' := Turned(s, t);
            && SameIdentities(s.world.roles, s'.world.roles) && !s'.cr.deleted && !s'.drained
            && forall j :: 0 <= j < |s.world.roles| && j != i ==> s'.world.roles[j] == s.world.roles[j]
  {
    var seen := AfterObserve(s.cr, s.world, true);
    NamedTarget(s.world.roles, seen.cr, i);
    if !UpToDate(s.world.roles[i], s.cr) {
      PutFrame(s.world, i, Expand(s.cr.permissions), t.env.reply, t.env.candidate);
    }
  }

  /** Once the role grants what the spec names, it goes on doing so; PUTs stop exactly if the spec settles. */
  lemma {:induction false} AfterFirstPut(s: Cluster, es: seq<Event>, i: nat)
    requires Live(s, i) && AllCalm(es)
    requires Enabled(s.world.roles[i].permissions) == Parsed(s.cr.permissions)
    ensures var s' := Run(s, es);
            && Live(s', i) && s'.cr.permissions == s.cr.permissions
            && Enabled(s'.world.roles[i].permissions) == Parsed(s.cr.permissions)
            && (UpToDate(s'.world.roles[i], s'.cr) <==> Settles(s.cr.permissions))
            && |s'.world.log| == |s.world.log| + if Settles(s.cr.permissions) then 0 else |es|
  {
    UpToDateIff(s.world.roles[i], s.cr);
    if es == [] {
    } else {
      var init := es[..|es| - 1];
      AfterFirstPut(s, init, i);
      CalmTurn(Run(s, init), es[|es| - 1].turn, i);
      var s' := Run(s, es);
      UpToDateIff(s'.world.roles[i], s'.cr);
    }
  }

  lemma {:induction false} RunCons(s: Cluster, es: seq<Event>)
    requires es != []
    ensures Run(s, es) == Run(Step(s, es[0]), es[1..])
  {
    if |es| == 1 {
    } else {
      RunCons(s, es[..|es| - 1]);
      assert es[..|es| - 1][1..] == es[1..][..|es| - 2];
    }
  }

  lemma {:induction false} StaysUpToDate(s: Cluster, es: seq<Event>, i: nat)
    requires Live(s, i) && AllCalm(es) && UpToDate(s.world.roles[i], s.cr)
    ensures var s' := Run(s, es); Live(s', i) && s'.cr.permissions == s.cr.permissions && s'.world == s.world
  {
    if es == [] {
    } else {
      var init := es[..|es| - 1];
      StaysUpToDate(s, init, i);
      CalmTurn(Run(s, init), es[|es| - 1].turn, i);
    }
  }

  /**
   The number of PUTs in a calm run of any length. None if the first Observe is satisfied;
   otherwise one if the spec settles, and one in every reconcile if it does not. After the
   first PUT the role grants exactly what the spec names.
   */
  lemma Convergence(s: Cluster, es: seq<Event>, i: nat)
    requires Live(s, i) && AllCalm(es) && es != []
    ensures var s' := Run(s, es);
            && Live(s', i)
            && |s'.world.log| == |s.world.log|
                                 + (if UpToDate(s.world.roles[i], s.cr) then 0
                                    else if Settles(s.cr.permissions) then 1
                                    else |es|)
            && (UpToDate(s.world.roles[i], s.cr) ==> s'.world == s.world)
            && (!UpToDate(s.world.roles[i], s.cr) ==>
                  && Enabled(s'.world.roles[i].permissions) == Parsed(s.cr.permissions)
                  && (UpToDate(s'.world.roles[i], s'.cr) <==> Settles(s.cr.permissions)))
  {
    if UpToDate(s.world.roles[i], s.cr) {
      StaysUpToDate(s, es, i);
    } else {
      CalmTurn(s, es[0].turn, i);
      RunCons(s, es);
      AfterFirstPut(Step(s, es[0]), es[1..], i);
    }
  }

  /** An empty spec never settles: every calm reconcile sends another PUT. */
  lemma EmptySpecNeverSettles(s: Cluster, es: seq<Event>, i: nat)
    requires Live(s, i) && AllCalm(es) && s.cr.permissions == []
    ensures |Run(s, es).world.log| == |s.world.log| + |es|
  {
    if es == [] {
    } else {
      Convergence(s, es, i);
    }
  }
}
