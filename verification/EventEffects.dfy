/**
 What each event of a run does for the next reconcile, and what a reconcile writes back
 (internal/controller/rolepermissions/rolepermissions.go).
 */
module EventEffects {
  import opened GoStrings
  import opened Sorting
  import opened Permissions
  import opened PermissionLists
  import opened Roles
  import opened Controller
  import opened CallResults
  import opened Sessions
  import opened Reconcile

  // ------------------------------------------------------------- written back

  /** The status tells about this role. */
  ghost predicate Reports(status: Status, role: Role) {
    && status.roleId == role.id && status.typ == role.typ
    && Ascending(status.permissions) && ToSet(status.permissions) == Names(Enabled(role.permissions))
  }

  lemma ReportsRole(cr: Resource, w: World)
    requires Target(w.roles, cr) >= 0 && !(cr.deleted && cr.status.cleared)
    ensures Reports(AfterObserve(cr, w, true).cr.status, w.roles[Target(w.roles, cr)])
    ensures !AfterObserve(cr, w, true).cr.status.cleared
  {
    ObserveReports(cr, w);
  }

  /** A reconcile writes neither spec nor deletion mark; without a listing or a role it changes nothing at all. */
  lemma TurnWrites(s: Cluster, t: Turn)
    ensures var s' := Turned(s, t);
            && s'.cr.selector == s.cr.selector && s'.cr.permissions == s.cr.permissions && s'.cr.deleted == s.cr.deleted
            && (!t.observeUp || Target(s.world.roles, s.cr) < 0 ==> s' == s)
            && (!t.keepName ==> s'.cr.externalName == s.cr.externalName)
            && (!t.keepStatus ==> s'.cr.status == s.cr.status)
  {
  }

  lemma CallsKeepRest(cr: Resource, w: World, env: Env)
    ensures AfterApply(cr, w, env).cr == cr
    ensures var after := AfterDelete(cr, w, env).cr;
            after.externalName == cr.externalName && after.status.(cleared := cr.status.cleared) == cr.status
  {
  }

  /** What is kept of the resource that Observe left in memory. */
  ghost predicate Kept(t: Turn, seen: Resource, after: Resource) {
    && (t.keepName ==> after.externalName == seen.externalName)
    && (t.keepStatus ==> after.status.(cleared := seen.status.cleared) == seen.status)
  }

  /** A live resource is observed, and its spec applied if need be. */
  lemma LiveWrites(s: Cluster, t: Turn)
    requires t.observeUp && Target(s.world.roles, s.cr) >= 0 && !s.cr.deleted
    ensures var seen, s' := AfterObserve(s.cr, s.world, true).cr, Turned(s, t);
            Kept(t, seen, s'.cr) && (t.keepStatus ==> s'.cr.status == seen.status) && !s'.drained
  {
    CallsKeepRest(AfterObserve(s.cr, s.world, true).cr, WithDrift(s.world, t.drift), t.env);
  }

  /** A deleted one that was cleared goes. */
  lemma GoneWrites(s: Cluster, t: Turn)
    requires t.observeUp && Target(s.world.roles, s.cr) >= 0 && s.cr.deleted && s.cr.status.cleared
    ensures var seen, s' := AfterObserve(s.cr, s.world, true).cr, Turned(s, t);
            Kept(t, seen, s'.cr) && s'.cr.status == s.cr.status && s'.drained
  {
  }

  /** One that was not is deleted. */
  lemma DeletedWrites(s: Cluster, t: Turn)
    requires t.observeUp && Target(s.world.roles, s.cr) >= 0 && s.cr.deleted && !s.cr.status.cleared
    ensures var seen, s' := AfterObserve(s.cr, s.world, true).cr, Turned(s, t);
            Kept(t, seen, s'.cr) && !s'.drained
  {
    CallsKeepRest(AfterObserve(s.cr, s.world, true).cr, WithDrift(s.world, t.drift), t.env);
  }

  /**
   What one reconcile of a resource with a role writes back. The annotation, if that write is
   kept, is the ID of the role that Observe found; the status, if that write is kept, tells about
   that role, except that a deleted and cleared resource keeps its own, and goes.
   */
  lemma ResolvedWrites(s: Cluster, t: Turn)
    requires t.observeUp && Target(s.world.roles, s.cr) >= 0
    ensures var role, s' := s.world.roles[Target(s.world.roles, s.cr)], Turned(s, t);
            && (t.keepName ==> Numeral(s'.cr.externalName) && NumeralValue(s'.cr.externalName) == role.id)
            && (s.cr.deleted && s.cr.status.cleared ==> s'.cr.status == s.cr.status)
            && (t.keepStatus && !(s.cr.deleted && s.cr.status.cleared) ==> Reports(s'.cr.status, role))
            && (t.keepStatus && !s.cr.deleted ==> !s'.cr.status.cleared)
            && (s'.drained <==> s.cr.deleted && s.cr.status.cleared)
  {
    ObserveReports(s.cr, s.world);
    if s.cr.deleted && s.cr.status.cleared {
      GoneWrites(s, t);
    } else if s.cr.deleted {
      DeletedWrites(s, t);
    } else {
      LiveWrites(s, t);
    }
  }

  // ------------------------------------------------------------ taking effect

  /**
   A calm reconcile of resource `cr` against `roles` has been done: the first role that it
   resolves to grants what the spec names, or has been found to list it already; no other role
   changed, and no role's identity.
   */
  ghost predicate Applied(cr: Resource, roles: seq<Role>, after: Cluster, i: nat)
    requires i < |roles|
  {
    && SameIdentities(roles, after.world.roles)
    && (forall j :: 0 <= j < |roles| && j != i ==> after.world.roles[j] == roles[j])
    && if UpToDate(roles[i], cr) then after.world.roles[i] == roles[i]
       else Enabled(after.world.roles[i].permissions) == Parsed(cr.permissions)
  }

  lemma RunTwo(s: Cluster, e: Event, f: Event)
    ensures Run(s, [e, f]) == Step(Step(s, e), f)
  {
    RunSnoc(s, [], e);
    RunSnoc(s, [e], f);
    assert [] + [e] == [e] && [e] + [f] == [e, f];
  }

  lemma CalmApplies(s: Cluster, t: Turn, i: nat)
    requires Live(s, i) && Calm(t)
    ensures Applied(s.cr, s.world.roles, Turned(s, t), i)
  {
    CalmTurn(s, t, i);
    CalmFrame(s, t, i);
  }

  /** An edited spec is the one the next calm reconcile applies, to the role of the edited selector. */
  lemma EditTakesEffect(s: Cluster, selector: string, permissions: seq<string>, t: Turn, i: nat)
    requires !s.drained && !s.cr.deleted && DistinctIds(s.world.roles) && Calm(t) && i < |s.world.roles|
    requires Target(s.world.roles, s.cr.(selector := selector)) == i
    ensures Applied(s.cr.(permissions := permissions), s.world.roles,
                    Run(s, [Edited(selector, permissions), Reconciled(t)]), i)
  {
    var s' := Step(s, Edited(selector, permissions));
    RunTwo(s, Edited(selector, permissions), Reconciled(t));
    TargetIgnoresRest(s.world.roles, s.cr.(selector := selector), s'.cr);
    CalmApplies(s', t, i);
  }

  /** An annotation with the ID of a listed role makes the next calm reconcile apply to that role. */
  lemma AnnotationTakesEffect(s: Cluster, externalName: string, t: Turn, i: nat)
    requires !s.drained && !s.cr.deleted && DistinctIds(s.world.roles) && Calm(t) && i < |s.world.roles|
    requires Numeral(externalName) && NumeralValue(externalName) == s.world.roles[i].id
    ensures Applied(s.cr, s.world.roles, Run(s, [Annotated(externalName), Reconciled(t)]), i)
  {
    var s' := Step(s, Annotated(externalName));
    RunTwo(s, Annotated(externalName), Reconciled(t));
    AtoiMeaning(externalName, s.world.roles[i].id);
    ListedAt(s.world.roles, i);
    CalmApplies(s', t, i);
  }

  /** The roles that others wrote are the ones the next calm reconcile finds. */
  lemma DriftTakesEffect(s: Cluster, roles: seq<Role>, t: Turn, i: nat)
    requires !s.drained && !s.cr.deleted && DistinctIds(roles) && Calm(t)
    requires i < |roles| && Target(roles, s.cr) == i
    ensures Applied(s.cr, roles, Run(s, [Drifted(roles), Reconciled(t)]), i)
  {
    RunTwo(s, Drifted(roles), Reconciled(t));
    CalmApplies(Step(s, Drifted(roles)), t, i);
  }

  lemma MarkedClears(c: Cluster, t: Turn, i: nat)
    requires !c.drained && c.cr.deleted && !c.cr.status.cleared && DistinctIds(c.world.roles) && Calm(t)
    requires i < |c.world.roles| && Target(c.world.roles, c.cr) == i
    ensures var s' := Turned(c, t);
            && s'.cr.deleted && !s'.drained
            && Holds(s'.world.roles, c.world.roles[i], {}) && (t.keepStatus ==> s'.cr.status.cleared)
  {
    var seen := AfterObserve(c.cr, c.world, true);
    NamedTarget(c.world.roles, seen.cr, i);
    assert c.world.roles[i] in c.world.roles;
    DeleteMeaning(seen.cr, c.world, t.env);
  }

  /**
   A deletion mark makes the next calm reconcile clear the role, unless a stale flag says that
   this was done: then the resource goes at once.
   */
  lemma MarkTakesEffect(s: Cluster, t: Turn, i: nat)
    requires !s.drained && DistinctIds(s.world.roles) && Calm(t)
    requires i < |s.world.roles| && Target(s.world.roles, s.cr) == i
    ensures var s' := Run(s, [MarkedDeleted, Reconciled(t)]);
            && s'.cr.deleted && (s'.drained <==> s.cr.status.cleared)
            && if s.cr.status.cleared then s'.world == s.world
               else Holds(s'.world.roles, s.world.roles[i], {}) && (t.keepStatus ==> s'.cr.status.cleared)
  {
    var c := Step(s, MarkedDeleted);
    RunTwo(s, MarkedDeleted, Reconciled(t));
    if !s.cr.status.cleared {
      MarkedClears(c, t, i);
    }
  }

  // ------------------------------------------------------------ in one session

  lemma PlayTwo(s: Session, c: Call, d: Call)
    ensures Play(s, [c, d]) == Do(Do(s, c), d)
  {
    var mid := Do(s, c);
    assert [c, d][1..] == [d];
    assert Play(s, [c, d]) == Play(mid, [d]);
    assert [d][1..] == [];
    assert Play(mid, [d]) == Play(Do(mid, d), []);
  }

  /** An acknowledged call without other writers. */
  predicate Undisturbed(env: Env) {
    env.up && env.meanwhile.None? && env.reply == Acknowledged
  }

  lemma CallsOn(cr: Resource, w: World, i: nat, env: Env)
    requires Target(w.roles, cr) == i < |w.roles| && Undisturbed(env)
    ensures Holds(AfterApply(cr, w, env).world.roles, w.roles[i], Parsed(cr.permissions))
    ensures Holds(AfterDelete(cr, w, env).world.roles, w.roles[i], {})
    ensures AfterDelete(cr, w, env).cr.status.cleared
  {
    assert w.roles[i] in w.roles;
    ApplyMeaning(cr, w, env);
    DeleteMeaning(cr, w, env);
  }

  /** The edited resource on which a session then makes one call. */
  function EditedTo(cr: Resource, selector: string, permissions: seq<string>): Resource {
    cr.(selector := selector, permissions := permissions)
  }

  lemma PlayEdited(s: Session, selector: string, permissions: seq<string>, env: Env)
    ensures var edit, cr := Edit(selector, permissions), EditedTo(s.cr, selector, permissions);
            && Play(s, [edit, Create(env)]).world == AfterApply(cr, s.world, env).world
            && Play(s, [edit, Update(env)]).world == AfterApply(cr, s.world, env).world
            && Play(s, [edit, Delete(env)]).world == AfterDelete(cr, s.world, env).world
            && Play(s, [edit, Delete(env)]).cr == AfterDelete(cr, s.world, env).cr
  {
    PlayTwo(s, Edit(selector, permissions), Create(env));
    PlayTwo(s, Edit(selector, permissions), Update(env));
    PlayTwo(s, Edit(selector, permissions), Delete(env));
  }

  /**
   After an edit, Create and Update give the role that the edited resource resolves to exactly
   what the edited spec names, and Delete leaves it nothing and sets the flag.
   */
  lemma CallsApply(s: Session, i: nat, selector: string, permissions: seq<string>, env: Env)
    requires Target(s.world.roles, s.cr.(selector := selector)) == i < |s.world.roles| && Undisturbed(env)
    ensures var role, edit := s.world.roles[i], Edit(selector, permissions);
            && Holds(Play(s, [edit, Create(env)]).world.roles, role, Parsed(permissions))
            && Holds(Play(s, [edit, Update(env)]).world.roles, role, Parsed(permissions))
            && Holds(Play(s, [edit, Delete(env)]).world.roles, role, {})
            && Play(s, [edit, Delete(env)]).cr.status.cleared
  {
    PlayEdited(s, selector, permissions, env);
    TargetIgnoresRest(s.world.roles, s.cr.(selector := selector), EditedTo(s.cr, selector, permissions));
    CallsOn(EditedTo(s.cr, selector, permissions), s.world, i, env);
  }

  /** Observe reports the role as others have left it. */
  lemma ForeignIsObserved(s: Session, roles: seq<Role>)
    requires Target(roles, s.cr) >= 0 && !s.cr.deleted
    ensures var s' := Play(s, [Foreign(roles), Observe(true)]);
            s'.world.roles == roles && Reports(s'.cr.status, roles[Target(roles, s.cr)])
  {
    PlayTwo(s, Foreign(roles), Observe(true));
    var mid := Do(s, Foreign(roles));
    assert mid.cr == s.cr && mid.world.roles == roles;
    ReportsRole(mid.cr, mid.world);
  }
}
