/**
 What the calls of the external client return, leave in the resource and do to the server, in
 terms of the roles and replies they meet (internal/controller/rolepermissions/rolepermissions.go).
 */
module CallResults {
  import opened Outcomes
  import opened GoStrings
  import opened FlatNames
  import opened Sorting
  import opened Permissions
  import opened PermissionLists
  import opened Roles
  import opened Controller

  /** The roles when the PUT of a call arrives. */
  function RolesAtPut(w: World, env: Env): seq<Role> {
    if env.meanwhile.Some? then env.meanwhile.value else w.roles
  }

  /** The call finds a role, and it is still listed when the PUT arrives. */
  ghost predicate Reaches(cr: Resource, w: World, env: Env) {
    && env.up && Target(w.roles, cr) >= 0
    && exists r :: r in RolesAtPut(w, env) && r.id == w.roles[Target(w.roles, cr)].id
  }

  /** The roles with this ID have this name, description and type, and exactly these triples enabled. */
  ghost predicate Holds(roles: seq<Role>, role: Role, named: set<Triple>) {
    && (exists r :: r in roles && r.id == role.id)
    && forall r :: r in roles && r.id == role.id ==>
                     && r.name == role.name && r.description == role.description && r.typ == role.typ
                     && Enabled(r.permissions) == named
  }

  /** One PUT was made: to the role's ID, with all of the role as it was listed but these triples. */
  ghost predicate Sends(w: World, w': World, role: Role, named: set<Triple>) {
    && |w'.log| == |w.log| + 1 && w'.log[..|w.log|] == w.log
    && var put := w'.log[|w.log|];
       && put.id == role.id && put.body.(permissions := role.permissions) == role
       && Enabled(put.body.permissions) == named
  }

  lemma KnownIff(roles: seq<Role>, id: GoInt)
    ensures First(roles, ById(id)) >= 0 <==> exists r :: r in roles && r.id == id
  {
    var i := First(roles, ById(id));
    if i >= 0 {
      assert roles[i] in roles;
    }
    if r :| r in roles && r.id == id {
      assert ById(id).Accepts(r);
    }
  }

  /** What a PUT of `body` does: refused or unknown it changes nothing, else it replaces the roles with its ID. */
  lemma PutMeaning(w: World, body: Role, reply: PutReply, candidate: Tree)
    ensures var known := exists r :: r in w.roles && r.id == body.id;
            var w' := AfterPut(w, body.id, body, reply, candidate);
            && w'.log == w.log + [Put(body.id, body)] && |w'.roles| == |w.roles|
            && (forall j :: 0 <= j < |w.roles| && w.roles[j].id != body.id ==> w'.roles[j] == w.roles[j])
            && (!known || reply == Refused ==> w'.roles == w.roles)
            && (known && reply != Refused ==> Holds(w'.roles, body, Enabled(body.permissions)))
            && (PutSucceeds(w, body.id, reply) <==> known && reply == Acknowledged)
  {
    KnownIff(w.roles, body.id);
    if r :| r in w.roles && r.id == body.id {
      var j :| 0 <= j < |w.roles| && w.roles[j] == r;
      var w' := AfterPut(w, body.id, body, reply, candidate);
      assert reply != Refused ==> w'.roles[j] in w'.roles;
    }
  }

  /** The error of a call that does not get as far as its PUT. */
  ghost predicate FailsEarly(cr: Resource, w: World, up: bool, e: Error) {
    (!up && e == ListRolesFailed) || (up && Target(w.roles, cr) < 0 && e == RoleNotFound)
  }

  /**
   Create and Update succeed exactly if the listing is up, a role is resolved, its ID is listed
   when the PUT arrives, and the PUT is acknowledged; that role then grants exactly what the
   spec names, and is otherwise as it was listed. The resource stays as it is.
   */
  lemma ApplyMeaning(cr: Resource, w: World, env: Env)
    ensures var o := AfterApply(cr, w, env);
            && o.cr == cr
            && (o.result == Ok(()) <==> Reaches(cr, w, env) && env.reply == Acknowledged)
            && (forall e :: FailsEarly(cr, w, env.up, e) ==> o.result == Err(e) && o.world == w)
            && (env.up && Target(w.roles, cr) >= 0 ==>
                  && (o.result != Ok(()) ==> o.result == Err(UpdateRoleFailed))
                  && Sends(w, o.world, w.roles[Target(w.roles, cr)], Parsed(cr.permissions)))
    ensures var o := AfterApply(cr, w, env);
            o.result == Ok(()) ==> Holds(o.world.roles, w.roles[Target(w.roles, cr)], Parsed(cr.permissions))
  {
    if env.up && Target(w.roles, cr) >= 0 {
      var role := w.roles[Target(w.roles, cr)];
      ExpandMeaning(cr.permissions);
      PutMeaning(WithDrift(w, env.meanwhile), role.(permissions := Expand(cr.permissions)), env.reply, env.candidate);
    }
  }

  /**
   Delete succeeds exactly in the same cases; the role then has nothing enabled. The flag is set
   exactly if it succeeds, and nothing else of the resource changes.
   */
  lemma DeleteMeaning(cr: Resource, w: World, env: Env)
    ensures var o := AfterDelete(cr, w, env);
            && o.cr == cr.(status := cr.status.(cleared := cr.status.cleared || o.result == Ok(())))
            && (o.result == Ok(()) <==> Reaches(cr, w, env) && env.reply == Acknowledged)
            && (forall e :: FailsEarly(cr, w, env.up, e) ==> o.result == Err(e) && o.world == w)
            && (env.up && Target(w.roles, cr) >= 0 ==>
                  && (o.result != Ok(()) ==> o.result == Err(UpdateRoleFailed))
                  && Sends(w, o.world, w.roles[Target(w.roles, cr)], {}))
    ensures var o := AfterDelete(cr, w, env);
            o.result == Ok(()) ==> Holds(o.world.roles, w.roles[Target(w.roles, cr)], {})
  {
    if env.up && Target(w.roles, cr) >= 0 {
      var role := w.roles[Target(w.roles, cr)];
      EnabledIsGranted(map[]);
      PutMeaning(WithDrift(w, env.meanwhile), role.(permissions := map[]), env.reply, env.candidate);
    }
  }

  /** Observe fails exactly if the listing fails or no role is resolved, and then changes nothing. */
  lemma ObserveErrors(cr: Resource, w: World, up: bool)
    ensures var o := AfterObserve(cr, w, up);
            && o.world == w
            && (o.result.Ok? <==> up && Target(w.roles, cr) >= 0)
            && (forall e :: FailsEarly(cr, w, up, e) ==> o.result == Err(e) && o.cr == cr)
  {
  }

  lemma SortedTwice(flat: seq<string>, out: seq<string>)
    requires Sorted(out)
    ensures SortStrings(flat) == out <==> multiset(flat) == multiset(out)
  {
    if multiset(flat) == multiset(out) {
      SortedUnique(SortStrings(flat), out);
    }
  }

  /**
   What Observe reports of a resolvable role. Absence means deleted and cleared, so a stale flag
   on a live resource hides nothing and is dropped. The annotation is the role's ID in decimal;
   the status tells its ID, its type and, ascending, the names of its enabled leaves. It is up
   to date exactly if the spec is not empty and lists those names, each as often, in any order.
   */
  lemma ObserveReports(cr: Resource, w: World)
    requires Target(w.roles, cr) >= 0
    ensures var role := w.roles[Target(w.roles, cr)];
            var o := AfterObserve(cr, w, true);
            && o.result.Ok? && o.world == w
            && Numeral(o.cr.externalName) && NumeralValue(o.cr.externalName) == role.id
            && o.cr.selector == cr.selector && o.cr.permissions == cr.permissions && o.cr.deleted == cr.deleted
            && (!o.result.value.resourceExists <==> cr.deleted && cr.status.cleared)
            && (!o.result.value.resourceExists ==> o.cr.status == cr.status && !o.result.value.resourceUpToDate)
    ensures var role := w.roles[Target(w.roles, cr)];
            var o := AfterObserve(cr, w, true);
            o.result.value.resourceExists ==>
              && !o.cr.status.cleared && o.cr.status.roleId == role.id && o.cr.status.typ == role.typ
              && Ascending(o.cr.status.permissions) && |o.cr.status.permissions| == |Enabled(role.permissions)|
              && ToSet(o.cr.status.permissions) == Names(Enabled(role.permissions))
              && (o.result.value.resourceUpToDate
                  <==> cr.permissions != [] && multiset(cr.permissions) == multiset(o.cr.status.permissions))
  {
    var role := w.roles[Target(w.roles, cr)];
    ItoaMeaning(role.id);
    FlattenMeaning(role.permissions);
    SortedTwice(cr.permissions, Flatten(role.permissions));
  }
}
