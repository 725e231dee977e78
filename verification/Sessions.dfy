/**
 Runs of controller calls on one in-memory resource: which role they touch and what they
 leave alone (internal/controller/rolepermissions/rolepermissions.go).
 */
module Sessions {
  import opened GoStrings
  import opened Permissions
  import opened PermissionLists
  import opened Roles
  import opened Controller

  /** One call, or something that happens between calls. */
  datatype Call =
    | Observe(up: bool)
    | Create(env: Env)
    | Update(env: Env)
    | Delete(env: Env)
    | Edit(selector: string, permissions: seq<string>)
    | Foreign(roles: seq<Role>)

  datatype Session = Session(cr: Resource, world: World)

  ghost function Do(s: Session, c: Call): Session {
    match c
    case Observe(up) => var o := AfterObserve(s.cr, s.world, up); Session(o.cr, o.world)
    case Create(env) => var o := AfterApply(s.cr, s.world, env); Session(o.cr, o.world)
    case Update(env) => var o := AfterApply(s.cr, s.world, env); Session(o.cr, o.world)
    case Delete(env) => var o := AfterDelete(s.cr, s.world, env); Session(o.cr, o.world)
    case Edit(selector, permissions) => s.(cr := s.cr.(selector := selector, permissions := permissions))
    case Foreign(roles) => s.(world := s.world.(roles := roles))
  }

  ghost function Play(s: Session, calls: seq<Call>): Session
    decreases |calls|
  {
    if calls == [] then s else Play(Do(s, calls[0]), calls[1..])
  }

  // -------------------------------------------------------------- identities

  /** The same role up to its permissions: ID, name, description and type. */
  ghost predicate SameIdentity(r: Role, r': Role) {
    r.(permissions := r'.permissions) == r'
  }

  /** Same roles in the same order, up to their permissions. */
  ghost predicate SameIdentities(roles: seq<Role>, after: seq<Role>) {
    |roles| == |after| && forall i :: 0 <= i < |roles| ==> SameIdentity(after[i], roles[i])
  }

  lemma SameFirst(roles: seq<Role>, after: seq<Role>, m: Match)
    requires SameIdentities(roles, after)
    ensures First(roles, m) == First(after, m)
  {
    forall i | 0 <= i < |roles| ensures m.Accepts(roles[i]) <==> m.Accepts(after[i]) {
      assert SameIdentity(after[i], roles[i]);
    }
    var i := First(roles, m);
    if i >= 0 {
      FirstUnique(after, m, i);
    }
  }

  lemma SameTarget(roles: seq<Role>, after: seq<Role>, cr: Resource)
    requires SameIdentities(roles, after)
    ensures Target(roles, cr) == Target(after, cr)
  {
    match Atoi(cr.externalName) {
      case None =>
      case Some(id) => SameFirst(roles, after, ById(id));
    }
    SameFirst(roles, after, ByType(cr.selector));
    SameFirst(roles, after, ByName(cr.selector));
  }

  /** A PUT whose body was taken from the listing changes the permissions of that role and nothing else. */
  lemma PutFrame(w: World, i: nat, t: Tree, reply: PutReply, candidate: Tree)
    requires DistinctIds(w.roles) && i < |w.roles|
    ensures var w' := AfterPut(w, w.roles[i].id, w.roles[i].(permissions := t), reply, candidate);
            && w'.log == w.log + [Put(w.roles[i].id, w.roles[i].(permissions := t))]
            && SameIdentities(w.roles, w'.roles)
            && (forall j :: 0 <= j < |w.roles| && j != i ==> w'.roles[j] == w.roles[j])
            && Enabled(w'.roles[i].permissions)
               == if reply == Refused then Enabled(w.roles[i].permissions) else Enabled(t)
  {
    ListedAt(w.roles, i);
  }

  /** A PUT that gets through gives every role with its ID the identity and the permissions of its body. */
  lemma PutOver(w: World, body: Role, reply: PutReply, candidate: Tree, j: nat)
    requires j < |w.roles|
    ensures var w' := AfterPut(w, body.id, body, reply, candidate);
            && |w'.roles| == |w.roles|
            && if reply == Refused || w.roles[j].id != body.id then w'.roles[j] == w.roles[j]
               else SameIdentity(w'.roles[j], body) && Enabled(w'.roles[j].permissions) == Enabled(body.permissions)
  {
    if w.roles[j].id == body.id {
      assert ById(body.id).Accepts(w.roles[j]);
    }
  }

  /** What the call leaves of the foreign change that role `j` is in, when `role` is the one it resolved. */
  ghost predicate Survives(role: Role, now: seq<Role>, after: seq<Role>, reply: PutReply, j: nat)
    requires j < |now|
  {
    && |after| == |now|
    && (SameIdentity(after[j], now[j])
        <==> reply == Refused || now[j].id != role.id || SameIdentity(role, now[j]))
    && (!SameIdentity(after[j], now[j]) ==> SameIdentity(after[j], role))
  }

  /**
   What a call does to a change of name, type or description that others make between its
   listing and its PUT. The change survives exactly if the PUT is refused, if it is about
   another role, or if it gave the role what the listing had; otherwise it is undone.
   */
  lemma ForeignChangeSurvives(cr: Resource, w: World, env: Env, j: nat)
    requires env.up && Target(w.roles, cr) >= 0 && j < |WithDrift(w, env.meanwhile).roles|
    ensures var role, now := w.roles[Target(w.roles, cr)], WithDrift(w, env.meanwhile).roles;
            && Survives(role, now, AfterApply(cr, w, env).world.roles, env.reply, j)
            && Survives(role, now, AfterDelete(cr, w, env).world.roles, env.reply, j)
  {
    var role, now := w.roles[Target(w.roles, cr)], WithDrift(w, env.meanwhile);
    PutOver(now, role.(permissions := Expand(cr.permissions)), env.reply, env.candidate, j);
    PutOver(now, role.(permissions := map[]), env.reply, env.candidate, j);
  }

  // ------------------------------------------------------------------- frame

  /** The log names role `id` among the PUTs after the first `from`. */
  ghost predicate SentTo(log: seq<Put>, from: nat, id: GoInt) {
    exists k :: from <= k < |log| && log[k].id == id
  }

  /** Identities are kept, the log only grows, and a role that changed was sent a PUT. */
  ghost predicate Framed(w: World, w': World) {
    && SameIdentities(w.roles, w'.roles)
    && w.log <= w'.log
    && forall j :: 0 <= j < |w.roles| && w'.roles[j] != w.roles[j] ==> SentTo(w'.log, |w.log|, w.roles[j].id)
  }

  lemma FramedPut(w: World, i: nat, t: Tree, env: Env)
    requires DistinctIds(w.roles) && i < |w.roles|
    ensures Framed(w, AfterPut(w, w.roles[i].id, w.roles[i].(permissions := t), env.reply, env.candidate))
  {
    PutFrame(w, i, t, env.reply, env.candidate);
    var w' := AfterPut(w, w.roles[i].id, w.roles[i].(permissions := t), env.reply, env.candidate);
    assert w'.log[|w.log|].id == w.roles[i].id;
  }

  lemma FramedApply(cr: Resource, w: World, env: Env)
    requires DistinctIds(w.roles) && env.meanwhile.None?
    ensures Framed(w, AfterApply(cr, w, env).world)
  {
    var i := Target(w.roles, cr);
    if i >= 0 {
      FramedPut(w, i, Expand(cr.permissions), env);
    }
  }

  lemma FramedDelete(cr: Resource, w: World, env: Env)
    requires DistinctIds(w.roles) && env.meanwhile.None?
    ensures Framed(w, AfterDelete(cr, w, env).world)
  {
    var i := Target(w.roles, cr);
    if i >= 0 {
      FramedPut(w, i, map[], env);
    }
  }

  lemma FramedTransitive(w: World, mid: World, w': World)
    requires Framed(w, mid) && Framed(mid, w')
    ensures Framed(w, w')
  {
    forall j | 0 <= j < |w.roles|
      ensures SameIdentity(w'.roles[j], w.roles[j])
      ensures w'.roles[j] != w.roles[j] ==> SentTo(w'.log, |w.log|, w.roles[j].id)
    {
      assert SameIdentity(mid.roles[j], w.roles[j]) && SameIdentity(w'.roles[j], mid.roles[j]);
      if mid.roles[j] != w.roles[j] {
        var k :| |w.log| <= k < |mid.log| && mid.log[k].id == w.roles[j].id;
        assert w'.log[k] == mid.log[k];
      }
    }
  }

  lemma SameIds(roles: seq<Role>, after: seq<Role>)
    requires DistinctIds(roles) && SameIdentities(roles, after)
    ensures DistinctIds(after)
  {
    forall i | 0 <= i < |roles| ensures after[i].id == roles[i].id {
      assert SameIdentity(after[i], roles[i]);
    }
  }

  /** Somebody else changes the roles, between the calls or during one. */
  predicate ByOthers(c: Call) {
    match c
    case Foreign(_) => true
    case Create(env) => env.meanwhile.Some?
    case Update(env) => env.meanwhile.Some?
    case Delete(env) => env.meanwhile.Some?
    case _ => false
  }

  /**
   Over any run without foreign changes, every role keeps its place, ID, name, type and
   description, and only roles that were sent a PUT can have different permissions.
   */
  lemma {:induction false} Frame(s: Session, calls: seq<Call>)
    requires DistinctIds(s.world.roles) && forall c :: c in calls ==> !ByOthers(c)
    ensures Framed(s.world, Play(s, calls).world)
    decreases |calls|
  {
    if calls == [] {
    } else {
      var c, mid := calls[0], Do(s, calls[0]);
      assert !ByOthers(c) && forall x :: x in calls[1..] ==> x in calls;
      match c {
        case Create(env) => FramedApply(s.cr, s.world, env);
        case Update(env) => FramedApply(s.cr, s.world, env);
        case Delete(env) => FramedDelete(s.cr, s.world, env);
        case Observe(_) =>
        case Edit(_, _) =>
      }
      SameIds(s.world.roles, mid.world.roles);
      Frame(mid, calls[1..]);
      FramedTransitive(s.world, mid.world, Play(mid, calls[1..]).world);
    }
  }

  // ----------------------------------------------------------------- pinning

  ghost predicate Lists(roles: seq<Role>, n: GoInt) {
    First(roles, ById(n)) >= 0
  }

  /** What others write during the call keeps a role with this ID listed. */
  ghost predicate KeepsListed(env: Env, n: GoInt) {
    env.meanwhile.Some? ==> Lists(env.meanwhile.value, n)
  }

  ghost predicate LeavesListed(c: Call, n: GoInt) {
    match c
    case Foreign(roles) => Lists(roles, n)
    case Create(env) => KeepsListed(env, n)
    case Update(env) => KeepsListed(env, n)
    case Delete(env) => KeepsListed(env, n)
    case _ => true
  }

  /** Whatever others do to the roles, one with this ID stays listed. */
  ghost predicate StaysListed(calls: seq<Call>, n: GoInt) {
    forall c :: c in calls ==> LeavesListed(c, n)
  }

  lemma PinnedTarget(roles: seq<Role>, cr: Resource, n: GoInt)
    requires cr.externalName == Itoa(n) && Lists(roles, n)
    ensures Target(roles, cr) == First(roles, ById(n)) >= 0
    ensures roles[Target(roles, cr)].id == n
  {
    AtoiOfItoa(n);
  }

  /** Every PUT added to the log goes to `n`. */
  ghost predicate OnlyTo(log: seq<Put>, after: seq<Put>, n: GoInt) {
    log <= after && forall k :: |log| <= k < |after| ==> after[k].id == n
  }

  lemma PutKeepsListed(w: World, n: GoInt, body: Role, reply: PutReply, candidate: Tree)
    requires Lists(w.roles, n)
    ensures Lists(AfterPut(w, n, body, reply, candidate).roles, n)
  {
    var i := First(w.roles, ById(n));
    assert ById(n).Accepts(AfterPut(w, n, body, reply, candidate).roles[i]);
  }

  lemma PutPinned(w: World, n: GoInt, body: Role, env: Env)
    requires Lists(w.roles, n) && KeepsListed(env, n)
    ensures var w' := AfterPut(WithDrift(w, env.meanwhile), n, body, env.reply, env.candidate);
            Lists(w'.roles, n) && OnlyTo(w.log, w'.log, n)
  {
    PutKeepsListed(WithDrift(w, env.meanwhile), n, body, env.reply, env.candidate);
  }

  lemma PinnedApply(cr: Resource, w: World, env: Env, n: GoInt)
    requires cr.externalName == Itoa(n) && Lists(w.roles, n) && KeepsListed(env, n)
    ensures var o := AfterApply(cr, w, env); o.cr == cr && Lists(o.world.roles, n) && OnlyTo(w.log, o.world.log, n)
  {
    PinnedTarget(w.roles, cr, n);
    PutPinned(w, n, w.roles[Target(w.roles, cr)].(permissions := Expand(cr.permissions)), env);
  }

  lemma PinnedDelete(cr: Resource, w: World, env: Env, n: GoInt)
    requires cr.externalName == Itoa(n) && Lists(w.roles, n) && KeepsListed(env, n)
    ensures var o := AfterDelete(cr, w, env);
            o.cr.externalName == cr.externalName && Lists(o.world.roles, n) && OnlyTo(w.log, o.world.log, n)
  {
    PinnedTarget(w.roles, cr, n);
    PutPinned(w, n, w.roles[Target(w.roles, cr)].(permissions := map[]), env);
  }

  lemma PinnedStep(s: Session, c: Call, n: GoInt)
    requires s.cr.externalName == Itoa(n) && Lists(s.world.roles, n) && LeavesListed(c, n)
    ensures var s' := Do(s, c);
            s'.cr.externalName == Itoa(n) && Lists(s'.world.roles, n) && OnlyTo(s.world.log, s'.world.log, n)
  {
    match c {
      case Observe(up) => PinnedTarget(s.world.roles, s.cr, n);
      case Edit(selector, permissions) =>
      case Foreign(roles) =>
      case Create(env) => PinnedApply(s.cr, s.world, env, n);
      case Update(env) => PinnedApply(s.cr, s.world, env, n);
      case Delete(env) => PinnedDelete(s.cr, s.world, env, n);
    }
  }

  lemma OnlyToTransitive(log: seq<Put>, mid: seq<Put>, after: seq<Put>, n: GoInt)
    requires OnlyTo(log, mid, n) && OnlyTo(mid, after, n)
    ensures OnlyTo(log, after, n)
  {
    forall k | |log| <= k < |after| ensures after[k].id == n {
      if k < |mid| {
        assert after[k] == mid[k];
      }
    }
  }

  lemma {:induction false} PinnedRun(s: Session, calls: seq<Call>, n: GoInt)
    requires s.cr.externalName == Itoa(n) && Lists(s.world.roles, n) && StaysListed(calls, n)
    ensures var s' := Play(s, calls);
            s'.cr.externalName == Itoa(n) && Lists(s'.world.roles, n) && OnlyTo(s.world.log, s'.world.log, n)
    decreases |calls|
  {
    if calls == [] {
    } else {
      var mid := Do(s, calls[0]);
      assert LeavesListed(calls[0], n) && forall c :: c in calls[1..] ==> c in calls;
      PinnedStep(s, calls[0], n);
      PinnedRun(mid, calls[1..], n);
      OnlyToTransitive(s.world.log, mid.world.log, Play(mid, calls[1..]).world.log, n);
    }
  }

  /**
   Once Observe has resolved a role, every later PUT on the same in-memory resource goes to
   the ID of that role as long as it stays listed, whatever is renamed, reordered or edited,
   and so will the next one: the annotation names that role and resolves to it.
   */
  lemma Pinning(s: Session, calls: seq<Call>)
    requires AfterObserve(s.cr, s.world, true).result.Ok?
    requires StaysListed(calls, s.world.roles[Target(s.world.roles, s.cr)].id)
    ensures var seen := Do(s, Observe(true));
            var s' := Play(seen, calls);
            var n := s.world.roles[Target(s.world.roles, s.cr)].id;
            && seen.world == s.world && OnlyTo(s.world.log, s'.world.log, n)
            && s'.cr.externalName == Itoa(n)
            && Target(s'.world.roles, s'.cr) >= 0 && s'.world.roles[Target(s'.world.roles, s'.cr)].id == n
  {
    var i := Target(s.world.roles, s.cr);
    var n := s.world.roles[i].id;
    assert ById(n).Accepts(s.world.roles[i]);
    var seen := Do(s, Observe(true));
    PinnedRun(seen, calls, n);
    PinnedTarget(Play(seen, calls).world.roles, Play(seen, calls).cr, n);
  }
}
