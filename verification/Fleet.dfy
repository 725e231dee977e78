/**
 Several RolePermissions resources on one server, some of them for the same role: when all of
 them settle, and after how many PUTs (internal/controller/rolepermissions/rolepermissions.go).
 */
module Fleet {
  import opened FlatNames
  import opened Permissions
  import opened Sorting
  import opened PermissionLists
  import opened Roles
  import opened Controller
  import opened Sessions
  import Reconcile

  /** The persisted resources, the server, and the resources whose finalizer is gone. */
  datatype State = State(crs: seq<Resource>, world: World, gone: set<nat>)

  /** One event of resource `k`; a drift is the same for all of them. */
  datatype Visit = Visit(k: nat, event: Reconcile.Event)

  /** Resource `k` as the controller of a single resource sees it. */
  function Member(s: State, k: nat): Reconcile.Cluster
    requires k < |s.crs|
  {
    Reconcile.Cluster(s.crs[k], s.world, k in s.gone)
  }

  function WithMember(s: State, k: nat, c: Reconcile.Cluster): State
    requires k < |s.crs|
  {
    State(s.crs[k := c.cr], c.world, if c.drained then s.gone + {k} else s.gone)
  }

  ghost function Visited(s: State, v: Visit): State {
    if v.k < |s.crs| then WithMember(s, v.k, Reconcile.Step(Member(s, v.k), v.event)) else s
  }

  ghost function After(s: State, vs: seq<Visit>): State {
    if vs == [] then s else Visited(After(s, vs[..|vs| - 1]), vs[|vs| - 1])
  }

  /** Position of the role that resource `k` targets. */
  ghost function At(s: State, k: nat): int
    requires k < |s.crs|
  {
    Target(s.world.roles, s.crs[k])
  }

  /** Resource `k` is not deleted. */
  predicate Stays(s: State, k: nat) {
    k < |s.crs| && !s.crs[k].deleted
  }

  /** Only deleted resources are gone, and each of the others has a role. */
  ghost predicate Sound(s: State) {
    && DistinctIds(s.world.roles)
    && forall k :: 0 <= k < |s.crs| && !s.crs[k].deleted ==> At(s, k) >= 0 && k !in s.gone
  }

  /** Resource `k` targets role `i` and does not find it up to date. */
  ghost predicate Unhappy(s: State, k: nat, i: int) {
    && Stays(s, k) && 0 <= i < |s.world.roles|
    && At(s, k) == i && !UpToDate(s.world.roles[i], s.crs[k])
  }

  /** All resources of role `i` find it up to date. */
  ghost predicate HappyOn(s: State, i: nat) {
    forall k :: !Unhappy(s, k, i)
  }

  /** Every Observe is satisfied, so no reconcile sends anything. */
  ghost predicate Quiet(s: State) {
    forall i :: 0 <= i < |s.world.roles| ==> HappyOn(s, i)
  }

  /** The specs of resources `k` and `m` settle and name the same triples. */
  ghost predicate Agree(s: State, k: nat, m: nat)
    requires k < |s.crs| && m < |s.crs|
  {
    && Reconcile.Settles(s.crs[k].permissions) && Reconcile.Settles(s.crs[m].permissions)
    && Parsed(s.crs[k].permissions) == Parsed(s.crs[m].permissions)
  }

  /** Any two resources of role `i`, and so each one, agree. */
  ghost predicate AgreeOn(s: State, i: nat) {
    forall k, m :: Stays(s, k) && Stays(s, m) && At(s, k) == i && At(s, m) == i ==> Agree(s, k, m)
  }

  /** For each role, its resources are all content with it already, or they agree. */
  ghost predicate Compatible(s: State) {
    forall i :: 0 <= i < |s.world.roles| ==> HappyOn(s, i) || AgreeOn(s, i)
  }

  /** The roles that some resource wants changed. */
  ghost function Wanting(s: State): set<nat> {
    set i | 0 <= i < |s.world.roles| && !HappyOn(s, i)
  }

  /** A calm reconcile of a resource that stays, or of one that is gone already. */
  ghost predicate CalmVisit(s: State, v: Visit) {
    && v.k < |s.crs| && (s.crs[v.k].deleted ==> v.k in s.gone)
    && v.event.Reconciled? && Reconcile.Calm(v.event.turn)
  }

  ghost predicate CalmVisits(s: State, vs: seq<Visit>) {
    forall v :: v in vs ==> CalmVisit(s, v)
  }

  ghost predicate Visits(vs: seq<Visit>, k: nat) {
    exists v :: v in vs && v.k == k
  }

  /** Every resource that stays is reconciled at least once, in any order. */
  ghost predicate Covers(s: State, vs: seq<Visit>) {
    CalmVisits(s, vs) && forall k :: Stays(s, k) ==> Visits(vs, k)
  }

  // ------------------------------------------------------------- one reconcile

  lemma SameListing(flat: seq<string>, out: seq<string>)
    requires ToSet(flat) == ToSet(out)
    ensures Parsed(flat) == Parsed(out) && (AllNormal(flat) <==> AllNormal(out))
  {
    assert forall p :: p in flat <==> p in ToSet(flat);
    assert forall p :: p in out <==> p in ToSet(out);
  }

  /** On a role that flat names can describe, Observe is satisfied exactly by the settling specs of what is enabled. */
  lemma UpToDateExactly(role: Role, cr: Resource)
    requires AllWellFormed(role.permissions)
    ensures UpToDate(role, cr)
       <==> Reconcile.Settles(cr.permissions) && Parsed(cr.permissions) == Enabled(role.permissions)
  {
    var flat, out := cr.permissions, Flatten(role.permissions);
    WellFormedFlattens(role.permissions);
    if UpToDate(role, cr) {
      SameElements(flat, out);
      PermutationKeepsDistinct(flat, out);
      SameListing(flat, out);
    }
    if Reconcile.Settles(flat) && Parsed(flat) == Enabled(role.permissions) {
      Reconcile.UpToDateIff(role, cr);
    }
  }

  /** The same resources with the same specs, deletion marks and targets. */
  ghost predicate SameMembers(s: State, s': State) {
    && Sound(s')
    && |s'.crs| == |s.crs| && |s'.world.roles| == |s.world.roles|
    && forall k :: 0 <= k < |s.crs| ==>
                     && s'.crs[k].permissions == s.crs[k].permissions
                     && s'.crs[k].deleted == s.crs[k].deleted && At(s', k) == At(s, k)
  }

  /** Besides, the same ones are gone, and the deleted ones are as they were. */
  ghost predicate Alike(s: State, s': State) {
    && SameMembers(s, s') && s'.gone == s.gone
    && forall k :: 0 <= k < |s.crs| && s.crs[k].deleted ==> s'.crs[k] == s.crs[k]
  }

  /** Role `i` grants what the spec of one of its resources names. */
  ghost predicate GrantedBy(s: State, s': State, k: nat, i: int) {
    && Stays(s, k) && 0 <= i < |s'.world.roles| && At(s, k) == i
    && Enabled(s'.world.roles[i].permissions) == Parsed(s.crs[k].permissions)
  }

  /** What a calm reconcile of resource `k` with role `i` does. */
  ghost predicate Effect(s: State, k: nat, i: int, s': State) {
    && Alike(s, s')
    && (forall j :: 0 <= j < |s.world.roles| && j != i ==> s'.world.roles[j] == s.world.roles[j])
    && if Unhappy(s, k, i) then |s'.world.log| == |s.world.log| + 1 && GrantedBy(s, s', k, i)
       else s'.world == s.world
  }

  /** A change of one resource and of its role's permissions that keeps specs and identities. */
  lemma MemberAlike(s: State, k: nat, c: Reconcile.Cluster, i: nat)
    requires Sound(s) && Stays(s, k) && At(s, k) == i && Reconcile.Live(c, i)
    requires c.cr.permissions == s.crs[k].permissions && SameIdentities(s.world.roles, c.world.roles)
    ensures Alike(s, WithMember(s, k, c))
  {
    var s' := WithMember(s, k, c);
    forall m | 0 <= m < |s.crs| ensures At(s', m) == At(s, m) {
      if m != k {
        SameTarget(s.world.roles, c.world.roles, s.crs[m]);
      }
    }
  }

  lemma LiveVisit(s: State, v: Visit, i: nat)
    requires Sound(s) && CalmVisit(s, v) && !s.crs[v.k].deleted && At(s, v.k) == i
    ensures Effect(s, v.k, i, Visited(s, v))
  {
    var c := Member(s, v.k);
    Reconcile.CalmTurn(c, v.event.turn, i);
    Reconcile.CalmFrame(c, v.event.turn, i);
    MemberAlike(s, v.k, Reconcile.Turned(c, v.event.turn), i);
  }

  lemma CalmEffect(s: State, v: Visit)
    requires Sound(s) && CalmVisit(s, v)
    ensures Effect(s, v.k, At(s, v.k), Visited(s, v))
  {
    if s.crs[v.k].deleted {
      assert Visited(s, v) == s;
    } else {
      LiveVisit(s, v, At(s, v.k));
    }
  }

  // ----------------------------------------------------------------- whole runs

  /** Some reconcile of the run was of a resource that wanted role `i` changed. */
  ghost predicate Disturbed(s: State, vs: seq<Visit>, i: nat) {
    exists v :: v in vs && Unhappy(s, v.k, i)
  }

  /** A role is as it was until one of its unhappy resources is reconciled; from then on some spec is in force. */
  ghost predicate Fate(s: State, vs: seq<Visit>, s': State, i: nat)
    requires i < |s.world.roles| && i < |s'.world.roles|
  {
    if Disturbed(s, vs, i) then exists k :: GrantedBy(s, s', k, i) else s'.world.roles[i] == s.world.roles[i]
  }

  lemma DisturbedSnoc(s: State, vs: seq<Visit>, i: nat)
    requires vs != []
    ensures Disturbed(s, vs, i) <==> Disturbed(s, vs[..|vs| - 1], i) || Unhappy(s, vs[|vs| - 1].k, i)
  {
    var init, last := vs[..|vs| - 1], vs[|vs| - 1];
    assert vs == init + [last];
    if Disturbed(s, init, i) {
      var v :| v in init && Unhappy(s, v.k, i);
      assert v in vs;
    }
    if Unhappy(s, last.k, i) {
      assert last in vs;
    }
  }

  /** Whether a resource is happy depends on its spec and its role only. */
  lemma SameHappiness(s: State, s': State, k: nat, i: nat)
    requires SameMembers(s, s') && i < |s.world.roles| && s'.world.roles[i] == s.world.roles[i]
    ensures Unhappy(s, k, i) <==> Unhappy(s', k, i)
  {
  }

  lemma FateStep(s: State, vs: seq<Visit>, mid: State, s': State, j: int, i: nat)
    requires vs != [] && Alike(s, mid) && i < |s.world.roles|
    requires vs[|vs| - 1].k < |s.crs| && At(s, vs[|vs| - 1].k) == j && Effect(mid, vs[|vs| - 1].k, j, s')
    requires Fate(s, vs[..|vs| - 1], mid, i)
    ensures Alike(s, s') && Fate(s, vs, s', i)
  {
    var k := vs[|vs| - 1].k;
    DisturbedSnoc(s, vs, i);
    if i == j && Unhappy(mid, k, i) {
      assert GrantedBy(s, s', k, i);
      if !Disturbed(s, vs[..|vs| - 1], i) {
        SameHappiness(s, mid, k, i);
      }
    } else {
      assert s'.world.roles[i] == mid.world.roles[i];
      if Disturbed(s, vs[..|vs| - 1], i) {
        var m :| GrantedBy(s, mid, m, i);
        assert GrantedBy(s, s', m, i);
      } else {
        SameHappiness(s, mid, k, i);
      }
    }
  }

  lemma LastVisit(s: State, vs: seq<Visit>)
    requires CalmVisits(s, vs) && vs != []
    ensures CalmVisits(s, vs[..|vs| - 1]) && CalmVisit(s, vs[|vs| - 1])
  {
    assert vs[|vs| - 1] in vs && forall x :: x in vs[..|vs| - 1] ==> x in vs;
  }

  lemma {:induction false} StaysAlike(s: State, vs: seq<Visit>)
    requires Sound(s) && CalmVisits(s, vs)
    ensures Alike(s, After(s, vs))
  {
    if vs == [] {
    } else {
      LastVisit(s, vs);
      StaysAlike(s, vs[..|vs| - 1]);
      CalmEffect(After(s, vs[..|vs| - 1]), vs[|vs| - 1]);
    }
  }

  lemma {:induction false} RoleFate(s: State, vs: seq<Visit>, i: nat)
    requires Sound(s) && CalmVisits(s, vs) && i < |s.world.roles|
    ensures Alike(s, After(s, vs)) && Fate(s, vs, After(s, vs), i)
  {
    StaysAlike(s, vs);
    if vs == [] {
    } else {
      LastVisit(s, vs);
      var mid, v := After(s, vs[..|vs| - 1]), vs[|vs| - 1];
      RoleFate(s, vs[..|vs| - 1], i);
      CalmEffect(mid, v);
      FateStep(s, vs, mid, Visited(mid, v), At(mid, v.k), i);
    }
  }

  lemma CoveredDisturbance(s: State, vs: seq<Visit>, i: nat)
    requires Covers(s, vs)
    ensures Disturbed(s, vs, i) <==> !HappyOn(s, i)
  {
    if k :| Unhappy(s, k, i) {
      assert Visits(vs, k);
      var v :| v in vs && v.k == k;
      assert Unhappy(s, v.k, i);
    }
  }

  ghost predicate Wants(s: State, m: nat, named: set<Triple>)
    requires m < |s.crs|
  {
    Reconcile.Settles(s.crs[m].permissions) && Parsed(s.crs[m].permissions) == named
  }

  /** The specs of role `i` all settle and name these triples. */
  ghost predicate AllName(s: State, i: nat, named: set<Triple>) {
    forall m :: Stays(s, m) && At(s, m) == i ==> Wants(s, m, named)
  }

  lemma AgreeOnOne(s: State, k: nat, i: nat)
    requires Stays(s, k) && At(s, k) == i
    ensures AgreeOn(s, i) <==> AllName(s, i, Parsed(s.crs[k].permissions))
  {
    var named := Parsed(s.crs[k].permissions);
    if AgreeOn(s, i) {
      forall m | Stays(s, m) && At(s, m) == i ensures Wants(s, m, named) {
        assert Agree(s, k, m);
      }
    }
    if AllName(s, i, named) {
      forall m, n | Stays(s, m) && Stays(s, n) && At(s, m) == i && At(s, n) == i ensures Agree(s, m, n) {
        assert Wants(s, m, named) && Wants(s, n, named);
      }
    }
  }

  lemma HappyWhenNamed(s: State, s': State, m: nat, i: nat)
    requires SameMembers(s, s') && i < |s.world.roles| && Stays(s, m) && At(s, m) == i
    requires AllWellFormed(s'.world.roles[i].permissions)
    ensures Unhappy(s', m, i) <==> !Wants(s, m, Enabled(s'.world.roles[i].permissions))
  {
    UpToDateExactly(s'.world.roles[i], s'.crs[m]);
  }

  /** With the spec of one of its resources in force, a role makes all of them happy exactly if they agree. */
  lemma InForce(s: State, s': State, k: nat, i: nat)
    requires SameMembers(s, s') && i < |s.world.roles| && GrantedBy(s, s', k, i)
    ensures HappyOn(s', i) <==> AgreeOn(s, i)
  {
    ParsedAreWellFormed(s.crs[k].permissions);
    forall m: nat | Stays(s, m) && At(s, m) == i
      ensures Unhappy(s', m, i) <==> !Wants(s, m, Parsed(s.crs[k].permissions))
    {
      HappyWhenNamed(s, s', m, i);
    }
    AgreeOnOne(s, k, i);
  }

  /** The resources of role `i` are happy afterwards exactly if they were before, or agree. */
  ghost predicate Settled(s: State, s': State, i: nat) {
    HappyOn(s', i) <==> HappyOn(s, i) || AgreeOn(s, i)
  }

  lemma RoleSettles(s: State, vs: seq<Visit>, i: nat)
    requires Sound(s) && Covers(s, vs) && i < |s.world.roles|
    ensures Alike(s, After(s, vs)) && Settled(s, After(s, vs), i)
  {
    var s' := After(s, vs);
    RoleFate(s, vs, i);
    CoveredDisturbance(s, vs, i);
    if Disturbed(s, vs, i) {
      var k :| GrantedBy(s, s', k, i);
      InForce(s, s', k, i);
    } else {
      forall k: nat ensures Unhappy(s, k, i) <==> Unhappy(s', k, i) {
        SameHappiness(s, s', k, i);
      }
    }
  }

  lemma SameAgreement(s: State, s': State, i: nat)
    requires SameMembers(s, s')
    ensures AgreeOn(s, i) <==> AgreeOn(s', i)
  {
    forall k, m | 0 <= k < |s.crs| && 0 <= m < |s.crs| ensures Agree(s, k, m) <==> Agree(s', k, m) {
    }
  }

  lemma AllSettled(s: State, s': State)
    requires SameMembers(s, s') && forall i :: 0 <= i < |s.world.roles| ==> Settled(s, s', i)
    ensures Quiet(s') <==> Compatible(s)
    ensures Compatible(s') <==> Compatible(s)
  {
    forall i: nat | i < |s.world.roles|
      ensures HappyOn(s', i) <==> HappyOn(s, i) || AgreeOn(s, i)
      ensures HappyOn(s', i) || AgreeOn(s', i) <==> HappyOn(s, i) || AgreeOn(s, i)
    {
      assert Settled(s, s', i);
      SameAgreement(s, s', i);
    }
  }

  // ------------------------------------------------------------------- PUTs

  /** The roles that a run has disturbed. */
  ghost function DisturbedRoles(s: State, vs: seq<Visit>): set<nat> {
    set i | 0 <= i < |s.world.roles| && Disturbed(s, vs, i)
  }

  /** At most one role: the one that resource `k` wants changed. */
  ghost function Disturbance(s: State, k: nat): set<nat>
    requires k < |s.crs|
  {
    if Unhappy(s, k, At(s, k)) then {At(s, k) as nat} else {}
  }

  lemma DisturbedRolesSnoc(s: State, vs: seq<Visit>)
    requires vs != [] && vs[|vs| - 1].k < |s.crs|
    ensures DisturbedRoles(s, vs) == DisturbedRoles(s, vs[..|vs| - 1]) + Disturbance(s, vs[|vs| - 1].k)
  {
    var init, k := vs[..|vs| - 1], vs[|vs| - 1].k;
    forall j: nat | j < |s.world.roles|
      ensures Disturbed(s, vs, j) <==> Disturbed(s, init, j) || j in Disturbance(s, k)
    {
      DisturbedSnoc(s, vs, j);
    }
  }

  /** Where the resources of a disturbed role agree, none of them is unhappy any more. */
  lemma CalmedDown(s: State, vs: seq<Visit>, mid: State, k: nat, i: nat)
    requires Compatible(s) && Alike(s, mid) && i < |s.world.roles| && Fate(s, vs, mid, i)
    ensures Unhappy(mid, k, i) <==> !Disturbed(s, vs, i) && Unhappy(s, k, i)
  {
    if Disturbed(s, vs, i) {
      var v :| v in vs && Unhappy(s, v.k, i);
      var m :| GrantedBy(s, mid, m, i);
      InForce(s, mid, m, i);
    } else {
      SameHappiness(s, mid, k, i);
    }
  }

  lemma AddOne(a: set<nat>, i: nat)
    ensures |a + {i}| == |a| + if i in a then 0 else 1
  {
    if i in a {
      assert a + {i} == a;
    }
  }

  lemma OneMorePut(s: State, vs: seq<Visit>, mid: State, s': State, i: nat)
    requires vs != [] && Compatible(s) && Alike(s, mid) && i < |s.world.roles|
    requires vs[|vs| - 1].k < |s.crs| && At(s, vs[|vs| - 1].k) == i && Effect(mid, vs[|vs| - 1].k, i, s')
    requires Fate(s, vs[..|vs| - 1], mid, i)
    ensures |s'.world.log| - |mid.world.log| == |DisturbedRoles(s, vs)| - |DisturbedRoles(s, vs[..|vs| - 1])|
  {
    var k := vs[|vs| - 1].k;
    DisturbedRolesSnoc(s, vs);
    AddOne(DisturbedRoles(s, vs[..|vs| - 1]), i);
    CalmedDown(s, vs[..|vs| - 1], mid, k, i);
  }

  lemma NothingWanted(s: State, vs: seq<Visit>, mid: State, s': State)
    requires vs != [] && Alike(s, mid) && vs[|vs| - 1].k < |s.crs| && At(s, vs[|vs| - 1].k) < 0
    requires Effect(mid, vs[|vs| - 1].k, At(s, vs[|vs| - 1].k), s')
    ensures s'.world == mid.world && DisturbedRoles(s, vs) == DisturbedRoles(s, vs[..|vs| - 1])
  {
    DisturbedRolesSnoc(s, vs);
  }

  /** A compatible fleet sends one PUT for each role that the run disturbs. */
  lemma {:induction false} OnePutEach(s: State, vs: seq<Visit>)
    requires Sound(s) && Compatible(s) && CalmVisits(s, vs)
    ensures |After(s, vs).world.log| == |s.world.log| + |DisturbedRoles(s, vs)|
  {
    if vs == [] {
      assert DisturbedRoles(s, vs) == {};
    } else {
      LastVisit(s, vs);
      var init, v := vs[..|vs| - 1], vs[|vs| - 1];
      OnePutEach(s, init);
      StaysAlike(s, init);
      var mid, i := After(s, init), At(s, v.k);
      CalmEffect(mid, v);
      if i < 0 {
        NothingWanted(s, vs, mid, Visited(mid, v));
      } else {
        RoleFate(s, init, i);
        OneMorePut(s, vs, mid, Visited(mid, v), i);
      }
    }
  }

  lemma FirstPut(s: State, vs: seq<Visit>, mid: State, s': State, i: nat)
    requires vs != [] && Alike(s, mid) && i < |s.world.roles|
    requires vs[|vs| - 1].k < |s.crs| && At(s, vs[|vs| - 1].k) == i && Effect(mid, vs[|vs| - 1].k, i, s')
    requires Fate(s, vs[..|vs| - 1], mid, i)
    ensures |s'.world.log| >= |mid.world.log|
    ensures DisturbedRoles(s, vs[..|vs| - 1]) == {} && DisturbedRoles(s, vs) != {} ==> |s'.world.log| > |mid.world.log|
  {
    var init := vs[..|vs| - 1];
    DisturbedRolesSnoc(s, vs);
    if DisturbedRoles(s, init) == {} {
      assert i !in DisturbedRoles(s, init);
      SameHappiness(s, mid, vs[|vs| - 1].k, i);
    }
  }

  /** A disturbed role costs at least one PUT. */
  lemma {:induction false} PutsForDisturbance(s: State, vs: seq<Visit>)
    requires Sound(s) && CalmVisits(s, vs)
    ensures |After(s, vs).world.log| >= |s.world.log|
    ensures DisturbedRoles(s, vs) != {} ==> |After(s, vs).world.log| > |s.world.log|
  {
    if vs == [] {
      assert DisturbedRoles(s, vs) == {};
    } else {
      LastVisit(s, vs);
      var init, v := vs[..|vs| - 1], vs[|vs| - 1];
      PutsForDisturbance(s, init);
      StaysAlike(s, init);
      var mid, i := After(s, init), At(s, v.k);
      CalmEffect(mid, v);
      if i < 0 {
        NothingWanted(s, vs, mid, Visited(mid, v));
      } else {
        RoleFate(s, init, i);
        FirstPut(s, vs, mid, Visited(mid, v), i);
      }
    }
  }

  lemma QuietIff(s: State)
    ensures Wanting(s) == {} <==> Quiet(s)
  {
    if Wanting(s) == {} {
      forall i: nat | i < |s.world.roles| ensures HappyOn(s, i) {
        assert i !in Wanting(s);
      }
    }
  }

  lemma CoveredRoles(s: State, vs: seq<Visit>)
    requires Covers(s, vs)
    ensures DisturbedRoles(s, vs) == Wanting(s)
  {
    forall i: nat | i < |s.world.roles| ensures Disturbed(s, vs, i) <==> !HappyOn(s, i) {
      CoveredDisturbance(s, vs, i);
    }
  }

  lemma PutsOfRound(s: State, vs: seq<Visit>)
    requires Sound(s) && Covers(s, vs)
    ensures Compatible(s) ==> |After(s, vs).world.log| == |s.world.log| + |Wanting(s)|
    ensures !Compatible(s) ==> |After(s, vs).world.log| > |s.world.log|
  {
    CoveredRoles(s, vs);
    QuietIff(s);
    if Compatible(s) {
      OnePutEach(s, vs);
    } else {
      PutsForDisturbance(s, vs);
    }
  }

  /**
   All settle or none does. Once every resource that stays was reconciled, in any order and
   however often, all of them are satisfied if and only if the fleet was compatible, and then
   one PUT was sent for each role that some resource wanted changed. Being compatible does not
   change.
   */
  lemma FleetConverges(s: State, vs: seq<Visit>)
    requires Sound(s) && Covers(s, vs)
    ensures var s' := After(s, vs);
            && Alike(s, s')
            && (Quiet(s') <==> Compatible(s))
            && (Compatible(s') <==> Compatible(s))
    ensures Compatible(s) ==> |After(s, vs).world.log| == |s.world.log| + |Wanting(s)|
    ensures !Compatible(s) ==> |After(s, vs).world.log| > |s.world.log|
  {
    StaysAlike(s, vs);
    forall i: nat | i < |s.world.roles| ensures Settled(s, After(s, vs), i) {
      RoleSettles(s, vs, i);
    }
    AllSettled(s, After(s, vs));
    PutsOfRound(s, vs);
  }

  ghost function AfterRounds(s: State, rounds: seq<seq<Visit>>): State
    decreases |rounds|
  {
    if rounds == [] then s else AfterRounds(After(s, rounds[0]), rounds[1..])
  }

  lemma AlikeCovers(s: State, s': State, vs: seq<Visit>)
    requires Alike(s, s') && Covers(s, vs)
    ensures Covers(s', vs)
  {
    assert forall v :: CalmVisit(s, v) ==> CalmVisit(s', v);
    assert forall k :: Stays(s', k) ==> Stays(s, k);
  }

  /** A fleet that is not compatible never stops: every round over all resources sends a PUT. */
  lemma {:induction false} FleetQuarrels(s: State, rounds: seq<seq<Visit>>)
    requires Sound(s) && !Compatible(s) && forall r :: r in rounds ==> Covers(s, r)
    ensures |AfterRounds(s, rounds).world.log| >= |s.world.log| + |rounds|
    decreases |rounds|
  {
    if rounds == [] {
    } else {
      assert rounds[0] in rounds && forall r :: r in rounds[1..] ==> r in rounds;
      FleetConverges(s, rounds[0]);
      var s' := After(s, rounds[0]);
      forall r | r in rounds[1..] ensures Covers(s', r) {
        AlikeCovers(s, s', r);
      }
      FleetQuarrels(s', rounds[1..]);
    }
  }

  lemma HappyAgree(s: State, i: nat)
    requires Sound(s) && i < |s.world.roles| && AllWellFormed(s.world.roles[i].permissions) && HappyOn(s, i)
    ensures AgreeOn(s, i)
  {
    var named := Enabled(s.world.roles[i].permissions);
    forall m | Stays(s, m) && At(s, m) == i ensures Wants(s, m, named) {
      assert !Unhappy(s, m, i);
      HappyWhenNamed(s, s, m, i);
    }
    if k :| Stays(s, k) && At(s, k) == i {
      assert Wants(s, k, named);
      AgreeOnOne(s, k, i);
    }
  }

  /**
   When flat names can describe every role, a fleet is compatible if and only if every spec
   settles and any two specs for the same role name the same triples.
   */
  lemma CompatibleIff(s: State)
    requires Sound(s) && forall r :: r in s.world.roles ==> AllWellFormed(r.permissions)
    ensures Compatible(s)
       <==> forall k, m :: Stays(s, k) && Stays(s, m) && At(s, k) == At(s, m) ==> Agree(s, k, m)
  {
    forall i: nat | i < |s.world.roles| && HappyOn(s, i) ensures AgreeOn(s, i) {
      HappyAgree(s, i);
    }
    if Compatible(s) {
      forall k, m | Stays(s, k) && Stays(s, m) && At(s, k) == At(s, m) ensures Agree(s, k, m) {
        assert AgreeOn(s, At(s, k));
      }
    }
  }
}
