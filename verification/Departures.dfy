/** One resource of a settled fleet is deleted: it goes, and the others on its role settle again. */
module Departures {
  import opened FlatNames
  import opened Permissions
  import opened PermissionLists
  import opened Roles
  import opened Controller
  import opened Sessions
  import opened Fleet
  import Deletion

  /** A calm reconcile of resource `d`, whose status write is kept. */
  predicate Parting(v: Visit, d: nat) {
    v.k == d && v.event.Reconciled? && Reconcile.Calm(v.event.turn) && v.event.turn.keepStatus
  }

  /** Calm reconciles of the resources that stay, of those that are gone, and of `d`. */
  ghost predicate CalmWith(s: State, vs: seq<Visit>, d: nat) {
    forall v :: v in vs ==> if v.k == d then Parting(v, d) else CalmVisit(s, v)
  }

  ghost predicate CoversWith(s: State, vs: seq<Visit>, d: nat) {
    CalmWith(s, vs, d) && forall k :: Stays(s, k) ==> Visits(vs, k)
  }

  /** Resource `d` is deleted, has not been cleared, and targets role `i`. */
  ghost predicate Leaving(s: State, d: nat, i: nat) {
    && d < |s.crs| && s.crs[d].deleted && !s.crs[d].status.cleared && d !in s.gone
    && At(s, d) == i < |s.world.roles|
  }

  /** Some resource that stays has role `i`. */
  ghost predicate Shared(s: State, i: nat) {
    exists k :: Stays(s, k) && At(s, k) == i
  }

  // ---------------------------------------------------------- before the wipe

  lemma NobodyUnhappy(s: State, k: nat, i: int)
    requires Quiet(s)
    ensures !Unhappy(s, k, i)
  {
    if 0 <= i < |s.world.roles| {
      assert HappyOn(s, i);
    }
  }

  lemma StillHappy(s: State, mid: State, k: nat, i: int)
    requires Quiet(s) && Alike(s, mid) && mid.world == s.world
    ensures !Unhappy(mid, k, i)
  {
    NobodyUnhappy(s, k, i);
    if 0 <= i < |s.world.roles| {
      SameHappiness(s, mid, k, i);
    }
  }

  lemma {:induction false} QuietStays(s: State, vs: seq<Visit>)
    requires Sound(s) && Quiet(s) && CalmVisits(s, vs)
    ensures After(s, vs).world == s.world
  {
    if vs == [] {
    } else {
      LastVisit(s, vs);
      QuietStays(s, vs[..|vs| - 1]);
      StaysAlike(s, vs[..|vs| - 1]);
      var mid, v := After(s, vs[..|vs| - 1]), vs[|vs| - 1];
      CalmEffect(mid, v);
      StillHappy(s, mid, v.k, At(mid, v.k));
    }
  }

  // ----------------------------------------------------------------- the wipe

  /** What the first reconcile of the leaving resource does. */
  ghost predicate WipedRole(s: State, d: nat, i: nat, s': State)
    requires i < |s.world.roles|
  {
    && SameMembers(s, s') && s'.gone == s.gone && d < |s'.crs|
    && (forall k :: 0 <= k < |s.crs| && k != d ==> s'.crs[k] == s.crs[k])
    && s'.crs[d].status.cleared
    && |s'.world.log| == |s.world.log| + 1
    && (forall j :: 0 <= j < |s.world.roles| && j != i ==> s'.world.roles[j] == s.world.roles[j])
    && Enabled(s'.world.roles[i].permissions) == {}
  }

  /** The same for the resource alone. */
  lemma DeletedTurn(c: Reconcile.Cluster, t: Reconcile.Turn, i: nat)
    requires c.cr.deleted && !c.cr.status.cleared && !c.drained
    requires DistinctIds(c.world.roles) && Target(c.world.roles, c.cr) == i < |c.world.roles|
    requires Reconcile.Calm(t) && t.keepStatus
    ensures var c' := Reconcile.Turned(c, t);
            && c'.cr.deleted && c'.cr.status.cleared && !c'.drained && c'.cr.permissions == c.cr.permissions
            && SameIdentities(c.world.roles, c'.world.roles) && Target(c'.world.roles, c'.cr) == i
            && |c'.world.log| == |c.world.log| + 1
            && (forall j :: 0 <= j < |c.world.roles| && j != i ==> c'.world.roles[j] == c.world.roles[j])
            && Enabled(c'.world.roles[i].permissions) == {}
  {
    var seen := AfterObserve(c.cr, c.world, true);
    Reconcile.NamedTarget(c.world.roles, seen.cr, i);
    PutFrame(c.world, i, map[], t.env.reply, t.env.candidate);
    var done := AfterDelete(seen.cr, c.world, t.env);
    Reconcile.PersistedTarget(c.world.roles, c.cr, done.cr, t, i);
    SameTarget(c.world.roles, done.world.roles, Reconcile.Turned(c, t).cr);
    Deletion.EmptyTree();
  }

  lemma SameMembersBut(s: State, d: nat, c: Reconcile.Cluster)
    requires Sound(s) && d < |s.crs| && s.crs[d].deleted && d !in s.gone
    requires SameIdentities(s.world.roles, c.world.roles) && !c.drained
    requires c.cr.deleted && c.cr.permissions == s.crs[d].permissions && Target(c.world.roles, c.cr) == At(s, d)
    ensures SameMembers(s, WithMember(s, d, c))
  {
    var s' := WithMember(s, d, c);
    SameIds(s.world.roles, c.world.roles);
    forall m | 0 <= m < |s.crs| ensures At(s', m) == At(s, m) {
      if m != d {
        SameTarget(s.world.roles, c.world.roles, s.crs[m]);
      }
    }
  }

  lemma FirstParting(s: State, v: Visit, d: nat, i: nat)
    requires Sound(s) && Leaving(s, d, i) && Parting(v, d)
    ensures WipedRole(s, d, i, Visited(s, v))
  {
    var c := Member(s, d);
    DeletedTurn(c, v.event.turn, i);
    SameMembersBut(s, d, Reconcile.Turned(c, v.event.turn));
  }

  // ----------------------------------------------------------- after the wipe

  /** `shadow` is `s` in which resource `d`, deleted and cleared, is gone already; nothing else differs. */
  ghost predicate Shadows(s: State, d: nat, shadow: State) {
    && d < |s.crs| == |shadow.crs| && shadow.gone == s.gone + {d}
    && s.crs[d].deleted && s.crs[d].status.cleared && shadow.crs[d].deleted
    && (forall k :: 0 <= k < |s.crs| && k != d ==> s.crs[k] == shadow.crs[k])
    && (d !in s.gone ==> s.crs[d] == shadow.crs[d])
    && s.world == shadow.world
  }

  /** A reconcile of the leaving resource now changes nothing but that resource, which goes. */
  lemma PartingGoes(s: State, v: Visit, d: nat, shadow: State)
    requires Shadows(s, d, shadow) && At(shadow, d) >= 0 && Parting(v, d)
    ensures Shadows(Visited(s, v), d, Visited(shadow, v)) && d in Visited(s, v).gone
  {
  }

  lemma OthersShadow(s: State, v: Visit, d: nat, shadow: State)
    requires Shadows(s, d, shadow) && v.k != d && v.k < |s.crs|
    ensures Shadows(Visited(s, v), d, Visited(shadow, v)) && s.gone <= Visited(s, v).gone
  {
    assert Member(s, v.k) == Member(shadow, v.k);
  }

  /** The visits of a run with `d`, which do nothing where `d` is gone. */
  lemma CalmInShadow(s: State, vs: seq<Visit>, d: nat, shadow: State)
    requires Shadows(s, d, shadow) && CoversWith(s, vs, d)
    ensures Covers(shadow, vs)
  {
    forall v | v in vs ensures CalmVisit(shadow, v) {
    }
    assert forall k :: Stays(shadow, k) ==> Stays(s, k);
  }

  lemma VisitsSnoc(vs: seq<Visit>, k: nat)
    requires vs != [] && Visits(vs, k)
    ensures Visits(vs[..|vs| - 1], k) || vs[|vs| - 1].k == k
  {
    assert vs == vs[..|vs| - 1] + [vs[|vs| - 1]];
  }

  lemma {:induction false} RunInShadow(s: State, vs: seq<Visit>, d: nat, shadow: State)
    requires Shadows(s, d, shadow) && Sound(shadow) && At(shadow, d) >= 0
    requires CalmWith(s, vs, d) && CalmVisits(shadow, vs)
    ensures Shadows(After(s, vs), d, After(shadow, vs))
    ensures Visits(vs, d) || d in s.gone ==> d in After(s, vs).gone
  {
    if vs == [] {
    } else {
      LastVisit(shadow, vs);
      var init, v := vs[..|vs| - 1], vs[|vs| - 1];
      assert v in vs && CalmWith(s, init, d);
      RunInShadow(s, init, d, shadow);
      StaysAlike(shadow, init);
      if Visits(vs, d) {
        VisitsSnoc(vs, d);
      }
      if v.k == d {
        PartingGoes(After(s, init), v, d, After(shadow, init));
      } else {
        OthersShadow(After(s, init), v, d, After(shadow, init));
      }
    }
  }

  lemma SameUnhappy(s: State, d: nat, shadow: State, k: nat, i: int)
    requires Shadows(s, d, shadow)
    ensures Unhappy(s, k, i) <==> Unhappy(shadow, k, i)
  {
  }

  lemma SameQuiet(s: State, d: nat, shadow: State)
    requires Shadows(s, d, shadow)
    ensures Quiet(s) <==> Quiet(shadow)
  {
    forall k: nat, i: int ensures Unhappy(s, k, i) <==> Unhappy(shadow, k, i) {
      SameUnhappy(s, d, shadow, k, i);
    }
    forall i: nat ensures HappyOn(s, i) <==> HappyOn(shadow, i) {
    }
  }

  // -------------------------------------------------------------- the theorem

  /** A spec that settles names something. */
  lemma SettlesOnSomething(permissions: seq<string>)
    requires Reconcile.Settles(permissions)
    ensures Parsed(permissions) != {}
  {
    var p := permissions[0];
    assert IsNormal(p) && SplitFlat(p).value in Parsed(permissions);
  }

  /** Nobody finds an empty role up to date. */
  lemma EmptyRole(role: Role, cr: Resource)
    requires Enabled(role.permissions) == {}
    ensures !UpToDate(role, cr)
  {
    UpToDateExactly(role, cr);
    if Reconcile.Settles(cr.permissions) {
      SettlesOnSomething(cr.permissions);
    }
  }

  /** After the wipe every resource of that role is unhappy, and only those are. */
  lemma UnhappyAfterWipe(s: State, d: nat, i: nat, s': State, k: nat, j: int)
    requires Quiet(s) && i < |s.world.roles| && WipedRole(s, d, i, s')
    ensures Unhappy(s', k, j) <==> j == i && Stays(s, k) && At(s, k) == i
  {
    if j == i {
      if k < |s.crs| {
        EmptyRole(s'.world.roles[i], s'.crs[k]);
      }
    } else {
      NobodyUnhappy(s, k, j);
      if 0 <= j < |s.world.roles| {
        SameHappiness(s, s', k, j);
      }
    }
  }

  lemma HappyAfterWipe(s: State, d: nat, i: nat, s': State, j: nat)
    requires Quiet(s) && i < |s.world.roles| && WipedRole(s, d, i, s')
    ensures HappyOn(s', j) <==> !(j == i && Shared(s, i))
  {
    forall k: nat ensures Unhappy(s', k, j) <==> j == i && Stays(s, k) && At(s, k) == i {
      UnhappyAfterWipe(s, d, i, s', k, j);
    }
  }

  /** A quiet fleet that lost the permissions of role `i` wants that role changed if it is shared, and nothing else. */
  lemma WantedAfterWipe(s: State, d: nat, i: nat, s': State)
    requires Quiet(s) && i < |s.world.roles| && WipedRole(s, d, i, s')
    ensures Wanting(s') == if Shared(s, i) then {i} else {}
  {
    forall j: nat ensures HappyOn(s', j) <==> !(j == i && Shared(s, i)) {
      HappyAfterWipe(s, d, i, s', j);
    }
  }

  lemma CompatibleAfterWipe(s: State, d: nat, i: nat, s': State)
    requires Quiet(s) && i < |s.world.roles| && WipedRole(s, d, i, s')
    ensures Compatible(s') <==> AgreeOn(s, i)
  {
    forall j: nat ensures HappyOn(s', j) <==> !(j == i && Shared(s, i)) {
      HappyAfterWipe(s, d, i, s', j);
    }
    SameAgreement(s, s', i);
    if !Shared(s, i) {
      assert AgreeOn(s, i);
    }
  }

  lemma {:induction false} AfterAppend(s: State, vs: seq<Visit>, more: seq<Visit>)
    ensures After(s, vs + more) == After(After(s, vs), more)
  {
    if more == [] {
      assert vs + more == vs;
    } else {
      var init := more[..|more| - 1];
      assert (vs + more)[..|vs + more| - 1] == vs + init;
      AfterAppend(s, vs, init);
    }
  }

  lemma SameCalls(s: State, s': State, vs: seq<Visit>, d: nat)
    requires SameMembers(s, s') && s'.gone == s.gone && CoversWith(s, vs, d)
    ensures CoversWith(s', vs, d)
  {
    assert forall v :: CalmVisit(s, v) ==> CalmVisit(s', v);
    assert forall k :: Stays(s', k) ==> Stays(s, k);
  }

  lemma SameWanting(s: State, d: nat, shadow: State)
    requires Shadows(s, d, shadow) && SameMembers(s, shadow)
    ensures Wanting(s) == Wanting(shadow)
    ensures Compatible(s) <==> Compatible(shadow)
  {
    forall k: nat, i: int ensures Unhappy(s, k, i) <==> Unhappy(shadow, k, i) {
      SameUnhappy(s, d, shadow, k, i);
    }
    forall i: nat ensures HappyOn(s, i) <==> HappyOn(shadow, i) {
    }
    forall i: nat ensures AgreeOn(s, i) <==> AgreeOn(shadow, i) {
      SameAgreement(s, shadow, i);
    }
  }

  /** Calm reconciles of a quiet fleet leave everything to a departure as it was. */
  lemma SameStart(s: State, before: State, d: nat, i: nat, rest: seq<Visit>)
    requires Quiet(s) && Leaving(s, d, i) && Alike(s, before) && before.world == s.world && CoversWith(s, rest, d)
    ensures Quiet(before) && Leaving(before, d, i) && CoversWith(before, rest, d)
    ensures (AgreeOn(s, i) <==> AgreeOn(before, i)) && (Shared(s, i) <==> Shared(before, i))
  {
    SameCalls(s, before, rest, d);
    SameAgreement(s, before, i);
    forall k: nat, j: int ensures !Unhappy(before, k, j) {
      StillHappy(s, before, k, j);
    }
    assert forall k :: Stays(before, k) <==> Stays(s, k);
  }

  /** From the wipe on: the leaving resource goes, and the rest is a round of the others. */
  lemma AfterTheWipe(s: State, d: nat, i: nat, wiped: State, rest: seq<Visit>)
    requires Quiet(s) && Leaving(s, d, i) && WipedRole(s, d, i, wiped)
    requires CoversWith(s, rest, d) && Visits(rest, d)
    ensures var s' := After(wiped, rest);
            && d in s'.gone
            && (Quiet(s') <==> AgreeOn(s, i))
            && (AgreeOn(s, i) ==> |s'.world.log| == |wiped.world.log| + if Shared(s, i) then 1 else 0)
  {
    var shadow := wiped.(gone := wiped.gone + {d});
    assert Shadows(wiped, d, shadow) && SameMembers(wiped, shadow);
    SameCalls(s, wiped, rest, d);
    CalmInShadow(wiped, rest, d, shadow);
    RunInShadow(wiped, rest, d, shadow);
    FleetConverges(shadow, rest);
    SameQuiet(After(wiped, rest), d, After(shadow, rest));
    SameWanting(wiped, d, shadow);
    WantedAfterWipe(s, d, i, wiped);
    CompatibleAfterWipe(s, d, i, wiped);
  }

  /**
   A departure from a settled fleet. Resource `d` is deleted; after calm reconciles `pre` of the
   others it is reconciled for the first time, and in `rest` it and every other resource are
   reconciled again, in any order. Then it is gone, and the others are satisfied if and only if
   those that share its role agree. This costs the PUT that wipes the role, and one more if the
   role is shared.
   */
  lemma Departure(s: State, d: nat, i: nat, pre: seq<Visit>, first: Visit, rest: seq<Visit>)
    requires Sound(s) && Quiet(s) && Leaving(s, d, i)
    requires CalmVisits(s, pre) && Parting(first, d) && CoversWith(s, rest, d) && Visits(rest, d)
    ensures var s' := After(s, pre + [first] + rest);
            && d in s'.gone
            && (Quiet(s') <==> AgreeOn(s, i))
            && (AgreeOn(s, i) ==> |s'.world.log| == |s.world.log| + 1 + if Shared(s, i) then 1 else 0)
  {
    var before := After(s, pre);
    QuietStays(s, pre);
    StaysAlike(s, pre);
    FirstParting(before, first, d, i);
    var wiped := Visited(before, first);
    AfterAppend(s, pre, [first]);
    AfterAppend(s, pre + [first], rest);
    SameStart(s, before, d, i, rest);
    AfterTheWipe(before, d, i, wiped, rest);
  }
}
