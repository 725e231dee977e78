/**
 `ExpandPermissions`, and what flattening and expanding do to each other
 (internal/clients/strapi/roles.go).
 */
module PermissionLists {
  import opened Outcomes
  import opened FlatNames
  import opened Sorting
  import opened Permissions

  // --------------------------------------------------------------- expansion

  /** One turn of the loop in `ExpandPermissions`, for an entry that parses. */
  function Grant(t: Tree, x: Triple): Tree {
    var rp := if x.resource in t then t[x.resource] else ResourcePermissions(map[]);
    var ctrl := if x.controller in rp.controllers then rp.controllers[x.controller] else map[];
    t[x.resource := ResourcePermissions(rp.controllers[x.controller := ctrl[x.action := GRANTED]])]
  }

  function GrantEntry(t: Tree, p: string): Tree {
    match SplitFlat(p)
    case None => t
    case Some(x) => Grant(t, x)
  }

  /** The tree `ExpandPermissions` has built after the entries of `flat`. */
  function Expand(flat: seq<string>): Tree {
    if flat == [] then map[]
    else GrantEntry(Expand(flat[..|flat| - 1]), flat[|flat| - 1])
  }

  method ExpandPermissions(flat: seq<string>) returns (out: Tree)
    ensures out == Expand(flat)
  {
    out := map[];
    for i := 0 to |flat|
      invariant out == Expand(flat[..i])
    {
      assert flat[..i + 1][..i] == flat[..i];
      match SplitFlat(flat[i]) {
        case None =>
        case Some(x) =>
          var rp := if x.resource in out then out[x.resource] else ResourcePermissions(map[]);
          var ctrl := if x.controller in rp.controllers then rp.controllers[x.controller] else map[];
          ctrl := ctrl[x.action := GRANTED];
          rp := ResourcePermissions(rp.controllers[x.controller := ctrl]);
          out := out[x.resource := rp];
      }
    }
    assert flat[..|flat|] == flat;
  }

  /** No empty map at any level, and every leaf enabled with a blank policy. */
  predicate Canonical(t: Tree) {
    forall r :: r in t ==>
      && t[r].controllers != map[]
      && forall c :: c in t[r].controllers ==>
           && t[r].controllers[c] != map[]
           && forall a :: a in t[r].controllers[c] ==> t[r].controllers[c][a] == Action(true, "")
  }

  lemma GrantMeaning(t: Tree, x: Triple)
    ensures Enabled(Grant(t, x)) == Enabled(t) + {x}
    ensures Canonical(t) ==> Canonical(Grant(t, x))
  {
    var u := Grant(t, x);
    EnabledIsGranted(t);
    EnabledIsGranted(u);
    forall y ensures Grants(u, y) <==> Grants(t, y) || y == x {
    }
  }

  /** The triples named by the entries of a list that parse. */
  ghost function Parsed(flat: seq<string>): set<Triple> {
    set p | p in flat && SplitFlat(p).Some? :: SplitFlat(p).value
  }

  /** The normal forms of the entries of a list that parse. */
  ghost function NormalForms(flat: seq<string>): set<string> {
    set p | p in flat && SplitFlat(p).Some? :: Normal(p)
  }

  lemma ParsedSnoc(init: seq<string>, p: string)
    ensures Parsed(init + [p]) == Parsed(init) + if SplitFlat(p).Some? then {SplitFlat(p).value} else {}
  {
  }

  /**
   Expansion grants what the parseable entries name and nothing else: order, repetitions and
   malformed entries do not matter. It leaves no empty map and only blank, enabled actions.
   */
  lemma {:induction false} ExpandMeaning(flat: seq<string>)
    ensures Enabled(Expand(flat)) == Parsed(flat)
    ensures Canonical(Expand(flat))
  {
    if flat == [] {
      EnabledIsGranted(map[]);
    } else {
      var init, p := flat[..|flat| - 1], flat[|flat| - 1];
      ExpandMeaning(init);
      ParsedSnoc(init, p);
      assert flat == init + [p];
      if SplitFlat(p).Some? {
        GrantMeaning(Expand(init), SplitFlat(p).value);
      }
    }
  }

  // ----------------------------------------------------------------- pruning

  function PruneActions(actions: Actions): Actions {
    map a | a in actions && actions[a].enabled :: GRANTED
  }

  function PruneControllers(controllers: Controllers): Controllers {
    map c | c in controllers && PruneActions(controllers[c]) != map[] :: PruneActions(controllers[c])
  }

  /** Only the enabled leaves, with their policies blanked and the empty branches removed. */
  function Prune(t: Tree): Tree {
    map r | r in t && PruneControllers(t[r].controllers) != map[] ::
      ResourcePermissions(PruneControllers(t[r].controllers))
  }

  lemma InhabitedController(t: Tree, r: string, c: string) returns (a: string)
    requires Canonical(t) && r in t && c in t[r].controllers
    ensures Triple(r, c, a) in Enabled(t)
  {
    a :| a in t[r].controllers[c];
  }

  lemma InhabitedResource(t: Tree, r: string) returns (c: string, a: string)
    requires Canonical(t) && r in t
    ensures c in t[r].controllers && Triple(r, c, a) in Enabled(t)
  {
    c :| c in t[r].controllers;
    a := InhabitedController(t, r, c);
  }

  lemma SameActions(t: Tree, u: Tree, r: string, c: string)
    requires Canonical(t) && Canonical(u) && Enabled(t) == Enabled(u)
    requires r in t && c in t[r].controllers
    ensures r in u && c in u[r].controllers && u[r].controllers[c] == t[r].controllers[c]
  {
    EnabledIsGranted(t);
    EnabledIsGranted(u);
    var a := InhabitedController(t, r, c);
    assert Grants(u, Triple(r, c, a));
    forall b ensures b in t[r].controllers[c] <==> b in u[r].controllers[c] {
      assert b in t[r].controllers[c] <==> Grants(t, Triple(r, c, b));
      assert b in u[r].controllers[c] <==> Grants(u, Triple(r, c, b));
    }
  }

  lemma SameControllers(t: Tree, u: Tree, r: string)
    requires Canonical(t) && Canonical(u) && Enabled(t) == Enabled(u) && r in t
    ensures r in u && u[r] == t[r]
  {
    var c, a := InhabitedResource(t, r);
    SameActions(t, u, r, c);
    forall d | d in t[r].controllers
      ensures d in u[r].controllers && u[r].controllers[d] == t[r].controllers[d]
    {
      SameActions(t, u, r, d);
    }
    forall d | d in u[r].controllers ensures d in t[r].controllers {
      SameActions(u, t, r, d);
    }
    assert u[r].controllers == t[r].controllers;
  }

  /** A canonical tree is determined by its enabled leaves. */
  lemma CanonicalDetermined(t: Tree, u: Tree)
    requires Canonical(t) && Canonical(u)
    ensures Enabled(t) == Enabled(u) <==> t == u
  {
    if Enabled(t) == Enabled(u) {
      forall r | r in t ensures r in u && u[r] == t[r] {
        SameControllers(t, u, r);
      }
      forall r | r in u ensures r in t {
        SameControllers(u, t, r);
      }
    }
  }

  /** Pruning keeps the meaning and gives the canonical tree with that meaning. */
  lemma PruneMeaning(t: Tree)
    ensures Enabled(Prune(t)) == Enabled(t)
    ensures Canonical(Prune(t))
  {
    EnabledIsGranted(t);
    EnabledIsGranted(Prune(t));
    forall x ensures Grants(t, x) <==> Grants(Prune(t), x) {
      if Grants(t, x) {
        assert x.action in PruneActions(t[x.resource].controllers[x.controller]);
        assert x.controller in PruneControllers(t[x.resource].controllers);
      }
    }
  }

  // ----------------------------------------------------------- the two lists

  /** The set of strings that a set of triples prints. */
  ghost function Names(s: set<Triple>): set<string> {
    set x | x in s :: Print(x)
  }

  lemma NormalFormsArePrinted(flat: seq<string>)
    ensures NormalForms(flat) == Names(Parsed(flat))
  {
    forall p | p in flat && SplitFlat(p).Some? ensures SplitFlat(p).value in Parsed(flat) {
    }
  }

  lemma ParsedAreWellFormed(flat: seq<string>)
    ensures forall x :: x in Parsed(flat) ==> WellFormed(x)
  {
    forall p | p in flat && SplitFlat(p).Some? ensures WellFormed(SplitFlat(p).value) {
      NormalFormsAreNames(p, p);
    }
  }

  lemma EnumeratedMembers<X(!new)>(xs: seq<X>, s: set<X>)
    requires multiset(xs) == multiset(s)
    ensures forall x :: x in xs <==> x in s
  {
    forall x ensures x in xs <==> x in s {
      assert x in multiset(xs) <==> x in multiset(s);
    }
  }

  lemma Enumerated<X(!new)>(xs: seq<X>, s: set<X>)
    requires multiset(xs) == multiset(s)
    ensures ToSet(xs) == s && Distinct(xs) && |xs| == |s|
  {
    EnumeratedMembers(xs, s);
    assert ToSet(xs) == s;
    DistinctCounts(xs);
    assert |multiset(xs)| == |xs| && |multiset(s)| == |s|;
  }

  lemma MappedSet<X, Y>(f: X -> Y, xs: seq<X>)
    ensures ToSet(Mapped(f, xs)) == set x | x in xs :: f(x)
  {
    var ys := Mapped(f, xs);
    forall x | x in xs ensures f(x) in ys {
      var i :| 0 <= i < |xs| && xs[i] == x;
      assert ys[i] == f(x);
    }
  }

  lemma MappedDistinct<X(!new), Y>(f: X -> Y, xs: seq<X>)
    requires Distinct(xs)
    ensures Distinct(Mapped(f, xs)) <==> forall x, y :: x in xs && y in xs && f(x) == f(y) ==> x == y
  {
    var ys := Mapped(f, xs);
    if Distinct(ys) {
      forall x, y | x in xs && y in xs && f(x) == f(y) ensures x == y {
        var i :| 0 <= i < |xs| && xs[i] == x;
        var j :| 0 <= j < |xs| && xs[j] == y;
        assert ys[i] == ys[j];
      }
    }
  }

  /** No two triples of the set print alike. */
  ghost predicate PrintsApart(s: set<Triple>) {
    forall x, y :: x in s && y in s && Print(x) == Print(y) ==> x == y
  }

  lemma PrintedListing(s: set<Triple>, xs: seq<Triple>)
    requires multiset(xs) == multiset(s)
    ensures |PrintAll(xs)| == |s| && ToSet(PrintAll(xs)) == Names(s)
    ensures Distinct(PrintAll(xs)) <==> PrintsApart(s)
  {
    Enumerated(xs, s);
    EnumeratedMembers(xs, s);
    MappedSet(Print, xs);
    MappedDistinct(Print, xs);
  }

  /** What a flattened tree contains, and when it has no repetitions. */
  lemma FlattenMeaning(t: Tree)
    ensures Ascending(Flatten(t)) && |Flatten(t)| == |Enabled(t)|
    ensures ToSet(Flatten(t)) == Names(Enabled(t))
    ensures Distinct(Flatten(t)) <==> PrintsApart(Enabled(t))
  {
    var s := Enabled(t);
    var out := PrintAll(Listing(s));
    PrintedListing(s, Listing(s));
    SameElements(SortStrings(out), out);
    PermutationKeepsDistinct(SortStrings(out), out);
  }

  /** Every enabled leaf can be named by a flat string. */
  ghost predicate AllWellFormed(t: Tree) {
    forall x :: x in Enabled(t) ==> WellFormed(x)
  }

  /** Every entry parses and is written in normal form. */
  ghost predicate AllNormal(flat: seq<string>) {
    forall p :: p in flat ==> IsNormal(p)
  }

  lemma NamesParseBack(s: set<Triple>, out: seq<string>)
    requires ToSet(out) == Names(s) && forall x :: x in s ==> WellFormed(x)
    ensures AllNormal(out) && Parsed(out) == s
  {
    forall x | x in s ensures SplitFlat(Print(x)) == Some(x) && Print(x) in out {
      PrintParse(x);
      assert Print(x) in ToSet(out);
    }
    forall p | p in out ensures exists x :: x in s && p == Print(x) {
      assert p in ToSet(out);
    }
  }

  lemma WellFormedPrintsApart(s: set<Triple>)
    requires forall x :: x in s ==> WellFormed(x)
    ensures PrintsApart(s)
  {
    forall x, y | x in s && y in s && Print(x) == Print(y) ensures x == y {
      PrintInjective(x, y);
    }
  }

  /** A tree whose enabled leaves are well formed flattens to a strictly increasing list of their names. */
  lemma WellFormedFlattens(t: Tree)
    requires AllWellFormed(t)
    ensures Distinct(Flatten(t)) && AllNormal(Flatten(t)) && Parsed(Flatten(t)) == Enabled(t)
  {
    FlattenMeaning(t);
    WellFormedPrintsApart(Enabled(t));
    NamesParseBack(Enabled(t), Flatten(t));
  }

  /**
   Expanding a list and flattening the result gives the strictly increasing list of the
   normal forms of its parseable entries; no other list has that property.
   */
  lemma FlattenOfExpand(flat: seq<string>)
    ensures var out := Flatten(Expand(flat)); Ascending(out) && Distinct(out) && ToSet(out) == NormalForms(flat)
  {
    ExpandMeaning(flat);
    ParsedAreWellFormed(flat);
    WellFormedFlattens(Expand(flat));
    FlattenMeaning(Expand(flat));
    NormalFormsArePrinted(flat);
  }

  lemma NormalListNames(flat: seq<string>)
    requires AllNormal(flat)
    ensures NormalForms(flat) == ToSet(flat)
  {
  }

  /** Expanding and flattening is sorting exactly on the lists of distinct normal entries. */
  lemma RoundTripIff(flat: seq<string>)
    ensures Flatten(Expand(flat)) == SortStrings(flat) <==> AllNormal(flat) && Distinct(flat)
  {
    var out := Flatten(Expand(flat));
    FlattenOfExpand(flat);
    SameElements(flat, SortStrings(flat));
    PermutationKeepsDistinct(flat, SortStrings(flat));
    if out == SortStrings(flat) {
      forall p | p in flat ensures IsNormal(p) {
        assert p in ToSet(flat);
        var q :| q in flat && SplitFlat(q).Some? && Normal(q) == p;
        Normalisation(q);
      }
    }
    if AllNormal(flat) && Distinct(flat) {
      NormalListNames(flat);
      StrictlySortedUnique(out, SortStrings(flat));
    }
  }

  lemma NamesDetermine(flat: seq<string>, other: seq<string>)
    requires NormalForms(flat) <= NormalForms(other)
    ensures Parsed(flat) <= Parsed(other)
  {
    forall p | p in flat && SplitFlat(p).Some? ensures SplitFlat(p).value in Parsed(other) {
      assert Normal(p) in NormalForms(other);
      var q :| q in other && SplitFlat(q).Some? && Normal(q) == Normal(p);
      NormalFormsAreNames(p, q);
    }
  }

  /** Two lists expand to the same tree exactly when they have the same normal forms. */
  lemma SameTreeIff(flat: seq<string>, other: seq<string>)
    ensures Expand(flat) == Expand(other) <==> NormalForms(flat) == NormalForms(other)
  {
    ExpandMeaning(flat);
    ExpandMeaning(other);
    CanonicalDetermined(Expand(flat), Expand(other));
    NormalFormsArePrinted(flat);
    NormalFormsArePrinted(other);
    if NormalForms(flat) == NormalForms(other) {
      NamesDetermine(flat, other);
      NamesDetermine(other, flat);
    }
  }

  /** Flattening and expanding a tree prunes it exactly when its enabled leaves are well formed. */
  lemma ExpandOfFlatten(t: Tree)
    ensures Expand(Flatten(t)) == Prune(t) <==> AllWellFormed(t)
  {
    ExpandMeaning(Flatten(t));
    PruneMeaning(t);
    CanonicalDetermined(Expand(Flatten(t)), Prune(t));
    if AllWellFormed(t) {
      WellFormedFlattens(t);
    }
    ParsedAreWellFormed(Flatten(t));
  }

  /** Every enabled leaf prints as the normal spelling of some triple. */
  ghost predicate PrintsNormal(t: Tree) {
    forall x :: x in Enabled(t) ==> IsNormal(Print(x))
  }

  lemma FlattensNormal(t: Tree)
    ensures AllNormal(Flatten(t)) <==> PrintsNormal(t)
  {
    var out := Flatten(t);
    FlattenMeaning(t);
    assert forall p :: p in out <==> p in Names(Enabled(t)) by {
      assert forall p :: p in out <==> p in ToSet(out);
    }
    if AllNormal(out) {
      forall x | x in Enabled(t) ensures IsNormal(Print(x)) {
        assert Print(x) in Names(Enabled(t));
      }
    }
  }

  /**
   A flattened tree survives another round trip exactly when its enabled leaves print as normal
   spellings, no two of them alike; well-formed leaves do.
   */
  lemma FlattenTwice(t: Tree)
    ensures Flatten(Expand(Flatten(t))) == Flatten(t) <==> PrintsNormal(t) && PrintsApart(Enabled(t))
    ensures AllWellFormed(t) ==> PrintsNormal(t) && PrintsApart(Enabled(t))
  {
    RoundTripIff(Flatten(t));
    SortedUnique(SortStrings(Flatten(t)), Flatten(t));
    FlattensNormal(t);
    FlattenMeaning(t);
    if AllWellFormed(t) {
      WellFormedFlattens(t);
    }
  }
}
