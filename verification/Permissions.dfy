/**
 The permission tree of a role, `FlattenPermissions` and `ExpandPermissions`
 (internal/clients/strapi/roles.go).
 */
module Permissions {
  import opened FlatNames
  import opened Sorting

  datatype Action = Action(enabled: bool, policy: string)

  type Actions = map<string, Action>

  type Controllers = map<string, Actions>

  datatype ResourcePermissions = ResourcePermissions(controllers: Controllers)

  /** `PermissionsByResource`. */
  type Tree = map<string, ResourcePermissions>

  /** The action value `ExpandPermissions` stores: enabled, with a blank policy. */
  const GRANTED := Action(true, "")

  /** What a tree means: its enabled leaves. */
  function Enabled(t: Tree): set<Triple> {
    set r, c, a | r in t && c in t[r].controllers && a in t[r].controllers[c]
                  && t[r].controllers[c][a].enabled :: Triple(r, c, a)
  }

  ghost predicate Grants(t: Tree, x: Triple) {
    && x.resource in t
    && x.controller in t[x.resource].controllers
    && x.action in t[x.resource].controllers[x.controller]
    && t[x.resource].controllers[x.controller][x.action].enabled
  }

  lemma EnabledIsGranted(t: Tree)
    ensures forall x :: x in Enabled(t) <==> Grants(t, x)
  {
    forall x ensures x in Enabled(t) <==> Grants(t, x) {
      assert x == Triple(x.resource, x.controller, x.action);
    }
  }

  // -------------------------------------------------------------- flattening

  function Mapped<X, Y>(f: X -> Y, xs: seq<X>): (ys: seq<Y>)
    ensures |ys| == |xs| && forall i :: 0 <= i < |xs| ==> ys[i] == f(xs[i])
  {
    seq(|xs|, i requires 0 <= i < |xs| => f(xs[i]))
  }

  function PrintAll(xs: seq<Triple>): seq<string> {
    Mapped(Print, xs)
  }

  /** Some enumeration of a finite set. */
  ghost function Listing<T>(s: set<T>): (xs: seq<T>)
    ensures multiset(xs) == multiset(s)
  {
    if s == {} then []
    else
      var x :| x in s;
      assert multiset(s) == multiset(s - {x}) + multiset{x};
      [x] + Listing(s - {x})
  }

  /** The printed leaves of a set of triples, each as often as it is printed. */
  ghost function Printed(s: set<Triple>): multiset<string> {
    multiset(PrintAll(Listing(s)))
  }

  /** The specification of `FlattenPermissions`: the printed enabled leaves, sorted. */
  ghost function Flatten(t: Tree): seq<string> {
    SortStrings(PrintAll(Listing(Enabled(t))))
  }

  lemma RemoveAt<T>(xs: seq<T>, k: nat)
    requires k < |xs|
    ensures multiset(xs) == multiset(xs[..k] + xs[k + 1..]) + multiset{xs[k]}
  {
    assert xs == xs[..k] + [xs[k]] + xs[k + 1..];
  }

  lemma MapRemoved<X, Y>(f: X -> Y, xs: seq<X>, k: nat)
    requires k < |xs|
    ensures multiset(Mapped(f, xs)) == multiset(Mapped(f, xs[..k] + xs[k + 1..])) + multiset{f(xs[k])}
  {
    var ys := Mapped(f, xs);
    RemoveAt(ys, k);
    assert Mapped(f, xs[..k] + xs[k + 1..]) == ys[..k] + ys[k + 1..];
  }

  lemma Cancel<X>(a: multiset<X>, b: multiset<X>, x: X)
    requires a + multiset{x} == b + multiset{x}
    ensures a == b
  {
    assert a == (a + multiset{x}) - multiset{x};
    assert b == (b + multiset{x}) - multiset{x};
  }

  lemma IndexOf<X>(xs: seq<X>, x: X) returns (k: nat)
    requires x in multiset(xs)
    ensures k < |xs| && xs[k] == x
  {
    k :| 0 <= k < |xs| && xs[k] == x;
  }

  lemma MatchFirst<X>(xs: seq<X>, ys: seq<X>) returns (k: nat, xs': seq<X>, ys': seq<X>)
    requires multiset(xs) == multiset(ys) && xs != []
    ensures k < |ys| && ys[k] == xs[0]
    ensures xs' == xs[..0] + xs[1..] && ys' == ys[..k] + ys[k + 1..]
    ensures |xs'| < |xs| && multiset(xs') == multiset(ys')
  {
    RemoveAt(xs, 0);
    k := IndexOf(ys, xs[0]);
    RemoveAt(ys, k);
    xs', ys' := xs[..0] + xs[1..], ys[..k] + ys[k + 1..];
    Cancel(multiset(xs'), multiset(ys'), xs[0]);
  }

  lemma {:induction false} MapPermuted<X, Y>(f: X -> Y, xs: seq<X>, ys: seq<X>)
    requires multiset(xs) == multiset(ys)
    ensures multiset(Mapped(f, xs)) == multiset(Mapped(f, ys))
    decreases |xs|
  {
    SameElements(xs, ys);
    if xs == [] {
      assert Mapped(f, xs) == Mapped(f, ys);
    } else {
      var k, xs', ys' := MatchFirst(xs, ys);
      MapPermuted(f, xs', ys');
      MapRemoved(f, xs, 0);
      MapRemoved(f, ys, k);
    }
  }

  /** The order in which the maps are walked does not show in the result. */
  lemma AnyTraversal(t: Tree, xs: seq<Triple>)
    requires multiset(xs) == multiset(Enabled(t))
    ensures SortStrings(PrintAll(xs)) == Flatten(t)
    ensures multiset(Flatten(t)) == multiset(PrintAll(xs))
  {
    MapPermuted(Print, xs, Listing(Enabled(t)));
    SortedUnique(SortStrings(PrintAll(xs)), Flatten(t));
  }

  lemma PrintedUnion(s: set<Triple>, u: set<Triple>)
    requires s !! u
    ensures Printed(s + u) == Printed(s) + Printed(u)
  {
    var xs, ys := Listing(s), Listing(u);
    assert multiset(s + u) == multiset(s) + multiset(u);
    MapPermuted(Print, xs + ys, Listing(s + u));
    assert Mapped(Print, xs + ys) == PrintAll(xs) + PrintAll(ys);
  }

  lemma PrintedOne(x: Triple)
    ensures Printed({x}) == multiset{Print(x)}
  {
    MapPermuted(Print, [x], Listing({x}));
    assert Mapped(Print, [x]) == [Print(x)];
  }

  /** The enabled leaves below one controller, except for the actions in `todo`. */
  ghost function ActionLeaves(r: string, c: string, actions: Actions, todo: set<string>): set<Triple> {
    set a | a in actions && a !in todo && actions[a].enabled :: Triple(r, c, a)
  }

  /** The enabled leaves below one resource, except for the controllers in `todo`. */
  ghost function ControllerLeaves(r: string, controllers: Controllers, todo: set<string>): set<Triple> {
    set c, a | c in controllers && c !in todo && a in controllers[c] && controllers[c][a].enabled :: Triple(r, c, a)
  }

  /** The enabled leaves of a tree, except for the resources in `todo`. */
  ghost function ResourceLeaves(t: Tree, todo: set<string>): set<Triple> {
    set x | x in Enabled(t) && x.resource !in todo
  }

  lemma NoActionYet(r: string, c: string, actions: Actions)
    ensures Printed(ActionLeaves(r, c, actions, actions.Keys)) == multiset{}
  {
    assert ActionLeaves(r, c, actions, actions.Keys) == {};
  }

  lemma NoControllerYet(r: string, controllers: Controllers)
    ensures Printed(ControllerLeaves(r, controllers, controllers.Keys)) == multiset{}
  {
    assert ControllerLeaves(r, controllers, controllers.Keys) == {};
  }

  lemma NoResourceYet(t: Tree)
    ensures Printed(ResourceLeaves(t, t.Keys)) == multiset{}
    ensures ResourceLeaves(t, {}) == Enabled(t)
  {
    EnabledIsGranted(t);
    assert ResourceLeaves(t, t.Keys) == {};
  }

  lemma NextAction(r: string, c: string, actions: Actions, todo: set<string>, a: string)
    requires a in actions && a in todo
    ensures Printed(ActionLeaves(r, c, actions, todo - {a}))
         == Printed(ActionLeaves(r, c, actions, todo))
            + if actions[a].enabled then multiset{Print(Triple(r, c, a))} else multiset{}
  {
    var x := Triple(r, c, a);
    var before, after := ActionLeaves(r, c, actions, todo), ActionLeaves(r, c, actions, todo - {a});
    if actions[a].enabled {
      assert after == before + {x};
      PrintedUnion(before, {x});
      PrintedOne(x);
    } else {
      assert after == before;
    }
  }

  lemma NextController(r: string, controllers: Controllers, todo: set<string>, c: string)
    requires c in controllers && c in todo
    ensures Printed(ControllerLeaves(r, controllers, todo - {c}))
         == Printed(ControllerLeaves(r, controllers, todo)) + Printed(ActionLeaves(r, c, controllers[c], {}))
  {
    var before, below := ControllerLeaves(r, controllers, todo), ActionLeaves(r, c, controllers[c], {});
    assert ControllerLeaves(r, controllers, todo - {c}) == before + below;
    PrintedUnion(before, below);
  }

  lemma NextResource(t: Tree, todo: set<string>, r: string)
    requires r in t && r in todo
    ensures Printed(ResourceLeaves(t, todo - {r}))
         == Printed(ResourceLeaves(t, todo)) + Printed(ControllerLeaves(r, t[r].controllers, {}))
  {
    EnabledIsGranted(t);
    var before, below := ResourceLeaves(t, todo), ControllerLeaves(r, t[r].controllers, {});
    assert ResourceLeaves(t, todo - {r}) == before + below;
    PrintedUnion(before, below);
  }

  /** The innermost loop of `FlattenPermissions`, over the actions of a controller in any order. */
  method FlattenActions(resource: string, controller: string, actions: Actions) returns (out: seq<string>)
    ensures multiset(out) == Printed(ActionLeaves(resource, controller, actions, {}))
  {
    out := [];
    NoActionYet(resource, controller, actions);
    var todo := actions.Keys;
    while todo != {}
      invariant todo <= actions.Keys
      invariant multiset(out) == Printed(ActionLeaves(resource, controller, actions, todo))
      decreases todo
    {
      var action :| action in todo;
      NextAction(resource, controller, actions, todo, action);
      if actions[action].enabled {
        out := out + [Print(Triple(resource, controller, action))];
      }
      todo := todo - {action};
    }
  }

  /** The loop of `FlattenPermissions` over the controllers of a resource, in any order. */
  method FlattenControllers(resource: string, controllers: Controllers) returns (out: seq<string>)
    ensures multiset(out) == Printed(ControllerLeaves(resource, controllers, {}))
  {
    out := [];
    NoControllerYet(resource, controllers);
    var todo := controllers.Keys;
    while todo != {}
      invariant todo <= controllers.Keys
      invariant multiset(out) == Printed(ControllerLeaves(resource, controllers, todo))
      decreases todo
    {
      var controller :| controller in todo;
      NextController(resource, controllers, todo, controller);
      var lines := FlattenActions(resource, controller, controllers[controller]);
      out := out + lines;
      todo := todo - {controller};
    }
  }

  /** `FlattenPermissions`: walk the three levels in any order, then sort. */
  method FlattenPermissions(p: Tree) returns (out: seq<string>)
    ensures out == Flatten(p) && Ascending(out)
  {
    out := [];
    NoResourceYet(p);
    var todo := p.Keys;
    while todo != {}
      invariant todo <= p.Keys
      invariant multiset(out) == Printed(ResourceLeaves(p, todo))
      decreases todo
    {
      var resource :| resource in todo;
      NextResource(p, todo, resource);
      var lines := FlattenControllers(resource, p[resource].controllers);
      out := out + lines;
      todo := todo - {resource};
    }
    out := SortStrings(out);
    SortedUnique(out, Flatten(p));
  }
}
