/** Roles, `FindRole` and the full-replace PUT of `UpdateRole` (internal/clients/strapi/roles.go). */
module Roles {
  import opened Outcomes
  import opened GoStrings
  import opened Permissions

  datatype Role = Role(id: GoInt, name: string, description: string, typ: string, permissions: Tree)

  /** What a search loop compares. */
  datatype Match = ById(id: GoInt) | ByType(want: string) | ByName(want: string) {
    predicate Accepts(r: Role) {
      match this
      case ById(id) => r.id == id
      case ByType(want) => EqualFold(r.typ, want)
      case ByName(want) => EqualFold(r.name, want)
    }
  }

  function FirstIn(roles: seq<Role>, m: Match, from: nat): (i: int)
    requires from <= |roles|
    requires forall j :: 0 <= j < from ==> !m.Accepts(roles[j])
    ensures i == -1 || from <= i < |roles|
    ensures i >= 0 ==> m.Accepts(roles[i]) && forall j :: 0 <= j < i ==> !m.Accepts(roles[j])
    ensures i < 0 ==> forall j :: 0 <= j < |roles| ==> !m.Accepts(roles[j])
    decreases |roles| - from
  {
    if from == |roles| then -1
    else if m.Accepts(roles[from]) then from
    else FirstIn(roles, m, from + 1)
  }

  /** The first role a search loop accepts, or -1. */
  function First(roles: seq<Role>, m: Match): (i: int)
    ensures -1 <= i < |roles|
    ensures i >= 0 ==> m.Accepts(roles[i]) && forall j :: 0 <= j < i ==> !m.Accepts(roles[j])
    ensures i < 0 ==> forall j :: 0 <= j < |roles| ==> !m.Accepts(roles[j])
  {
    FirstIn(roles, m, 0)
  }

  /** Position of the role a selector names: the first of that type, else the first of that name, else -1. */
  function Selected(roles: seq<Role>, selector: string): (i: int)
    ensures -1 <= i < |roles|
  {
    var byType := First(roles, ByType(selector));
    if byType >= 0 then byType else First(roles, ByName(selector))
  }

  /** A search has only one answer. */
  lemma FirstUnique(roles: seq<Role>, m: Match, i: int)
    requires 0 <= i < |roles| && m.Accepts(roles[i]) && forall j :: 0 <= j < i ==> !m.Accepts(roles[j])
    ensures First(roles, m) == i
  {
    var k := First(roles, m);
    assert k >= 0;
    assert k == i by {
      assert !(k < i) && !(i < k);
    }
  }

  /**
   Role `i` is the one a selector names: it has the type and no earlier role has, or no role has
   the type, it has the name and no earlier role has.
   */
  ghost predicate NamedBy(roles: seq<Role>, selector: string, i: int) {
    && 0 <= i < |roles|
    && ((EqualFold(roles[i].typ, selector) && forall j :: 0 <= j < i ==> !EqualFold(roles[j].typ, selector))
        || (EqualFold(roles[i].name, selector)
            && (forall j :: 0 <= j < |roles| ==> !EqualFold(roles[j].typ, selector))
            && (forall j :: 0 <= j < i ==> !EqualFold(roles[j].name, selector))))
  }

  /** A selector finds the least role of that type, else the least of that name, else nothing. */
  lemma SelectedMeaning(roles: seq<Role>, selector: string, i: int)
    ensures NamedBy(roles, selector, i) <==> i >= 0 && Selected(roles, selector) == i
    ensures Selected(roles, selector) < 0
       <==> forall r :: r in roles ==> !EqualFold(r.typ, selector) && !EqualFold(r.name, selector)
  {
    var t, n := First(roles, ByType(selector)), First(roles, ByName(selector));
    if 0 <= i < |roles| {
      assert ByType(selector).Accepts(roles[i]) <==> EqualFold(roles[i].typ, selector);
      if NamedBy(roles, selector, i) {
        if EqualFold(roles[i].typ, selector) {
          FirstUnique(roles, ByType(selector), i);
        } else {
          FirstUnique(roles, ByName(selector), i);
        }
      }
    }
    if t >= 0 {
      assert roles[t] in roles;
    } else if n >= 0 {
      assert roles[n] in roles;
    }
  }

  // ------------------------------------------------- the selector as documented

  /** The selectors that are documented to name a built-in role by its type. */
  predicate BuiltIn(selector: string) {
    EqualFold(selector, "public") || EqualFold(selector, "authenticated")
  }

  /** The role a selector names as the field is documented: built-in roles by type, others by name. */
  function Documented(roles: seq<Role>, selector: string): int {
    First(roles, if BuiltIn(selector) then ByType(selector) else ByName(selector))
  }

  /** Position `i` is the least of the roles that `m` accepts. */
  ghost predicate FirstOf(roles: seq<Role>, m: Match, i: int) {
    0 <= i < |roles| && m.Accepts(roles[i]) && forall j :: 0 <= j < i ==> !m.Accepts(roles[j])
  }

  /** No role of one kind, or the first of that kind is also the first of the other. */
  ghost predicate NoneOrSameFirst(roles: seq<Role>, m: Match, m': Match) {
    (forall r :: r in roles ==> !m.Accepts(r)) || exists i :: FirstOf(roles, m, i) && FirstOf(roles, m', i)
  }

  lemma FirstOfIs(roles: seq<Role>, m: Match)
    ensures forall i :: FirstOf(roles, m, i) <==> i >= 0 && First(roles, m) == i
    ensures First(roles, m) < 0 <==> forall r :: r in roles ==> !m.Accepts(r)
  {
    forall i | FirstOf(roles, m, i) ensures First(roles, m) == i {
      FirstUnique(roles, m, i);
    }
  }

  /**
   The code finds the documented role exactly in these cases. For a built-in selector: some role
   has the type, or none has the name. For any other: no role has it as its type, or the first
   that has is also the first with the name.
   */
  lemma DocumentedIff(roles: seq<Role>, selector: string)
    ensures Selected(roles, selector) == Documented(roles, selector) <==>
            if BuiltIn(selector)
            then (exists r :: r in roles && EqualFold(r.typ, selector))
                 || (forall r :: r in roles ==> !EqualFold(r.name, selector))
            else NoneOrSameFirst(roles, ByType(selector), ByName(selector))
  {
    var t, n := First(roles, ByType(selector)), First(roles, ByName(selector));
    if t >= 0 {
      assert roles[t] in roles && EqualFold(roles[t].typ, selector);
    }
    if n >= 0 {
      assert roles[n] in roles && EqualFold(roles[n].name, selector);
    }
    assert t >= 0 ==> FirstOf(roles, ByType(selector), t);
    assert n >= 0 ==> FirstOf(roles, ByName(selector), n);
    FirstOfIs(roles, ByType(selector));
    FirstOfIs(roles, ByName(selector));
  }

  /** A selector that is one role's type and another role's name, and a built-in type that is only a name. */
  lemma DocumentedDiffers()
    ensures var roles := [Role(1, "Staff", "", "editor", map[]), Role(2, "Editor", "", "staff", map[])];
            Selected(roles, "editor") == 0 && Documented(roles, "editor") == 1
    ensures var roles := [Role(1, "Public", "", "custom", map[])];
            Selected(roles, "public") == 0 && Documented(roles, "public") == -1
  {
    var roles := [Role(1, "Staff", "", "editor", map[]), Role(2, "Editor", "", "staff", map[])];
    assert |"Staff"| != |"editor"| && |"public"| == |"editor"| && |"authenticated"| != |"editor"|;
    assert LowerChar("editor"[0]) != LowerChar("public"[0]);
    FirstUnique(roles, ByType("editor"), 0);
    FirstUnique(roles, ByName("editor"), 1);
    assert LowerChar("custom"[0]) != LowerChar("public"[0]);
    FirstUnique([Role(1, "Public", "", "custom", map[])], ByName("public"), 0);
  }

  /** Folding ignores the case of its second argument, so lowering a selector changes nothing. */
  lemma LoweredSelector(s: string)
    ensures forall r: string :: EqualFold(r, ToLower(s)) <==> EqualFold(r, s)
  {
  }

  /** `FindRole`: two loops over the listed roles, by type and then by name. */
  method FindRole(roles: seq<Role>, selector: string) returns (r: Option<Role>)
    ensures var i := Selected(roles, selector); r == if i >= 0 then Some(roles[i]) else None
  {
    var want := ToLower(selector);
    LoweredSelector(selector);
    for i := 0 to |roles|
      invariant forall j :: 0 <= j < i ==> !ByType(selector).Accepts(roles[j])
    {
      if EqualFold(roles[i].typ, want) {
        FirstUnique(roles, ByType(selector), i);
        return Some(roles[i]);
      }
    }
    for i := 0 to |roles|
      invariant forall j :: 0 <= j < i ==> !ByName(selector).Accepts(roles[j])
    {
      if EqualFold(roles[i].name, want) {
        FirstUnique(roles, ByName(selector), i);
        return Some(roles[i]);
      }
    }
    return None;
  }

  lemma FirstSameFold(roles: seq<Role>, m: Match, m': Match)
    requires forall r :: m.Accepts(r) <==> m'.Accepts(r)
    ensures First(roles, m) == First(roles, m')
  {
    var i := First(roles, m);
    if i >= 0 {
      FirstUnique(roles, m', i);
    }
  }

  /** The letter case of a selector does not change which role it finds. */
  lemma SelectorCase(roles: seq<Role>, selector: string, other: string)
    requires EqualFold(selector, other)
    ensures Selected(roles, selector) == Selected(roles, other)
  {
    FirstSameFold(roles, ByType(selector), ByType(other));
    FirstSameFold(roles, ByName(selector), ByName(other));
  }

  predicate DistinctIds(roles: seq<Role>) {
    forall i, j :: 0 <= i < j < |roles| ==> roles[i].id != roles[j].id
  }

  lemma ListedAt(roles: seq<Role>, i: nat)
    requires DistinctIds(roles) && i < |roles|
    ensures First(roles, ById(roles[i].id)) == i
  {
    FirstUnique(roles, ById(roles[i].id), i);
  }

  /** The roles after a PUT of `body` to `id`: name, description, type and permissions are all replaced. */
  function Replace(roles: seq<Role>, id: GoInt, body: Role): (after: seq<Role>)
    ensures |after| == |roles|
    ensures forall i :: 0 <= i < |roles| ==> after[i] == if roles[i].id == id then body.(id := id) else roles[i]
  {
    seq(|roles|, i requires 0 <= i < |roles| => if roles[i].id == id then body.(id := id) else roles[i])
  }
}
