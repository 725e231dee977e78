/**
 The flat spelling of a permission, `splitFlat` and the printer inside `FlattenPermissions`
 (internal/clients/strapi/roles.go).
 */
module FlatNames {
  import opened Outcomes
  import opened GoStrings

  /** One leaf of the permission tree: resource, controller, action. */
  datatype Triple = Triple(resource: string, controller: string, action: string)

  /** Resource and controller, before the action is attached. */
  datatype Source = Source(resource: string, controller: string)

  const API := "api::"
  const PLUGIN := "plugin::"

  // ---------------------------------------------------------------- the code

  /** What follows the prefix, cut into the rest of the resource and the controller. */
  function CutApi(afterPrefix: string): Option<Source> {
    var firstDot := Index(afterPrefix, '.');
    if firstDot <= 0 then None
    else
      var tail := afterPrefix[firstDot + 1..];
      var dot := Index(tail, '.');
      if dot >= 0 then Some(Source(afterPrefix[..firstDot + 1 + dot], tail[dot + 1..]))
      else if tail == "" then None
      else Some(Source(afterPrefix, tail))
  }

  function CutPlugin(afterPrefix: string): Option<Source> {
    var firstDot := Index(afterPrefix, '.');
    if firstDot <= 0 || firstDot == |afterPrefix| - 1 then None
    else Some(Source(afterPrefix[..firstDot], afterPrefix[firstDot + 1..]))
  }

  function Prefixed(prefix: string, s: Option<Source>): Option<Source> {
    match s
    case None => None
    case Some(s) => Some(Source(prefix + s.resource, s.controller))
  }

  function SplitApi(before: string): Option<Source>
    requires HasPrefix(before, API)
  {
    Prefixed(API, CutApi(before[|API|..]))
  }

  function SplitPlugin(before: string): Option<Source>
    requires HasPrefix(before, PLUGIN)
  {
    Prefixed(PLUGIN, CutPlugin(before[|PLUGIN|..]))
  }

  function SplitSource(before: string): Option<Source> {
    if HasPrefix(before, API) then SplitApi(before)
    else if HasPrefix(before, PLUGIN) then SplitPlugin(before)
    else None
  }

  /** `splitFlat`: `None` is the Go code's `ok == false`. */
  function SplitFlat(p: string): Option<Triple> {
    var lastDot := LastIndex(p, '.');
    if lastDot <= 0 || lastDot == |p| - 1 then None
    else
      match SplitSource(p[..lastDot])
      case None => None
      case Some(s) =>
        if s.resource == "" || s.controller == "" then None
        else Some(Triple(s.resource, s.controller, p[lastDot + 1..]))
  }

  predicate ImplicitController(resource: string, controller: string) {
    && HasPrefix(resource, API)
    && var last := LastIndex(resource, '.');
       last >= 0 && resource[last + 1..] == controller
  }

  /** The string `FlattenPermissions` appends for an enabled leaf. */
  function Print(x: Triple): string {
    if ImplicitController(x.resource, x.controller)
    then x.resource + "." + x.action
    else x.resource + "." + x.controller + "." + x.action
  }

  // ------------------------------------------------------------- the grammar

  ghost predicate ApiResource(r: string, a: string, t: string) {
    a != "" && '.' !in a && '.' !in t && r == "api::" + a + "." + t
  }

  ghost predicate PluginResource(r: string, q: string) {
    q != "" && '.' !in q && r == "plugin::" + q
  }

  /**
   The triples a flat string can name. An api resource has exactly one dot after a nonempty
   api name (its content type may be empty), a plugin resource has none, the controller is
   nonempty and may contain dots, the action is nonempty and has none.
   */
  ghost predicate WellFormed(x: Triple) {
    && x.controller != ""
    && x.action != "" && '.' !in x.action
    && ((exists a, t :: ApiResource(x.resource, a, t)) || exists q :: PluginResource(x.resource, q))
  }

  /** `resource.controller.action`, every part written out. */
  function Explicit(x: Triple): string {
    x.resource + "." + x.controller + "." + x.action
  }

  /** `resource.action`, the short form of an api permission. */
  function Short(x: Triple): string {
    x.resource + "." + x.action
  }

  /** The leaf is an api one whose controller is its content type. */
  ghost predicate OwnController(x: Triple) {
    exists a :: ApiResource(x.resource, a, x.controller)
  }

  /** Reference grammar: `p` is one of the accepted spellings of the well-formed triple `x`. */
  ghost predicate Spells(p: string, x: Triple) {
    WellFormed(x) && (p == Explicit(x) || (OwnController(x) && p == Short(x)))
  }

  // ------------------------------------------------------------------ proofs

  lemma ImplicitIffOwn(x: Triple)
    requires WellFormed(x)
    ensures ImplicitController(x.resource, x.controller) <==> OwnController(x)
  {
    if a, t :| ApiResource(x.resource, a, t) {
      LastIndexOfCut(x.resource, API + a, t, '.');
      assert x.resource[|API + a| + 1..] == t;
      if OwnController(x) {
        var a' :| ApiResource(x.resource, a', x.controller);
        LastIndexOfCut(x.resource, API + a', x.controller, '.');
      }
    } else {
      var q :| PluginResource(x.resource, q);
      assert x.resource[0] == 'p';
    }
  }

  lemma SplitLast(before: string, action: string)
    requires before != "" && action != "" && '.' !in action
    ensures SplitFlat(before + "." + action) ==
            match SplitSource(before)
            case None => None
            case Some(s) =>
              if s.resource == "" || s.controller == "" then None
              else Some(Triple(s.resource, s.controller, action))
  {
    var p := before + "." + action;
    LastIndexOfCut(p, before, action, '.');
    assert p[..|before|] == before && p[|before| + 1..] == action;
  }

  lemma TailOfCut(s: string, a: string, b: string)
    requires s == a + "." + b
    ensures s[|a| + 1..] == b && s[..|a|] == a
  {
  }

  lemma CutApiShort(a: string, t: string)
    requires a != "" && '.' !in a && '.' !in t && t != ""
    ensures CutApi(a + "." + t) == Some(Source(a + "." + t, t))
  {
    var rest := a + "." + t;
    IndexOfCut(rest, a, t, '.');
    TailOfCut(rest, a, t);
  }

  lemma ResourceOfCut(rest: string, a: string, tail: string, t: string, c: string)
    requires rest == a + "." + tail && tail == t + "." + c
    ensures rest[..|a| + 1 + |t|] == a + "." + t
  {
  }

  lemma CutApiAt(rest: string, i: nat, tail: string, j: nat, r: string, c: string)
    requires i == Index(rest, '.') > 0 && rest[i + 1..] == tail
    requires Index(tail, '.') == j && rest[..i + 1 + j] == r && tail[j + 1..] == c
    ensures CutApi(rest) == Some(Source(r, c))
  {
  }

  lemma CutApiLong(a: string, t: string, c: string)
    requires a != "" && '.' !in a && '.' !in t
    ensures CutApi(a + "." + (t + "." + c)) == Some(Source(a + "." + t, c))
  {
    var tail := t + "." + c;
    var rest := a + "." + tail;
    IndexOfCut(rest, a, tail, '.');
    TailOfCut(rest, a, tail);
    IndexOfCut(tail, t, c, '.');
    TailOfCut(tail, t, c);
    ResourceOfCut(rest, a, tail, t, c);
    CutApiAt(rest, |a|, tail, |t|, a + "." + t, c);
  }

  lemma CutPluginLong(q: string, c: string)
    requires q != "" && '.' !in q && c != ""
    ensures CutPlugin(q + "." + c) == Some(Source(q, c))
  {
    IndexOfCut(q + "." + c, q, c, '.');
    TailOfCut(q + "." + c, q, c);
  }

  lemma SourceOfApi(before: string, rest: string)
    requires before == API + rest
    ensures SplitSource(before) == Prefixed(API, CutApi(rest))
  {
    assert before[|API|..] == rest;
  }

  lemma SourceOfPlugin(before: string, rest: string)
    requires before == PLUGIN + rest
    ensures SplitSource(before) == Prefixed(PLUGIN, CutPlugin(rest))
  {
    assert before[|PLUGIN|..] == rest;
    assert before[0] == 'p';
  }

  lemma Regroup(p: string, a: string, t: string, c: string)
    ensures p + (a + "." + t) == p + a + "." + t
    ensures p + (a + "." + (t + "." + c)) == p + a + "." + t + "." + c
  {
  }

  lemma SpelledParses(p: string, x: Triple)
    requires Spells(p, x)
    ensures SplitFlat(p) == Some(x)
  {
    if p == Explicit(x) {
      var before := x.resource + "." + x.controller;
      if a, t :| ApiResource(x.resource, a, t) {
        Regroup(API, a, t, x.controller);
        SourceOfApi(before, a + "." + (t + "." + x.controller));
        CutApiLong(a, t, x.controller);
      } else {
        var q :| PluginResource(x.resource, q);
        Regroup(PLUGIN, q, x.controller, "");
        SourceOfPlugin(before, q + "." + x.controller);
        CutPluginLong(q, x.controller);
      }
      SplitLast(before, x.action);
    } else {
      var a :| ApiResource(x.resource, a, x.controller);
      Regroup(API, a, x.controller, "");
      SourceOfApi(x.resource, a + "." + x.controller);
      CutApiShort(a, x.controller);
      SplitLast(x.resource, x.action);
    }
  }

  /** `a` and `t` are the api name and content type of a cut api source. */
  ghost predicate ApiCut(rest: string, s: Source, a: string, t: string) {
    && a != "" && '.' !in a && '.' !in t
    && s.resource == a + "." + t
    && (rest == s.resource + "." + s.controller || (rest == s.resource && s.controller == t))
  }

  lemma CutAt(s: string, i: nat)
    requires i < |s| && s[i] == '.'
    ensures s == s[..i] + "." + s[i + 1..]
  {
  }

  lemma ApiCutShort(rest: string, s: Source, a: string, t: string)
    requires a != "" && '.' !in a && '.' !in t
    requires rest == a + "." + t && s == Source(rest, t)
    ensures ApiCut(rest, s, a, t)
  {
  }

  lemma Attach(p: string, r: string, c: string)
    ensures p + (r + "." + c) == p + r + "." + c
  {
  }

  lemma ApiCutLong(rest: string, s: Source, a: string, tail: string, t: string)
    requires a != "" && '.' !in a && '.' !in t
    requires rest == a + "." + tail && tail == t + "." + s.controller
    requires |a| + 1 + |t| <= |rest| && s.resource == rest[..|a| + 1 + |t|]
    ensures ApiCut(rest, s, a, t)
  {
    ResourceOfCut(rest, a, tail, t, s.controller);
    Attach(a + ".", t, s.controller);
  }

  lemma CutApiInverse(rest: string, s: Source) returns (i: nat, tail: string, j: int)
    requires CutApi(rest) == Some(s)
    ensures 0 < i < |rest| && rest[i] == '.' && '.' !in rest[..i] && tail == rest[i + 1..]
    ensures j < 0 ==> '.' !in tail && s == Source(rest, tail)
    ensures j >= 0 ==> j < |tail| && tail[j] == '.' && '.' !in tail[..j]
    ensures j >= 0 ==> i + 1 + j <= |rest| && s == Source(rest[..i + 1 + j], tail[j + 1..])
  {
    i := Index(rest, '.');
    tail := rest[i + 1..];
    j := Index(tail, '.');
  }

  lemma ApiCutAt(rest: string, s: Source, i: nat, tail: string, j: nat)
    requires 0 < i < |rest| && rest[i] == '.' && '.' !in rest[..i] && tail == rest[i + 1..]
    requires j < |tail| && tail[j] == '.' && '.' !in tail[..j]
    requires s == Source(rest[..i + 1 + j], tail[j + 1..])
    ensures ApiCut(rest, s, rest[..i], tail[..j])
  {
    CutAt(rest, i);
    CutAt(tail, j);
    ApiCutLong(rest, s, rest[..i], tail, tail[..j]);
  }

  lemma CutApiSpelled(rest: string, s: Source) returns (a: string, t: string)
    requires CutApi(rest) == Some(s)
    ensures ApiCut(rest, s, a, t)
  {
    var i, tail, j := CutApiInverse(rest, s);
    a := rest[..i];
    if j < 0 {
      t := tail;
      CutAt(rest, i);
      ApiCutShort(rest, s, a, t);
    } else {
      t := tail[..j];
      ApiCutAt(rest, s, i, tail, j);
    }
  }

  lemma CutPluginSpelled(rest: string, s: Source)
    requires CutPlugin(rest) == Some(s)
    ensures s.resource != "" && '.' !in s.resource && s.controller != ""
    ensures rest == s.resource + "." + s.controller
  {
  }

  lemma ApiSourceSpelled(before: string, x: Triple)
    requires HasPrefix(before, API) && SplitApi(before) == Some(Source(x.resource, x.controller))
    ensures exists a, t :: ApiResource(x.resource, a, t)
    ensures before == x.resource + "." + x.controller || (before == x.resource && OwnController(x))
  {
    var rest := before[|API|..];
    var s := CutApi(rest).value;
    var a, t := CutApiSpelled(rest, s);
    Regroup(API, a, t, s.controller);
    assert ApiResource(x.resource, a, t);
    assert before == API + rest;
    if rest == s.resource + "." + s.controller {
      Attach(API, s.resource, s.controller);
    }
  }

  lemma PluginSourceSpelled(before: string, x: Triple)
    requires HasPrefix(before, PLUGIN) && SplitPlugin(before) == Some(Source(x.resource, x.controller))
    ensures exists q :: PluginResource(x.resource, q)
    ensures before == x.resource + "." + x.controller
  {
    var rest := before[|PLUGIN|..];
    var s := CutPlugin(rest).value;
    CutPluginSpelled(rest, s);
    assert PluginResource(x.resource, s.resource);
    assert before == PLUGIN + rest;
    Attach(PLUGIN, s.resource, s.controller);
  }

  lemma SourceSpelled(before: string, x: Triple)
    requires SplitSource(before) == Some(Source(x.resource, x.controller))
    requires x.controller != "" && x.action != "" && '.' !in x.action
    ensures WellFormed(x)
    ensures before == x.resource + "." + x.controller || (before == x.resource && OwnController(x))
  {
    if HasPrefix(before, API) {
      ApiSourceSpelled(before, x);
    } else {
      PluginSourceSpelled(before, x);
    }
  }

  lemma ParsedIsSpelled(p: string, x: Triple)
    requires SplitFlat(p) == Some(x)
    ensures Spells(p, x)
  {
    var i := LastIndex(p, '.');
    assert p == p[..i] + "." + x.action;
    SourceSpelled(p[..i], x);
  }

  /** The parser accepts exactly the reference grammar, and reads what was spelled. */
  lemma ParserMeetsGrammar(p: string, x: Triple)
    ensures SplitFlat(p) == Some(x) <==> Spells(p, x)
  {
    if SplitFlat(p) == Some(x) {
      ParsedIsSpelled(p, x);
    }
    if Spells(p, x) {
      SpelledParses(p, x);
    }
  }

  /** Printing and parsing are inverse on the well-formed triples and on no others. */
  lemma PrintParse(x: Triple)
    ensures SplitFlat(Print(x)) == Some(x) <==> WellFormed(x)
  {
    if WellFormed(x) {
      ImplicitIffOwn(x);
    }
    ParserMeetsGrammar(Print(x), x);
  }

  /** Well-formed triples never collide when printed. */
  lemma PrintInjective(x: Triple, y: Triple)
    requires WellFormed(x) && WellFormed(y)
    ensures Print(x) == Print(y) <==> x == y
  {
    PrintParse(x);
    PrintParse(y);
  }

  /** The spelling `FlattenPermissions` would give back for an entry that parses. */
  function Normal(p: string): string
    requires SplitFlat(p).Some?
  {
    Print(SplitFlat(p).value)
  }

  predicate IsNormal(p: string) {
    SplitFlat(p).Some? && Normal(p) == p
  }

  /**
   Normalisation drops an explicit controller that repeats the content type, and changes
   nothing else; it keeps the meaning and is idempotent.
   */
  lemma Normalisation(p: string)
    requires SplitFlat(p).Some?
    ensures var x := SplitFlat(p).value;
            if OwnController(x) && p == Explicit(x) then Normal(p) == Short(x) != p else Normal(p) == p
    ensures SplitFlat(Normal(p)) == SplitFlat(p)
    ensures IsNormal(Normal(p))
  {
    var x := SplitFlat(p).value;
    ParsedIsSpelled(p, x);
    ImplicitIffOwn(x);
    PrintParse(x);
    assert |Explicit(x)| > |Short(x)|;
  }

  /** What parses is well formed, and its normal form names the same triple and no other. */
  lemma NormalFormsAreNames(p: string, q: string)
    requires SplitFlat(p).Some? && SplitFlat(q).Some?
    ensures WellFormed(SplitFlat(p).value)
    ensures Normal(p) == Normal(q) <==> SplitFlat(p) == SplitFlat(q)
  {
    ParsedIsSpelled(p, SplitFlat(p).value);
    ParsedIsSpelled(q, SplitFlat(q).value);
    PrintInjective(SplitFlat(p).value, SplitFlat(q).value);
  }

  // -------------------------------------------------------------- collisions

  /** `a.b` cut again further on: some segments `d` move from the front of `b` to the end of `a`. */
  ghost predicate ShiftedCut(a: string, b: string, a': string, b': string) {
    exists d :: a' == a + "." + d && b == d + "." + b'
  }

  /** Two ways to cut a string at a dot: the same one, or two that are apart by whole segments. */
  ghost predicate CutsAlike(a: string, b: string, a': string, b': string) {
    (a == a' && b == b') || ShiftedCut(a, b, a', b') || ShiftedCut(a', b', a, b)
  }

  lemma ShiftedIsSame(a: string, b: string, a': string, b': string)
    requires ShiftedCut(a, b, a', b')
    ensures a + "." + b == a' + "." + b'
  {
    var d :| a' == a + "." + d && b == d + "." + b';
    Attach(a + ".", d, b');
  }

  lemma SameIsShifted(a: string, b: string, a': string, b': string)
    requires a + "." + b == a' + "." + b' && |a| < |a'|
    ensures ShiftedCut(a, b, a', b')
  {
    var s := a + "." + b;
    assert s[|a|] == '.' && s[|a'|] == '.' && s[..|a'|] == a' && s[|a'| + 1..] == b';
    var d := a'[|a| + 1..];
    assert a' == a + "." + d;
    Attach(a + ".", d, b');
    assert b == s[|a| + 1..];
    assert b == d + "." + b';
  }

  lemma CutsAlikeIff(a: string, b: string, a': string, b': string)
    ensures a + "." + b == a' + "." + b' <==> CutsAlike(a, b, a', b')
  {
    if a + "." + b == a' + "." + b' {
      if |a| < |a'| {
        SameIsShifted(a, b, a', b');
      } else if |a'| < |a| {
        SameIsShifted(a', b', a, b);
      } else {
        TailOfCut(a + "." + b, a, b);
        TailOfCut(a' + "." + b', a', b');
      }
    } else if ShiftedCut(a, b, a', b') {
      ShiftedIsSame(a, b, a', b');
    } else if ShiftedCut(a', b', a, b) {
      ShiftedIsSame(a', b', a, b);
    }
  }

  /** What is printed before the action. */
  function Stem(x: Triple): string {
    if ImplicitController(x.resource, x.controller) then x.resource else x.resource + "." + x.controller
  }

  /** When two triples print the same before the action, by whether their controllers are printed. */
  ghost predicate StemsAlike(x: Triple, y: Triple) {
    match (ImplicitController(x.resource, x.controller), ImplicitController(y.resource, y.controller))
    case (true, true) => x.resource == y.resource && x.controller == y.controller
    case (true, false) => x.resource == y.resource + "." + y.controller
    case (false, true) => x.resource + "." + x.controller == y.resource
    case (false, false) => CutsAlike(x.resource, x.controller, y.resource, y.controller)
  }

  lemma StemsAlikeIff(x: Triple, y: Triple)
    ensures Stem(x) == Stem(y) <==> StemsAlike(x, y)
  {
    CutsAlikeIff(x.resource, x.controller, y.resource, y.controller);
  }

  /**
   When any two triples print alike. Actions without dots must be the same, and what is printed
   before them the same: the same leaf, a resource that another one continues with its
   controller, or the same segments shared out differently between resource and controller.
   */
  lemma PrintAlikeIff(x: Triple, y: Triple)
    ensures Print(x) == Print(y) <==> CutsAlike(Stem(x), x.action, Stem(y), y.action)
    ensures '.' !in x.action && '.' !in y.action ==>
              (Print(x) == Print(y) <==> x.action == y.action && StemsAlike(x, y))
  {
    CutsAlikeIff(Stem(x), x.action, Stem(y), y.action);
    StemsAlikeIff(x, y);
    if '.' !in x.action && '.' !in y.action && Print(x) == Print(y) {
      LastCutUnique(Stem(x), x.action, Stem(y), y.action, '.');
    }
  }

  /**
   So well-formedness cannot be dropped from `PrintInjective`: an api resource without a content
   type prints as the well-formed triple whose content type begins its controller.
   */
  lemma PrintCollides(a: string, b: string, c: string, action: string)
    requires a != "" && '.' !in a && '.' !in b && c != "" && b != c
    requires action != "" && '.' !in action
    ensures var x := Triple("api::" + a + "." + b, c, action);
            var y := Triple("api::" + a, b + "." + c, action);
            WellFormed(x) && !WellFormed(y) && x != y && Print(x) == Print(y)
  {
    var x, y := Triple(API + a + "." + b, c, action), Triple(API + a, b + "." + c, action);
    assert ApiResource(x.resource, a, b);
    LastIndexOfCut(x.resource, API + a, b, '.');
    TailOfCut(x.resource, API + a, b);
    assert '.' !in y.resource && y.resource[0] == 'a';
    assert ShiftedCut(y.resource, y.controller, x.resource, x.controller);
    PrintAlikeIff(x, y);
  }
}
