/**
 What one reconcile of the whole provider does with its calls: how many it makes, what its PUT
 call changes, and what the events from outside change.
 */
module ReconcileCalls {
  import opened Permissions
  import opened PermissionLists
  import opened Roles
  import opened Controller
  import opened CallResults
  import opened EventEffects
  import opened GoStrings
  import opened Provider
  import TokenClient

  /** The call ended with a response whose status is one of 200 to 299. */
  ghost predicate Got2xx(c: TokenClient.Shared, t: nat) {
    && t < |c.calls|
    && exists status :: c.calls[t].pc == TokenClient.Done(TokenClient.Response(status)) && 200 <= status <= 299
  }

  lemma SucceededIff(c: TokenClient.Shared, t: nat)
    ensures Succeeded(c, t) <==> Got2xx(c, t)
  {
    if Succeeded(c, t) {
      var status := c.calls[t].pc.reply.status;
      assert c.calls[t].pc == TokenClient.Done(TokenClient.Response(status));
    }
  }

  /** The client whose calls the reconcile makes. */
  function Caller(hash: string -> string, p: State, e: Event): TokenClient.Shared
    requires e.Reconciled? && Connected(hash, p, e)
  {
    p.clients[ClientOf(hash, p, e)]
  }

  /** Observe finds a role, and something is to be done about it. */
  ghost predicate NeedsMore(cr: Resource, roles: seq<Role>) {
    && Target(roles, cr) >= 0
    && if cr.deleted then !cr.status.cleared else !UpToDate(roles[Target(roles, cr)], cr)
  }

  /**
   The calls of a reconcile: one listing; another one if the first got through and something is
   to be done; and a PUT if that one got through too and finds a role after what others did.
   */
  lemma CallsMade(hash: string -> string, p: State, e: Event)
    requires e.Reconciled? && Fits(hash, p, e)
    ensures var cr, c, p' := p.fleet.crs[e.k], Caller(hash, p, e), Step(hash, p, e);
            var more := Got2xx(c, e.calls.observe) && NeedsMore(cr, p.fleet.world.roles);
            && |p'.listings| == |p.listings| + 1 + (if more then 1 else 0)
            && (e.calls.list.Some? <==> more)
    ensures var cr, c := p.fleet.crs[e.k], Caller(hash, p, e);
            var roles := if e.others.drift.Some? then e.others.drift.value else p.fleet.world.roles;
            e.calls.put.Some? <==>
              && e.calls.list.Some? && Got2xx(c, e.calls.list.value)
              && Target(roles, AfterObserve(cr, p.fleet.world, true).cr) >= 0
  {
    SucceededIff(Caller(hash, p, e), e.calls.observe);
    if e.calls.list.Some? {
      SucceededIff(Caller(hash, p, e), e.calls.list.value);
    }
  }

  /** The roles when the PUT of the reconcile arrives, as others have left them. */
  function RolesLeft(p: State, e: Event): seq<Role>
    requires e.Reconciled?
  {
    if e.others.meanwhile.Some? then e.others.meanwhile.value
    else if e.others.drift.Some? then e.others.drift.value
    else p.fleet.world.roles
  }

  /** The roles at the second listing of the reconcile. */
  function RolesListed(p: State, e: Event): seq<Role>
    requires e.Reconciled?
  {
    if e.others.drift.Some? then e.others.drift.value else p.fleet.world.roles
  }

  /** The role that the second listing resolves. */
  ghost function Resolves(p: State, e: Event): Role
    requires e.Reconciled? && e.k < |p.fleet.crs|
    requires Target(RolesListed(p, e), AfterObserve(p.fleet.crs[e.k], p.fleet.world, true).cr) >= 0
  {
    RolesListed(p, e)[Target(RolesListed(p, e), AfterObserve(p.fleet.crs[e.k], p.fleet.world, true).cr)]
  }

  /** The PUT call got a 2xx response, or was sent with a token and arrived all the same. */
  ghost predicate Arrives(c: TokenClient.Shared, e: Event)
    requires e.Reconciled? && e.calls.put.Some?
  {
    || Got2xx(c, e.calls.put.value)
    || (e.others.arrived && e.calls.put.value < |c.calls| && c.calls[e.calls.put.value].first > 0)
  }

  /** The body of the PUT of a reconcile that resolved `role`. */
  ghost function BodyFor(cr: Resource, role: Role): Role {
    role.(permissions := if cr.deleted then map[] else Expand(cr.permissions))
  }

  lemma TurnPut(s: Reconcile.Cluster, t: Reconcile.Turn)
    requires Reconcile.SendsPut(s, t)
    ensures var w := WithDrift(s.world, t.drift);
            var role := w.roles[Target(w.roles, AfterObserve(s.cr, s.world, true).cr)];
            Reconcile.Turned(s, t).world
            == AfterPut(WithDrift(w, t.env.meanwhile), role.id, BodyFor(s.cr, role), t.env.reply, t.env.candidate)
    ensures Reconcile.Turned(s, t).cr.status.cleared && !s.cr.status.cleared ==> t.env.reply == Acknowledged
  {
  }

  lemma BodyNames(cr: Resource, role: Role)
    ensures Enabled(BodyFor(cr, role).permissions) == if cr.deleted then {} else Parsed(cr.permissions)
  {
    EnabledIsGranted(map[]);
    ExpandMeaning(cr.permissions);
  }

  lemma StepTurns(hash: string -> string, p: State, e: Event)
    requires e.Reconciled? && Fits(hash, p, e)
    ensures var p', c := Step(hash, p, e), Reconcile.Turned(Fleet.Member(p.fleet, e.k), TurnOf(Caller(hash, p, e), e));
            && p'.fleet.world == c.world && |p'.fleet.crs| == |p.fleet.crs| && p'.fleet.crs[e.k] == c.cr
  {
  }

  lemma ArrivesIff(c: TokenClient.Shared, e: Event)
    requires e.Reconciled? && e.calls.put.Some? && Finished(c, e.calls.put.value)
    ensures Arrives(c, e) <==> TurnOf(c, e).env.reply != Refused
    ensures Got2xx(c, e.calls.put.value) <==> TurnOf(c, e).env.reply == Acknowledged
  {
    SucceededIff(c, e.calls.put.value);
  }

  /** The second listing of a reconcile that makes a PUT call found a role. */
  lemma PutResolves(hash: string -> string, p: State, e: Event)
    requires e.Reconciled? && Fits(hash, p, e) && e.calls.put.Some?
    ensures Reconcile.SendsPut(Fleet.Member(p.fleet, e.k), TurnOf(Caller(hash, p, e), e))
    ensures Target(RolesListed(p, e), AfterObserve(p.fleet.crs[e.k], p.fleet.world, true).cr) >= 0
    ensures Finished(Caller(hash, p, e), e.calls.put.value)
  {
    var id := ClientOf(hash, p, e);
    assert Request(id, e.calls.put.value) in ListingsOf(id, e.calls) + PutsOf(id, e.calls);
  }

  /**
   What the PUT call of a reconcile changes. If it arrives, and its role is still listed, that
   role is as it was listed, with exactly what the spec names enabled, or nothing for a deletion;
   otherwise the roles are as others have left them. The flag is newly set only by a 2xx response.
   */
  lemma PutTakesEffect(hash: string -> string, p: State, e: Event)
    requires e.Reconciled? && Fits(hash, p, e) && e.calls.put.Some?
    ensures Target(RolesListed(p, e), AfterObserve(p.fleet.crs[e.k], p.fleet.world, true).cr) >= 0
    ensures var cr, role := p.fleet.crs[e.k], Resolves(p, e);
            var before, after := RolesLeft(p, e), Step(hash, p, e).fleet.world.roles;
            if Arrives(Caller(hash, p, e), e) && exists r :: r in before && r.id == role.id
            then Holds(after, role, if cr.deleted then {} else Parsed(cr.permissions))
            else after == before
    ensures var cr, cr' := p.fleet.crs[e.k], Step(hash, p, e).fleet.crs[e.k];
            cr'.status.cleared && !cr.status.cleared ==> Got2xx(Caller(hash, p, e), e.calls.put.value)
  {
    var s, t := Fleet.Member(p.fleet, e.k), TurnOf(Caller(hash, p, e), e);
    PutResolves(hash, p, e);
    ArrivesIff(Caller(hash, p, e), e);
    StepTurns(hash, p, e);
    TurnPut(s, t);
    BodyNames(s.cr, Resolves(p, e));
    PutMeaning(WithDrift(WithDrift(p.fleet.world, e.others.drift), e.others.meanwhile),
               BodyFor(s.cr, Resolves(p, e)), t.env.reply, t.env.candidate);
  }

  /**
   What a reconcile writes back, if its first listing got a 2xx and Observe finds a role. Each of
   the two writes is kept or lost by itself; kept, they tell about that role.
   */
  lemma WritesKept(hash: string -> string, p: State, e: Event)
    requires e.Reconciled? && Fits(hash, p, e) && Got2xx(Caller(hash, p, e), e.calls.observe)
    requires Target(p.fleet.world.roles, p.fleet.crs[e.k]) >= 0
    ensures |Step(hash, p, e).fleet.crs| == |p.fleet.crs|
    ensures var cr, cr' := p.fleet.crs[e.k], Step(hash, p, e).fleet.crs[e.k];
            var role := p.fleet.world.roles[Target(p.fleet.world.roles, cr)];
            && (!e.keepName ==> cr'.externalName == cr.externalName)
            && (e.keepName ==> Numeral(cr'.externalName) && NumeralValue(cr'.externalName) == role.id)
            && (!e.keepStatus ==> cr'.status == cr.status)
            && (e.keepStatus && !(cr.deleted && cr.status.cleared) ==> Reports(cr'.status, role))
  {
    var s, t := Fleet.Member(p.fleet, e.k), TurnOf(Caller(hash, p, e), e);
    SucceededIff(Caller(hash, p, e), e.calls.observe);
    StepTurns(hash, p, e);
    TurnWrites(s, t);
    ResolvedWrites(s, t);
  }

  /** The state in which resource `k` is `cr`, and everything else as it was. */
  function WithResource(p: State, k: nat, cr: Resource): State
    requires k < |p.fleet.crs|
  {
    p.(fleet := p.fleet.(crs := p.fleet.crs[k := cr]))
  }

  /** What the events from outside change: the spec, the annotation or the mark of one resource, or all the roles. */
  lemma OutsideEvents(hash: string -> string, p: State, k: nat)
    requires k < |p.fleet.crs|
    ensures forall selector, permissions ::
              Step(hash, p, Edited(k, selector, permissions))
              == WithResource(p, k, p.fleet.crs[k].(selector := selector, permissions := permissions))
    ensures forall externalName ::
              Step(hash, p, Annotated(k, externalName))
              == WithResource(p, k, p.fleet.crs[k].(externalName := externalName))
    ensures Step(hash, p, MarkedDeleted(k)) == WithResource(p, k, p.fleet.crs[k].(deleted := true))
    ensures forall roles ::
              Step(hash, p, Drifted(roles)) == p.(fleet := p.fleet.(world := p.fleet.world.(roles := roles)))
  {
  }
}
