/**
 The whole provider in one run: clients obtained from the cache, the concurrent calls made on
 them, and the reconciles of several resources, each of whose requests is a call of its own on
 such a client.
 */
module Provider {
  import opened Outcomes
  import opened Permissions
  import opened Roles
  import Controller
  import Reconcile
  import Fleet
  import opened ClientPool
  import opened ClientCache

  /** A `Do` call: which client, and which of its calls. */
  datatype Request = Request(client: nat, call: nat)

  /**
   The cache, the state of every client it has made, the resources with the server they are
   applied to, and the calls that served the reconciles so far, as often as they did.
   */
  datatype State = State(
    store: Store, clients: seq<TokenClient.Shared>, fleet: Fleet.State,
    listings: multiset<Request>, puts: multiset<Request>)

  /** The calls of one reconcile: the listing of Observe, and the listing and PUT of what follows, if they happen. */
  datatype Calls = Calls(observe: nat, list: Option<nat>, put: Option<nat>)

  /** What others do during a reconcile, and whether a PUT without a 2xx reply arrived all the same. */
  datatype Others = Others(drift: Option<seq<Role>>, meanwhile: Option<seq<Role>>, arrived: bool, candidate: Tree)

  datatype Event =
    | Get(cfg: TokenClient.Config)
    | OnClient(id: nat, event: TokenClient.Event)
    | Reconciled(k: nat, cfg: TokenClient.Config, calls: Calls, others: Others, keepName: bool, keepStatus: bool)
    | Drifted(roles: seq<Role>)
    | Edited(k: nat, selector: string, permissions: seq<string>)
    | Annotated(k: nat, externalName: string)
    | MarkedDeleted(k: nat)

  predicate Finished(c: TokenClient.Shared, t: nat) {
    t < |c.calls| && c.calls[t].pc.Done?
  }

  /** The call got a 2xx response. */
  predicate Succeeded(c: TokenClient.Shared, t: nat) {
    Finished(c, t) && c.calls[t].pc.reply.Response? && c.calls[t].pc.reply.status / 100 == 2
  }

  /** The call got as far as sending its request with a token. */
  predicate WasSent(c: TokenClient.Shared, t: nat) {
    Finished(c, t) && c.calls[t].first > 0
  }

  /** A call that was not made did not fail. */
  predicate NotFailed(c: TokenClient.Shared, t: Option<nat>) {
    t.Some? ==> Succeeded(c, t.value)
  }

  /** A 2xx response acknowledges a PUT; any other PUT that was sent may still have arrived. */
  function ReplyOf(c: TokenClient.Shared, put: Option<nat>, arrived: bool): Controller.PutReply {
    if NotFailed(c, put) then Controller.Acknowledged
    else if WasSent(c, put.value) && arrived then Controller.ReplyLost
    else Controller.Refused
  }

  /** The outcome of a reconcile's requests is the outcome of its calls. */
  function TurnOf(c: TokenClient.Shared, e: Event): Reconcile.Turn
    requires e.Reconciled?
  {
    Reconcile.Turn(
      Succeeded(c, e.calls.observe), e.others.drift,
      Controller.Env(NotFailed(c, e.calls.list), e.others.meanwhile,
                     ReplyOf(c, e.calls.put, e.others.arrived), e.others.candidate),
      e.keepName, e.keepStatus)
  }

  /** One call after the other. */
  predicate InOrder(calls: Calls) {
    && (calls.list.Some? ==> calls.observe < calls.list.value)
    && (calls.put.Some? ==> calls.list.Some? && calls.list.value < calls.put.value)
  }

  function ListingsOf(id: nat, calls: Calls): multiset<Request> {
    multiset{Request(id, calls.observe)}
    + if calls.list.Some? then multiset{Request(id, calls.list.value)} else multiset{}
  }

  function PutsOf(id: nat, calls: Calls): multiset<Request> {
    if calls.put.Some? then multiset{Request(id, calls.put.value)} else multiset{}
  }

  /** There is a client in the cache for the reconcile's configuration. */
  predicate Connected(hash: string -> string, p: State, e: Event)
    requires e.Reconciled?
  {
    var key := hash(Fingerprint(e.cfg));
    key in p.store.ids && p.store.ids[key] < |p.clients|
  }

  function ClientOf(hash: string -> string, p: State, e: Event): nat
    requires e.Reconciled? && Connected(hash, p, e)
  {
    p.store.ids[hash(Fingerprint(e.cfg))]
  }

  /** The calls are finished ones of this client, in order, and served no request before. */
  ghost predicate OwnCalls(p: State, id: nat, calls: Calls)
    requires id < |p.clients|
  {
    && InOrder(calls)
    && forall r :: r in ListingsOf(id, calls) + PutsOf(id, calls) ==>
                     Finished(p.clients[id], r.call) && r !in p.listings && r !in p.puts
  }

  /** The reconcile can have happened: it used the cached client, made calls of its own, and made those it needed. */
  ghost predicate Fits(hash: string -> string, p: State, e: Event)
    requires e.Reconciled?
  {
    && e.k < |p.fleet.crs| && e.k !in p.fleet.gone && Connected(hash, p, e)
    && var id := ClientOf(hash, p, e);
       var t := TurnOf(p.clients[id], e);
       && OwnCalls(p, id, e.calls)
       && (e.calls.list.Some? <==> Reconcile.Acts(Fleet.Member(p.fleet, e.k), t.observeUp))
       && (e.calls.put.Some? <==> Reconcile.SendsPut(Fleet.Member(p.fleet, e.k), t))
  }

  /** What an event is for the resources. */
  ghost function Visits(hash: string -> string, p: State, e: Event): (vs: seq<Fleet.Visit>)
    ensures |vs| <= 1
  {
    match e
    case Get(_) => []
    case OnClient(_, _) => []
    case Reconciled(k, _, _, _, _, _) =>
      if Fits(hash, p, e)
      then [Fleet.Visit(k, Reconcile.Reconciled(TurnOf(p.clients[ClientOf(hash, p, e)], e)))]
      else []
    case Drifted(roles) => [Fleet.Visit(0, Reconcile.Drifted(roles))]
    case Edited(k, selector, permissions) => [Fleet.Visit(k, Reconcile.Edited(selector, permissions))]
    case Annotated(k, externalName) => [Fleet.Visit(k, Reconcile.Annotated(externalName))]
    case MarkedDeleted(k) => [Fleet.Visit(k, Reconcile.MarkedDeleted)]
  }

  ghost function FleetStep(hash: string -> string, p: State, e: Event): Fleet.State {
    var vs := Visits(hash, p, e);
    if vs == [] then p.fleet else Fleet.Visited(p.fleet, vs[0])
  }

  /** A reconcile that cannot have happened changes nothing, so every sequence of events is a run. */
  ghost function Step(hash: string -> string, p: State, e: Event): State {
    match e
    case Get(cfg) =>
      var store := Got(hash, p.store, cfg).0;
      var clients := if |store.made| > |p.store.made| then p.clients + [TokenClient.IDLE] else p.clients;
      p.(store := store, clients := clients)
    case OnClient(id, event) =>
      if id < |p.clients| then p.(clients := p.clients[id := TokenClient.Step(p.clients[id], event)]) else p
    case Reconciled(_, _, calls, _, _, _) =>
      if Fits(hash, p, e) then
        var id := ClientOf(hash, p, e);
        p.(fleet := FleetStep(hash, p, e),
        listings := p.listings + ListingsOf(id, calls), puts := p.puts + PutsOf(id, calls))
      else p
    case _ => p.(fleet := FleetStep(hash, p, e))
  }

  ghost function Run(hash: string -> string, p: State, es: seq<Event>): State {
    if es == [] then p else Step(hash, Run(hash, p, es[..|es| - 1]), es[|es| - 1])
  }

  /** A provider that has just started. */
  function Started(fleet: Fleet.State): State {
    State(EMPTY, [], fleet, multiset{}, multiset{})
  }

  // -------------------------------------------------------------- projections

  /** The configurations asked for. */
  function Asked(es: seq<Event>): seq<TokenClient.Config> {
    if es == [] then []
    else Asked(es[..|es| - 1]) + match es[|es| - 1] case Get(cfg) => [cfg] case _ => []
  }

  /** What the run is for the resources. */
  ghost function Projected(hash: string -> string, p: State, es: seq<Event>): seq<Fleet.Visit> {
    if es == [] then []
    else Projected(hash, p, es[..|es| - 1]) + Visits(hash, Run(hash, p, es[..|es| - 1]), es[|es| - 1])
  }

  ghost predicate Consistent(p: State) {
    StoreOk(p.store) && |p.clients| == |p.store.made| && AllInv(p.clients)
  }

  lemma GetStep(hash: string -> string, p: State, cfg: TokenClient.Config)
    requires StoreOk(p.store) && |p.clients| == |p.store.made|
    ensures var p' := Step(hash, p, Get(cfg));
            && StoreOk(p'.store) && |p'.clients| == |p'.store.made|
            && (p'.clients == p.clients || p'.clients == p.clients + [TokenClient.IDLE])
  {
    StoreStep(hash, p.store, cfg);
  }

  lemma GetOk(hash: string -> string, p: State, cfg: TokenClient.Config)
    requires Consistent(p)
    ensures Consistent(Step(hash, p, Get(cfg)))
  {
    GetStep(hash, p, cfg);
    IdleAdded(p.clients);
  }

  lemma CallOk(hash: string -> string, p: State, id: nat, event: TokenClient.Event)
    requires Consistent(p)
    ensures Consistent(Step(hash, p, OnClient(id, event)))
  {
    if id < |p.clients| {
      OneSteps(p.clients, id, event);
    }
  }

  lemma {:induction false} RunOk(hash: string -> string, fleet: Fleet.State, es: seq<Event>)
    ensures Consistent(Run(hash, Started(fleet), es))
  {
    if es == [] {
    } else {
      var before, e := Run(hash, Started(fleet), es[..|es| - 1]), es[|es| - 1];
      RunOk(hash, fleet, es[..|es| - 1]);
      if e.Get? {
        GetOk(hash, before, e.cfg);
      } else if e.OnClient? {
        CallOk(hash, before, e.id, e.event);
      }
    }
  }

  lemma {:induction false} StoreRun(hash: string -> string, fleet: Fleet.State, es: seq<Event>)
    ensures Run(hash, Started(fleet), es).store == After(hash, Asked(es))
  {
    if es == [] {
    } else {
      var init := es[..|es| - 1];
      StoreRun(hash, fleet, init);
      var asked := Asked(init);
      match es[|es| - 1] {
        case Get(cfg) => assert (asked + [cfg])[..|asked|] == asked;
        case _ => assert asked + [] == asked;
      }
    }
  }

  lemma StepFleet(hash: string -> string, p: State, e: Event)
    ensures Step(hash, p, e).fleet == FleetStep(hash, p, e)
  {
  }

  lemma AfterMore(s: Fleet.State, vs: seq<Fleet.Visit>, more: seq<Fleet.Visit>)
    requires |more| <= 1
    ensures Fleet.After(s, vs + more)
         == if more == [] then Fleet.After(s, vs) else Fleet.Visited(Fleet.After(s, vs), more[0])
  {
    if more == [] {
      assert vs + more == vs;
    } else {
      assert (vs + more)[..|vs|] == vs && |vs + more| == |vs| + 1;
    }
  }

  lemma {:induction false} FleetRun(hash: string -> string, fleet: Fleet.State, es: seq<Event>)
    ensures Run(hash, Started(fleet), es).fleet == Fleet.After(fleet, Projected(hash, Started(fleet), es))
  {
    if es == [] {
    } else {
      var init := es[..|es| - 1];
      FleetRun(hash, fleet, init);
      var before := Run(hash, Started(fleet), init);
      StepFleet(hash, before, es[|es| - 1]);
      AfterMore(fleet, Projected(hash, Started(fleet), init), Visits(hash, before, es[|es| - 1]));
    }
  }

  lemma RunAt(hash: string -> string, p: State, es: seq<Event>, j: nat)
    requires j < |es|
    ensures Run(hash, p, es[..j + 1]) == Step(hash, Run(hash, p, es[..j]), es[j])
  {
    assert es[..j + 1][..j] == es[..j];
  }

  lemma {:induction false} RunSplit(hash: string -> string, p: State, es: seq<Event>, n: nat)
    requires n <= |es|
    ensures Run(hash, p, es) == Run(hash, Run(hash, p, es[..n]), es[n..])
  {
    if n == |es| {
      assert es[..n] == es;
    } else {
      var init := es[..|es| - 1];
      RunSplit(hash, p, init, n);
      assert init[..n] == es[..n];
      assert es[n..][..|es| - n - 1] == init[n..];
    }
  }

  /** What an event is for the resources is part of what the run is for them. */
  lemma {:induction false} VisitInRun(hash: string -> string, p: State, es: seq<Event>, j: nat, v: Fleet.Visit)
    requires j < |es| && v in Visits(hash, Run(hash, p, es[..j]), es[j])
    ensures v in Projected(hash, p, es)
  {
    var init := es[..|es| - 1];
    var more := Visits(hash, Run(hash, p, init), es[|es| - 1]);
    assert forall x :: x in Projected(hash, p, init) + more <==> x in Projected(hash, p, init) || x in more;
    if j == |es| - 1 {
    } else {
      assert init[..j] == es[..j];
      VisitInRun(hash, p, init, j, v);
    }
  }

  // ----------------------------------------------------------------- requests

  /** Every request so far was a finished call of some client, and no call served two of them. */
  ghost predicate RequestsOk(p: State) {
    && (forall r :: p.listings[r] + p.puts[r] <= 1)
    && forall r :: r in p.listings + p.puts ==> r.client < |p.clients| && Finished(p.clients[r.client], r.call)
  }

  lemma FinishedStays(c: TokenClient.Shared, event: TokenClient.Event, t: nat)
    requires Finished(c, t)
    ensures Finished(TokenClient.Step(c, event), t) && TokenClient.Step(c, event).calls[t] == c.calls[t]
  {
  }

  lemma CallsApart(id: nat, calls: Calls)
    requires InOrder(calls)
    ensures forall r :: ListingsOf(id, calls)[r] + PutsOf(id, calls)[r] <= 1
    ensures forall r :: r in ListingsOf(id, calls) + PutsOf(id, calls) ==> r.client == id
    ensures |PutsOf(id, calls)| == if calls.put.Some? then 1 else 0
  {
  }

  lemma OwnCallsAreNew(p: State, id: nat, calls: Calls, r: Request)
    requires id < |p.clients| && OwnCalls(p, id, calls)
    requires ListingsOf(id, calls)[r] + PutsOf(id, calls)[r] > 0
    ensures p.listings[r] + p.puts[r] == 0 && Finished(p.clients[id], r.call)
  {
    assert r in ListingsOf(id, calls) + PutsOf(id, calls);
  }

  lemma ReconcileRequests(p: State, id: nat, calls: Calls)
    requires RequestsOk(p) && id < |p.clients| && OwnCalls(p, id, calls)
    ensures RequestsOk(p.(listings := p.listings + ListingsOf(id, calls), puts := p.puts + PutsOf(id, calls)))
    ensures |p.puts + PutsOf(id, calls)| == |p.puts| + if calls.put.Some? then 1 else 0
  {
    CallsApart(id, calls);
    var listed, put := ListingsOf(id, calls), PutsOf(id, calls);
    forall r | listed[r] + put[r] > 0
      ensures p.listings[r] + p.puts[r] == 0 && r.client == id && Finished(p.clients[id], r.call)
    {
      OwnCallsAreNew(p, id, calls, r);
      assert r in listed + put;
    }
  }

  /** The PUTs of an event are the requests it adds. */
  ghost predicate PutsCounted(p: State, p': State) {
    |p'.fleet.world.log| - |p.fleet.world.log| == |p'.puts| - |p.puts|
  }

  lemma ReconcileStep(hash: string -> string, p: State, e: Event)
    requires RequestsOk(p) && e.Reconciled? && Fits(hash, p, e)
    ensures var p' := Step(hash, p, e); RequestsOk(p') && PutsCounted(p, p')
    ensures var p' := Step(hash, p, e);
            && |p'.fleet.crs| == |p.fleet.crs|
            && Fleet.Member(p'.fleet, e.k)
               == Reconcile.Turned(Fleet.Member(p.fleet, e.k), TurnOf(p.clients[ClientOf(hash, p, e)], e))
  {
    var id := ClientOf(hash, p, e);
    var t := TurnOf(p.clients[id], e);
    ReconcileRequests(p, id, e.calls);
    Reconcile.PutsOfTurn(Fleet.Member(p.fleet, e.k), t);
  }

  lemma OtherStep(hash: string -> string, p: State, e: Event)
    requires RequestsOk(p) && Consistent(p) && !e.Reconciled?
    ensures var p' := Step(hash, p, e);
            RequestsOk(p') && p'.fleet.world.log == p.fleet.world.log && p'.puts == p.puts
  {
    if e.Get? {
      GetStep(hash, p, e.cfg);
    } else if e.OnClient? {
      forall r | r in p.listings + p.puts && r.client == e.id && e.id < |p.clients|
        ensures Finished(TokenClient.Step(p.clients[e.id], e.event), r.call)
      {
        FinishedStays(p.clients[e.id], e.event, r.call);
      }
    }
  }

  lemma {:induction false} RequestsRun(hash: string -> string, fleet: Fleet.State, es: seq<Event>)
    ensures RequestsOk(Run(hash, Started(fleet), es))
    ensures PutsCounted(Started(fleet), Run(hash, Started(fleet), es))
  {
    if es == [] {
    } else {
      var before, e := Run(hash, Started(fleet), es[..|es| - 1]), es[|es| - 1];
      RequestsRun(hash, fleet, es[..|es| - 1]);
      RunOk(hash, fleet, es[..|es| - 1]);
      if !e.Reconciled? {
        OtherStep(hash, before, e);
      } else if Fits(hash, before, e) {
        ReconcileStep(hash, before, e);
      }
    }
  }

  /**
   In every run of the whole provider each part runs as its own model says: every client keeps
   its invariants, the cache is the one of the Gets alone, the resources go through a run of the
   fleet. No call serves two requests, whether listings or PUTs, and the PUTs are as many as the
   calls that were made for them.
   */
  lemma PartsRun(hash: string -> string, fleet: Fleet.State, es: seq<Event>)
    ensures var p := Run(hash, Started(fleet), es);
            && Consistent(p)
            && p.store == After(hash, Asked(es))
            && p.fleet == Fleet.After(fleet, Projected(hash, Started(fleet), es))
            && RequestsOk(p)
            && |p.fleet.world.log| == |fleet.world.log| + |p.puts|
  {
    RunOk(hash, fleet, es);
    StoreRun(hash, fleet, es);
    FleetRun(hash, fleet, es);
    RequestsRun(hash, fleet, es);
  }

  /** The client of a reconcile is one that a Get with the same key returned before. */
  lemma ClientWasGot(hash: string -> string, fleet: Fleet.State, es: seq<Event>, e: Event) returns (i: nat)
    requires e.Reconciled? && Connected(hash, Run(hash, Started(fleet), es), e)
    ensures i < |Asked(es)| && hash(Fingerprint(Asked(es)[i])) == hash(Fingerprint(e.cfg))
    ensures Returned(hash, Asked(es), i) == Ok(ClientOf(hash, Run(hash, Started(fleet), es), e))
  {
    StoreRun(hash, fleet, es);
    i := StoredWasReturned(hash, Asked(es), hash(Fingerprint(e.cfg)));
  }

  // ------------------------------------------------------------------- bounds

  /**
   Provider-wide login bound. In every interleaving of Gets, calls and reconciles, there are at
   most as many successful logins as distinct cached keys plus first attempts answered 401.
   */
  lemma LoginBound(hash: string -> string, fleet: Fleet.State, es: seq<Event>)
    ensures var p := Run(hash, Started(fleet), es);
            var keys := set cfg | cfg in Asked(es) && TokenClient.New(cfg).Ok? :: hash(Fingerprint(cfg));
            Logins(p.clients) <= |keys| + Rejections(p.clients)
  {
    PartsRun(hash, fleet, es);
    KeysAre(hash, Asked(es));
    PoolBound(Run(hash, Started(fleet), es).clients);
  }
}
