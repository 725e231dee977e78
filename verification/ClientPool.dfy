/** Several clients side by side, each with its own token, mutex and calls. */
module ClientPool {
  import opened TokenClient

  /** Every client keeps its invariant. */
  ghost predicate AllInv(clients: seq<Shared>) {
    forall i :: 0 <= i < |clients| ==> Inv(clients[i])
  }

  lemma AddedInv(clients: seq<Shared>, c: Shared)
    requires AllInv(clients) && Inv(c)
    ensures AllInv(clients + [c])
  {
  }

  lemma IdleAdded(clients: seq<Shared>)
    requires AllInv(clients)
    ensures AllInv(clients + [IDLE])
  {
    IdleOk();
    AddedInv(clients, IDLE);
  }

  lemma OneSteps(clients: seq<Shared>, id: nat, e: Event)
    requires AllInv(clients) && id < |clients|
    ensures AllInv(clients[id := Step(clients[id], e)])
  {
    InvStep(clients[id], e);
  }

  function Logins(clients: seq<Shared>): nat {
    if clients == [] then 0 else clients[0].logins + Logins(clients[1..])
  }

  function Rejections(clients: seq<Shared>): nat {
    if clients == [] then 0 else clients[0].rejected + Rejections(clients[1..])
  }

  /** Over all clients: at most one login each, and one more for every first attempt answered 401. */
  lemma {:induction false} PoolBound(clients: seq<Shared>)
    requires AllInv(clients)
    ensures Logins(clients) <= |clients| + Rejections(clients)
  {
    if clients == [] {
    } else {
      assert Inv(clients[0]);
      assert AllInv(clients[1..]);
      PoolBound(clients[1..]);
    }
  }
}
