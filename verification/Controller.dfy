/**
 The external client of the RolePermissions controller: Observe, Create, Update and Delete
 (internal/controller/rolepermissions/rolepermissions.go), and the Strapi server they talk to.
 */
module Controller {
  import opened Outcomes
  import opened GoStrings
  import opened Sorting
  import opened Permissions
  import opened PermissionLists
  import opened Roles

  datatype Error = ListRolesFailed | RoleNotFound | UpdateRoleFailed

  // ------------------------------------------------------------- the server

  /** How a PUT ends for the client: done, not done, or done with the reply lost. */
  datatype PutReply = Acknowledged | Refused | ReplyLost

  /** One PUT request. */
  datatype Put = Put(id: GoInt, body: Role)

  /** The server's roles, and every PUT that was made, whether or not it arrived. */
  datatype World = World(roles: seq<Role>, log: seq<Put>)

  /** The server may keep extra disabled leaves; `candidate` is what it would like to keep. */
  function Stored(t: Tree, candidate: Tree): (kept: Tree)
    ensures Enabled(kept) == Enabled(t)
  {
    if Enabled(candidate) == Enabled(t) then candidate else t
  }

  /** The server after somebody else's change to the roles, if there is one. */
  function WithDrift(w: World, drift: Option<seq<Role>>): World {
    match drift
    case None => w
    case Some(roles) => w.(roles := roles)
  }

  /** `UpdateRole`: a PUT to an unknown role changes nothing and fails. */
  function AfterPut(w: World, id: GoInt, body: Role, reply: PutReply, candidate: Tree): World {
    var known := First(w.roles, ById(id)) >= 0;
    World(
      if known && reply != Refused
      then Replace(w.roles, id, body.(permissions := Stored(body.permissions, candidate)))
      else w.roles,
      w.log + [Put(id, body)])
  }

  predicate PutSucceeds(w: World, id: GoInt, reply: PutReply) {
    First(w.roles, ById(id)) >= 0 && reply == Acknowledged
  }

  class StrapiServer {
    var roles: seq<Role>
    var log: seq<Put>

    ghost function State(): World
      reads this
    {
      World(roles, log)
    }

    method ListRoles(up: bool) returns (r: Result<seq<Role>, Error>)
      ensures up ==> r == Ok(State().roles)
      ensures !up ==> r == Err(ListRolesFailed)
    {
      r := if up then Ok(roles) else Err(ListRolesFailed);
    }

    /** Somebody else writes. */
    method Drift(drift: Option<seq<Role>>)
      modifies this
      ensures State() == WithDrift(old(State()), drift)
    {
      match drift {
        case None =>
        case Some(changed) => roles := changed;
      }
    }

    method UpdateRole(id: GoInt, role: Role, reply: PutReply, candidate: Tree) returns (ok: bool)
      modifies this
      ensures State() == AfterPut(old(State()), id, role, reply, candidate)
      ensures ok == PutSucceeds(old(State()), id, reply)
    {
      log := log + [Put(id, role)];
      ok := First(roles, ById(id)) >= 0;
      if ok {
        ok := reply == Acknowledged;
        if reply != Refused {
          roles := Replace(roles, id, role.(permissions := Stored(role.permissions, candidate)));
        }
      }
    }
  }

  // ------------------------------------------------------- the managed resource

  /** `Status.AtProvider`. */
  datatype Status = Status(roleId: GoInt, typ: string, permissions: seq<string>, cleared: bool)

  /** A RolePermissions custom resource: its spec, external-name annotation, deletion mark and status. */
  datatype Resource = Resource(
    selector: string, permissions: seq<string>, externalName: string, deleted: bool, status: Status)

  class RolePermissions {
    var selector: string
    var permissions: seq<string>
    var externalName: string
    var deleted: bool
    var atProvider: Status

    ghost function Value(): Resource
      reads this
    {
      Resource(selector, permissions, externalName, deleted, atProvider)
    }

    constructor (r: Resource)
      ensures Value() == r
    {
      selector, permissions, externalName, deleted, atProvider
        := r.selector, r.permissions, r.externalName, r.deleted, r.status;
    }
  }

  // --------------------------------------------------------- what the calls do

  /** `managed.ExternalObservation`. */
  datatype Observation = Observation(resourceExists: bool, resourceUpToDate: bool)

  /** A Go slice, which `reflect.DeepEqual` tells apart from another by being nil or not. */
  datatype Slice = Nil | Items(elems: seq<string>)

  /** The outcome of a call: the resource in memory, the server, and what is returned. */
  datatype Outcome<T> = Outcome(cr: Resource, world: World, result: Result<T, Error>)

  /** What the environment decides during one call; `meanwhile` is a foreign change between its listing and its PUT. */
  datatype Env = Env(up: bool, meanwhile: Option<seq<Role>>, reply: PutReply, candidate: Tree)

  /** Position of the role the resource targets: its numeric external name if listed, else its selector. */
  function Target(roles: seq<Role>, cr: Resource): (i: int)
    ensures -1 <= i < |roles|
  {
    var byId := match Atoi(cr.externalName) case None => -1 case Some(id) => First(roles, ById(id));
    if byId >= 0 then byId else Selected(roles, cr.selector)
  }

  /** The external name is a decimal 64-bit number, and role `i` is the first listed with that ID. */
  ghost predicate NamedById(roles: seq<Role>, cr: Resource, i: int) {
    && Int64Numeral(cr.externalName) && 0 <= i < |roles|
    && roles[i].id == NumeralValue(cr.externalName)
    && forall j :: 0 <= j < i ==> roles[j].id != NumeralValue(cr.externalName)
  }

  lemma NamedIsFirst(roles: seq<Role>, cr: Resource, id: GoInt)
    requires Int64Numeral(cr.externalName) && NumeralValue(cr.externalName) == id
    ensures forall i :: NamedById(roles, cr, i) <==> i >= 0 && First(roles, ById(id)) == i
    ensures (exists r :: r in roles && r.id == id) <==> First(roles, ById(id)) >= 0
  {
    var i := First(roles, ById(id));
    if i >= 0 {
      assert roles[i] in roles && NamedById(roles, cr, i);
    }
    forall j | NamedById(roles, cr, j) ensures First(roles, ById(id)) == j {
      FirstUnique(roles, ById(id), j);
    }
    forall r | r in roles && r.id == id ensures i >= 0 {
      assert ById(id).Accepts(r);
    }
  }

  /**
   An external name that is a decimal number of a listed role decides; any other one, be it
   empty, no numeral, too large or not listed, leaves the choice to the selector, whose letter
   case does not matter.
   */
  lemma TargetMeaning(roles: seq<Role>, cr: Resource, selector: string)
    requires EqualFold(cr.selector, selector)
    ensures if exists i :: NamedById(roles, cr, i) then NamedById(roles, cr, Target(roles, cr))
            else Target(roles, cr) == Selected(roles, selector)
    ensures Int64Numeral(cr.externalName) && (exists r :: r in roles && r.id == NumeralValue(cr.externalName))
       <==> exists i :: NamedById(roles, cr, i)
  {
    SelectorCase(roles, cr.selector, selector);
    if Int64Numeral(cr.externalName) {
      var id: GoInt := NumeralValue(cr.externalName);
      AtoiMeaning(cr.externalName, id);
      NamedIsFirst(roles, cr, id);
    } else {
      AtoiMeaning(cr.externalName, 0);
    }
  }

  function Resolved(roles: seq<Role>, cr: Resource): Result<Role, Error> {
    var i := Target(roles, cr);
    if i >= 0 then Ok(roles[i]) else Err(RoleNotFound)
  }

  function ResolvedBy(w: World, cr: Resource, up: bool): Result<Role, Error> {
    if up then Resolved(w.roles, cr) else Err(ListRolesFailed)
  }

  /** The sorted copy of the spec that Observe compares with; a copy of no entries is nil. */
  function Desired(permissions: seq<string>): Slice {
    if permissions == [] then Nil else Items(SortStrings(permissions))
  }

  ghost predicate UpToDate(role: Role, cr: Resource) {
    Items(Flatten(role.permissions)) == Desired(cr.permissions)
  }

  ghost function AfterObserve(cr: Resource, w: World, up: bool): Outcome<Observation> {
    match ResolvedBy(w, cr, up)
    case Err(e) => Outcome(cr, w, Err(e))
    case Ok(role) =>
      var named := cr.(externalName := Itoa(role.id));
      if cr.deleted && cr.status.cleared then Outcome(named, w, Ok(Observation(false, false)))
      else Outcome(named.(status := Status(role.id, role.typ, Flatten(role.permissions), false)), w,
                   Ok(Observation(true, UpToDate(role, cr))))
  }

  /**
   Create and Update are the same operation. The body of the PUT is the role as it was listed,
   with the permissions of the spec.
   */
  ghost function AfterApply(cr: Resource, w: World, env: Env): Outcome<()> {
    match ResolvedBy(w, cr, env.up)
    case Err(e) => Outcome(cr, w, Err(e))
    case Ok(role) =>
      var now := WithDrift(w, env.meanwhile);
      Outcome(cr, AfterPut(now, role.id, role.(permissions := Expand(cr.permissions)), env.reply, env.candidate),
              if PutSucceeds(now, role.id, env.reply) then Ok(()) else Err(UpdateRoleFailed))
  }

  ghost function AfterDelete(cr: Resource, w: World, env: Env): Outcome<()> {
    match ResolvedBy(w, cr, env.up)
    case Err(e) => Outcome(cr, w, Err(e))
    case Ok(role) =>
      var now := WithDrift(w, env.meanwhile);
      var w' := AfterPut(now, role.id, role.(permissions := map[]), env.reply, env.candidate);
      if PutSucceeds(now, role.id, env.reply)
      then Outcome(cr.(status := cr.status.(cleared := true)), w', Ok(()))
      else Outcome(cr, w', Err(UpdateRoleFailed))
  }

  /** `external`: the calls themselves, as the controller makes them. */
  class External {
    const client: StrapiServer

    constructor (client: StrapiServer)
      ensures this.client == client
    {
      this.client := client;
    }

    method ResolveRole(cr: RolePermissions, up: bool) returns (r: Result<Role, Error>)
      ensures r == ResolvedBy(client.State(), cr.Value(), up)
    {
      var listed := client.ListRoles(up);
      if listed.Err? {
        return Err(listed.error);
      }
      var roles := listed.value;
      if cr.externalName != "" {
        match Atoi(cr.externalName) {
          case None =>
          case Some(id) =>
            for i := 0 to |roles|
              invariant forall j :: 0 <= j < i ==> !ById(id).Accepts(roles[j])
            {
              if roles[i].id == id {
                FirstUnique(roles, ById(id), i);
                return Ok(roles[i]);
              }
            }
        }
      }
      var found := FindRole(roles, cr.selector);
      match found {
        case None => return Err(RoleNotFound);
        case Some(role) => return Ok(role);
      }
    }

    method Observe(cr: RolePermissions, up: bool) returns (r: Result<Observation, Error>)
      modifies cr
      ensures AfterObserve(old(cr.Value()), old(client.State()), up) == Outcome(cr.Value(), client.State(), r)
    {
      var resolved := ResolveRole(cr, up);
      if resolved.Err? {
        return Err(resolved.error);
      }
      var role := resolved.value;
      cr.externalName := Itoa(role.id);
      if cr.deleted && cr.atProvider.cleared {
        return Ok(Observation(false, false));
      }
      var current := FlattenPermissions(role.permissions);
      var desired := if cr.permissions == [] then Nil else Items(SortStrings(cr.permissions));
      cr.atProvider := Status(role.id, role.typ, current, false);
      return Ok(Observation(true, Items(current) == desired));
    }

    method ApplyPermissions(cr: RolePermissions, env: Env) returns (r: Result<(), Error>)
      modifies client
      ensures AfterApply(old(cr.Value()), old(client.State()), env) == Outcome(cr.Value(), client.State(), r)
    {
      var resolved := ResolveRole(cr, env.up);
      if resolved.Err? {
        return Err(resolved.error);
      }
      var role := resolved.value;
      var permissions := ExpandPermissions(cr.permissions);
      client.Drift(env.meanwhile);
      var ok := client.UpdateRole(role.id, role.(permissions := permissions), env.reply, env.candidate);
      return if ok then Ok(()) else Err(UpdateRoleFailed);
    }

    method Create(cr: RolePermissions, env: Env) returns (r: Result<(), Error>)
      modifies client
      ensures AfterApply(old(cr.Value()), old(client.State()), env) == Outcome(cr.Value(), client.State(), r)
    {
      r := ApplyPermissions(cr, env);
    }

    method Update(cr: RolePermissions, env: Env) returns (r: Result<(), Error>)
      modifies client
      ensures AfterApply(old(cr.Value()), old(client.State()), env) == Outcome(cr.Value(), client.State(), r)
    {
      r := ApplyPermissions(cr, env);
    }

    method Delete(cr: RolePermissions, env: Env) returns (r: Result<(), Error>)
      modifies cr, client
      ensures AfterDelete(old(cr.Value()), old(client.State()), env) == Outcome(cr.Value(), client.State(), r)
    {
      var resolved := ResolveRole(cr, env.up);
      if resolved.Err? {
        return Err(resolved.error);
      }
      var role := resolved.value;
      client.Drift(env.meanwhile);
      var ok := client.UpdateRole(role.id, role.(permissions := map[]), env.reply, env.candidate);
      if !ok {
        return Err(UpdateRoleFailed);
      }
      cr.atProvider := cr.atProvider.(cleared := true);
      return Ok(());
    }
  }
}
