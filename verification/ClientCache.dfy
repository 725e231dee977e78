/** The cache of clients, keyed by a hash of the configuration (internal/clients/strapi/cache.go). */
module ClientCache {
  import opened Outcomes
  import opened GoStrings
  import opened TokenClient

  const NUL: char := '\0'

  // ---------------------------------------------------------- the fingerprint

  /** `%t`. */
  function FormatBool(b: bool): (s: string)
    ensures NUL !in s
  {
    if b then "true" else "false"
  }

  /** What `cacheKey` hashes: the fields as configured, separated by NUL bytes. */
  function Fingerprint(cfg: Config): string {
    cfg.endpoint + [NUL] + cfg.credentials.email + [NUL] + cfg.credentials.password + [NUL]
    + FormatBool(cfg.insecureSkipTlsVerify)
  }

  /** Endpoint, email, password and whether to skip TLS verification, in this order, with NUL bytes in between. */
  lemma FingerprintText(cfg: Config)
    ensures Fingerprint(cfg)
         == cfg.endpoint + "\0" + cfg.credentials.email + "\0" + cfg.credentials.password + "\0"
            + (if cfg.insecureSkipTlsVerify then "true" else "false")
  {
  }

  lemma CutThree(a: string, b: string, c: string, d: string)
    ensures a + [NUL] + b + [NUL] + c + [NUL] + d == a + [NUL] + (b + [NUL] + (c + [NUL] + d))
  {
  }

  lemma FormatBoolInjective(a: bool, b: bool)
    requires FormatBool(a) == FormatBool(b)
    ensures a == b
  {
    assert FormatBool(true)[0] == 't' && FormatBool(false)[0] == 'f';
  }

  /**
   The fingerprint determines the configuration when endpoint and email have no NUL byte; the
   password is unrestricted, because the last field has none.
   */
  lemma FingerprintInjective(cfg: Config, other: Config)
    requires NUL !in cfg.endpoint && NUL !in cfg.credentials.email
    requires NUL !in other.endpoint && NUL !in other.credentials.email
    ensures Fingerprint(cfg) == Fingerprint(other) <==> cfg == other
  {
    if Fingerprint(cfg) == Fingerprint(other) {
      var (e, m, p) := (cfg.endpoint, cfg.credentials.email, cfg.credentials.password);
      var (e', m', p') := (other.endpoint, other.credentials.email, other.credentials.password);
      var b, b' := FormatBool(cfg.insecureSkipTlsVerify), FormatBool(other.insecureSkipTlsVerify);
      CutThree(e, m, p, b);
      CutThree(e', m', p', b');
      FirstCutUnique(e, m + [NUL] + (p + [NUL] + b), e', m' + [NUL] + (p' + [NUL] + b'), NUL);
      FirstCutUnique(m, p + [NUL] + b, m', p' + [NUL] + b', NUL);
      LastCutUnique(p, b, p', b', NUL);
      FormatBoolInjective(cfg.insecureSkipTlsVerify, other.insecureSkipTlsVerify);
    }
  }

  predicate NulFree(cfg: Config) {
    NUL !in cfg.endpoint && NUL !in cfg.credentials.email && NUL !in cfg.credentials.password
  }

  /** The separators are the only NUL bytes of a fingerprint exactly when the fields have none. */
  lemma Separators(cfg: Config)
    ensures multiset(Fingerprint(cfg))[NUL] >= 3
    ensures NulFree(cfg) <==> multiset(Fingerprint(cfg))[NUL] == 3
  {
    var (e, m, p) := (cfg.endpoint, cfg.credentials.email, cfg.credentials.password);
    var b := FormatBool(cfg.insecureSkipTlsVerify);
    assert multiset(Fingerprint(cfg))[NUL]
        == multiset(e)[NUL] + 1 + multiset(m)[NUL] + 1 + multiset(p)[NUL] + 1 + multiset(b)[NUL];
  }

  lemma SplitAtNul(s: string) returns (x: string, y: string)
    requires NUL in s
    ensures s == x + [NUL] + y
  {
    var i := Index(s, NUL);
    x, y := s[..i], s[i + 1..];
  }

  lemma Regroup(a: string, b: string, c: string, d: string, t: string)
    ensures (a + [NUL] + b) + [NUL] + c + [NUL] + d + [NUL] + t == a + [NUL] + b + [NUL] + (c + [NUL] + d) + [NUL] + t
    ensures a + [NUL] + (b + [NUL] + c) + [NUL] + d + [NUL] + t == a + [NUL] + b + [NUL] + (c + [NUL] + d) + [NUL] + t
    ensures a + [NUL] + b + [NUL] + (c + [NUL] + d) + [NUL] + t == (a + [NUL] + b) + [NUL] + c + [NUL] + d + [NUL] + t
  {
  }

  /** With a NUL byte anywhere, the fields can be cut differently. */
  lemma NulIsAmbiguous(cfg: Config) returns (other: Config)
    requires !NulFree(cfg)
    ensures other != cfg && Fingerprint(other) == Fingerprint(cfg)
  {
    var (e, m, p, skip) := (cfg.endpoint, cfg.credentials.email, cfg.credentials.password, cfg.insecureSkipTlsVerify);
    if NUL in e {
      var x, y := SplitAtNul(e);
      Regroup(x, y, m, p, FormatBool(skip));
      other := Config(x, Credentials(y, m + [NUL] + p), skip);
      assert |other.endpoint| < |e|;
    } else if NUL in m {
      var x, y := SplitAtNul(m);
      Regroup(e, x, y, p, FormatBool(skip));
      other := Config(e, Credentials(x, y + [NUL] + p), skip);
      assert |other.credentials.email| < |m|;
    } else {
      var x, y := SplitAtNul(p);
      Regroup(e, m, x, y, FormatBool(skip));
      other := Config(e + [NUL] + m, Credentials(x, y), skip);
      assert |other.endpoint| > |e|;
    }
  }

  /** Among all configurations, a fingerprint belongs to one alone exactly when its fields have no NUL byte. */
  lemma FingerprintUniqueIff(cfg: Config)
    ensures NulFree(cfg) <==> forall other :: Fingerprint(other) == Fingerprint(cfg) ==> other == cfg
  {
    if NulFree(cfg) {
      forall other | Fingerprint(other) == Fingerprint(cfg) ensures other == cfg {
        Separators(cfg);
        Separators(other);
        FingerprintInjective(cfg, other);
      }
    } else {
      var other := NulIsAmbiguous(cfg);
    }
  }

  // ------------------------------------------------------------------ values

  /** Clients by allocation number, and which key each is stored under. */
  datatype Store = Store(ids: map<string, nat>, made: seq<Settings>)

  const EMPTY := Store(map[], [])

  predicate StoreOk(s: Store) {
    && (forall k :: k in s.ids ==> s.ids[k] < |s.made|)
    && (forall k, l :: k in s.ids && l in s.ids && s.ids[k] == s.ids[l] ==> k == l)
    && |s.ids| == |s.made|
  }

  /** `Get`: the store afterwards, and the client returned. */
  function Got(hash: string -> string, s: Store, cfg: Config): (Store, Result<nat, Error>) {
    var key := hash(Fingerprint(cfg));
    if key in s.ids then (s, Ok(s.ids[key]))
    else
      match New(cfg)
      case Err(e) => (s, Err(e))
      case Ok(settings) => (Store(s.ids[key := |s.made|], s.made + [settings]), Ok(|s.made|))
  }

  /** The store after a sequence of Gets. */
  function After(hash: string -> string, cfgs: seq<Config>): Store {
    if cfgs == [] then EMPTY else Got(hash, After(hash, cfgs[..|cfgs| - 1]), cfgs[|cfgs| - 1]).0
  }

  /** What the i-th Get of a sequence returned. */
  function Returned(hash: string -> string, cfgs: seq<Config>, i: nat): Result<nat, Error>
    requires i < |cfgs|
  {
    Got(hash, After(hash, cfgs[..i]), cfgs[i]).1
  }

  ghost predicate CollisionFree(hash: string -> string) {
    forall a, b :: hash(a) == hash(b) ==> a == b
  }

  lemma OneMore(ids: map<string, nat>, key: string, id: nat)
    requires key !in ids
    ensures |ids[key := id]| == |ids| + 1
  {
    assert ids[key := id].Keys == ids.Keys + {key};
    assert |ids[key := id].Keys| == |ids[key := id]| && |ids.Keys| == |ids|;
  }

  lemma StoreStep(hash: string -> string, s: Store, cfg: Config)
    requires StoreOk(s)
    ensures var s' := Got(hash, s, cfg).0;
            && StoreOk(s')
            && s.made <= s'.made && |s'.made| <= |s.made| + 1
            && (forall k :: k in s.ids ==> k in s'.ids && s'.ids[k] == s.ids[k])
  {
    var key := hash(Fingerprint(cfg));
    if key !in s.ids {
      OneMore(s.ids, key, |s.made|);
    }
  }

  lemma {:induction false} StoreAfter(hash: string -> string, cfgs: seq<Config>)
    ensures StoreOk(After(hash, cfgs))
  {
    if cfgs == [] {
    } else {
      StoreAfter(hash, cfgs[..|cfgs| - 1]);
      StoreStep(hash, After(hash, cfgs[..|cfgs| - 1]), cfgs[|cfgs| - 1]);
    }
  }

  /** Entries are never removed or replaced, and the clients made keep their settings. */
  lemma {:induction false} EntriesStay(hash: string -> string, cfgs: seq<Config>, n: nat)
    requires n <= |cfgs|
    ensures var s, s' := After(hash, cfgs[..n]), After(hash, cfgs);
            && s.made <= s'.made
            && forall k :: k in s.ids ==> k in s'.ids && s'.ids[k] == s.ids[k]
  {
    if n == |cfgs| {
      assert cfgs[..n] == cfgs;
    } else {
      var init := cfgs[..|cfgs| - 1];
      EntriesStay(hash, init, n);
      assert init[..n] == cfgs[..n];
      StoreAfter(hash, init);
      StoreStep(hash, After(hash, init), cfgs[|cfgs| - 1]);
    }
  }

  /** Client `id` was made by `New` from one of the configurations with key `k`. */
  ghost predicate MadeFrom(hash: string -> string, cfgs: seq<Config>, s: Store, k: string, cfg: Config) {
    && cfg in cfgs && hash(Fingerprint(cfg)) == k
    && k in s.ids && s.ids[k] < |s.made| && New(cfg) == Ok(s.made[s.ids[k]])
  }

  lemma {:induction false} StoredFrom(hash: string -> string, cfgs: seq<Config>, k: string) returns (cfg: Config)
    requires k in After(hash, cfgs).ids
    ensures MadeFrom(hash, cfgs, After(hash, cfgs), k, cfg)
  {
    var init, last := cfgs[..|cfgs| - 1], cfgs[|cfgs| - 1];
    StoreAfter(hash, init);
    StoreStep(hash, After(hash, init), last);
    if k in After(hash, init).ids {
      cfg := StoredFrom(hash, init, k);
    } else {
      cfg := last;
    }
  }

  /** A successful Get leaves its client stored under its key. */
  lemma ReturnedIsStored(hash: string -> string, cfgs: seq<Config>, i: nat)
    requires i < |cfgs| && Returned(hash, cfgs, i).Ok?
    ensures var s := After(hash, cfgs);
            var key := hash(Fingerprint(cfgs[i]));
            key in s.ids && s.ids[key] == Returned(hash, cfgs, i).value
  {
    assert cfgs[..i + 1][..i] == cfgs[..i];
    EntriesStay(hash, cfgs, i + 1);
  }

  /** The keys are those of the configurations `New` accepts, so there are as many clients as such keys. */
  lemma {:induction false} KeysAre(hash: string -> string, cfgs: seq<Config>)
    ensures var s := After(hash, cfgs);
            && s.ids.Keys == (set cfg | cfg in cfgs && New(cfg).Ok? :: hash(Fingerprint(cfg)))
            && |s.made| == |s.ids.Keys|
  {
    StoreAfter(hash, cfgs);
    var s := After(hash, cfgs);
    forall k | k in s.ids ensures exists cfg :: cfg in cfgs && New(cfg).Ok? && hash(Fingerprint(cfg)) == k {
      var cfg := StoredFrom(hash, cfgs, k);
    }
    forall cfg | cfg in cfgs && New(cfg).Ok? ensures hash(Fingerprint(cfg)) in s.ids {
      var i :| 0 <= i < |cfgs| && cfgs[i] == cfg;
      assert Returned(hash, cfgs, i).Ok?;
      ReturnedIsStored(hash, cfgs, i);
    }
  }

  /** Every stored client was returned by a Get with that key. */
  lemma StoredWasReturned(hash: string -> string, cfgs: seq<Config>, k: string) returns (i: nat)
    requires k in After(hash, cfgs).ids
    ensures i < |cfgs| && hash(Fingerprint(cfgs[i])) == k
    ensures Returned(hash, cfgs, i) == Ok(After(hash, cfgs).ids[k])
  {
    var cfg := StoredFrom(hash, cfgs, k);
    i :| 0 <= i < |cfgs| && cfgs[i] == cfg;
    ReturnedIsStored(hash, cfgs, i);
  }

  /**
   Two successful Gets return the same client exactly when their configurations are the same,
   for a collision-free hash and configurations without NUL bytes in endpoint and email.
   */
  lemma SharedIff(hash: string -> string, cfgs: seq<Config>, i: nat, j: nat)
    requires CollisionFree(hash) && i < |cfgs| && j < |cfgs|
    requires NUL !in cfgs[i].endpoint && NUL !in cfgs[i].credentials.email
    requires NUL !in cfgs[j].endpoint && NUL !in cfgs[j].credentials.email
    requires Returned(hash, cfgs, i).Ok? && Returned(hash, cfgs, j).Ok?
    ensures Returned(hash, cfgs, i) == Returned(hash, cfgs, j) <==> cfgs[i] == cfgs[j]
  {
    ReturnedIsStored(hash, cfgs, i);
    ReturnedIsStored(hash, cfgs, j);
    StoreAfter(hash, cfgs);
    FingerprintInjective(cfgs[i], cfgs[j]);
  }

  /**
   Get agrees with `New`: it fails exactly as `New` does, and the client it returns has the
   endpoint and credentials that `New` gives for that configuration.
   */
  lemma GetRefinesNew(hash: string -> string, cfgs: seq<Config>, i: nat)
    requires CollisionFree(hash) && i < |cfgs|
    requires forall cfg :: cfg in cfgs ==> NUL !in cfg.endpoint && NUL !in cfg.credentials.email
    ensures match Returned(hash, cfgs, i)
            case Err(e) => New(cfgs[i]) == Err(e)
            case Ok(id) => id < |After(hash, cfgs).made| && New(cfgs[i]) == Ok(After(hash, cfgs).made[id])
  {
    if Returned(hash, cfgs, i).Ok? {
      ReturnedIsStored(hash, cfgs, i);
      var cfg := StoredFrom(hash, cfgs, hash(Fingerprint(cfgs[i])));
      FingerprintInjective(cfg, cfgs[i]);
    }
  }

  /**
   When the cache splits equal settings. Accepted configurations have equal settings exactly if
   they differ in trailing slashes at most, and they then get different clients exactly if they
   do differ, because the key is made of the endpoint as configured.
   */
  lemma SettingsSplitIff(hash: string -> string, cfgs: seq<Config>, i: nat, j: nat)
    requires CollisionFree(hash) && i < |cfgs| && j < |cfgs|
    requires NUL !in cfgs[i].endpoint && NUL !in cfgs[i].credentials.email
    requires NUL !in cfgs[j].endpoint && NUL !in cfgs[j].credentials.email
    requires Returned(hash, cfgs, i).Ok? && Returned(hash, cfgs, j).Ok?
    requires New(cfgs[i]).Ok? && New(cfgs[j]).Ok?
    ensures var trimmed := TrimRight(cfgs[i].endpoint, '/') == TrimRight(cfgs[j].endpoint, '/');
            New(cfgs[i]) == New(cfgs[j]) <==> trimmed && cfgs[i] == cfgs[j].(endpoint := cfgs[i].endpoint)
    ensures New(cfgs[i]) == New(cfgs[j]) ==>
              (Returned(hash, cfgs, i) != Returned(hash, cfgs, j) <==> cfgs[i].endpoint != cfgs[j].endpoint)
  {
    SharedIff(hash, cfgs, i, j);
  }

  /**
   The key is made of the endpoint as configured: with and without a trailing slash the same
   settings are cached twice.
   */
  lemma SlashSplitsClients(hash: string -> string, cfgs: seq<Config>, i: nat, j: nat)
    requires CollisionFree(hash) && i < |cfgs| && j < |cfgs|
    requires NUL !in cfgs[i].endpoint && NUL !in cfgs[i].credentials.email
    requires cfgs[j] == cfgs[i].(endpoint := cfgs[i].endpoint + "/")
    requires Returned(hash, cfgs, i).Ok? && Returned(hash, cfgs, j).Ok? && cfgs[i].endpoint != ""
    ensures New(cfgs[i]) == New(cfgs[j])
    ensures Returned(hash, cfgs, i) != Returned(hash, cfgs, j)
  {
    NewMeaning(cfgs[i]);
    assert |cfgs[j].endpoint| != |cfgs[i].endpoint|;
    SharedIff(hash, cfgs, i, j);
  }

  // ------------------------------------------------------------------ objects

  ghost function SettingsOf(clients: seq<Client>): (s: seq<Settings>)
    ensures |s| == |clients| && forall i :: 0 <= i < |s| ==> s[i] == clients[i].settings
  {
    seq(|clients|, i requires 0 <= i < |clients| => clients[i].settings)
  }

  /** `Cache`: a map of client objects, abstracted by numbering them in the order they were made. */
  class Cache {
    const hash: string -> string
    var clients: map<string, Client>
    ghost var made: seq<Client>
    ghost var ids: map<string, nat>

    ghost predicate Valid()
      reads this
    {
      && ids.Keys == clients.Keys
      && (forall k :: k in clients ==> ids[k] < |made| && made[ids[k]] == clients[k])
      && (forall i, j :: 0 <= i < j < |made| ==> made[i] != made[j])
    }

    ghost function Value(): Store
      reads this
    {
      Store(ids, SettingsOf(made))
    }

    constructor (hash: string -> string)
      ensures this.hash == hash && Valid() && Value() == EMPTY
    {
      this.hash := hash;
      clients, made, ids := map[], [], map[];
    }

    method Get(cfg: Config) returns (r: Result<Client, Error>)
      requires Valid()
      modifies this
      ensures Valid() && old(made) <= made
      ensures Value() == Got(hash, old(Value()), cfg).0
      ensures match Got(hash, old(Value()), cfg).1
              case Err(e) => r == Err(e)
              case Ok(id) => id < |made| && r == Ok(made[id]) && (id >= |old(made)| ==> fresh(made[id]))
    {
      var key := hash(Fingerprint(cfg));
      if key in clients {
        return Ok(clients[key]);
      }
      var settings := New(cfg);
      if settings.Err? {
        return Err(settings.error);
      }
      var client := new Client(settings.value);
      assert client !in made;
      clients := clients[key := client];
      ids := ids[key := |made|];
      made := made + [client];
      assert SettingsOf(made) == old(SettingsOf(made)) + [settings.value];
      return Ok(client);
    }
  }
}
