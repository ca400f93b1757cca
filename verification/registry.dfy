/** The provider registry (src/contexts/CloudIntegrationsContext.tsx): the
    ordered provider records plus the `cloudProviderConfigs` storage entry,
    with seeding, configure, remove, refresh and refresh-all as atomic pure
    transitions. The current date is a parameter. */
module Registry {
  import opened Wrappers
  import opened Calendar
  import opened Types
  import opened Adapters
  import opened Factory

  /** The `cloudProviderConfigs` storage entry: missing, holding text that
      does not parse, or holding a map from provider id to config. */
  datatype Storage = Absent | Corrupt | Stored(configs: map<string, Config>)

  datatype State = State(providers: seq<Provider>, saved: Storage)

  predicate DistinctIds(ps: seq<Provider>) {
    forall i, j :: 0 <= i < j < |ps| ==> ps[i].id != ps[j].id
  }

  /** The record of a listed provider before any connection. */
  function Unconnected(d: Descriptor): Provider {
    Provider(d.id, d.name, false, [], None, None, None)
  }

  /** The records the registry starts from on login. */
  function InitialProviders(): (ps: seq<Provider>)
    ensures |ps| == |SupportedProviders|
    ensures forall i :: 0 <= i < |ps| ==>
      && ps[i].id == SupportedProviders[i].id
      && ps[i].name == SupportedProviders[i].name
      && !ps[i].isConfigured
      && ps[i].services == []
      && ps[i].apiKey.None? && ps[i].billingCycle.None? && ps[i].currentCharges.None?
  {
    seq(|SupportedProviders|, i requires 0 <= i < |SupportedProviders| => Unconnected(SupportedProviders[i]))
  }

  /** The effect run when `isAuthenticated` changes: on becoming true the
      records are replaced by the initial ones; storage is not touched. */
  function Seed(s: State, isAuthenticated: bool): (r: State)
    ensures r.saved == s.saved
    ensures !isAuthenticated ==> r == s
    ensures isAuthenticated ==> r.providers == InitialProviders()
    ensures isAuthenticated ==> |r.providers| == 4 && DistinctIds(r.providers)
    ensures isAuthenticated ==> forall i :: 0 <= i < |r.providers| ==>
      && r.providers[i].id == SupportedProviders[i].id
      && !r.providers[i].isConfigured
      && r.providers[i].services == []
  {
    if isAuthenticated then s.(providers := InitialProviders()) else s
  }

  /** `prev.map(p => p.id === id ? f(p) : p)`. */
  function UpdateMatching(ps: seq<Provider>, id: string, f: Provider -> Provider): (r: seq<Provider>)
    ensures |r| == |ps|
    ensures forall i :: 0 <= i < |ps| ==> r[i] == if ps[i].id == id then f(ps[i]) else ps[i]
  {
    seq(|ps|, i requires 0 <= i < |ps| => if ps[i].id == id then f(ps[i]) else ps[i])
  }

  /** A record after a successful connect with `config`. */
  function Connected(p: Provider, k: Kind, config: Config, today: Date): Provider {
    p.(isConfigured := true, services := ServiceList(k), apiKey := config.apiKey,
       billingCycle := Some(BillingCycleFor(today)), currentCharges := Some(Charges(k)))
  }

  /** A record after a refresh: only the fetched data is replaced. */
  function Refreshed(p: Provider, k: Kind, today: Date): Provider {
    p.(services := ServiceList(k), billingCycle := Some(BillingCycleFor(today)), currentCharges := Some(Charges(k)))
  }

  /** A record after `removeProvider`. */
  function Disconnected(p: Provider): Provider {
    p.(isConfigured := false, services := [], apiKey := None, billingCycle := None, currentCharges := None)
  }

  /** `configureProvider` gets past `createIntegration` and `initialize`. */
  predicate Accepts(id: string, config: Config) {
    KindOf(id).Some? && config.apiKey.Some?
  }

  /** `configureProvider(id, config)`. Returns the next state and the boolean
      the promise resolves to. The records are updated before storage is
      read, so a corrupt storage entry makes the call report failure after
      the records already changed. */
  function Configure(s: State, id: string, config: Config, today: Date): (r: (State, bool))
    ensures !Accepts(id, config) ==> r == (s, false)
    ensures Accepts(id, config) ==> (r.1 <==> !s.saved.Corrupt?)
    ensures |r.0.providers| == |s.providers|
    ensures Accepts(id, config) ==> forall i :: 0 <= i < |s.providers| ==>
      r.0.providers[i] == if s.providers[i].id == id then Connected(s.providers[i], KindOf(id).value, config, today) else s.providers[i]
    ensures r.1 ==> r.0.saved.Stored? && id in r.0.saved.configs && r.0.saved.configs[id] == config
    ensures r.1 && s.saved.Stored? ==> forall k :: k != id ==>
      (k in r.0.saved.configs <==> k in s.saved.configs) &&
      (k in s.saved.configs ==> r.0.saved.configs[k] == s.saved.configs[k])
    ensures r.1 && s.saved.Absent? ==> r.0.saved.configs.Keys == {id}
    ensures !r.1 ==> r.0.saved == s.saved
  {
    match CreateIntegration(id, config)
    case Failure(_) => (s, false)
    case Success(adapter) =>
      var (initialized, ok) := Initialize(adapter);
      if !ok then (s, false)
      else
        var (fetched, services) := GetServices(initialized);
        var (_, billing) := GetBillingInfo(fetched, today);
        var ps := UpdateMatching(s.providers, id, (p: Provider) =>
          p.(isConfigured := true, services := services, apiKey := config.apiKey,
             billingCycle := Some(billing.billingCycle), currentCharges := Some(billing.currentCharges)));
        match s.saved
        case Corrupt => (State(ps, Corrupt), false)
        case Absent => (State(ps, Stored(map[id := config])), true)
        case Stored(m) => (State(ps, Stored(m[id := config])), true)
  }

  /** `removeProvider(id)`. Storage is rewritten only when an entry that
      parses is present. */
  function Remove(s: State, id: string): (r: State)
    ensures |r.providers| == |s.providers|
    ensures forall i :: 0 <= i < |s.providers| ==>
      && r.providers[i].id == s.providers[i].id
      && r.providers[i].name == s.providers[i].name
      && (s.providers[i].id == id ==>
            && !r.providers[i].isConfigured && r.providers[i].services == []
            && r.providers[i].apiKey.None? && r.providers[i].billingCycle.None?
            && r.providers[i].currentCharges.None?)
      && (s.providers[i].id != id ==> r.providers[i] == s.providers[i])
    ensures s.saved.Stored? ==> r.saved.Stored? && r.saved.configs.Keys == s.saved.configs.Keys - {id}
    ensures s.saved.Stored? ==> forall k :: k in r.saved.configs ==> r.saved.configs[k] == s.saved.configs[k]
    ensures !s.saved.Stored? ==> r.saved == s.saved
  {
    var ps := UpdateMatching(s.providers, id, Disconnected);
    match s.saved
    case Stored(m) => State(ps, Stored(m - {id}))
    case _ => State(ps, s.saved)
  }

  /** Removing twice is removing once. */
  lemma RemoveIdempotent(s: State, id: string)
    ensures Remove(Remove(s, id), id) == Remove(s, id)
  {
    var once := Remove(s, id);
    var twice := Remove(once, id);
    assert twice.providers == once.providers;
    if s.saved.Stored? {
      assert twice.saved.configs == once.saved.configs;
    }
  }

  /** Removing after a configure leaves the records as a plain remove
      would, and the id out of storage. */
  lemma RemoveUndoesConfigure(s: State, id: string, config: Config, today: Date)
    ensures Remove(Configure(s, id, config, today).0, id).providers == Remove(s, id).providers
    ensures Configure(s, id, config, today).1 ==> id !in Remove(Configure(s, id, config, today).0, id).saved.configs
  {
    var c := Configure(s, id, config, today).0;
    assert Remove(c, id).providers == Remove(s, id).providers;
  }

  /** `providers.find(p => p.id === id)`: the first record with the id. */
  function Find(ps: seq<Provider>, id: string): (r: Option<Provider>)
    ensures r.Some? ==> r.value in ps && r.value.id == id
    ensures r.None? <==> forall i :: 0 <= i < |ps| ==> ps[i].id != id
    ensures r.Some? ==> exists i :: 0 <= i < |ps| && ps[i] == r.value && forall j :: 0 <= j < i ==> ps[j].id != id
  {
    if ps == [] then None
    else if ps[0].id == id then Some(ps[0])
    else
      var r := Find(ps[1..], id);
      if r.Some? then
        ghost var i :| 0 <= i < |ps[1..]| && ps[1..][i] == r.value && forall j :: 0 <= j < i ==> ps[1..][j].id != id;
        assert ps[i + 1] == r.value;
        r
      else r
  }

  /** The guard of `refreshProviderData` over the records it reads: the
      provider exists, is configured, has a non-empty key, and the factory
      knows its id. */
  predicate Refreshable(snapshot: seq<Provider>, id: string) {
    KindOf(id).Some? &&
    match Find(snapshot, id)
    case None => false
    case Some(p) => p.isConfigured && Truthy(p.apiKey)
  }

  /** `refreshProviderData(id)` as its closure runs it: the guard reads the
      `snapshot` of records the closure captured, the update applies to the
      current `s`. Storage is never touched; a factory error is caught. */
  function RefreshWith(snapshot: seq<Provider>, s: State, id: string, today: Date): (r: State)
    ensures r.saved == s.saved
    ensures |r.providers| == |s.providers|
    ensures forall i :: 0 <= i < |s.providers| ==>
      r.providers[i] == if s.providers[i].id == id && Refreshable(snapshot, id)
                         then Refreshed(s.providers[i], KindOf(id).value, today)
                         else s.providers[i]
    ensures !Refreshable(snapshot, id) ==> r == s
  {
    match Find(snapshot, id)
    case None => s
    case Some(p) =>
      if !p.isConfigured || !Truthy(p.apiKey) then s
      else match CreateIntegration(id, Config(p.apiKey, None, None, None))
        case Failure(_) => s
        case Success(adapter) =>
          var (fetched, services) := GetServices(adapter);
          var (_, billing) := GetBillingInfo(fetched, today);
          s.(providers := UpdateMatching(s.providers, id, (q: Provider) =>
            q.(services := services, billingCycle := Some(billing.billingCycle),
               currentCharges := Some(billing.currentCharges))))
  }

  /** A refresh called on its own reads the current records. Records with
      another id are never touched. */
  function Refresh(s: State, id: string, today: Date): (r: State)
    ensures r.saved == s.saved
    ensures |r.providers| == |s.providers|
    ensures forall i :: 0 <= i < |s.providers| && s.providers[i].id != id ==> r.providers[i] == s.providers[i]
    ensures forall i :: 0 <= i < |s.providers| ==>
      r.providers[i] == if s.providers[i].id == id && Refreshable(s.providers, id)
                         then Refreshed(s.providers[i], KindOf(id).value, today)
                         else s.providers[i]
    ensures forall i :: 0 <= i < |s.providers| ==>
      && r.providers[i].id == s.providers[i].id
      && r.providers[i].name == s.providers[i].name
      && r.providers[i].isConfigured == s.providers[i].isConfigured
      && r.providers[i].apiKey == s.providers[i].apiKey
    ensures !Refreshable(s.providers, id) ==> r == s
    ensures Refreshable(s.providers, id) ==> forall i :: 0 <= i < |s.providers| && s.providers[i].id == id ==>
      && r.providers[i].services == ServiceList(KindOf(id).value)
      && r.providers[i].currentCharges == Some(Charges(KindOf(id).value))
      && r.providers[i].billingCycle == Some(BillingCycleFor(today))
  {
    RefreshWith(s.providers, s, id, today)
  }

  /** Refreshing right after a configure (on the same day) changes nothing:
      the adapters return fixed data. */
  lemma RefreshAfterConfigureIsNoop(s: State, id: string, config: Config, today: Date)
    requires Accepts(id, config)
    ensures Refresh(Configure(s, id, config, today).0, id, today) == Configure(s, id, config, today).0
  {
    var c := Configure(s, id, config, today).0;
    var r := Refresh(c, id, today);
    assert r.providers == c.providers;
  }

  /** Ids of the configured records, in list order. */
  function ConfiguredIds(ps: seq<Provider>): (ids: seq<string>)
    ensures forall i :: 0 <= i < |ps| && ps[i].isConfigured ==> ps[i].id in ids
  {
    if ps == [] then []
    else (if ps[0].isConfigured then [ps[0].id] else []) + ConfiguredIds(ps[1..])
  }

  /** The loop of `refreshAllProviders`: one refresh after another, all
      guarded by the same captured snapshot. */
  function RefreshEach(snapshot: seq<Provider>, s: State, ids: seq<string>, today: Date): State
    decreases |ids|
  {
    if ids == [] then s else RefreshEach(snapshot, RefreshWith(snapshot, s, ids[0], today), ids[1..], today)
  }

  /** `refreshAllProviders()`: refreshes the providers configured when it is
      called, in list order. A record gets fresh data exactly when its id is
      among the configured ids and the records at call time pass the guard
      for it; storage is never touched. */
  function RefreshAll(s: State, today: Date): (r: State)
    ensures r.saved == s.saved
    ensures |r.providers| == |s.providers|
    ensures forall i :: 0 <= i < |s.providers| ==>
      r.providers[i] ==
        if s.providers[i].id in ConfiguredIds(s.providers) && Refreshable(s.providers, s.providers[i].id)
        then Refreshed(s.providers[i], KindOf(s.providers[i].id).value, today)
        else s.providers[i]
  {
    RefreshEachEffect(s.providers, s, ConfiguredIds(s.providers), today);
    RefreshEach(s.providers, s, ConfiguredIds(s.providers), today)
  }

  /** A record refresh-all updates. */
  predicate Eligible(p: Provider) {
    p.isConfigured && Truthy(p.apiKey) && KindOf(p.id).Some?
  }

  /** Effect of a run of refreshes: each record whose id is in the run and
      passes the snapshot guard gets fresh data; a refresh that does nothing
      does not stop the ones after it. */
  lemma {:induction false} RefreshEachEffect(snapshot: seq<Provider>, s: State, ids: seq<string>, today: Date)
    ensures RefreshEach(snapshot, s, ids, today).saved == s.saved
    ensures |RefreshEach(snapshot, s, ids, today).providers| == |s.providers|
    ensures forall i :: 0 <= i < |s.providers| ==>
      RefreshEach(snapshot, s, ids, today).providers[i] ==
        if s.providers[i].id in ids && Refreshable(snapshot, s.providers[i].id)
        then Refreshed(s.providers[i], KindOf(s.providers[i].id).value, today)
        else s.providers[i]
    decreases |ids|
  {
    if ids != [] {
      var s1 := RefreshWith(snapshot, s, ids[0], today);
      RefreshEachEffect(snapshot, s1, ids[1..], today);
      forall i | 0 <= i < |s.providers|
        ensures RefreshEach(snapshot, s, ids, today).providers[i] ==
          if s.providers[i].id in ids && Refreshable(snapshot, s.providers[i].id)
          then Refreshed(s.providers[i], KindOf(s.providers[i].id).value, today)
          else s.providers[i]
      {
        assert s1.providers[i].id == s.providers[i].id;
        assert s.providers[i].id in ids <==> s.providers[i].id == ids[0] || s.providers[i].id in ids[1..];
      }
    }
  }

  /** With distinct ids the first record with an id is the record itself. */
  lemma FindDistinct(ps: seq<Provider>, i: int)
    requires DistinctIds(ps) && 0 <= i < |ps|
    ensures Find(ps, ps[i].id) == Some(ps[i])
  {
    var r := Find(ps, ps[i].id);
    var k :| 0 <= k < |ps| && ps[k] == r.value && forall j :: 0 <= j < k ==> ps[j].id != ps[i].id;
  }

  /** Refresh-all updates exactly the eligible records and nothing else;
      storage is untouched. Distinct ids hold for every state the registry
      reaches (see `IdsPreserved`). */
  lemma RefreshAllUpdatesEligible(s: State, today: Date)
    requires DistinctIds(s.providers)
    ensures RefreshAll(s, today).saved == s.saved
    ensures |RefreshAll(s, today).providers| == |s.providers|
    ensures forall i :: 0 <= i < |s.providers| ==>
      RefreshAll(s, today).providers[i] ==
        if Eligible(s.providers[i]) then Refreshed(s.providers[i], KindOf(s.providers[i].id).value, today)
        else s.providers[i]
  {
    var ids := ConfiguredIds(s.providers);
    RefreshEachEffect(s.providers, s, ids, today);
    forall i | 0 <= i < |s.providers|
      ensures (s.providers[i].id in ids && Refreshable(s.providers, s.providers[i].id)) <==> Eligible(s.providers[i])
    {
      FindDistinct(s.providers, i);
    }
  }

  /** Two record lists with the same id at every position. */
  predicate SameIds(a: seq<Provider>, b: seq<Provider>) {
    |a| == |b| && forall i :: 0 <= i < |a| ==> a[i].id == b[i].id
  }

  lemma SameIdsKeepDistinct(a: seq<Provider>, b: seq<Provider>)
    requires SameIds(a, b) && DistinctIds(a)
    ensures DistinctIds(b)
  {
  }

  /** Every transition keeps the id of every record, so the registry's
      records keep the distinct ids seeding gives them. */
  lemma IdsPreserved(s: State, id: string, config: Config, today: Date, isAuthenticated: bool)
    requires DistinctIds(s.providers)
    ensures DistinctIds(Seed(s, isAuthenticated).providers)
    ensures DistinctIds(Configure(s, id, config, today).0.providers)
    ensures DistinctIds(Remove(s, id).providers)
    ensures DistinctIds(Refresh(s, id, today).providers)
    ensures DistinctIds(RefreshAll(s, today).providers)
  {
    var ps := s.providers;
    assert SameIds(ps, Configure(s, id, config, today).0.providers);
    SameIdsKeepDistinct(ps, Configure(s, id, config, today).0.providers);
    assert SameIds(ps, Remove(s, id).providers);
    SameIdsKeepDistinct(ps, Remove(s, id).providers);
    assert SameIds(ps, Refresh(s, id, today).providers);
    SameIdsKeepDistinct(ps, Refresh(s, id, today).providers);
    RefreshAllUpdatesEligible(s, today);
    assert SameIds(ps, RefreshAll(s, today).providers);
    SameIdsKeepDistinct(ps, RefreshAll(s, today).providers);
  }

  /** A record that is not configured holds no services. */
  predicate NoServicesUnlessConfigured(ps: seq<Provider>) {
    forall i :: 0 <= i < |ps| && !ps[i].isConfigured ==> ps[i].services == []
  }

  /** A refresh only fills records whose first namesake is configured, which
      with distinct ids is the record itself. */
  lemma RefreshKeepsServicesInvariant(s: State, id: string, today: Date)
    requires DistinctIds(s.providers) && NoServicesUnlessConfigured(s.providers)
    ensures NoServicesUnlessConfigured(Refresh(s, id, today).providers)
  {
    var ps := s.providers;
    var r := Refresh(s, id, today);
    forall i | 0 <= i < |ps| && !r.providers[i].isConfigured
      ensures r.providers[i].services == []
    {
      FindDistinct(ps, i);
    }
  }

  /** Refresh-all only fills eligible, hence configured, records. */
  lemma RefreshAllKeepsServicesInvariant(s: State, today: Date)
    requires DistinctIds(s.providers) && NoServicesUnlessConfigured(s.providers)
    ensures NoServicesUnlessConfigured(RefreshAll(s, today).providers)
  {
    RefreshAllUpdatesEligible(s, today);
  }

  /** Every transition keeps the services of unconfigured records empty:
      seeding clears them, configure sets the flag with the services, remove
      clears both, and the refreshes only touch configured records. */
  lemma ServicesInvariantPreserved(s: State, id: string, config: Config, today: Date, isAuthenticated: bool)
    requires DistinctIds(s.providers) && NoServicesUnlessConfigured(s.providers)
    ensures NoServicesUnlessConfigured(Seed(s, isAuthenticated).providers)
    ensures NoServicesUnlessConfigured(Configure(s, id, config, today).0.providers)
    ensures NoServicesUnlessConfigured(Remove(s, id).providers)
    ensures NoServicesUnlessConfigured(Refresh(s, id, today).providers)
    ensures NoServicesUnlessConfigured(RefreshAll(s, today).providers)
  {
    RefreshKeepsServicesInvariant(s, id, today);
    RefreshAllKeepsServicesInvariant(s, today);
  }
}
