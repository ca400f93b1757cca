/** The client portal's derived figures and selection logic
    (src/pages/ClientPortalPage.tsx). */
module Portal {
  import opened Wrappers
  import opened Types
  import opened Adapters
  import opened Factory
  import opened Registry

  /** `providers.filter(p => p.isConfigured)`. */
  function Configured(ps: seq<Provider>): (r: seq<Provider>)
    ensures forall p :: p in r <==> p in ps && p.isConfigured
    ensures |r| <= |ps|
  {
    if ps == [] then []
    else (if ps[0].isConfigured then [ps[0]] else []) + Configured(ps[1..])
  }

  /** The filter distributes over concatenation, so it keeps the records in
      list order and with their multiplicity. */
  lemma {:induction false} ConfiguredAppend(a: seq<Provider>, b: seq<Provider>)
    ensures Configured(a + b) == Configured(a) + Configured(b)
  {
    if a == [] {
      assert a + b == b;
    } else {
      assert (a + b)[1..] == a[1..] + b;
      ConfiguredAppend(a[1..], b);
    }
  }

  /** On one record the filter keeps it exactly when it is configured. */
  lemma ConfiguredSingleton(p: Provider)
    ensures Configured([p]) == if p.isConfigured then [p] else []
  {
  }

  /** `providers.filter(p => p.id === id && p.isConfigured)`. */
  function ConfiguredWithId(ps: seq<Provider>, id: string): (r: seq<Provider>)
    ensures forall p :: p in r <==> p in ps && p.isConfigured && p.id == id
  {
    if ps == [] then []
    else (if ps[0].id == id && ps[0].isConfigured then [ps[0]] else []) + ConfiguredWithId(ps[1..], id)
  }

  /** `filteredProviders`: the configured providers, narrowed to the selected
      id when `selectedProvider` is truthy (`null` and `""` both mean that
      nothing is selected). */
  function FilteredProviders(ps: seq<Provider>, selected: Option<string>): (r: seq<Provider>)
    ensures !Truthy(selected) ==> r == Configured(ps)
    ensures Truthy(selected) ==> forall p :: p in r <==> p in ps && p.isConfigured && p.id == selected.value
    ensures forall p :: p in r ==> p in Configured(ps)
  {
    if Truthy(selected) then ConfiguredWithId(ps, selected.value) else Configured(ps)
  }

  lemma {:induction false} NoneWithId(ps: seq<Provider>, id: string)
    requires forall i :: 0 <= i < |ps| ==> ps[i].id != id
    ensures ConfiguredWithId(ps, id) == []
  {
    if ps != [] {
      NoneWithId(ps[1..], id);
    }
  }

  /** With distinct ids a selection shows at most one provider. */
  lemma {:induction false} SelectionShowsAtMostOne(ps: seq<Provider>, id: string)
    requires DistinctIds(ps)
    ensures |ConfiguredWithId(ps, id)| <= 1
    ensures id != "" ==> |FilteredProviders(ps, Some(id))| <= 1
  {
    if ps != [] {
      var rest := ps[1..];
      assert DistinctIds(rest);
      SelectionShowsAtMostOne(rest, id);
      if ps[0].id == id {
        forall i | 0 <= i < |rest|
          ensures rest[i].id != id
        {
          assert rest[i] == ps[i + 1];
        }
        NoneWithId(rest, id);
      }
    }
  }

  /** The "Go to Settings" button selects `'settings'`, which names no
      provider, so nothing is shown. */
  lemma SettingsSelectionShowsNothing(ps: seq<Provider>)
    requires forall i :: 0 <= i < |ps| ==> KindOf(ps[i].id).Some?
    ensures FilteredProviders(ps, Some("settings")) == []
  {
    NoneWithId(ps, "settings");
  }

  /** Total number of services over a list of records. */
  function ServiceCount(ps: seq<Provider>): nat {
    if ps == [] then 0 else |ps[0].services| + ServiceCount(ps[1..])
  }

  /** Number of services in one snapshot whose status is `Operational`. */
  function OperationalCount(ss: seq<ServiceStatus>): (n: nat)
    ensures n <= |ss|
    ensures n == 0 <==> forall i :: 0 <= i < |ss| ==> ss[i].status != Operational
    ensures n == |ss| <==> forall i :: 0 <= i < |ss| ==> ss[i].status == Operational
  {
    if ss == [] then 0
    else
      var rest := OperationalCount(ss[1..]);
      assert forall i :: 1 <= i < |ss| ==> ss[i] == ss[1..][i - 1];
      (if ss[0].status == Operational then 1 else 0) + rest
  }

  /** The count splits over concatenation, so it counts each service once. */
  lemma {:induction false} OperationalCountAppend(a: seq<ServiceStatus>, b: seq<ServiceStatus>)
    ensures OperationalCount(a + b) == OperationalCount(a) + OperationalCount(b)
  {
    if a == [] {
      assert a + b == b;
    } else {
      assert (a + b)[1..] == a[1..] + b;
      OperationalCountAppend(a[1..], b);
    }
  }

  /** One service counts 1 exactly when it is operational; with
      `OperationalCountAppend` this pins the count down completely. */
  lemma OperationalCountSingleton(x: ServiceStatus)
    ensures OperationalCount([x]) == if x.status == Operational then 1 else 0
  {
  }

  /** Number of operational services over a list of records. */
  function OperationalSum(ps: seq<Provider>): nat {
    if ps == [] then 0 else OperationalCount(ps[0].services) + OperationalSum(ps[1..])
  }

  /** Operational services counted directly, skipping unconfigured records. */
  function ConfiguredOperationalCount(ps: seq<Provider>): nat {
    if ps == [] then 0
    else (if ps[0].isConfigured then OperationalCount(ps[0].services) else 0) + ConfiguredOperationalCount(ps[1..])
  }

  /** Services counted directly, skipping unconfigured records. */
  function ConfiguredServiceCount(ps: seq<Provider>): nat {
    if ps == [] then 0
    else (if ps[0].isConfigured then |ps[0].services| else 0) + ConfiguredServiceCount(ps[1..])
  }

  /** Filtering then summing counts exactly the configured providers'
      services: an unconfigured record contributes nothing whatever it holds. */
  lemma {:induction false} TotalServicesCountsConfiguredOnly(ps: seq<Provider>)
    ensures ServiceCount(Configured(ps)) == ConfiguredServiceCount(ps)
  {
    if ps != [] {
      var rest := Configured(ps[1..]);
      TotalServicesCountsConfiguredOnly(ps[1..]);
      if ps[0].isConfigured {
        assert Configured(ps) == [ps[0]] + rest;
        assert Configured(ps)[1..] == rest;
      } else {
        assert Configured(ps) == [] + rest == rest;
      }
    }
  }

  /** Filtering then summing the operational counts counts exactly the
      operational services of configured providers. */
  lemma {:induction false} OperationalServicesCountsConfiguredOnly(ps: seq<Provider>)
    ensures OperationalSum(Configured(ps)) == ConfiguredOperationalCount(ps)
  {
    if ps != [] {
      var rest := Configured(ps[1..]);
      OperationalServicesCountsConfiguredOnly(ps[1..]);
      if ps[0].isConfigured {
        assert Configured(ps) == [ps[0]] + rest;
        assert Configured(ps)[1..] == rest;
      } else {
        assert Configured(ps) == [] + rest == rest;
      }
    }
  }

  lemma {:induction false} OperationalSumAtMostServiceCount(ps: seq<Provider>)
    ensures OperationalSum(ps) <= ServiceCount(ps)
  {
    if ps != [] {
      OperationalSumAtMostServiceCount(ps[1..]);
    }
  }

  /** `totalServices`: services of configured providers, which is the sum
      over all records with the unconfigured ones counted as zero. */
  function TotalServices(ps: seq<Provider>): (n: nat)
    ensures n == ConfiguredServiceCount(ps)
  {
    TotalServicesCountsConfiguredOnly(ps);
    ServiceCount(Configured(ps))
  }

  /** `operationalServices`: operational services of configured providers,
      which is the sum over all records with the unconfigured ones counted as
      zero; the "n/m services operational" card never shows n > m. */
  function OperationalServices(ps: seq<Provider>): (n: nat)
    ensures n == ConfiguredOperationalCount(ps)
    ensures n <= TotalServices(ps)
  {
    OperationalServicesCountsConfiguredOnly(ps);
    OperationalSumAtMostServiceCount(Configured(ps));
    OperationalSum(Configured(ps))
  }

  /** A chip click: clicking the selected chip clears the selection,
      clicking another selects it. */
  function ToggleChip(selected: Option<string>, id: string): (r: Option<string>)
    ensures r == Some(id) <==> selected != Some(id)
    ensures r.None? <==> selected == Some(id)
  {
    if selected == Some(id) then None else Some(id)
  }

  /** Two clicks on one chip leave that chip selected only if it was
      selected to begin with; otherwise nothing is selected. */
  lemma ToggleChipTwice(selected: Option<string>, id: string)
    ensures ToggleChip(ToggleChip(selected, id), id) == if selected == Some(id) then Some(id) else None
  {
  }

  /** The Refresh button is disabled while a refresh runs or when no
      provider is configured. */
  function RefreshDisabled(isRefreshing: bool, ps: seq<Provider>): (r: bool)
    ensures r <==> isRefreshing || forall i :: 0 <= i < |ps| ==> !ps[i].isConfigured
  {
    var c := Configured(ps);
    assert c != [] ==> c[0] in ps;
    isRefreshing || |c| == 0
  }

  /** Some record is configured. */
  predicate HasOneConfigured(ps: seq<Provider>) {
    exists i :: 0 <= i < |ps| && ps[i].isConfigured
  }

  /** Two distinct records are configured. */
  predicate HasTwoConfigured(ps: seq<Provider>) {
    exists i, j :: 0 <= i < j < |ps| && ps[i].isConfigured && ps[j].isConfigured
  }

  lemma OneConfigured(ps: seq<Provider>)
    ensures |Configured(ps)| >= 1 <==> HasOneConfigured(ps)
  {
    var c := Configured(ps);
    if |c| >= 1 {
      assert c[0] in ps;
    }
  }

  lemma TwoWithConfiguredHead(ps: seq<Provider>)
    requires |ps| >= 1 && ps[0].isConfigured
    ensures HasTwoConfigured(ps) <==> HasOneConfigured(ps[1..])
  {
    var rest := ps[1..];
    if HasOneConfigured(rest) {
      var j :| 0 <= j < |rest| && rest[j].isConfigured;
      assert ps[j + 1].isConfigured;
    }
    if HasTwoConfigured(ps) {
      var i, j :| 0 <= i < j < |ps| && ps[i].isConfigured && ps[j].isConfigured;
      assert rest[j - 1].isConfigured;
    }
  }

  lemma TwoWithUnconfiguredHead(ps: seq<Provider>)
    requires |ps| >= 1 && !ps[0].isConfigured
    ensures HasTwoConfigured(ps) <==> HasTwoConfigured(ps[1..])
  {
    var rest := ps[1..];
    if HasTwoConfigured(rest) {
      var i, j :| 0 <= i < j < |rest| && rest[i].isConfigured && rest[j].isConfigured;
      assert ps[i + 1].isConfigured && ps[j + 1].isConfigured;
    }
    if HasTwoConfigured(ps) {
      var i, j :| 0 <= i < j < |ps| && ps[i].isConfigured && ps[j].isConfigured;
      assert rest[i - 1].isConfigured && rest[j - 1].isConfigured;
    }
  }

  lemma {:induction false} TwoConfigured(ps: seq<Provider>)
    ensures |Configured(ps)| >= 2 <==> HasTwoConfigured(ps)
  {
    if ps != [] {
      var rest := ps[1..];
      if ps[0].isConfigured {
        assert |Configured(ps)| == 1 + |Configured(rest)|;
        OneConfigured(rest);
        TwoWithConfiguredHead(ps);
      } else {
        assert Configured(ps) == Configured(rest);
        TwoConfigured(rest);
        TwoWithUnconfiguredHead(ps);
      }
    }
  }

  /** The "View All" button is disabled unless two providers are configured. */
  function ViewAllDisabled(ps: seq<Provider>): (r: bool)
    ensures !r <==> exists i, j :: 0 <= i < j < |ps| && ps[i].isConfigured && ps[j].isConfigured
  {
    TwoConfigured(ps);
    |Configured(ps)| <= 1
  }

  lemma {:induction false} NoneConfigured(ps: seq<Provider>)
    requires forall i :: 0 <= i < |ps| ==> !ps[i].isConfigured
    ensures Configured(ps) == []
  {
    if ps != [] {
      NoneConfigured(ps[1..]);
    }
  }

  lemma OnlyFirstConfigured(ps: seq<Provider>)
    requires |ps| >= 1 && ps[0].isConfigured
    requires forall i :: 1 <= i < |ps| ==> !ps[i].isConfigured
    ensures Configured(ps) == [ps[0]]
  {
    NoneConfigured(ps[1..]);
  }

  lemma SingleProviderCounts(p: Provider)
    ensures ServiceCount([p]) == |p.services|
    ensures OperationalSum([p]) == OperationalCount(p.services)
  {
    assert [p][1..] == [];
  }

  /** Connecting one provider of the freshly seeded list counts exactly
      that provider's services. */
  lemma ConnectFirstAfterSeed(s0: State, config: Config, today: Calendar.Date)
    requires s0.providers == InitialProviders()
    requires config.apiKey.Some?
    ensures TotalServices(Configure(s0, "aws", config, today).0.providers) == 3
    ensures OperationalServices(Configure(s0, "aws", config, today).0.providers) == 3
  {
    var ps := Configure(s0, "aws", config, today).0.providers;
    assert s0.providers[0].id == "aws";
    assert ps[0].isConfigured && ps[0].services == ServiceList(Aws);
    assert s0.providers[1].id != "aws" && s0.providers[2].id != "aws" && s0.providers[3].id != "aws";
    assert forall i :: 1 <= i < |ps| ==> !ps[i].isConfigured;
    OnlyFirstConfigured(ps);
    SingleProviderCounts(ps[0]);
    var aws := ServiceList(Aws);
    assert OperationalCount(aws) == 3 by {
      assert aws[1..][1..][1..] == [];
    }
  }

  lemma OthersStayUnconfigured(s0: State, id: string, config: Config, today: Calendar.Date)
    requires forall i :: 0 <= i < |s0.providers| ==> !s0.providers[i].isConfigured
    ensures forall i :: 0 <= i < |s0.providers| && s0.providers[i].id != id ==>
      !Configure(s0, id, config, today).0.providers[i].isConfigured
  {
  }

  lemma RemoveLastConfigured(s1: State, id: string)
    requires forall i :: 0 <= i < |s1.providers| && s1.providers[i].id != id ==> !s1.providers[i].isConfigured
    ensures TotalServices(Remove(s1, id).providers) == 0
    ensures Remove(s1, id).saved.Stored? ==> id !in Remove(s1, id).saved.configs
  {
    NoneConfigured(Remove(s1, id).providers);
  }

  /** After login nothing is counted; connecting AWS with key "k1" counts
      its three operational services; removing it counts nothing again and
      leaves no AWS entry in storage. */
  lemma AwsConnectRemoveScenario(s: State, today: Calendar.Date)
    ensures
      var s0 := Seed(s, true);
      var s1 := Configure(s0, "aws", Config(Some("k1"), None, None, None), today);
      var s2 := Remove(s1.0, "aws");
      && TotalServices(s0.providers) == 0
      && (s1.1 <==> !s.saved.Corrupt?)
      && TotalServices(s1.0.providers) == 3 && OperationalServices(s1.0.providers) == 3
      && TotalServices(s2.providers) == 0
      && (s2.saved.Stored? ==> "aws" !in s2.saved.configs)
  {
    var key := Config(Some("k1"), None, None, None);
    var s0 := Seed(s, true);
    assert s0.providers == InitialProviders();
    NoneConfigured(s0.providers);
    assert TotalServices(s0.providers) == 0;
    var s1 := Configure(s0, "aws", key, today);
    assert s1.1 <==> !s.saved.Corrupt?;
    ConnectFirstAfterSeed(s0, key, today);
    assert TotalServices(s1.0.providers) == 3 && OperationalServices(s1.0.providers) == 3;
    OthersStayUnconfigured(s0, "aws", key, today);
    RemoveLastConfigured(s1.0, "aws");
  }
}
