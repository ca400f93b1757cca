/** The four mock integration adapters (aws.ts, azure.ts, gcp.ts,
    salesforce.ts). They share one shape: a lazily set `initialized` flag,
    a fixed service list and a fixed charge string per provider kind. */
module Adapters {
  import opened Wrappers
  import opened Calendar
  import opened Types

  datatype Kind = Aws | Azure | Gcp | Salesforce

  /** One adapter instance: the config it was constructed with and whether
      `initialize` has succeeded on it. */
  datatype Adapter = Adapter(kind: Kind, config: Config, initialized: bool)

  /** The constructor: keeps the config, starts uninitialized. */
  function NewAdapter(kind: Kind, config: Config): (a: Adapter)
    ensures a.kind == kind && a.config == config
    ensures !a.initialized
  {
    Adapter(kind, config, false)
  }

  /** `initialize`: logs a three-character prefix of the key, which throws
      when there is no key; the catch turns that into `false`. Otherwise the
      flag is set and the answer is `true`. */
  function Initialize(a: Adapter): (r: (Adapter, bool))
    ensures r.1 <==> a.config.apiKey.Some?
    ensures r.0.kind == a.kind && r.0.config == a.config
    ensures r.0.initialized <==> a.initialized || r.1
  {
    match a.config.apiKey
    case None => (a, false)
    case Some(_) => (a.(initialized := true), true)
  }

  /** The fixed service snapshot each kind returns. */
  function ServiceList(k: Kind): seq<ServiceStatus> {
    match k
    case Aws => [
      ServiceStatus("EC2", Operational, 65),
      ServiceStatus("S3", Operational, 42),
      ServiceStatus("Lambda", Operational, 78)]
    case Azure => [
      ServiceStatus("Virtual Machines", Operational, 55),
      ServiceStatus("Blob Storage", Degraded, 30),
      ServiceStatus("Functions", Operational, 45)]
    case Gcp => [
      ServiceStatus("Compute Engine", Operational, 40),
      ServiceStatus("Cloud Storage", Operational, 62),
      ServiceStatus("Cloud Functions", Maintenance, 0)]
    case Salesforce => [
      ServiceStatus("Sales Cloud", Operational, 85),
      ServiceStatus("Service Cloud", Operational, 72),
      ServiceStatus("Marketing Cloud", Operational, 45)]
  }

  /** The fixed charge string each kind reports. */
  function Charges(k: Kind): string {
    match k
    case Aws => "$1,245.00"
    case Azure => "$895.00"
    case Gcp => "$750.00"
    case Salesforce => "$150.00"
  }

  /** Lazy initialization shared by both data methods; its result is ignored. */
  function EnsureInitialized(a: Adapter): Adapter {
    if a.initialized then a else Initialize(a).0
  }

  /** `getServices`: initializes first if needed, then returns the snapshot
      whatever `initialize` answered. */
  function GetServices(a: Adapter): (r: (Adapter, seq<ServiceStatus>))
    ensures r.1 == ServiceList(a.kind)
    ensures r.0.kind == a.kind && r.0.config == a.config
    ensures r.0.initialized <==> a.initialized || a.config.apiKey.Some?
  {
    (EnsureInitialized(a), ServiceList(a.kind))
  }

  /** `getBillingInfo`: same lazy initialization; the cycle is the whole
      month containing `today`, the charges are the kind's constant. */
  function GetBillingInfo(a: Adapter, today: Date): (r: (Adapter, BillingInfo))
    ensures r.1.currentCharges == Charges(a.kind)
    ensures r.1.billingCycle.firstDay == 1
    ensures r.1.billingCycle.year == today.year && r.1.billingCycle.month == today.month
    ensures r.1.billingCycle.lastDay == DaysInMonth(today.year, today.month)
    ensures r.0.kind == a.kind && r.0.config == a.config
    ensures r.0.initialized <==> a.initialized || a.config.apiKey.Some?
  {
    (EnsureInitialized(a), BillingInfo(BillingCycleFor(today), Charges(a.kind)))
  }

  /** The data an adapter returns does not depend on its flag or its config:
      two adapters of one kind answer alike. */
  lemma DataIgnoresInitialization(a: Adapter, b: Adapter, today: Date)
    requires a.kind == b.kind
    ensures GetServices(a).1 == GetServices(b).1
    ensures GetBillingInfo(a, today).1 == GetBillingInfo(b, today).1
  {
  }

  /** Every snapshot holds three distinctly named services with usage a
      percentage; a service under maintenance reports zero usage. */
  lemma ServiceListWellFormed(k: Kind)
    ensures |ServiceList(k)| == 3
    ensures forall i :: 0 <= i < |ServiceList(k)| ==> 0 <= ServiceList(k)[i].usage <= 100
    ensures forall i :: 0 <= i < |ServiceList(k)| && ServiceList(k)[i].status == Maintenance ==> ServiceList(k)[i].usage == 0
    ensures forall i, j :: 0 <= i < j < |ServiceList(k)| ==> ServiceList(k)[i].name != ServiceList(k)[j].name
  {
  }

  /** AWSIntegration: key-gated initialize, EC2/S3/Lambda all operational,
      "$1,245.00" for the whole current month. */
  lemma AwsIntegration(config: Config, initialized: bool, today: Date)
    ensures Initialize(Adapter(Aws, config, initialized)).1 <==> config.apiKey.Some?
    ensures GetServices(Adapter(Aws, config, initialized)).1 == [
      ServiceStatus("EC2", Operational, 65),
      ServiceStatus("S3", Operational, 42),
      ServiceStatus("Lambda", Operational, 78)]
    ensures GetBillingInfo(Adapter(Aws, config, initialized), today).1
      == BillingInfo(BillingCycle(today.year, today.month, 1, DaysInMonth(today.year, today.month)), "$1,245.00")
  {
  }

  /** AzureIntegration: Blob Storage is the one degraded service; "$895.00". */
  lemma AzureIntegration(config: Config, initialized: bool, today: Date)
    ensures Initialize(Adapter(Azure, config, initialized)).1 <==> config.apiKey.Some?
    ensures GetServices(Adapter(Azure, config, initialized)).1 == [
      ServiceStatus("Virtual Machines", Operational, 55),
      ServiceStatus("Blob Storage", Degraded, 30),
      ServiceStatus("Functions", Operational, 45)]
    ensures GetBillingInfo(Adapter(Azure, config, initialized), today).1
      == BillingInfo(BillingCycle(today.year, today.month, 1, DaysInMonth(today.year, today.month)), "$895.00")
  {
  }

  /** GoogleCloudIntegration: Cloud Functions is under maintenance; "$750.00". */
  lemma GoogleCloudIntegration(config: Config, initialized: bool, today: Date)
    ensures Initialize(Adapter(Gcp, config, initialized)).1 <==> config.apiKey.Some?
    ensures GetServices(Adapter(Gcp, config, initialized)).1 == [
      ServiceStatus("Compute Engine", Operational, 40),
      ServiceStatus("Cloud Storage", Operational, 62),
      ServiceStatus("Cloud Functions", Maintenance, 0)]
    ensures GetBillingInfo(Adapter(Gcp, config, initialized), today).1
      == BillingInfo(BillingCycle(today.year, today.month, 1, DaysInMonth(today.year, today.month)), "$750.00")
  {
  }

  /** SalesforceIntegration: three clouds, all operational; "$150.00". */
  lemma SalesforceIntegration(config: Config, initialized: bool, today: Date)
    ensures Initialize(Adapter(Salesforce, config, initialized)).1 <==> config.apiKey.Some?
    ensures GetServices(Adapter(Salesforce, config, initialized)).1 == [
      ServiceStatus("Sales Cloud", Operational, 85),
      ServiceStatus("Service Cloud", Operational, 72),
      ServiceStatus("Marketing Cloud", Operational, 45)]
    ensures GetBillingInfo(Adapter(Salesforce, config, initialized), today).1
      == BillingInfo(BillingCycle(today.year, today.month, 1, DaysInMonth(today.year, today.month)), "$150.00")
  {
  }
}
