/** The records the integrations exchange: service snapshots, provider
    records and integration configs (src/utils/cloudIntegrations/types.ts). */
module Types {
  import opened Wrappers
  import opened Calendar

  datatype Status = Operational | Degraded | Maintenance | Down

  /** One service of a provider; `usage` is a percentage. */
  datatype ServiceStatus = ServiceStatus(name: string, status: Status, usage: int)

  /** A provider as the registry shows it. The optional fields are `None`
      until the provider is connected. */
  datatype Provider = Provider(
    id: string,
    name: string,
    isConfigured: bool,
    services: seq<ServiceStatus>,
    billingCycle: Option<BillingCycle>,
    currentCharges: Option<string>,
    apiKey: Option<string>)

  /** What the user supplies to connect a provider. `apiKey` is optional here
      because configs read back from storage are untyped at run time: a
      config without a key is exactly what makes an adapter's `initialize`
      fail. */
  datatype Config = Config(
    apiKey: Option<string>,
    region: Option<string>,
    accountId: Option<string>,
    projectId: Option<string>)

  datatype BillingInfo = BillingInfo(billingCycle: BillingCycle, currentCharges: string)

  /** JavaScript truthiness of an optional string: present and non-empty. */
  predicate Truthy(s: Option<string>) {
    s.Some? && s.value != ""
  }
}
