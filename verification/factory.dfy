/** The adapter factory and the static provider list
    (src/utils/cloudIntegrations/index.ts). */
module Factory {
  import opened Wrappers
  import opened Types
  import opened Adapters

  /** The provider id string of each kind. */
  function ProviderId(k: Kind): string {
    match k
    case Aws => "aws"
    case Azure => "azure"
    case Gcp => "gcp"
    case Salesforce => "salesforce"
  }

  /** The `switch (providerId)` of the factory: the kind an id names, if any. */
  function KindOf(id: string): (r: Option<Kind>)
    ensures r.Some? <==> id == "aws" || id == "azure" || id == "gcp" || id == "salesforce"
  {
    if id == "aws" then Some(Aws)
    else if id == "azure" then Some(Azure)
    else if id == "gcp" then Some(Gcp)
    else if id == "salesforce" then Some(Salesforce)
    else None
  }

  /** Ids and kinds are in one-to-one correspondence. */
  lemma ProviderIdRoundTrip(k: Kind, id: string)
    ensures KindOf(ProviderId(k)) == Some(k)
    ensures KindOf(id) == Some(k) ==> ProviderId(k) == id
  {
  }

  /** `createIntegration`: a fresh adapter of the named kind, or the
      "Unsupported cloud provider" error for any other id. */
  function CreateIntegration(id: string, config: Config): (r: Result<Adapter, string>)
    ensures r.Success? <==> KindOf(id).Some?
    ensures r.Success? ==> ProviderId(r.value.kind) == id
    ensures r.Success? ==> r.value.config == config && !r.value.initialized
    ensures r.Failure? ==> r.error == "Unsupported cloud provider: " + id
  {
    match KindOf(id)
    case Some(k) => Success(NewAdapter(k, config))
    case None => Failure("Unsupported cloud provider: " + id)
  }

  /** An entry of `supportedProviders`. */
  datatype Descriptor = Descriptor(id: string, name: string, isConfigured: bool)

  const SupportedProviders: seq<Descriptor> := [
    Descriptor("aws", "AWS", false),
    Descriptor("azure", "Azure", false),
    Descriptor("gcp", "Google Cloud", false),
    Descriptor("salesforce", "Salesforce", false)]

  /** The list holds one unconfigured entry per kind, in the order
      aws, azure, gcp, salesforce; and the factory accepts an id exactly
      when the list holds it. */
  lemma SupportedProvidersMatchFactory(id: string, config: Config)
    ensures |SupportedProviders| == 4
    ensures forall i :: 0 <= i < |SupportedProviders| ==> !SupportedProviders[i].isConfigured
    ensures forall i, j :: 0 <= i < j < |SupportedProviders| ==> SupportedProviders[i].id != SupportedProviders[j].id
    ensures SupportedProviders[0].id == "aws" && SupportedProviders[1].id == "azure"
    ensures SupportedProviders[2].id == "gcp" && SupportedProviders[3].id == "salesforce"
    ensures CreateIntegration(id, config).Success?
        <==> exists i :: 0 <= i < |SupportedProviders| && SupportedProviders[i].id == id
  {
    if KindOf(id).Some? {
      var i := if id == "aws" then 0 else if id == "azure" then 1 else if id == "gcp" then 2 else 3;
      assert SupportedProviders[i].id == id;
    }
  }
}
