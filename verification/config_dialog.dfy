/** The provider configuration dialog (src/components/CloudProviderConfig.tsx):
    the config it builds from the form fields, the submit guard, and the
    label of the provider-specific field. */
module ConfigDialog {
  import opened Wrappers
  import opened Calendar
  import opened Types
  import opened Adapters
  import opened Factory
  import opened Registry

  /** The three text inputs of the dialog. */
  datatype Form = Form(apiKey: string, region: string, additionalField: string)

  /** `value || undefined`: an empty field is left out of the config. */
  function Optional(value: string): (r: Option<string>)
    ensures r.Some? <==> value != ""
    ensures r.Some? ==> r.value == value
  {
    if value == "" then None else Some(value)
  }

  /** The config `handleSubmit` builds, or `None` when the API key is empty
      and nothing is submitted. AWS and Azure store the extra field as
      `accountId`, Google Cloud as `projectId`, any other provider drops it. */
  function BuildConfig(providerId: string, f: Form): (r: Option<Config>)
    ensures r.None? <==> f.apiKey == ""
    ensures r.Some? ==> r.value.apiKey == Some(f.apiKey)
    ensures r.Some? ==> (r.value.region.Some? <==> f.region != "")
    ensures r.Some? && r.value.region.Some? ==> r.value.region.value == f.region
    ensures r.Some? ==> (r.value.accountId.Some? <==> (providerId == "aws" || providerId == "azure") && f.additionalField != "")
    ensures r.Some? ==> (r.value.projectId.Some? <==> providerId == "gcp" && f.additionalField != "")
    ensures r.Some? && r.value.accountId.Some? ==> r.value.accountId.value == f.additionalField
    ensures r.Some? && r.value.projectId.Some? ==> r.value.projectId.value == f.additionalField
  {
    if f.apiKey == "" then None
    else
      var config := Config(Some(f.apiKey), Optional(f.region), None, None);
      if providerId == "aws" || providerId == "azure" then Some(config.(accountId := Optional(f.additionalField)))
      else if providerId == "gcp" then Some(config.(projectId := Optional(f.additionalField)))
      else Some(config)
  }

  /** `getAdditionalFieldName`: the label of the provider-specific input. */
  function AdditionalFieldName(providerId: string): (r: string)
    ensures r != "" <==> KindOf(providerId).Some? && KindOf(providerId).value != Salesforce
  {
    if providerId == "aws" then "Account ID"
    else if providerId == "azure" then "Tenant ID"
    else if providerId == "gcp" then "Project ID"
    else ""
  }

  /** The provider-specific input is rendered only when it has a label. */
  predicate ShowsAdditionalField(providerId: string) {
    AdditionalFieldName(providerId) != ""
  }

  /** The form and the builder agree: the extra input is shown exactly for
      the providers whose config stores it, so a value typed into a shown
      field always reaches the config and Salesforce gets no such field. */
  lemma AdditionalFieldShownIffStored(providerId: string, f: Form)
    requires f.apiKey != "" && f.additionalField != ""
    ensures ShowsAdditionalField(providerId) <==>
      BuildConfig(providerId, f).value.accountId.Some? || BuildConfig(providerId, f).value.projectId.Some?
    ensures ShowsAdditionalField(providerId) ==> KindOf(providerId).Some?
    ensures !ShowsAdditionalField("salesforce")
  {
  }

  /** Each label and the config field its input is saved in: AWS's
      "Account ID" and Azure's "Tenant ID" both go to `accountId`, Google
      Cloud's "Project ID" to `projectId`, and Salesforce has no such input. */
  lemma AdditionalFieldLabels(f: Form)
    requires f.apiKey != "" && f.additionalField != ""
    ensures AdditionalFieldName("aws") == "Account ID" && BuildConfig("aws", f).value.accountId == Some(f.additionalField)
    ensures AdditionalFieldName("azure") == "Tenant ID" && BuildConfig("azure", f).value.accountId == Some(f.additionalField)
    ensures AdditionalFieldName("gcp") == "Project ID" && BuildConfig("gcp", f).value.projectId == Some(f.additionalField)
    ensures AdditionalFieldName("salesforce") == ""
      && BuildConfig("salesforce", f).value.accountId.None? && BuildConfig("salesforce", f).value.projectId.None?
  {
  }

  /** The Connect button is disabled with an empty key or while a configure
      is running. */
  function ConnectDisabled(f: Form, isConfiguring: bool): (r: bool)
    ensures !r ==> forall id :: BuildConfig(id, f).Some?
    ensures r <==> f.apiKey == "" || isConfiguring
  {
    f.apiKey == "" || isConfiguring
  }

  /** Submitting the dialog wired to `configureProvider`: the next registry
      state and whether the dialog closes. It closes exactly when the
      configure call resolves to true. */
  function Submit(s: State, providerId: string, f: Form, today: Date): (r: (State, bool))
    ensures f.apiKey == "" ==> r == (s, false)
    ensures r.1 ==> f.apiKey != "" && KindOf(providerId).Some? && !s.saved.Corrupt?
    ensures r.1 ==> SavedAs(r.0, providerId, BuildConfig(providerId, f).value)
    ensures f.apiKey != "" ==> r == Configure(s, providerId, BuildConfig(providerId, f).value, today)
    ensures |r.0.providers| == |s.providers|
    ensures forall i :: 0 <= i < |s.providers| && s.providers[i].id != providerId ==> r.0.providers[i] == s.providers[i]
  {
    match BuildConfig(providerId, f)
    case None => (s, false)
    case Some(config) => Configure(s, providerId, config, today)
  }

  /** The config the dialog built is what storage now holds for the id. */
  predicate SavedAs(s: State, id: string, config: Config) {
    s.saved.Stored? && id in s.saved.configs && s.saved.configs[id] == config
  }

  /** A key from the dialog always gets past `initialize`, so with a
      supported provider and readable storage the dialog closes and the
      provider is connected with its fixed services. */
  lemma DialogConnects(s: State, providerId: string, f: Form, today: Date)
    requires f.apiKey != "" && KindOf(providerId).Some? && !s.saved.Corrupt?
    ensures Submit(s, providerId, f, today).1
    ensures forall i :: 0 <= i < |s.providers| && s.providers[i].id == providerId ==>
      && Submit(s, providerId, f, today).0.providers[i].isConfigured
      && Submit(s, providerId, f, today).0.providers[i].apiKey == Some(f.apiKey)
      && Submit(s, providerId, f, today).0.providers[i].services == ServiceList(KindOf(providerId).value)
  {
  }
}
