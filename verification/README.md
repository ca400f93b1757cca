# Cloud-provider registry and client portal, modelled in Dafny

This project models the logic behind a cloud-consulting company's client
portal. The portal tracks four cloud and CRM providers: AWS, Azure, Google
Cloud and Salesforce. The modelled parts are:

- **Adapters** (`adapters.dfy`). Each provider has a mock adapter with a lazily
  set `initialized` flag, a fixed list of services and a fixed charge string.
  Each adapter reports a billing cycle that runs from the 1st to the last day
  of the current month. The calendar arithmetic behind that last day is in
  `calendar.dfy`.
- **Factory** (`factory.dfy`). It maps the ids `aws`, `azure`, `gcp` and
  `salesforce` to their adapters and rejects every other id. It also holds the
  static list of supported providers.
- **Provider registry** (`registry.dfy`). Its state is an ordered list of
  provider records plus the `cloudProviderConfigs` storage entry. It has five
  transitions: seed on login, configure, remove, refresh one provider and
  refresh all providers.
- **Client portal** (`portal.dfy`). It holds the service counts, the filtered
  provider list, the chip toggle and the rules that enable its buttons.
- **Configuration dialog** (`config_dialog.dfy`). It builds a config from the
  form fields and guards the submit.
- **Mock authentication** (`auth.dfy`). It covers login and signup validation,
  the user record they build, logout, and restoring the stored user on reload.
- **Support chatbot** (`chatbot.dfy`). It picks a reply by first-match-wins
  keyword matching and keeps an append-only message list.

Every operation is a pure function over immutable datatypes, and each one runs
as a single atomic step. The current date is passed in as a parameter. Browser
storage is a value in the state:

- `Absent`: the entry is missing.
- `Corrupt`: the entry holds text that does not parse.
- `Stored(map)`: the entry holds a map from provider id to config.

The code's order of effects is kept where it matters. `configureProvider`
updates the provider records before it reads storage. So with a corrupt
storage entry it reports failure even though the records have already
changed (`Registry.Configure`). `refreshAllProviders` reads the records
captured when it was called, but applies each update to the current records
(`Registry.RefreshWith`). An adapter's `initialize` can fail only when the
config has no API key to log a prefix of. For that reason a config's `apiKey`
is optional in the model: a config read back from storage is untyped.

## Model

| member | source | states |
|---|---|---|
| `Calendar.DayZeroOfNextMonth` | src/utils/cloudIntegrations/aws.ts:50 | for a year of 100 or later, `new Date(y, m + 1, 0)` lands on the last day of month `m` of year `y`, including December, where the month index carries into the next year; the day after it is a 1st |
| `Calendar.NextPreviousRoundTrip` | src/utils/cloudIntegrations/aws.ts:50 | stepping one day forward then back, or back then forward, returns the same valid date |
| `Calendar.YearLength` | src/utils/cloudIntegrations/azure.ts:50 | the twelve month lengths used for the cycle end add up to 366 days in a Gregorian leap year and 365 otherwise |
| `Calendar.BillingCycleFor` | src/utils/cloudIntegrations/gcp.ts:50 | the cycle is in today's month and year, starts on day 1, ends on that month's last day, and contains today |
| `Adapters.NewAdapter` | src/utils/cloudIntegrations/aws.ts:6-11 | a new adapter keeps its config and starts uninitialized |
| `Adapters.Initialize` | src/utils/cloudIntegrations/aws.ts:13-26 | succeeds exactly when the config has an API key; it sets the flag only on success and changes nothing else |
| `Adapters.GetServices` | src/utils/cloudIntegrations/aws.ts:29-41 | returns the kind's fixed service list whatever the flag is; afterwards the flag is set iff it was already set or the key is present |
| `Adapters.GetBillingInfo` | src/utils/cloudIntegrations/aws.ts:43-53 | the charges are the kind's constant; the cycle covers day 1 to the last day of today's month; lazy initialization works as in `GetServices` |
| `Adapters.DataIgnoresInitialization` | src/utils/cloudIntegrations/azure.ts:29-46 | two adapters of the same kind return the same services and billing, whatever their flags and configs |
| `Adapters.ServiceListWellFormed` | src/utils/cloudIntegrations/types.ts:2-6 | every kind reports three distinctly named services; each usage is a 0–100 percentage, and a service under maintenance reports 0 |
| `Adapters.AwsIntegration` | src/utils/cloudIntegrations/aws.ts:13-53 | AWS: initialize is gated on the key; services are EC2/65, S3/42 and Lambda/78, all Operational; billing is "$1,245.00" for the whole current month |
| `Adapters.AzureIntegration` | src/utils/cloudIntegrations/azure.ts:13-53 | Azure: services are Virtual Machines/Operational/55, Blob Storage/Degraded/30 and Functions/Operational/45; billing is "$895.00" for the whole month |
| `Adapters.GoogleCloudIntegration` | src/utils/cloudIntegrations/gcp.ts:13-53 | Google Cloud: services are Compute Engine/Operational/40, Cloud Storage/Operational/62 and Cloud Functions/Maintenance/0; billing is "$750.00" |
| `Adapters.SalesforceIntegration` | src/utils/cloudIntegrations/salesforce.ts:12-52 | Salesforce: services are Sales Cloud/85, Service Cloud/72 and Marketing Cloud/45, all Operational; billing is "$150.00" |
| `Factory.KindOf` | src/utils/cloudIntegrations/index.ts:11-22 | an id names a kind exactly when it is one of "aws", "azure", "gcp" or "salesforce" |
| `Factory.ProviderIdRoundTrip` | src/utils/cloudIntegrations/index.ts:10-19 | kind → id → kind is the identity, and an id that parses is the id of its kind |
| `Factory.CreateIntegration` | src/utils/cloudIntegrations/index.ts:10-23 | succeeds exactly for the four ids, giving a fresh uninitialized adapter of the named kind with the given config; any other id yields "Unsupported cloud provider: " followed by the id |
| `Factory.SupportedProvidersMatchFactory` | src/utils/cloudIntegrations/index.ts:26-47 | the list is aws, azure, gcp, salesforce in that order, with distinct ids, all unconfigured; the factory accepts an id iff the list holds it |
| `Registry.InitialProviders` | src/contexts/CloudIntegrationsContext.tsx:29-33 | one record per supported provider, in list order, with the same id and name, unconfigured, no services, and no key or billing |
| `Registry.Seed` | src/contexts/CloudIntegrationsContext.tsx:26-34 | on authentication the list becomes exactly the initial records: each supported provider in order with its name, unconfigured, no services, and no key or billing; otherwise nothing changes; storage is never touched |
| `Registry.Configure` | src/contexts/CloudIntegrationsContext.tsx:52-106 | see the note below the table |
| `Registry.Remove` | src/contexts/CloudIntegrationsContext.tsx:109-132 | records with the id lose their configured flag, services, key and billing; every other record is unchanged; a stored map loses only the id; missing or corrupt storage is left as is |
| `Registry.RemoveIdempotent` | src/contexts/CloudIntegrationsContext.tsx:109-126 | removing twice gives the same state as removing once |
| `Registry.RemoveUndoesConfigure` | src/contexts/CloudIntegrationsContext.tsx:58-122 | a remove after a configure leaves the records exactly as a plain remove would; after a successful configure the id is no longer in storage |
| `Registry.Find` | src/contexts/CloudIntegrationsContext.tsx:136 | returns the first record with the id, or none exactly when no record has it |
| `Registry.RefreshWith` | src/contexts/CloudIntegrationsContext.tsx:135-162 | if the captured snapshot shows the provider configured with a non-empty key and a known id, the records with that id get fresh services and billing; otherwise the state is returned unchanged; storage is never touched |
| `Registry.Refresh` | src/contexts/CloudIntegrationsContext.tsx:136-148 | records with another id are never touched; when the guard on the current records passes, the records with the id get the kind's fixed services and billing with id, name, flag and key kept; otherwise nothing changes |
| `Registry.RefreshAfterConfigureIsNoop` | src/contexts/CloudIntegrationsContext.tsx:140-148 | on the same day, a refresh right after a configure that got past `initialize` changes nothing |
| `Registry.ConfiguredIds` | src/contexts/CloudIntegrationsContext.tsx:166 | every configured record's id is among the ids refresh-all visits |
| `Registry.Refreshable` | src/contexts/CloudIntegrationsContext.tsx:136-141 | the refresh guard: the first record with the id is configured with a non-empty key, and the factory accepts the id (otherwise its throw is caught) |
| `Registry.RefreshEach` | src/contexts/CloudIntegrationsContext.tsx:168-170 | the `for` loop: one refresh per id in order, each guarded by the records captured when refresh-all was called; its effect is stated by `RefreshEachEffect` |
| `Registry.RefreshEachEffect` | src/contexts/CloudIntegrationsContext.tsx:168-170 | after a run of refreshes, a record is refreshed iff its id is in the run and passes the snapshot guard; a refresh that does nothing does not stop the later ones |
| `Registry.RefreshAllUpdatesEligible` | src/contexts/CloudIntegrationsContext.tsx:165-171 | with distinct ids, refresh-all refreshes exactly the records that are configured, have a non-empty key and have a supported id; all other records and storage are unchanged |
| `Registry.RefreshAll` | src/contexts/CloudIntegrationsContext.tsx:165-171 | a record gets fresh services and billing exactly when its id is among the configured ids and the records at call time pass the refresh guard for it; every other record and storage are unchanged |
| `Registry.IdsPreserved` | src/contexts/CloudIntegrationsContext.tsx:29-171 | seed, configure, remove, refresh and refresh-all all keep the records' ids distinct |
| `Registry.RefreshKeepsServicesInvariant` | src/contexts/CloudIntegrationsContext.tsx:135-162 | with distinct ids, a refresh never gives services to a record that is not configured |
| `Registry.RefreshAllKeepsServicesInvariant` | src/contexts/CloudIntegrationsContext.tsx:165-171 | with distinct ids, refresh-all never gives services to a record that is not configured |
| `Registry.ServicesInvariantPreserved` | src/contexts/CloudIntegrationsContext.tsx:29-171 | with distinct ids, seed, configure, remove, refresh and refresh-all all keep every unconfigured record's service list empty |
| `Portal.Configured` | src/pages/ClientPortalPage.tsx:36 | the filtered list holds exactly the configured records and is no longer than the input |
| `Portal.ConfiguredAppend` | src/pages/ClientPortalPage.tsx:36 | filtering a concatenation is concatenating the filtered parts, so the filter keeps list order and multiplicity |
| `Portal.ConfiguredSingleton` | src/pages/ClientPortalPage.tsx:36 | a single record is kept exactly when it is configured; with `ConfiguredAppend` this pins the filter down completely |
| `Portal.ConfiguredWithId` | src/pages/ClientPortalPage.tsx:35 | the narrowed list holds exactly the configured records with the selected id |
| `Portal.FilteredProviders` | src/pages/ClientPortalPage.tsx:34-36 | with no selection (null or "") it is the configured records; with a selection it holds exactly the configured records with the selected id |
| `Portal.SelectionShowsAtMostOne` | src/pages/ClientPortalPage.tsx:35 | with distinct ids, a non-empty selection shows at most one provider |
| `Portal.SettingsSelectionShowsNothing` | src/pages/ClientPortalPage.tsx:246 | selecting 'settings' shows nothing when every record has a supported id |
| `Portal.TotalServicesCountsConfiguredOnly` | src/pages/ClientPortalPage.tsx:39-41 | filtering then summing equals summing each record's service count only when it is configured |
| `Portal.TotalServices` | src/pages/ClientPortalPage.tsx:39-41 | the total equals the sum over all records with each unconfigured record counted as zero |
| `Portal.OperationalCount` | src/pages/ClientPortalPage.tsx:55 | the count is 0 iff no service is Operational, and equals the list length iff every service is Operational |
| `Portal.OperationalCountAppend` | src/pages/ClientPortalPage.tsx:55 | the count of a concatenation is the sum of the counts, so each service is counted once |
| `Portal.OperationalCountSingleton` | src/pages/ClientPortalPage.tsx:55 | one service counts 1 iff its status is Operational; with `OperationalCountAppend` this pins the count down |
| `Portal.OperationalServicesCountsConfiguredOnly` | src/pages/ClientPortalPage.tsx:52-56 | filtering then summing the Operational counts equals summing each record's Operational count only when it is configured |
| `Portal.OperationalServices` | src/pages/ClientPortalPage.tsx:52-56 | equals the sum over all records of each configured record's number of Operational services, and never exceeds the total |
| `Portal.ToggleChip` | src/pages/ClientPortalPage.tsx:108 | after a click the chip is selected iff it was not; clicking the selected chip clears the selection |
| `Portal.ToggleChipTwice` | src/pages/ClientPortalPage.tsx:108 | two clicks leave that chip selected only if it was selected before; otherwise nothing is selected |
| `Portal.RefreshDisabled` | src/pages/ClientPortalPage.tsx:96 | disabled iff a refresh is running or no record is configured |
| `Portal.ViewAllDisabled` | src/pages/ClientPortalPage.tsx:126 | enabled iff at least two records are configured |
| `Portal.AwsConnectRemoveScenario` | src/pages/ClientPortalPage.tsx:39-56 | after login nothing is counted; after connecting AWS, 3 of 3 services are operational; after removing it nothing is counted and storage holds no "aws" entry |
| `ConfigDialog.BuildConfig` | src/components/CloudProviderConfig.tsx:42-54 | see the note below the table |
| `ConfigDialog.AdditionalFieldName` | src/components/CloudProviderConfig.tsx:63-74 | a label exists exactly for the ids the factory supports other than Salesforce; `AdditionalFieldLabels` names each label |
| `ConfigDialog.AdditionalFieldLabels` | src/components/CloudProviderConfig.tsx:49-74 | the labels are "Account ID" for aws, "Tenant ID" for azure and "Project ID" for gcp, and none for salesforce; the aws and azure inputs are both saved as `accountId`, the gcp input as `projectId` |
| `ConfigDialog.AdditionalFieldShownIffStored` | src/components/CloudProviderConfig.tsx:63-74 | the extra input is shown exactly for the providers whose config stores it; it is only shown for supported ids, and never for Salesforce |
| `ConfigDialog.ConnectDisabled` | src/components/CloudProviderConfig.tsx:132 | disabled iff the key is empty or a configure is running; when enabled, a config can be built for any provider |
| `ConfigDialog.Submit` | src/components/CloudProviderConfig.tsx:39-60 | an empty key changes nothing and keeps the dialog open; otherwise the submit is `Registry.Configure` with the built config, so records with other ids are unchanged; the dialog closes only when the configure succeeded, and then storage holds the built config for the id |
| `ConfigDialog.DialogConnects` | src/components/CloudProviderConfig.tsx:56-59 | with a supported id and readable storage, a dialog submit always succeeds and connects the provider with the typed key and its fixed services |
| `Auth.Restore` | src/contexts/AuthContext.tsx:28-35 | on reload the current user and the stored copy are both the stored user; the session is authenticated iff a user was stored |
| `Auth.IsAuthenticated` | src/contexts/AuthContext.tsx:136 | `!!user`: a user is current; by `Auth.MirroredPreserved` this is the same as a user being stored |
| `Auth.MirroredPreserved` | src/contexts/AuthContext.tsx:28-126 | the current user and the stored copy agree at the start, after a reload, and after every login, signup and logout, so authentication is exactly "a user is stored" |
| `Auth.EmailPrefix` | src/contexts/AuthContext.tsx:50 | the derived name is a prefix of the email, contains no '@', and stops exactly at the first '@' or at the end |
| `Auth.EmailPrefixExamples` | src/contexts/AuthContext.tsx:50 | "jane@example.com" gives "jane"; an email without '@' gives itself; "@host" gives the empty name |
| `Auth.Login` | src/contexts/AuthContext.tsx:37-76 | succeeds iff the email is non-empty and the password has at least 6 characters; the user then gets id "12345", `Auth.EmailPrefix` of the email (`split('@')[0]`) as name, the email and no company, and is stored; on failure nothing changes |
| `Auth.Signup` | src/contexts/AuthContext.tsx:78-117 | succeeds iff the email is non-empty, the password has at least 6 characters and the name is non-empty; the user keeps the given name, email and company and is stored; on failure nothing changes |
| `Auth.Logout` | src/contexts/AuthContext.tsx:119-126 | the user and the stored copy are both cleared |
| `Auth.SessionSurvivesReload` | src/contexts/AuthContext.tsx:28-35 | a reload after a successful login or signup restores the same session; a reload after logout restores nobody |
| `Auth.AuthMachine` | src/contexts/AuthContext.tsx:136 | a valid login authenticates from any state; an invalid one keeps the previous authentication status; logout is idempotent |
| `Chatbot.ToLowerIdempotent` | src/components/Chatbot.tsx:22 | lowercasing twice is lowercasing once |
| `Chatbot.ContainsIffOccurs` | src/components/Chatbot.tsx:24 | the left-to-right `includes` scan succeeds iff the word occurs at some position |
| `Chatbot.FirstMatch` | src/components/Chatbot.tsx:24-56 | returns the index of the first keyword group with a word in the text, with no earlier group matching, or the number of groups when none matches |
| `Chatbot.ReplyIsFirstMatchingGroup` | src/components/Chatbot.tsx:17-57 | the reply chain equals a table lookup: the reply of the first matching group in the order hello/hi, aws/amazon, azure/microsoft, google/gcp, salesforce, oracle, service/help/support, contact/speak, else the fallback |
| `Chatbot.GenerateReply` | src/components/Chatbot.tsx:17-57 | the reply is always one of the nine fixed texts; `ReplyIsFirstMatchingGroup` says which |
| `Chatbot.ReplyToLowered` | src/components/Chatbot.tsx:24-56 | on the lowercased message, the if-chain always yields one of the nine fixed texts |
| `Chatbot.ReplyIgnoresCase` | src/components/Chatbot.tsx:22 | a message and its lowercase form get the same reply |
| `Chatbot.SubstringMatchGreets` | src/components/Chatbot.tsx:24 | "Which AWS plan?" gets the greeting, because "which" contains "hi" |
| `Chatbot.IsWhitespace` | src/components/Chatbot.tsx:88 | the characters `trim` strips: the ECMAScript WhiteSpace and LineTerminator code points |
| `Chatbot.IsBlank` | src/components/Chatbot.tsx:88 | `!input.trim()`: the input holds nothing but those characters, the empty input included |
| `Chatbot.Send` | src/components/Chatbot.tsx:87-125 | blank input leaves the list unchanged; otherwise the old list is kept as a prefix, followed by the user's message and one bot message whose text is the apology when the reply fails and `GenerateReply` of the input otherwise |
| `Chatbot.InitialIsConversation` | src/components/Chatbot.tsx:63-70 | the list starts as the single welcome message, which is a well-formed conversation |
| `Chatbot.SendKeepsConversation` | src/components/Chatbot.tsx:87-125 | every send keeps the conversation well formed: the welcome first, then non-blank user messages, each followed by the reply to it or the apology |

Two rows need more than one cell:

- **`Registry.Configure`** returns false and changes nothing when the id is
  unsupported or the config has no key. Otherwise:
  - it sets the records with the id to configured;
  - it gives them the kind's fixed services and billing and the config's key;
  - it leaves every other record unchanged.

  It then reports success iff storage is readable. On success storage maps
  the id to the config and every other key keeps its entry. On failure
  storage is unchanged.
- **`ConfigDialog.BuildConfig`** builds nothing iff the key is empty.
  Otherwise the config carries:
  - the key;
  - the region, only when the region field is non-empty;
  - `accountId`, only for aws and azure with a non-empty extra field;
  - `projectId`, only for gcp with a non-empty extra field.

## Left out

- Promises, `setTimeout` delays, toasts, console logging and rendering are left out. Every operation is one atomic step.
- The `configuring`, `isLoading` and `isRefreshing` flags are not modelled as state. The button rules take them as parameters.
- Replaying saved configs through `configureProvider` on login is left out (src/contexts/CloudIntegrationsContext.tsx:36-47). The replays start all at once with no ordering, so `Registry.Seed` only resets the records.
- The same-id configure race is left out. It needs interleaved async steps.
- JSON serialisation is abstracted. Storage is `Absent`, `Corrupt` or a map. Text that parses to a non-object value is not modelled.
- The billing cycle is a structured (year, month, first day, last day) value, not the locale-formatted string.
- A refresh-all reads the clock once, whereas the code reads it on every refresh. A run that crosses a month boundary is not modelled.
- `totalCharges` and `toLocaleString` are left out because they rely on `parseFloat` and floating point.
- `getProviderIcon`, HomePage, ServicesPage, DashboardPage, App routing, Navbar and PageLayout are left out. They are presentation or static content.
- The random `user_…` signup id is the `freshId` parameter of `Auth.Signup`.
- Auth.Login: password length counts Unicode characters, where the code counts UTF-16 code units. A password with characters outside the Basic Multilingual Plane can be counted shorter here.
- Auth.Signup: password length counts Unicode characters, not UTF-16 code units, as for `Auth.Login`.
- Auth.Restore: a `"user"` entry that is not valid JSON makes `JSON.parse` throw inside the mount effect (src/contexts/AuthContext.tsx:32), which the code does not catch. The model's stored value is always a parsed user, so that crash is not modelled. An entry that parses to something other than a user object is not modelled either.
- Calendar.DayZeroOfNextMonth: the `Date` constructor reads years 0 to 99 as 1900 to 1999, so `new Date(0, 2, 0)` is in February 1900 (28 days) where the model gives February of year 0 (29 days). The year comes from the clock, so only years of 100 or later are modelled faithfully.
- Chatbot.ReplyIgnoresCase: lowercasing covers ASCII letters only, not full Unicode case mapping.
- Chatbot.Send: a failed reply is the `replyFails` parameter. The code's reply function never rejects. Message ids, timestamps, scrolling and focus are left out.
- Registry.ConfiguredIds: the contract says every configured id is visited. It does not state the order or that no other id is visited. `Registry.RefreshAllUpdatesEligible` states the combined effect exactly.
