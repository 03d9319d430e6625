# uw-adfs access control and SAML proxy, modelled in Dafny

This project models the core of `uw-adfs`, a Laravel package for University of Waterloo sign-on through ADFS (Active Directory Federation Services) over SAML 2.0. Three parts are modelled:

- **Access control** (`AccessControlService`): an ordered, short-circuiting policy over the user's email, department and groups. It runs the whitelist, then blocked groups, then required groups, then department. The claims that feed it are looked up through configurable alias lists, and Distinguished-Name groups are reduced to their Common Name.
- **The SAML proxy broker** (`ProxyService`): the broker is an identity provider to downstream client applications and a service provider to the upstream ADFS.
  - It stores a client's request context in the session.
  - It forwards the user upstream with a relay state that points back at that context.
  - On return it applies access control and filters the attributes.
  - It answers the client with a response built from the stored context, then forgets the context.
- **Direct ADFS helpers** (`AdfsService`):
  - attribute mapping and the email requirement for user records;
  - the raw group list the group middleware uses;
  - metadata resolution (URL with cache and local fallback, or file) and extraction of the signing certificate.

## Modules

| file | module | contents |
|---|---|---|
| `results.dfy` | `Results` | `Option` (PHP `null` / unset keys, `??` as `GetOr`) and `Result` (thrown exceptions as `Err`) |
| `strings.dfy` | `Strings` | PHP builtins written out: `empty()` on strings, ASCII `strtolower`, `trim`, `implode`, `array_intersect`, `array_unique` |
| `claims.dfy` | `Claims` | claim values, `attribute_mapping` entries with aliases, the first-present-alias lookup, Distinguished-Name group normalisation |
| `access_control.dfy` | `AccessControl` | the four stage checks, the ordered decision with its audit trail, an order-free reference policy `Permits` that the decision is proved equal to, and the configured block whose missing toggles raise where they are read |
| `adfs.dfy` | `Adfs` | `mapAttributes`, the email check of `createOrUpdateUser`, `getUserGroups`, `userHasGroup` |
| `metadata.dfy` | `Metadata` | metadata source selection, URL fetch with cache and fallback, file load, certificate extraction |
| `proxy.dfy` | `Proxy` | mode gating, request validation and storage, the SAML settings build, relay state, upstream response handling, attribute filtering, response fields, delivery, proxy metadata |
| `proxy_flow.dfy` | `ProxyFlow` | the single sign-on and assertion consumer endpoints as steps of a state machine over the session and the metadata cache |

Effects become data:

- The Laravel session is a `map` from key to stored context.
- The clock is a `now: int` parameter.
- What the OneLogin SAML library reports about an upstream response (authenticated or not, name id, session index, attributes) is an input.
- Network, file system, URL validator and XML parser are a `World` value that says what each would answer.
- The metadata cache is a map threaded through the calls.
- Raised exceptions are `Err` values.
- Encoded relay states, XML responses and HTML forms are records.

## Where the code differs from the design

The model follows the code in each case below.

- **Stored proxy contexts do not expire.** The design describes an expiry. The stored `timestamp` (src/Services/ProxyService.php:58) is never read.
- **Receiving an upstream response only reads the stored context.** The design describes the lookup as consuming it. The context is removed only when the response is delivered (src/Services/ProxyService.php:126, 200-202). A failed or denied upstream response therefore leaves the context in place, and a later response for the same relay state can still be answered. `ProxyFlow.Acs` and `ProxyFlow.AtMostOneIssuance` state exactly this.
- **An enabled whitelist with no entries admits everyone.** The design, and the code's own comment at src/Services/AccessControlService.php:41-42, say the other rules then apply. In the code, `checkWhitelist` passes on an empty list (src/Services/AccessControlService.php:100-102). `isUserAuthorized` then returns "User is on the whitelist" at once (lines 35-38), and the fall-through guarded by line 43 is never reached. See `AccessControl.EmptyWhitelistAdmits`.
- **The proxy routes are not registered.** routes/web.php:37 is a single line comment that holds the whole `proxy` route group as literal `\n` text. The controller actions are modelled as if they were routed.
- **The shipped configuration refuses every proxied user.** config/uw-adfs.php has no `access_control` block, so the proxy hands access control `[]` (src/Services/ProxyService.php:138). `isUserAuthorized` reads `whitelist_enabled` without a default (src/Services/AccessControlService.php:31), which Laravel raises as an exception. Every upstream response that reaches access control is then answered with a failure. See `AccessControl.MissingBlockRaises` and `ProxyFlow.UnconfiguredFails`.
- **The proxy endpoints cannot work as written.** See "## Findings": every step that builds SAML settings calls a protected method of another class.

## Model

| member | source | states |
|---|---|---|
| Strings.Intersect | src/Services/AccessControlService.php:128 | a value is in the `array_intersect` result iff it is in both lists; the result is no longer than the first list |
| Strings.Dedup | src/Services/AccessControlService.php:266 | `array_unique` leaves no duplicates and the same set of values, never more entries than it was given |
| Claims.FirstPresent | src/Services/AccessControlService.php:227-242 | the alias tried is the first one whose claim is set and non-empty; none is found exactly when no alias is present |
| Claims.Lookup | src/Services/AccessControlService.php:215-245 | a field has a value iff it is mapped to a non-empty entry and some alias is present; the value is that of the first present alias and is never empty |
| Claims.ClaimText | src/Services/AccessControlService.php:215-245 | a single-valued field has a value iff the lookup finds one, and it is the first value of the claim under the first alias that is set and non-empty |
| Claims.NormalizeGroup | src/Services/AccessControlService.php:257-263 | a group matching `^CN=([^,]+),` becomes its captured Common Name; any string it changes was such a Distinguished Name |
| Claims.NormalizeGroupIdempotent | src/Services/AccessControlService.php:259-262 | normalising an already normalised group changes nothing |
| Claims.NormalizeGroups | src/Services/AccessControlService.php:250-267 | the result has no duplicates and holds exactly the normalised forms of the claim's groups (a single string counts as a one-element list) |
| Claims.ClaimGroups | src/Services/AccessControlService.php:218-233 | the groups access control sees are duplicate-free, empty when the groups field has no value, and otherwise exactly the normalised forms of the winning alias's groups |
| Claims.FacultyGroupExample | src/Services/AccessControlService.php:225-266 | with two group aliases of which only the second carries `CN=Faculty,OU=Groups`, the lookup falls through to it and access control sees exactly `["Faculty"]` |
| AccessControl.LowerAllMembership | src/Services/AccessControlService.php:104 | membership of the lower-cased email in the lower-cased list is case-insensitive membership |
| AccessControl.IntersectionWitness | src/Services/AccessControlService.php:125-130 | the lower-cased intersection is non-empty exactly when some user group occurs in the list, ignoring case |
| AccessControl.DepartmentMembership | src/Services/AccessControlService.php:197-200 | the trimmed, lower-cased department is in the trimmed, lower-cased list exactly when it matches an allowed department |
| AccessControl.CheckWhitelist | src/Services/AccessControlService.php:96-112 | passes iff the whitelist is empty or lists the email, ignoring case |
| AccessControl.CheckBlockedGroups | src/Services/AccessControlService.php:117-144 | passes iff no groups are blocked or no user group is blocked, ignoring case; a failure reason starts with "User belongs to blocked groups: " |
| AccessControl.CheckRequiredGroups | src/Services/AccessControlService.php:149-176 | passes iff no groups are required or the user shares one, ignoring case; a failure lists the required groups |
| AccessControl.CheckDepartment | src/Services/AccessControlService.php:181-210 | passes iff no departments are configured or the present, non-empty department matches one after trimming and lower-casing; a missing one is refused with "No department information provided by ADFS" |
| AccessControl.DepartmentStage | src/Services/AccessControlService.php:74-90 | stage 4 runs iff it is on, and the verdict is its outcome |
| AccessControl.RequiredStage | src/Services/AccessControlService.php:62-90 | stage 3 runs iff it is on; stage 4 runs only if stage 3 passed; the verdict is the conjunction |
| AccessControl.BlockedStage | src/Services/AccessControlService.php:50-90 | stage 2 runs iff it is on; each later stage runs only if every earlier one passed; the audit trail is in stage order and only its last entry can fail |
| AccessControl.Decide | src/Services/AccessControlService.php:31-90 | for a block with every toggle set: admits exactly when the order-free reference policy does. The reason is "User is on the whitelist" or "User passed all access control checks" on admission; on denial it is the failing stage's reason ("User not on whitelist" for the whitelist). An enabled whitelist is the only stage that runs, and any other stage runs iff it is on and all earlier stages passed |
| AccessControl.ExtractSubject | src/Services/AccessControlService.php:28-30 | the email is the `email` field's first value (default ""), the department the `department` field's, and the groups the normalised groups of the `groups` field |
| AccessControl.Authorize | src/Services/AccessControlService.php:31-90 | each toggle is read only when evaluation reaches it: the whitelist toggle always, the group toggle only with the whitelist off, the department toggle only after both group stages passed; a missing one reached is an undefined-key error naming it. A configured block always decides; a decision is the described policy's, and admission holds exactly when the order-free reference admission does |
| AccessControl.UnreadTogglesDoNotMatter | src/Services/AccessControlService.php:31-84 | when evaluation succeeds, any value for the toggles left unset gives the same decision, so reading them as off is sound |
| AccessControl.IsUserAuthorized | src/Services/AccessControlService.php:19-91 | a missing whitelist toggle raises; a configured block always decides; a decision authorises exactly when the reference policy admits the subject extracted from the claims, and the user is admitted exactly when the reference admission holds |
| AccessControl.MissingBlockRaises | src/Services/ProxyService.php:138-139 | without an `access_control` block every user is refused with the undefined `whitelist_enabled` key |
| AccessControl.BlockedBeforeRequired | src/Services/AccessControlService.php:50-72 | a user in a blocked group is denied with the blocked-group reason even when also lacking every required group, and neither later stage runs |
| AccessControl.WhitelistOverrides | src/Services/AccessControlService.php:31-47 | a non-empty enabled whitelist decides alone: listed emails are admitted, others refused, with a one-entry trail |
| AccessControl.EmptyWhitelistAdmits | src/Services/AccessControlService.php:31-48 | an enabled empty whitelist admits at once with "User is on the whitelist", and no other stage runs |
| Adfs.MapAttributes | src/Services/AdfsService.php:273-286 | a field is set iff its claim is present and non-empty, holding the claim's first value; only mapped fields appear |
| Adfs.CreateOrUpdateUser | src/Services/AdfsService.php:291-297 | user data is produced iff the mapped email is present and non-empty, and then holds exactly the supplied fields |
| Adfs.GetUserGroups | src/Services/AdfsService.php:310-320 | a groups field missing from `attribute_mapping` is an undefined-key error (line 312, raised as an exception); otherwise `[]` when the groups claim is absent, `[g]` for a single value, the list unchanged otherwise |
| Adfs.UserHasGroup | src/Services/AdfsService.php:325-329 | exact, case-sensitive membership in the raw group list; the lookup's undefined-key error propagates unchanged |
| Adfs.GroupsLookup | src/Services/AccessControlService.php:215-245 | with the groups field mapped to one claim name that is present, access control's alias lookup finds exactly that claim |
| Adfs.GroupViewsAgree | src/Services/AdfsService.php:310-329 | every raw group reaches access control as its normalised form, and access control sees no group that is not such a form |
| Metadata.LoadMetadataFromFile | src/Services/AdfsService.php:180-193 | a document is returned iff the file exists and is readable, and it is the file's content; a missing file is "not found" |
| Metadata.Fallback | src/Services/AdfsService.php:159-173 | after a failed fetch the local file is loaded when the fallback is on (default) and a file is configured; otherwise an error |
| Metadata.FetchMetadataFromUrl | src/Services/AdfsService.php:120-175 | a live cache hit is returned as is. Otherwise a reachable, well-formed document is returned and, with caching on, stored until now plus the duration. The cache only ever changes to store a fetched, well-formed document for its duration (default 3600 s). An unreachable URL or a non-empty body that is not well-formed XML goes to the fallback with the cache untouched. An empty body makes the parser throw a `ValueError`, which is not an `\Exception`: it escapes the fallback (line 147 against line 159) as an uncatchable error, cache untouched. The cache holds only well-formed documents |
| Metadata.CacheHitSkipsFetch | src/Services/AdfsService.php:125-127 | a cache hit gives the same result whatever the network would answer |
| Metadata.GetMetadataXml | src/Services/AdfsService.php:93-115 | "auto" fetches the configured URL if there is one and otherwise reads the configured file (or ""); any other source is fetched if it validates as a URL and read as a file path otherwise; the cache moves only through a fetch and stays sound |
| Metadata.ResolveMetadata | src/Services/AdfsService.php:93-115 | with the source chosen as `metadata_url ?? metadata_file ?? 'auto'` (line 42): a URL that validates (or "auto" with a URL) is fetched; a non-validating string is read as a file path; without a URL the file is read. Malformed metadata can only come from a file |
| Metadata.FirstCertificate | src/Services/AdfsService.php:81-87 | a document with certificates yields its first one, and one without yields "" |
| Metadata.ExtractCertificate | src/Services/AdfsService.php:67-88 | metadata errors propagate; empty metadata (`empty()`) gives ""; a non-empty document that does not parse is an error, because the parser's warning at line 76 is raised as an exception; a parsed document gives its first certificate or "" |
| Metadata.ResolveSigningCertificate | src/Services/AdfsService.php:42-43 | fails iff metadata resolution fails (with its error) or resolves to a non-empty document that does not parse (malformed metadata). The cache is the resolution's. Empty resolved metadata gives ""; a parsed document with certificates gives its first one; a non-empty certificate is always that |
| Metadata.MalformedRemoteFallsBack | src/Services/AdfsService.php:145-169 | a configured URL serving a non-empty, malformed body resolves to the local file; if that file is missing too, certificate resolution fails with "not found" |
| Metadata.EmptyRemoteEscapes | src/Services/AdfsService.php:139-159 | a configured URL serving an empty body, with no cache hit, fails certificate resolution with an error that is no exception and so is caught by nothing; the cache is unchanged |
| Metadata.MalformedFileRaises | src/Services/AdfsService.php:75-76 | a local metadata file that is non-empty but does not parse fails certificate resolution with malformed metadata, cache unchanged |
| Proxy.IsEnabled | src/Services/ProxyService.php:27-30 | the configured flag, off when unset |
| Proxy.Mode | src/Services/ProxyService.php:35-38 | the configured mode, "both" when unset |
| Proxy.BuildSamlConfig | src/Services/ProxyService.php:231-233 | as written, the call fails before it starts; as intended, it fails exactly when the signing certificate cannot be resolved (src/Services/AdfsService.php:36-43), with that error, and threads the metadata cache |
| Proxy.LocalMetadataResolves | src/Services/AdfsService.php:42 | a readable local metadata file that parses, configured without a URL, always resolves |
| Proxy.SessionKeyInjective | src/Services/ProxyService.php:61 | distinct request ids have distinct session keys |
| Proxy.ValidateClientRequest | src/Services/ProxyService.php:344-363 | accepts iff issuer, ACS URL and id are non-empty and, when the `clients` map is non-empty, the issuer is a key with a non-null configuration; errors in the order issuer, ACS URL, id, client |
| Proxy.HandleClientRequest | src/Services/ProxyService.php:43-70 | succeeds iff server mode is on and the request is acceptable. The context echoes the request and is stored under `proxy_client_<id>`, replacing any previous entry; no other entry changes. A well-formed session stays well-formed |
| Proxy.CorrelationId | src/Services/ProxyService.php:116-124 | a relay state that is missing or lacks the proxy marker, and only such a one, is refused as invalid; a missing `client_request_id` raises as an undefined key; a `null` one names ""; otherwise it names its client request id |
| Proxy.ForwardToUpstream | src/Services/ProxyService.php:75-95 | redirects iff client mode is on and the upstream settings are built; a failed build is reported as such. The relay state sent upstream leads back to the stored request id and keeps the client's relay state |
| Proxy.ExposedNames | src/Services/ProxyService.php:371-381 | the flattened names are exactly those some mapping entry lists |
| Proxy.FilterAttributes | src/Services/ProxyService.php:368-392 | keeps exactly the attributes whose names the mapping lists, values unchanged: a sub-map of the input |
| Proxy.FilterIdempotent | src/Services/ProxyService.php:383-391 | filtering twice equals filtering once |
| Proxy.ProcessUpstreamResponse | src/Services/ProxyService.php:109-165 | checks, in order: upstream authenticated, relay state valid, context stored, access granted. It succeeds iff all four hold (access granted meaning the policy can be read and admits the user). A policy that cannot be read raises its undefined key; a denied user gets the access-denied error carrying access control's reason. On success the context is the stored one, name id and session index pass through, and attributes are filtered unless filtering is off (it is on by default) |
| Proxy.HandleUpstreamResponse | src/Services/ProxyService.php:100-108 | a disabled proxy fails first, then a failed settings build, and only then is the response processed; a denied user never gets a result |
| Proxy.BuildSamlResponse | src/Services/ProxyService.php:267-339 | issuer is `<app url>/proxy`; Destination and Recipient are the stored ACS URL; InResponseTo is the stored request id; Audience is the client entity id; NotBefore is now − 60; NotOnOrAfter is now + session lifetime (default 3600) |
| Proxy.GenerateClientResponse | src/Services/ProxyService.php:170-191 | succeeds iff server mode is on and the client settings are built; the response answers the relayed context with the relayed name id and attributes |
| Proxy.SendResponseToClient | src/Services/ProxyService.php:196-226 | removes exactly the stored context's entry; posts the response to its ACS URL with its relay state (default "") |
| Proxy.GetProxyMetadata | src/Services/ProxyService.php:397-434 | needs server mode; entity id `<app url>/proxy`, single sign-on at `<app url>/saml/proxy/sso` and logout at `<app url>/saml/proxy/sls`; a signing key is published iff the certificate is non-empty |
| ProxyFlow.Answer | src/Http/Controllers/ProxyController.php:41-46 | an exception becomes a failure reply; the refused protected call and the parser's `ValueError` are no exceptions and are not caught |
| ProxyFlow.SsoAction | src/Http/Controllers/ProxyController.php:25-47 | redirects upstream iff server and client modes are on, the request is acceptable and the upstream settings are built; crashes iff that build fails with an error that is no exception. The context is stored whenever the request is taken, even if forwarding fails; otherwise the session is unchanged |
| ProxyFlow.AcsAction | src/Http/Controllers/ProxyController.php:52-77 | posts to a client iff server mode is on, the upstream response is accepted and both settings builds succeed, answering the stored context; as written it crashes whenever the proxy is on, as intended only on metadata that does not always resolve. Only a delivered response removes the context |
| ProxyFlow.Sso | src/UwAdfsServiceProvider.php:20-26 | a request first builds the `AdfsService` singleton the controller needs (src/Http/Controllers/ProxyController.php:16), whose constructor resolves the metadata (src/Services/AdfsService.php:18-43). If that fails the request crashes with the session unchanged, even with the proxy off; otherwise the action runs on the cache it left and redirects iff the action would |
| ProxyFlow.Acs | src/UwAdfsServiceProvider.php:20-26 | as for single sign-on, a metadata failure while the controller is built crashes the request with the session unchanged; a response reaches only an admitted user and answers the stored context; an intended-build crash implies the metadata does not always resolve |
| ProxyFlow.AsWrittenNeverAnswers | src/Services/ProxyService.php:231-233 | with the protected call as written, single sign-on never redirects and the consumer endpoint never posts. Metadata that fails at construction crashes both with the session unchanged; otherwise an accepted request is stored, then crashes, and an enabled consumer endpoint crashes |
| ProxyFlow.IssuerIsPublished | src/Services/ProxyService.php:397-405 | the issuer of every delivered response is the entity id the published metadata advertises, and that metadata is available |
| ProxyFlow.DeniedNeverPosts | src/Services/ProxyService.php:138-143 | a user access control does not admit (refused, or the policy unreadable) never reaches the client, and the pending context stays |
| ProxyFlow.UnconfiguredFails | src/Services/ProxyService.php:138-139 | with no `access_control` block, an authenticated user whose relay state names a stored request is answered with the undefined-key failure, not a crash, and the request stays stored |
| ProxyFlow.AtMostOneIssuance | src/Services/ProxyService.php:200-202 | in a session whose every entry sits under its own request id's key (as the broker builds it), once a response has been delivered for a relay state, presenting that relay state again never delivers another |
| ProxyFlow.AcceptedActionIsSent | src/Services/ProxyService.php:43-95 | when the upstream settings build, the single sign-on action sends an acceptable request upstream with a relay state naming it, and stores it beside every other entry |
| ProxyFlow.AcceptedIsSent | src/Services/ProxyService.php:43-95 | with the settings builder callable and metadata that resolves, an acceptable request goes upstream with a relay state naming its id, and is stored under its key with every other entry kept |
| ProxyFlow.AdmittedIsDelivered | src/Services/ProxyService.php:100-226 | with the settings builder callable and metadata that resolves, an admitted user's response carrying the relay state that was sent for a stored context is delivered |
| ProxyFlow.RoundTrip | src/Http/Controllers/ProxyController.php:25-77 | with the settings builder callable and metadata that resolves, and both modes on, an acceptable request for an admitted user is answered to its own client: its ACS URL and relay state, its id in InResponseTo, its issuer as audience; the context is gone afterwards |

## Findings

| source | as written | input that shows it | evidently intended | confidence | as-written member | corrected member |
|---|---|---|---|---|---|---|
| src/Services/ProxyService.php:233 | `buildUpstreamSettings` and `buildClientSettings` (lines 233, 254) call `$this->adfsService->buildSamlConfig()`. That method is `protected` (src/Services/AdfsService.php:36) and `ProxyService` does not extend `AdfsService`, so PHP raises an `Error`. The controller's `catch (\Exception $e)` (src/Http/Controllers/ProxyController.php:41, 71) does not catch an `Error` | proxy enabled in mode "both" and any acceptable request to the single sign-on action; or any request to the assertion consumer action | the settings are built, and a metadata failure inside them is reported like any other exception | not executed | ProxyFlow.AsWrittenNeverAnswers | ProxyFlow.RoundTrip |

The corrected reading is `Proxy.BuildSamlConfig` with `Accessible`. It resolves the signing certificate and passes a metadata error on as `SettingsUnavailable`, so the endpoint answers it as a failure (except the empty-body `ValueError`, which no `catch (\Exception)` catches). `ProxyFlow.RoundTrip` proves that this reading answers the client, given metadata that resolves (`Proxy.LocalMetadataResolves` gives one such configuration).

## Left out

- OneLogin SAML library calls (`Auth::login`, `processResponse`, `getAttributes`, `getErrors`, `getSPMetadata`, `Utils::generateUniqueID`): the upstream outcome and attributes are inputs, and response and assertion ids are not modelled.
- Base64, JSON, gzinflate and DOM/XPath parsing, XML and HTML templating, `htmlspecialchars`: relay states, requests, responses and forms are records, and a metadata document is its text plus whether it parses and its certificate values.
- `parseSamlRequest` (src/Http/Controllers/ProxyController.php:159-212): its fields are the `ClientRequest` input, and its own missing-issuer/id error is subsumed by request validation.
- Logging, `logAccessDecision`, the status endpoint and the single logout endpoint: no decision depends on them.
- The contents of the SAML settings arrays built by `buildSamlConfig`, `buildUpstreamSettings` and `buildClientSettings`: only whether they can be built, and the certificate resolution that can make that fail, is modelled.
- HTTP timeout, user agent and redirects of the metadata fetch, and the `md5` cache key: the cache is keyed by URL directly.
- `updateOrCreate` in `createOrUpdateUser`: persistence is not modelled, only the email check before it.
- PHP's loose `in_array` comparison (numeric strings comparing equal): membership is exact string equality throughout.
- Claim values other than strings and lists of strings (null, numbers, nested arrays).
- The `checks` audit trail is a sequence of stage records in evaluation order rather than an array keyed by stage name. The detail fields of each check (`checked_email`, `matched_groups`, ...) are not kept.
- Adfs.MapAttributes and Adfs.GetUserGroups: configuration entries that are alias lists are not modelled for these, since they index the claims with the entry itself; the alias-aware reading is `Claims.Lookup`.
- AccessControl.CheckBlockedGroups: a failure reason is stated only by its prefix; the offending groups listed after it are not described.
- AccessControl.CheckDepartment: the reasons for a present department ("Department '…' is allowed" / "… is not in allowed list: …") are not described.
- Proxy.BuildSamlResponse: the source reads the clock three times; the model uses one `now` for IssueInstant, NotBefore and NotOnOrAfter.
- Metadata.FetchMetadataFromUrl: a non-positive cache duration stores an entry that is never a hit, rather than storing nothing.
- Proxy.ForwardToUpstream: the relay state is taken to survive its encoding, so the round trip is promised for every context. `json_encode` (src/Services/ProxyService.php:86) fails on a client relay state that is not valid UTF-8, and the upstream relay state is then empty and refused on return (lines 119-121). Model strings are sequences of characters and cannot express invalid UTF-8, so the round trip holds only for relay states that are valid UTF-8.
- Proxy.ValidateClientRequest: a client's configuration is reduced to whether it is null, which is all `isset` looks at.
- ProxyFlow.Sso, ProxyFlow.Acs: session writes are taken to persist. Both `forwardToUpstream` and `sendResponseToClient` end in `exit()` (src/Services/ProxyService.php:94, 225). Laravel saves the session in middleware after the controller returns, so the stored context and its removal may never be saved. Whether they are depends on the session driver and shutdown handling, which are not modelled.
- Proxy.HandleClientRequest, Proxy.SendResponseToClient, ProxyFlow.Sso, ProxyFlow.Acs: the session is a flat map from `proxy_client_<id>` to a context. Laravel's session store reads a dot in a key as nesting, so an id containing "." is stored inside the array under the key before the first dot. Writing it can then replace a non-array entry there, and removing it leaves that key in place. For such ids "no other entry changes" and "exactly that entry is removed" are not promised by the code; the model keeps keys flat.
- `new Auth($samlConfig)` (src/Services/AdfsService.php:30): the SAML library's own validation of the settings it is handed is not modelled; construction fails in the model only through metadata resolution.
- ProxyFlow.RoundTrip, ProxyFlow.AtMostOneIssuance: both rest on the same assumption that the session written before `exit()` persists. Without it the context may be missing on return, or may survive its delivery.
- Strings.Intersect: the order and repetitions of the result (those of the first list) are not stated; only membership and length are.
- Strings.Dedup: that the first occurrences are kept in their original order is not stated; only membership, absence of duplicates and length are.
