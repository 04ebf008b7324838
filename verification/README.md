# frp-warden: the authorization control plane, verified

frp-warden decides which frpc clients may use which public subdomains and ports of an frps server.
Administrators register tenants, domain zones, resources, grants and proxies through one HTTP server; frps
asks a second one, running at the same time over the same database connection, whether a client may log in,
register a proxy, or stay connected; and the administrator's server prints each tenant's `frpc.toml`.

The project models that system in Dafny and proves what it is for:

* **State and steps.** `Tables.dfy` holds the five tables with their UNIQUE keys and every SQL statement the
  store sends. `Machine.dfy` is the whole system as a state machine whose steps are single SQL statements:
  any number of requests in flight, each a program counter with the values it has read so far, interleaved in
  any order, each possibly aborted by an error. `Safety.dfy` proves the invariant that every step of every
  interleaving keeps.
* **Whole runs.** `Trace.dfy` (the steps of one handler inside a run), `Ownership.dfy` (one endpoint, one
  tenant, for ever; exactly what the reads of an allowed request saw), `Revocation.dfy` (a lost
  permission always has one of six causes), `Isolation.dfy` (other tenants cannot disturb a tenant),
  `Creation.dfy` (the exact effect of a grant and of a proxy), `Ports.dfy` (canonical and bounded ports).
  `Outcomes.dfy` says in literal strings, numbers and rows what each request comes to when it is served alone,
  with the error for every way to fail.
  `Races.dfy` shows by runs what interleaving breaks, and `Interleaving.dfy` exactly when it does.
* **Decision and configuration.** `Plugin.dfy` gives the NewProxy decision and the relational formula it is
  equivalent to; `Join.dfy`, `TenantConfig.dfy` and `Agreement.dfy` show that the three-table join behind the
  configuration selects exactly what the decision allows. `Toml.dfy`, `FrpcConfig.dfy`, `Generator.dfy` and
  `RoundTrip.dfy` print the file and read it back; `FileRows.dfy` says which row each entry shows, and
  `EndToEnd.dfy` closes the circle from a token reset or a
  registration to allowed proxies, in every interleaving.
* **The objects.** `Store.dfy` and `Handlers.dfy` are the Go objects as classes with methods that read and
  write statement by statement, each proved to leave the tables and return the result that the state machine's
  handler does when it runs without interference (`Sequential.dfy` says what those results are).
* **Two smaller cores.** `Migrate.dfy` is the migration runner over a database whose calls may fail anywhere,
  and `Paths.dfy` the path splitter, the id parser and the tenant dispatcher.

Password hashing is a function parameter (`verify`); clocks, generated tokens, hashes and query results are
arguments. A Go string is the sequence of its code points.

## Where the documentation and the code differ

* `docs/FRP_PLUGIN.md:79` says that internal errors let a request pass; the code rejects
  (`internal/plugin/ops.go:100-102`). The model rejects.
* `internal/store/proxy.go:57-58` says that a proxy's resource must be granted and enabled; the check and the
  insert are separate statements, so an interleaving can insert a proxy whose grant has been disabled
  (`Races.StaleInsertRun`). At the insert the grant is enabled if and only if it was kept enabled since the
  check (`Interleaving.InsertSeesLiveGrant`); in every interleaving it exists and belongs to the proxy's tenant.
* `internal/admin/tenants.go:171` gives segment 3 as the position of the id; its callers pass 2.

## Model

| member | source | states |
|---|---|---|
| Safety.RunOk | internal/db/migrate.go:77-144 | in every state of every interleaving the ids are fresh, every UNIQUE key holds, ports are canonical, grants refer to existing rows, every proxy has its own tenant's grant and a fitting type, and every request in flight still satisfies what it relies on |
| Safety.RunEvolves | internal/store/resource.go:128-142 | over any stretch of a run rows only appear; owner, type, name and value columns never change |
| Safety.ExecOk | internal/store/grant.go:24-62 | each statement of each handler keeps the invariant and leaves its handler with the facts its next statement needs, although other statements run in between |
| Safety.HandlerStaysOk | internal/store/proxy.go:61-113 | what a handler has read stays usable whatever the others do, because the checked facts are stable |
| Safety.OwnerIsUnique | internal/store/grant.go:41-56 | no two tenants hold the grant behind one public endpoint |
| Ownership.ProxiesAlwaysGranted | internal/store/proxy.go:76-108 | in every interleaved state a proxy's resource has exactly one grant, owned by the proxy's tenant, and the proxy's type is valid and fits |
| Ownership.ExclusiveAtInstants | internal/plugin/ops.go:97-127 | requests for one endpoint allowed at any two moments of a run name the same tenant, whatever was disabled, enabled or reset in between |
| Ownership.ExclusiveWhenInterleaved | internal/plugin/ops.go:72-168 | the same for two requests whose own reads interleave with anything |
| Ownership.UnreachableWhenInterleaved | internal/plugin/ops.go:114-116 | no interleaving produces the answers "not granted to this tenant" or "type mismatch" |
| Ownership.AllowedIffReads | internal/plugin/ops.go:79-127 | an interleaved request is allowed if and only if its own four statements, one after the other, read an enabled tenant with a matching token, its enabled proxy of the requested type, that proxy's available and matching resource, and that tenant's enabled grant of it |
| Ownership.ReadsFollowArrival | internal/plugin/ops.go:78-97 | all four of those statements run after the request arrived |
| Ownership.LateRequestRefused | internal/plugin/ops.go:79-124 | a request that arrives once its tenant, token, proxy, resource or grant has been revoked is refused for as long as that stays so |
| Ownership.AnswerReads | internal/plugin/ops.go:44-56 | an interleaved Login or Ping answers as the Login decision of the state its own first statement read, and rejects when a statement fails |
| Trace.LastStep | internal/server/server.go:71-82 | wherever a handler stands in an interleaving, one step of its own, a statement or its failure, brought it there and nothing moved it since |
| Interleaving.CellStands | internal/store/grant.go:106-120 | a status, of a zone as well, or a token hash that was good at one moment of a run is good at a later one if and only if every statement that spoiled it in between was followed by one that restored it |
| Interleaving.InsertSeesLiveGrant | internal/store/proxy.go:81-101 | each proxy is inserted after its own handler saw its grant enabled, and at the insert the grant is still enabled if and only if it was kept so in between |
| Interleaving.DisabledZoneRefuses | internal/store/resource.go:47-55 | in every interleaving a subdomain whose handler reads a zone that was disabled before is refused there if and only if the zone was kept so, that is, the last statement on its status in between did not enable it |
| Interleaving.DisabledZoneStays | internal/store/domain_zone.go:86-100 | so it is refused until some statement enables the zone |
| Interleaving.InsertSeesEnabledZone | internal/store/resource.go:47-60 | each subdomain is inserted after its own handler saw its zone enabled, and at the insert the zone is still enabled if and only if it was kept so in between |
| Interleaving.AllowedInWorld | internal/plugin/ops.go:79-127 | whatever moment of a run is taken, its state allows an allowed request if and only if each of the five values it depends on stands there: kept good since the request's own read of it, or already good before that read |
| Interleaving.AllowedByOneState | internal/plugin/ops.go:79-127 | some one state between any two moments, such as arrival and answer, allows an allowed request if and only if all five values stand together at some moment between them |
| Interleaving.UndisturbedIsSnapshot | internal/plugin/ops.go:79-127 | if nothing touches the tenant's rows while a request is answered, its answer is the decision of the state its first statement saw, or an internal error when one of its statements failed |
| Races.StaleInsertRun | internal/store/proxy.go:81-101 | any run that could register a proxy can go on so that its insert runs while the tenant's grant on the resource is disabled, and succeeds |
| Races.TornReadRun | internal/plugin/ops.go:79-127 | any run that entitles a request can go on so that it arrives and is allowed although no state from its arrival to its answer allows it |
| Races.StaleInsertHappens | internal/store/proxy.go:61-113 | from the empty database there is a run with such an insert |
| Races.TornReadHappens | internal/plugin/ops.go:72-128 | from the empty database there is a run with such an allowed request |
| Races.RacesExist | internal/db/db.go:82-86 | one run with such an insert and one with such a request, for one tenant with one port, spelled out |
| Revocation.RevokedExactly | internal/plugin/ops.go:104-127 | one statement turns an allowed request into a rejected one if and only if it disables one of its four rows or stores a token hash that no longer matches |
| Revocation.RevocationHasCause | internal/store/tenant.go:99-109 | if a request is allowed in one state of a run and rejected in a later one, such a statement on its own rows ran in between |
| Isolation.StepIsolated | internal/store/grant.go:41-56 | a statement that does not touch a tenant leaves its row, proxies, grants and granted resources as they were |
| Isolation.SameAnswers | internal/plugin/plugin.go:113-126 | states that look the same to a tenant give the same Login and NewProxy answers for its code |
| Isolation.SamePing | internal/plugin/ops.go:180-193 | and the same Ping answers |
| Isolation.SameConfig | internal/admin/frpc_config.go:98-145 | and the same configuration text |
| Isolation.IsolationOverRuns | internal/store/auth_context.go:46-55 | over any run that does not touch a tenant, every Login, NewProxy and Ping answer for it and its configuration text stay the same |
| Creation.GrantChangesNoDecision | internal/store/grant.go:24-62 | no statement of granting a resource changes any answer to any NewProxy request |
| Creation.ProxyChangesOwnDecisions | internal/store/proxy.go:98-113 | inserting a proxy changes an answer only for its own tenant and name, which were unknown before |
| Creation.ProxyAddsOneTriple | internal/plugin/ops.go:97-127 | all requests a new proxy lets through share one name, type and endpoint |
| Plugin.AllowedIffEntitled | internal/plugin/ops.go:72-168 | NewProxy allows a request if and only if four rows satisfy one relational formula |
| Plugin.UnreachableRejections | internal/plugin/ops.go:114-116 | under the invariant two of NewProxy's rejections and its internal error never occur |
| Plugin.WrongTokenLooksUnknown | internal/plugin/plugin.go:101-127 | a wrong token is answered exactly as an unknown tenant, unless the tenant is disabled, which is told whatever the token |
| Plugin.LoginIff | internal/plugin/ops.go:44-56 | Login allows exactly the users whose enabled tenant has a hash that the token matches |
| Join.JoinMatchesLookups | internal/store/auth_context.go:62-76 | a row is in the join exactly when the separate lookups by its name return it with everything enabled |
| Join.QueryResultAscending | internal/store/auth_context.go:76 | the rows come in strictly ascending name order, without duplicates |
| Join.QueryResultUnique | internal/store/auth_context.go:62-76 | the query has exactly one possible answer |
| Text.LessIff | internal/store/auth_context.go:76 | the order of names: a proper prefix first, otherwise the smaller character at the first difference |
| Join.ScanContexts | internal/store/auth_context.go:82-99 | the scanning loop yields one context a row, in order, each with its grant |
| Agreement.ConfigAgreesWithDecision | internal/admin/frpc_config.go:107-134 | for an enabled tenant with its token and no custom domains, NewProxy allows exactly the name, type and endpoint triples its configuration lists |
| Agreement.ConfigNeverFails | internal/admin/frpc_config.go:113-144 | under the invariant every stored port parses, every entry is writable, and a file is always produced |
| Agreement.EntryBuilds | internal/admin/frpc_config.go:115-131 | each joined row becomes a writable entry that carries its proxy's name, type, local address and local port and its resource's value |
| Agreement.ParsePortIff | internal/frpcconfig/generator.go:104-113 | a text is read as a port exactly when, white space around it aside, it denotes a number in 1..65535 |
| FileRows.EntriesShowRows | internal/store/auth_context.go:62-76 | the entries are exactly the tenant's enabled proxies whose resource is available and granted to it with an enabled grant, in the order of their names, each with its local address, local port and endpoint |
| Agreement.TextDependsOnContents | internal/store/auth_context.go:62-76 | two databases that hold the same rows up to a renumbering of ids, in whatever order they were inserted, give the same configuration text |
| TenantConfig.GenerateForTenant | internal/admin/frpc_config.go:98-145 | the loop over the contexts and the generator yield the specified file, or nothing when an entry cannot be built or written |
| Toml.TomlString | internal/frpcconfig/generator.go:88-96 | five successive replacements, wrapped in quotes, are the character-by-character escape |
| Toml.FiveReplacementsEscape | internal/frpcconfig/generator.go:88-96 | the replacements do not disturb one another |
| Toml.QuoteRoundTrip | internal/frpcconfig/generator.go:88-96 | reading the printed string gives it back if and only if it has no control characters but newline, return and tab |
| Toml.QuoteInjective | internal/frpcconfig/generator.go:88-96 | different strings are printed differently, whatever characters they contain |
| Toml.QuoteStaysOnOneLine | internal/frpcconfig/generator.go:88-96 | a printed string has no raw line break |
| Generator.Generate | internal/frpcconfig/generator.go:42-85 | succeeds exactly when every entry is http or https with a subdomain or tcp or udp with a port in 1..65535, with exactly the specified lines; otherwise it reports the first entry that is not and why |
| FrpcConfig.HeaderSpelled | internal/frpcconfig/generator.go:45-54 | the head of the file line by line |
| FrpcConfig.EntrySpelled | internal/frpcconfig/generator.go:62-80 | the lines of an entry, keys spelled out |
| Generator.WriteEntry | internal/frpcconfig/generator.go:62-82 | one entry adds exactly its block of lines, or fails with its own fault |
| Generator.WriteEntries | internal/frpcconfig/generator.go:61-83 | the loop adds the blocks in order and stops at the first faulty entry |
| Generator.FirstFaultLocated | internal/frpcconfig/generator.go:68-81 | the reported fault is that of the first faulty entry |
| RoundTrip.ConfigRoundTrip | internal/frpcconfig/generator.go:42-85 | reading a generated file gives the configuration back, each entry with the endpoint field its type uses, if and only if its strings are plain |
| Agreement.ParsePortOfItoa | internal/frpcconfig/generator.go:104-113 | every canonical port text parses back to its number |
| EndToEnd.ConfigReadsBack | internal/admin/frpc_config.go:98-145 | for strings without control characters but newline, return and tab, the configuration text of a state reads back as its server, identity and entries |
| EndToEnd.FileShowsRows | internal/admin/frpc_config.go:98-145 | the file, read back, shows the server, the identity and, row by row, those proxies and nothing else |
| EndToEnd.TemplateShowsRows | internal/admin/frpc_config.go:16-46 | so does the template, with the placeholder for the token |
| EndToEnd.ResetConfigWorks | internal/admin/tenants.go:120-156 | for an enabled tenant and strings without control characters but newline, return and tab, the file returned by a token reset served without interference, read as TOML, shows the rows it was built from, logs in and has every proxy it lists allowed |
| EndToEnd.InterleavedConfigWorks | internal/admin/tenants.go:48-83 | the same, on the same conditions, for a reset or a registration served concurrently with anything, as long as nothing touches its tenant and none of its own statements fails, in the state in which it is answered |
| EndToEnd.ResetStoresHash | internal/admin/tenants.go:132-139 | the first statement of a reset stores the hash and leads to where InterleavedConfigWorks starts |
| EndToEnd.RegistrationStoresHash | internal/admin/tenants.go:55-60 | so does the first statement of a registration |
| EndToEnd.FileReads | internal/admin/frpc_config.go:82-90 | an interleaved file is that of the state its join read, with the tenant's code; the file is missing only when the join failed, and the code only when the read before it did |
| EndToEnd.InterleavedFileWorks | internal/admin/tenants.go:146-152 | any file of any run whose strings have no control characters but newline, return and tab shows the rows of the state its join read, and works there if and only if it carries the tenant's code, the tenant is enabled and its hash matches the token |
| Ports.PortIsCanonical | internal/store/resource.go:63-76 | a stored port is the decimal text of a number in 1..65535 |
| Text.AtoiIff | internal/admin/resources.go:88-92 | exactly an optional sign followed by decimal digits is read as a number, with its positional value, within 64 bits |
| Text.TrimSpaceSplits | internal/store/proxy.go:71 | trimming removes Unicode white space at both ends, all of it and nothing else |
| Text.DecimalIsItoa | internal/plugin/ops.go:151 | the text of a natural number is its decimal, digits without leading zeros |
| Ports.SameNumberSamePort | internal/store/resource.go:79-87 | two port resources of one type never have the same number |
| Ports.ResourceInsertAlone | internal/store/resource.go:79-94 | a resource is inserted exactly when no other has its type and value, as one available row |
| Ports.PortTextAlone | internal/admin/resources.go:88-100 | any typed text becomes a row with the canonical text of its number, or fails for the stated reason, not being a number included; texts collide exactly when their numbers do |
| Outcomes.PortTextOutcome | internal/admin/resources.go:88-100 | a typed port that, white space around it aside, is not an optional sign and decimal digits with a value of 64 bits changes nothing and is told to be no number; any other is the request for the number it denotes |
| Outcomes.PortOutcome | internal/store/resource.go:63-94 | numbers outside 1..65535 and numbers in use are refused; otherwise the row has the decimal text of the number |
| Outcomes.PortExamples | internal/admin/resources.go:88-92 | "abc" is no number, 0 and 65536 are out of range, 1 and 65535 become rows |
| Ports.PaddingIsIgnored | internal/admin/resources.go:88 | any number of leading zeros and any surrounding white space give the same request |
| Ports.PortAlone | internal/store/resource.go:63-76 | a port is created exactly when it is in range and its number is not taken |
| Outcomes.SubdomainOutcome | internal/store/resource.go:34-60 | a blank value, no enabled zone at all, a missing zone, a disabled zone and a value in use are told apart, in this order; otherwise one available row is added |
| Ports.PortsBounded | internal/store/resource.go:63-94 | no run ever holds more than 65535 TCP or 65535 UDP port resources |
| Sequential.NewProxyAlone | internal/plugin/ops.go:72-168 | without interference the answer is the decision of the one state all four reads see |
| Sequential.LoginAlone | internal/plugin/ops.go:44-56 | Login reads once and answers as the decision of that state, and writes nothing |
| Sequential.PingAlone | internal/plugin/ops.go:180-193 | Ping answers as Login does and writes only the time the tenant was last seen |
| Outcomes.TenantOutcome | internal/store/tenant.go:35-54 | a code or name of white space only or an empty hash, then a code in use, are refused; otherwise exactly that enabled row is added |
| Outcomes.ZoneOutcome | internal/store/domain_zone.go:22-41 | a name or zone of white space only, then a zone in use, are refused; otherwise exactly that enabled row is added |
| Sequential.RegisterAlone | internal/admin/tenants.go:55-83 | registering creates the tenant under the same conditions and returns its file with the plain token |
| Outcomes.RegisterRefused | internal/admin/tenants.go:55-74 | registering fails exactly as the store's creation does |
| Outcomes.BlanksRefused | internal/store/proxy.go:62-64 | a name of nothing but blanks is no name |
| Outcomes.GrantOutcome | internal/store/grant.go:24-62 | a missing or disabled tenant, a missing or disabled resource and an existing grant are told apart, in this order; otherwise exactly that enabled row is added |
| Outcomes.ProxyOutcome | internal/store/proxy.go:61-113 | each of the seven refusals exactly in its case and in the order of the checks, types and endpoint kinds spelled out; otherwise exactly the new enabled row is added, with the local address that was given |
| Outcomes.AddressOutcome | internal/store/proxy.go:71-74 | the stored local address is the given one without the white space around it, and 127.0.0.1 for a blank one |
| Outcomes.RegisteredIsAllowed | internal/plugin/ops.go:72-168 | a proxy that has just been registered, of any of the four types, is allowed for its tenant, token and endpoint |
| Outcomes.StrangerReason | internal/plugin/plugin.go:105-122 | a user without a tenant is told that the user is missing, that the token is missing, or that the credentials are wrong |
| Outcomes.LoginReasons | internal/plugin/plugin.go:108-127 | the answer to Login for a tenant: missing token, disabled, wrong token, allowed, in this order |
| Outcomes.PingReasons | internal/plugin/ops.go:180-193 | the same for Ping, which, when it allows, writes the time into that row alone |
| Outcomes.TenantReasons | internal/plugin/ops.go:72-102 | the first seven reasons to reject a NewProxy request, each exactly in its case over the tables |
| Outcomes.ProxyReasons | internal/plugin/ops.go:104-167 | the other eight that can occur, over the registered proxy, its resource and its grant; without any of them the request is allowed |
| Outcomes.AbortFailsClosed | internal/plugin/ops.go:100-102 | a statement that fails makes the plugin reject with an internal error; elsewhere it is an internal error or a missing file |
| Outcomes.FailedFileQuery | internal/admin/frpc_config.go:82-90 | a reset or registration whose query fails still answers, with its token and without a file |
| Outcomes.FailedTemplateQuery | internal/admin/frpc_config.go:31-36 | a template whose query fails is an internal error |
| Sequential.ResetAlone | internal/admin/tenants.go:120-156 | a reset stores the hash and returns the file for the rows as they then are, with the plain token |
| Outcomes.TokenHashOutcome | internal/store/tenant.go:104-109 | an empty hash and a missing tenant are refused; otherwise that row gets exactly this hash and every other row stays |
| Outcomes.TenantStatusOutcome | internal/store/tenant.go:99-101 | that tenant gets exactly this status and every other row stays, or the tenant is missing |
| Outcomes.ZoneStatusOutcome | internal/store/domain_zone.go:86-100 | the same for a zone |
| Outcomes.ResourceStatusOutcome | internal/store/resource.go:128-142 | the same for a resource |
| Outcomes.GrantStatusOutcome | internal/store/grant.go:106-120 | the same for a grant |
| Outcomes.ProxyStatusOutcome | internal/store/proxy.go:173-187 | the same for a proxy |
| Outcomes.ZoneStatusDecides | internal/store/resource.go:39-57 | after a zone is disabled a subdomain in it is refused, and after it is enabled it is not refused for its zone |
| Sequential.GetConfigAlone | internal/admin/frpc_config.go:16-46 | an existing tenant gets its file with a placeholder for the token, and nothing is written |
| Outcomes.TemplateHidesHash | internal/admin/frpc_config.go:16-46 | the template does not depend on the stored token hash |
| Sequential.ServeOk | internal/store/store.go:20-22 | any request served without interference keeps the invariant |
| Stores.Store.CreateTenant | internal/store/tenant.go:35-54 | tables and result are those of the state machine's handler run alone |
| Stores.Store.GetTenantByCode | internal/store/tenant.go:68-76 | finds the one row with this code, or says that there is none |
| Stores.Store.UpdateTenantStatus | internal/store/tenant.go:99-101 | changes that row's status, or reports that the tenant is missing |
| Stores.Store.UpdateTenantTokenHash | internal/store/tenant.go:104-109 | refuses an empty hash, otherwise changes that row's hash |
| Stores.Store.UpdateTenantLastSeen | internal/store/tenant.go:113-127 | changes only the time that tenant was last seen |
| Stores.Store.CreateDomainZone | internal/store/domain_zone.go:22-41 | tables and result are those of the state machine's handler run alone |
| Stores.Store.UpdateDomainZoneStatus | internal/store/domain_zone.go:86-100 | changes that zone's status, or reports that it is missing |
| Stores.Store.CreateSubdomainResource | internal/store/resource.go:34-60 | tables and result are those of the state machine's handler run alone |
| Stores.Store.CreatePortResource | internal/store/resource.go:63-76 | the same, for a TCP or a UDP port |
| Stores.Store.InsertNewResource | internal/store/resource.go:79-94 | inserts and reads back the row, or reports the duplicate |
| Stores.Store.UpdateResourceStatus | internal/store/resource.go:128-142 | changes that resource's status, or reports that it is missing |
| Stores.Store.GetGrantByResource | internal/store/grant.go:75-83 | finds the one grant on the resource, or says that there is none |
| Stores.Store.InsertNewGrant | internal/store/grant.go:48-61 | inserts and reads back the row, or reports that the resource is granted already |
| Stores.Store.GrantResourceToTenant | internal/store/grant.go:24-62 | three reads and an insert leave the tables and return the result of the state machine's handler run alone |
| Stores.Store.UpdateGrantStatus | internal/store/grant.go:106-120 | changes that grant's status, or reports that it is missing |
| Stores.Store.CreateProxy | internal/store/proxy.go:61-113 | checks, two reads and an insert leave the tables and return the result of the state machine's handler run alone |
| Stores.Store.InsertNewProxy | internal/store/proxy.go:98-112 | inserts and reads back the row, or reports the duplicate name |
| Stores.Store.GetProxyByTenantAndName | internal/store/proxy.go:122-133 | finds the tenant's one proxy of this name, or says that there is none |
| Stores.Store.UpdateProxyStatusByID | internal/store/proxy.go:173-187 | changes that proxy's status, or reports that it is missing |
| Stores.Store.GetProxyAuthContext | internal/store/auth_context.go:30-57 | the lookup chain returns the proxy with its resource and, if there is one, its grant, and fails exactly when one of the reads it sends does |
| Stores.Store.ListEnabledProxyAuthContextsByTenant | internal/store/auth_context.go:62-100 | returns the join's rows in name order, or fails when the query does |
| Handlers.PluginHandler.AuthTenant | internal/plugin/plugin.go:105-127 | the early returns compute the identity check on the unique row, or an internal error when its read fails |
| Handlers.PluginHandler.HandleLogin | internal/plugin/ops.go:44-56 | allows exactly the users whose enabled tenant has a hash that the token matches, and nobody when the read fails |
| Handlers.PluginHandler.HandleNewProxy | internal/plugin/ops.go:72-128 | allows exactly the entitled requests none of whose reads fails, and otherwise rejects as the decision function or with an internal error |
| Handlers.PluginHandler.HandlePing | internal/plugin/ops.go:180-193 | tables and answer are those of the state machine's handler run alone; when a statement fails it rejects and writes nothing |
| Handlers.AdminHandler.CreatePortResource | internal/admin/resources.go:79-117 | tables and result are what any typed text deserves |
| Handlers.AdminHandler.GetFrpcConfig | internal/admin/frpc_config.go:16-46 | returns the template exactly when the tenant exists and the query does not fail |
| Handlers.AdminHandler.BuildFrpcConfigWithToken | internal/admin/frpc_config.go:82-90 | returns the specified file for the current rows with the plain token, or none when the query fails |
| Handlers.AdminHandler.ResetTenantToken | internal/admin/tenants.go:120-156 | stores the hash and returns the file with the plain token, as the state machine's handler run alone; with an empty code when the second read fails and without a file when the query does |
| Handlers.AdminHandler.CreateTenant | internal/admin/tenants.go:32-84 | trims code and name, stores the tenant and returns its file with the plain token, as the state machine's handler run alone |
| Migrate.Database.AppliedVersions | internal/db/migrate.go:191-210 | collects exactly the recorded versions, or fails when a call does |
| Migrate.Database.ApplyMigration | internal/db/migrate.go:213-236 | all statements and the record take effect, or nothing does; it fails exactly when a call fails or the version is recorded already |
| Migrate.Database.Migrate | internal/db/migrate.go:159-188 | applies the missing migrations in order up to the first failure and returns how many; with distinct versions it succeeds exactly when the dialect is SQLite and no call failed |
| Migrate.AppliedIsPrefix | internal/db/migrate.go:149-158 | after any sequence of runs, failing anywhere, the applied migrations are a prefix of the list, each applied once and in order, and the counts add up to its length |
| Migrate.UpgradeEqualsFresh | internal/db/migrate.go:149-158 | older lists first and then the whole list end in the same schema as one fresh run |
| Paths.SplitPath | internal/admin/admin.go:244-256 | the index loop returns exactly the non-empty segments |
| Paths.SegmentsOfRooted | internal/admin/admin.go:244-256 | splitting undoes joining |
| Paths.SegmentsProper | internal/admin/admin.go:244-256 | segments are never empty and contain no separator |
| Paths.SameSegments | internal/admin/tenants.go:172-178 | the id parser reads the splitter's segment at every index if and only if no two adjacent separators precede a segment |
| Paths.SameId | internal/admin/tenants.go:172-178 | on any such path dispatcher and handler see the same id |
| Paths.ParseIdIff | internal/admin/tenants.go:172-178 | an id is accepted exactly when that part of the path is an optional sign and digits with a value of 64 bits, and is then that number |
| Paths.RouteSpelled | internal/admin/admin.go:94-118 | an action is reached exactly by the segments that spell it |
| Paths.OtherwiseNotFound | internal/admin/admin.go:94-118 | everything else is not found |
| Paths.AddressIdIff | internal/admin/tenants.go:172-178 | whatever text stands in the place of the id, the address reaches its action, whose handler goes on exactly when the text denotes a number of 64 bits |
| Paths.AddressReachesHandler | internal/admin/admin.go:85-119 | the address built for an id and an action is dispatched to that action, whose handler reads that id |

## Left out

- HTTP, JSON, cookies, response codes and the wording of reject reasons: requests start decoded and answers carry a reason code. Requests that cannot be decoded, unknown operations and oversized bodies are not modelled.
- The SQL engine, drivers and connection settings: each statement is one atomic step that may fail on a UNIQUE key. Foreign keys are not used; referential integrity is proved from the code's own checks.
- Stores.Store.ListEnabledProxyAuthContextsByTenant: the rows the database returns, or its error, are a parameter that is required to be an answer to the query; how SQLite computes and sorts them is not modelled.
- Errors of the store's own create and update methods: in the state machine any handler may fail at any statement, and the plugin's and the configuration's handlers take their failing reads as parameters; the other methods of the class run without one.
- A statement that takes effect while its call reports an error: a failing statement of the state machine has no effect, so an insert or update whose result cannot be read afterwards (LastInsertId, RowsAffected) is not a step of its own. Its effect on the tables is that of the statement itself; only the handler's answer would differ.
- bcrypt, SHA-256, constant-time comparison and the random generator: `verify` is any function of the stored hash and the token. That an old token stops working after a reset is stated only under the hypothesis that the new hash does not match it.
- created_at, updated_at and the format of last_seen_at: no decision reads them.
- Integer width: ids and request ports are unbounded integers; texts are parsed with the 64-bit limits of strconv.
- The list endpoints, the download endpoint and the other dispatchers: they repeat what is modelled.
- RoundTrip.ConfigRoundTrip: the reader covers the TOML v1.0.0 constructs the generator emits (comments, key/value lines with bare and dotted keys, basic strings, decimal integers, the array of tables `proxies`) and the escapes of basic strings without the Unicode ones; a dotted key is kept as its text.
- frpc and frps between the file and the plugin request: a request's fields are taken to be the entry's.
- Invalid UTF-8 in strings.
- Migrate.Database.Migrate: a migration's effect on the schema is the list of its statements; a failed commit is taken to leave nothing behind.
- Administrator sessions, password change, audit log, the bootstrap of the first administrator, configuration loading, the embedded web interface and the sync tool.
