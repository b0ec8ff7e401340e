# DotNetOgcWebService core, modelled in Dafny

This project models the core of Terradue's DotNetOgcWebService, a .NET host
for OGC web services (WPS 1.0.0 and SOS 2.0 over OWS Common 1.1), and proves
properties of that model. It covers these parts:

- **Request dispatch.** Both OWS request handlers, the current
  `Handler/OwsHttpRequestHandler` and the older static one, are modelled in
  `ows_dispatch.dfy`. This covers:
  - defaulting `service`, `version` and `request` from the query, the XML body
    or the configuration;
  - choosing the configured operation, where an exact version match wins and
    otherwise the highest version string does;
  - applying the operation's default parameter values;
  - the result cache and the `$$` custom actions;
  - the two catch clauses that turn every exception into an exception report.
- **Asynchronous WPS jobs.** These are modelled in `job_progress.dfy`,
  `job_order.dfy`, `process.dfy` and `wps_job.dfy`. They cover:
  - the single progress slot of a job;
  - the job order and its three write-once or overwrite artifacts in the
    recovery directory;
  - the process wrapper and its creation from configuration;
  - the job object: its uid chosen against the job cache, its run, and the
    normalised ExecuteResponse;
  - the flattened exception report of a failed run;
  - the static operations that reload a job from the cache or from disk.
- **The WPS client's polling loop** (`wps_client.dfy`).
- **The WPS operations** DescribeProcess and Execute, over the lazily loaded
  process registry (`wps_operations.dfy`).
- **The SOS side.**
  - GetCapabilities, with format and version negotiation, section selection
    and the operations metadata (`get_capabilities.dfy`);
  - the URN manager: URN construction, the three memoised name-to-URN maps and
    their inverse lookup table (`urn_manager.dfy`);
  - DescribeSensor (`describe_sensor.dfy`).

`common.dfy`, `wps_types.dfy` and `ows_types.dfy` hold the shared values:
- nullable values as `Option`;
- every exception the code raises as a `Fault`, with `Result` for "a value or
  the exception thrown instead";
- the WPS/OWS payload records;
- the NameValueCollection semantics of the query (names are never null): case-insensitive names,
  several values joined by commas, and `AllKeys` in first-insertion order.

Dictionaries whose enumeration order matters are association lists in
insertion order. Library functions whose bodies are not part of this model
(`ToVersionNumber`, `Uri.EscapeUriString`, `Uri.ToString`, `TryParseEnum`, handler creation
and invocation, the HTTP transport, `Guid.NewGuid`) are function-valued
parameters. Clocks are integer parameters.

Two behaviours of the code are modelled as written and stated as lemmas:
- The older handler dereferences the request document even when there is no
  body (`OwsDispatch.LegacyNullDocument`).
- DescribeSensor advertises each sensor's `SensorId` as the text of the
  sensor's URN (built from the escaped name), while its `procedure` check compares the raw names. So an
  advertised id is refused unless it happens also to be a sensor name
  (`DescribeSensor.AdvertisedIdIsNotName`, `DescribeSensor.AdvertisedIdRefused`).

## Model

| member | source | states |
|---|---|---|
| Progress.JobProgress.constructor | Terradue.WebService.Ogc/Core/Process/JobProgress.cs:8 | a new progress slot holds no status (null) |
| Progress.JobProgress.Report | Terradue.WebService.Ogc/Core/Process/JobProgress.cs:10-13 | the slot holds exactly the reported status, null included, with no validation |
| Progress.ReportTwice | Terradue.WebService.Ogc/Core/Process/JobProgress.cs:10-13 | last write wins: after two reports only the second is visible, whatever the first was |
| Orders.ArtifactKindsDisjoint | Terradue.WebService.Ogc/Core/Process/JobOrder.cs:55-121 | the RecoveryInfo, ExecuteRequest and ExecuteResponse files of any two uids never share a path |
| Orders.ArtifactPathInjective | Terradue.WebService.Ogc/Core/Process/JobOrder.cs:55-121 | within one artifact kind the file path determines the job uid |
| Orders.RecoveryStore.constructor | Terradue.WebService.Ogc/Core/Process/JobOrder.cs:56 | the store is the configured recovery directory (possibly unset) over the given files |
| Orders.RecoveryStore.ReadRecoveryInfo | Terradue.WebService.Ogc/Core/Process/JobOrder.cs:55-67 | non-null exactly when the path is configured and the uid's RecoveryInfo file exists and deserialises; then it is that file's content; never throws |
| Orders.RecoveryStore.ReadExecuteRequest | Terradue.WebService.Ogc/Core/Process/JobOrder.cs:82-94 | the same failure rules for the uid's ExecuteRequest file |
| Orders.RecoveryStore.ReadExecuteResponse | Terradue.WebService.Ogc/Core/Process/JobOrder.cs:109-121 | the same failure rules for the uid's ExecuteResponse file |
| Orders.RecoveryStore.WriteExecuteRequest | Terradue.WebService.Ogc/Core/Process/JobOrder.cs:69-80 | write-once: the request file is created only when persistence is on, the request non-null and no file exists; every other read is unchanged |
| Orders.RecoveryStore.WriteExecuteResponse | Terradue.WebService.Ogc/Core/Process/JobOrder.cs:96-107 | overwrites the response file whenever persistence is on and the response non-null; afterwards the read returns it; other reads unchanged |
| Orders.RecoveryStore.WriteRecoveryInfo | Terradue.WebService.Ogc/Core/Process/JobOrder.cs:45-53 | write-once RecoveryInfo file, other files untouched |
| Orders.RecoveryStore.OnlyOneFileChanged | Terradue.WebService.Ogc/Core/Process/JobOrder.cs:55-121 | a change to the file of one (uid, kind) leaves every other artifact's path distinct, so every other read is unaffected |
| Orders.JobOrder.constructor | Terradue.WebService.Ogc/Core/Process/JobOrder.cs:36-37 | the object initializer's request, progress and creation time are set; response, uid and recovery info are null |
| Orders.JobOrder.GetRecoveryInfo | Terradue.WebService.Ogc/Core/Process/JobOrder.cs:25-30 | lazy getter: reads the store only while the field is null and the uid is non-empty, and keeps what it read |
| Orders.JobOrder.SetRecoveryInfoField | Terradue.WebService.Ogc/Core/Process/JobOrder.cs:31-33 | the setter stores the value as given |
| Orders.JobOrder.SetRecoveryInfo | Terradue.WebService.Ogc/Core/Process/JobOrder.cs:45-53 | persists under the order's uid only when configured, non-null and not yet written; an existing file is never replaced |
| Orders.JobOrder.Report | Terradue.WebService.Ogc/Core/Process/JobOrder.cs:123-128 | keeps the response, forwards its status to the progress slot and persists it when configured; a null response or a null progress slot throws NullReference after the response is kept, with nothing written |
| Orders.JobOrder.ReportStatus | Terradue.WebService.Ogc/Core/Process/JobOrder.cs:39-43 | Report of a fresh response whose only field is the status; it fails only on a null progress slot |
| Processes.AsyncWPSProcess.constructor | Terradue.WebService.Ogc/Core/Process/AsyncWPSProcess.cs:13-30 | identifier, title, abstract and version are set only from non-empty arguments; the status is ProcessAccepted("Process accepted") at creation time, not terminal |
| Processes.AsyncWPSProcess.Description | Terradue.WebService.Ogc/Core/Process/AsyncWPSProcess.cs:40-48 | the Abstract's text when Abstract is set, null exactly when it is not |
| Processes.WpsProcess.constructor | Terradue.WebService.Ogc/Wps/WpsProcess.cs:14-16 | wraps the given implementation, with no cache time and no HTTP client |
| Processes.WpsProcess.SetMemoryCache | Terradue.WebService.Ogc/Wps/WpsProcess.cs:18-24 | the cache set is the one GetMemoryCache returns |
| Processes.WpsProcess.SetHttpClient | Terradue.WebService.Ogc/Configuration/ProcessElement.cs:192 | the process keeps the given HTTP client |
| Processes.WpsProcess.CreateTask | Terradue.WebService.Ogc/Wps/WpsProcess.cs:65-68 | a cold (not started) task of this process |
| Processes.NewProcess | Terradue.WebService.Ogc/Configuration/ProcessElement.cs:178-195 | the creation branch: an unresolvable handler type throws ConfigurationErrors; otherwise a fresh process of that type with the configured cache time, HTTP client and memory cache |
| Processes.ProcessCollection.constructor | Terradue.WebService.Ogc/Configuration/WebProcessingServiceConfiguration.cs:31-38 | the configured entries, none of which memoises a process yet |
| Processes.ProcessCollection.CreateHandlerInstance | Terradue.WebService.Ogc/Configuration/ProcessElement.cs:176-198 | the memoised process when there is one and no new one is forced; otherwise ConfigurationErrors for an unresolvable type, or a fresh process that replaces only this entry's memo; every memoised process stays built from its own entry |
| Jobs.JobCache.constructor | Terradue.WebService.Ogc/Wps/WpsJob.cs:31 | an empty job cache |
| Jobs.JobCache.Get | Terradue.WebService.Ogc/Wps/WpsJob.cs:84 | a job is returned exactly when its entry is live, and it is the stored job |
| Jobs.JobCache.Set | Terradue.WebService.Ogc/Wps/WpsJob.cs:70 | insert or replace; the job is found under its key until its expiry |
| Jobs.JobCache.FreshKey | Terradue.WebService.Ogc/Wps/WpsJob.cs:58-66 | returns the first generated candidate that is not live; every earlier candidate was live |
| Jobs.Flatten | Terradue.WebService.Ogc/Wps/WpsJob.cs:183-202 | every entry is NoApplicableCode without locator, at least one per inner exception |
| Jobs.FlattenAppend | Terradue.WebService.Ogc/Wps/WpsJob.cs:183-202 | the report of a concatenation is the concatenation of the reports |
| Jobs.FlattenPlain | Terradue.WebService.Ogc/Wps/WpsJob.cs:183-202 | without nested aggregates the report has exactly one entry per inner exception |
| Jobs.FailureEntries | Terradue.WebService.Ogc/Wps/WpsJob.cs:183-202 | the nested loops of the catch block build exactly the flattened report |
| Jobs.Normalize | Terradue.WebService.Ogc/Wps/WpsJob.cs:205-220 | fills serviceInstance, statusLocation, Process, service and version when unset; set fields, status and outputs are kept; fails with UriFormat only when serviceInstance must be built from an unparsable base URL |
| Jobs.NormalizeIdempotent | Terradue.WebService.Ogc/Wps/WpsJob.cs:205-220 | a normalised response is left unchanged by a second pass, whatever its inputs |
| Jobs.ComposeResponse | Terradue.WebService.Ogc/Wps/WpsJob.cs:163-220 | a null response throws NullReference, a plain exception propagates, an aggregate becomes a ProcessFailed response with the flattened report; every success is fully filled |
| Jobs.JobResult | Terradue.WebService.Ogc/Wps/WpsJob.cs:163-228 | succeeds exactly when the composed response has a status (the status log line dereferences it) and is then that response |
| Jobs.WpsJob.constructor | Terradue.WebService.Ogc/Wps/WpsJob.cs:34-49 | the uid was absent from the cache, is used for the job, its order and the persisted request, and the cache maps it to this job until now plus the process's cache time |
| Jobs.WpsJob.Restore | Terradue.WebService.Ogc/Wps/WpsJob.cs:95-104 | the object Load builds: uid, order, progress, process, task and creation time as given, no job cache |
| Jobs.WpsJob.Save | Terradue.WebService.Ogc/Wps/WpsJob.cs:58-75 | the returned uid was not live before and now maps to this job with the given expiry |
| Jobs.WpsJob.GetExecuteResponse | Terradue.WebService.Ogc/Wps/WpsJob.cs:163-228 | returns the job result; the order's response becomes the composed response when there is one |
| Jobs.WpsJob.Run | Terradue.WebService.Ogc/Wps/WpsJob.cs:147-161 | a started task throws InvalidOperation and changes nothing; otherwise the task is started, progress reports ProcessStarted("Task Started", "0") at creation time, and the response is returned |
| Jobs.LastMatchingIsLast | Terradue.WebService.Ogc/Wps/WpsJob.cs:109-113 | the process kept is absent exactly when no configured process has the identifier, and otherwise the one at the last position that has it |
| Jobs.ServiceIdentifier | Terradue.WebService.Ogc/Wps/WpsJob.cs:107 | the RecoveryInfo's process identifier when there is one, else the request's identifier, which throws when missing; so a job whose RecoveryInfo file is missing is still rebuilt, looked up by the request's Identifier |
| Jobs.CreateMatchingProcess | Terradue.WebService.Ogc/Wps/WpsJob.cs:109-117 | every matching process is created, so creation fails when one of them cannot be; the one kept is the last match |
| Jobs.Load | Terradue.WebService.Ogc/Wps/WpsJob.cs:77-132 | with the cache: the live job, and a NullReference for a missing one; without: a job exactly when request, response and process can be recovered from disk, then cached; otherwise null |
| Jobs.LoadStored | Terradue.WebService.Ogc/Wps/WpsJob.cs:88-128 | a job exactly when request, response, identifier and process can be recovered; it is fresh, holds what the store keeps for uid, runs the last configured process with that identifier, and is cached under uid until the process's cache period elapses; otherwise null and the cache unchanged |
| Jobs.Rebuild | Terradue.WebService.Ogc/Wps/WpsJob.cs:95-123 | the rebuilt job carries the stored request, response, status, recovery info and creation time, a cold task, and is cached for the process's cache time |
| Jobs.GetCachedExecuteResponse | Terradue.WebService.Ogc/Wps/WpsJob.cs:241-246 | the live cached job's response; a missing entry throws NullReference; the cache entries are unchanged |
| Jobs.GetExecuteResponse | Terradue.WebService.Ogc/Wps/WpsJob.cs:248-256 | the rebuilt job's response when recoverable, else the stored response, else EntryPointNotFound; a recoverable job replaces cache[uid] with a new job whose task has not started, even over a live job, and every other entry is kept; otherwise the cache is unchanged |
| Jobs.GetExecuteRequest | Terradue.WebService.Ogc/Wps/WpsJob.cs:258-262 | the stored request exactly when the job is recoverable, else EntryPointNotFound; reading it replaces cache[uid] with the rebuilt job exactly as GetExecuteResponse does |
| Jobs.GetRecoveryInfo | Terradue.WebService.Ogc/Wps/WpsJob.cs:264-270 | what the cached job's order's RecoveryInfo getter returns, which the order's lazy field then holds; a missing entry throws NullReference; the cache entries are unchanged |
| Jobs.ForceRetry | Terradue.WebService.Ogc/Wps/WpsJob.cs:272-282 | sets the retry count on an existing RecoveryInfo and writes it exactly when the store is configured and no RecoveryInfo file exists; then runs the cached job again, which reports ProcessStarted("Task Started", "0") unless its task already ran (InvalidOperation); the cache entries are unchanged |
| Jobs.GetReport | Terradue.WebService.Ogc/Wps/WpsJob.cs:284-290 | the cached job's process report; the cache is unchanged |
| Jobs.SubmitExecuteProcess | Terradue.WebService.Ogc/Wps/WpsProcess.cs:72-77 | the cache maps a previously absent uid to a fresh job of this process, started, with that uid and expiry now plus the process's cache time; every other key keeps its entry; the result is that of running the job |
| Client.GetWpsExecuteResponse | Terradue.WebService.Ogc/Wps/Client/WpsClient.cs:96-136 | a response (possibly null) exactly for a 200 reply that deserialises; a malformed body throws first, then a non-200 status |
| Client.PollUntilComplete | Terradue.WebService.Ogc/Wps/Client/WpsClient.cs:71-94 | a null response throws; a terminal status is returned with no request; the number of requests is within the bound |
| Client.PollDoneIsFinal | Terradue.WebService.Ogc/Wps/Client/WpsClient.cs:71-94 | a normal return is either terminal or has no statusLocation |
| Client.NotifiedAreRunning | Terradue.WebService.Ogc/Wps/Client/WpsClient.cs:74-82 | onStateChange never sees a terminal status nor one equal to the state's, and at most once per response |
| Client.PollFuelMonotone | Terradue.WebService.Ogc/Wps/Client/WpsClient.cs:71-94 | an outcome reached within a bound is the same under any larger bound |
| Client.PollFailureAborts | Terradue.WebService.Ogc/Wps/Client/WpsClient.cs:89-92 | a failing status request ends polling with its exception after one request |
| Client.ExecuteAndPoll | Terradue.WebService.Ogc/Wps/Client/WpsClient.cs:46-69 | a failed submission is the outcome; otherwise polling starts from the submitted response |
| OwsTypes.Get | Terradue.WebService.Ogc/Handler/OwsHttpRequestHandler.cs:53-70 | the indexer is null exactly when no name equals the key ignoring case |
| OwsTypes.GetAfterAdd | Terradue.WebService.Ogc/Handler/OwsHttpRequestHandler.cs:53-70 | adding under an absent name makes the indexer return that value and leaves other names alone |
| OwsTypes.KeyIsFirstSpelling | Terradue.WebService.Ogc/Handler/OwsHttpRequestHandler.cs:121-124 | a text is listed by AllKeys exactly when it is the spelling of the first parameter with that name ignoring case |
| OwsTypes.AllKeysComplete | Terradue.WebService.Ogc/Handler/OwsHttpRequestHandler.cs:121-124 | every name of the query is listed, in the spelling of its first occurrence |
| OwsTypes.AllKeysFirst | Terradue.WebService.Ogc/Handler/OwsHttpRequestHandler.cs:121-124 | every listed key is the first spelling of its name |
| OwsTypes.AllKeysDistinct | Terradue.WebService.Ogc/Handler/OwsHttpRequestHandler.cs:121-124 | no two listed keys are equal ignoring case |
| OwsTypes.OgcReport | Terradue.WebService.Ogc/Handler/OwsHttpRequestHandler.cs:126-130 | one exception with the OGC error's code, locator and message |
| OwsTypes.ErrorResult | Terradue.WebService.Ogc/Handler/OwsHttpRequestHandler.cs:126-136 | an OGC exception becomes its own report, any other exception the "Application error." report |
| OwsDispatch.DocAttribute | Terradue.WebService.Ogc/Handler/OwsHttpRequestHandler.cs:53-64 | a document attribute is used only when the document exists and the value is non-empty |
| OwsDispatch.DefaultParameter | Terradue.WebService.Ogc/Handler/OwsHttpRequestHandler.cs:53-70 | a present parameter is left alone; a missing one takes the document's value, else the configured default |
| OwsDispatch.DefaultParameterKeeps | Terradue.WebService.Ogc/Handler/OwsHttpRequestHandler.cs:53-70 | a defaulting step never changes a parameter that is present |
| OwsDispatch.RequestDefaultsFill | Terradue.WebService.Ogc/Handler/OwsHttpRequestHandler.cs:53-70 | afterwards service, version and request are all present, each with its defaulted value, and every present parameter is unchanged |
| OwsDispatch.LegacyRequestDefaults | Terradue.WebService.Ogc/OwsHttpRequestHandler.cs:46-66 | the older handler's defaulting, which throws NullReference when a missing parameter meets a null document |
| OwsDispatch.LegacyDefaultsAgree | Terradue.WebService.Ogc/OwsHttpRequestHandler.cs:46-66 | with a document, or with all three parameters present, both handlers default alike; otherwise the older one throws |
| OwsDispatch.Candidates | Terradue.WebService.Ogc/Handler/OwsHttpRequestHandler.cs:181-186 | exactly the configured operations with the requested operation and service names |
| OwsDispatch.ExactMatches | Terradue.WebService.Ogc/Handler/OwsHttpRequestHandler.cs:174-179 | exactly the candidates whose version number equals the requested one |
| OwsDispatch.Highest | Terradue.WebService.Ogc/Handler/OwsHttpRequestHandler.cs:181-186 | FirstOrDefault of the descending order: present exactly when there is a candidate, and one of them |
| OwsDispatch.HighestIsFirstMaximal | Terradue.WebService.Ogc/Handler/OwsHttpRequestHandler.cs:181-186 | the fallback has the highest version string and is the first candidate with it (a stable sort) |
| OwsDispatch.RequestVersion | Terradue.WebService.Ogc/Handler/OwsHttpRequestHandler.cs:166-171 | the document root's version attribute when there is a document, throwing when it is missing, else the query's version |
| OwsDispatch.GetServiceOperation | Terradue.WebService.Ogc/Handler/OwsHttpRequestHandler.cs:151-202 | request then service must be non-empty; several exact matches are a configuration error; an exact match wins over the highest-version fallback; none at all is OperationNotSupported with the request as locator and the text "Operation '<request>' of '<service>' service is not supported." |
| OwsDispatch.ExactMatchPreferred | Terradue.WebService.Ogc/Handler/OwsHttpRequestHandler.cs:189-194 | when an exact version match exists the result is it or a configuration error, never the fallback |
| OwsDispatch.AddOperationDefaults | Terradue.WebService.Ogc/Handler/OwsHttpRequestHandler.cs:75-79 | the loop adds each operation default, in order, only when the name is still missing |
| OwsDispatch.WithDefaultsKeeps | Terradue.WebService.Ogc/Handler/OwsHttpRequestHandler.cs:75-79 | operation defaults never overwrite a present parameter |
| OwsDispatch.WithDefaultsUntouched | Terradue.WebService.Ogc/Handler/OwsHttpRequestHandler.cs:75-79 | defaults naming other parameters leave a parameter as it was |
| OwsDispatch.FirstDefaultWins | Terradue.WebService.Ogc/Handler/OwsHttpRequestHandler.cs:75-79 | a missing parameter takes the value of the first default that names it |
| OwsDispatch.ParseBody | Terradue.WebService.Ogc/Handler/OwsHttpRequestHandler.cs:44-48 | no body gives no document; an unparsable body throws; otherwise the document |
| OwsDispatch.Resolve | Terradue.WebService.Ogc/Handler/OwsHttpRequestHandler.cs:72-79 | the resolved operation is configured, and the query is the defaulted query with its defaults applied; a failure is GetServiceOperation's |
| OwsDispatch.HandleCustomAction | Terradue.WebService.Ogc/Handler/OwsHttpRequestHandler.cs:210-217 | throws NotImplemented exactly when the first parameter named "$$validate" ignoring case is spelled exactly so; otherwise passes the result through |
| OwsDispatch.Finish | Terradue.WebService.Ogc/Handler/OwsHttpRequestHandler.cs:120-136 | an exception becomes its error result; without a "$$" key the produced result is returned as is |
| OwsDispatch.CachedResultSkipsHandler | Terradue.WebService.Ogc/Handler/OwsHttpRequestHandler.cs:81-95 | with a cached result the outcome does not depend on the handler and is the cached result |
| OwsDispatch.ServeOnlyGains | Terradue.WebService.Ogc/Handler/OwsHttpRequestHandler.cs:81-117 | for a resolved operation, the cache stage keeps every entry and adds at most the handler's non-null result under the key, and only for a cache-enabled operation whose key was absent |
| OwsDispatch.CacheOnlyGains | Terradue.WebService.Ogc/Handler/OwsHttpRequestHandler.cs:81-117 | no entry is ever replaced; the only entry added is the handler's non-null result for a cache-enabled operation under the request's key |
| OwsDispatch.FreshResultCached | Terradue.WebService.Ogc/Handler/OwsHttpRequestHandler.cs:81-116 | a cache-enabled operation whose key is not cached runs the handler, and its non-null result is stored under the key and passed on |
| OwsDispatch.ResultCache.constructor | Terradue.WebService.Ogc/Handler/OwsHttpRequestHandler.cs:27 | an empty result cache |
| OwsDispatch.ResultCache.Set | Terradue.WebService.Ogc/Handler/OwsHttpRequestHandler.cs:115 | insert or replace under the key |
| OwsDispatch.OwsHttpRequestHandler.constructor | Terradue.WebService.Ogc/Handler/OwsHttpRequestHandler.cs:27 | the handler keeps the given cache and configuration |
| OwsDispatch.OwsHttpRequestHandler.ProcessRequest | Terradue.WebService.Ogc/Handler/OwsHttpRequestHandler.cs:34-139 | no exception escapes; the result and the new cache contents are those of the pipeline function |
| OwsDispatch.LegacyAfterDefaults | Terradue.WebService.Ogc/OwsHttpRequestHandler.cs:68-124 | once the older handler's defaulting matches the current one's, both pipelines give the same result |
| OwsDispatch.LegacyAgrees | Terradue.WebService.Ogc/OwsHttpRequestHandler.cs:29-145 | the older handler answers as the current one whenever there is a body or nothing is missing |
| OwsDispatch.LegacyNullDocument | Terradue.WebService.Ogc/OwsHttpRequestHandler.cs:46-66 | a body-less request missing service, version or request ends in the "Application error." report |
| OwsDispatch.LegacyProcessRequest | Terradue.WebService.Ogc/OwsHttpRequestHandler.cs:29-145 | the older pipeline, which reads the result cache but never writes it |
| Capabilities.FirstAccepted | Terradue.WebService.Ogc/Sos/GetCapabilitiesOperation.cs:219-229 | the first supported format, in preference order, equal to some trimmed accepted format; none exactly when no pair matches |
| Capabilities.NegotiatedFormat | Terradue.WebService.Ogc/Sos/GetCapabilitiesOperation.cs:219-229 | application/xml unless text/xml is among the trimmed accepted formats, and text/xml only then |
| Capabilities.AnyFormatParses | Terradue.WebService.Ogc/Sos/GetCapabilitiesOperation.cs:240-256 | the early-exit loop finds a parsable format exactly when one exists |
| Capabilities.Negotiate | Terradue.WebService.Ogc/Sos/GetCapabilitiesOperation.cs:203-256 | another payload type is NoApplicableCode; a version list without the document's version is refused; success exactly when the checks pass, with the negotiated format |
| Capabilities.AllSelectsNothing | Terradue.WebService.Ogc/Sos/GetCapabilitiesOperation.cs:261-284 | asking only for "All" fills no section |
| Common.Positions | Terradue.WebService.Ogc/Sos/GetCapabilitiesOperation.cs:61-64 | the positions a Where clause keeps: increasing, and a position is listed exactly when its element satisfies the condition |
| Common.Distinct | Terradue.WebService.Ogc/Sos/GetCapabilitiesOperation.cs:61-65 | the same elements, each once, in the order of their first occurrence; also the pairs of Union at Terradue.WebService.Ogc/Sos/BaseUrnManager.cs:70 |
| Common.TrimStart | Terradue.WebService.Ogc/Sos/GetCapabilitiesOperation.cs:223 | a suffix of the text, with everything dropped white space in the sense of char.IsWhiteSpace and no white space left in front |
| Common.TrimEnd | Terradue.WebService.Ogc/Sos/GetCapabilitiesOperation.cs:223 | a prefix of the text, with everything dropped white space and no white space left at the end |
| Common.SplitJoin | Terradue.WebService.Ogc/Wps/DescribeProcessOperation.cs:178 | joining the parts of a split with the separator gives the text back |
| Common.SplitParts | Terradue.WebService.Ogc/Wps/DescribeProcessOperation.cs:178 | no part of a split contains the separator |
| Common.Find | Terradue.WebService.Ogc/Wps/DescribeProcessOperation.cs:170-180 | present exactly when some pair has the key, and then the value of the first such pair (KeyIndex) |
| Common.KeyIndex | Terradue.WebService.Ogc/Wps/DescribeProcessOperation.cs:170-180 | the position of the first pair with the key, or the length when no pair has it |
| Capabilities.ServiceVersions | Terradue.WebService.Ogc/Sos/GetCapabilitiesOperation.cs:61-65 | exactly the versions of operations of this service whose version number is valid |
| Capabilities.ServiceVersionsInOrder | Terradue.WebService.Ogc/Sos/GetCapabilitiesOperation.cs:61-65 | the k-th version listed is that of the configured operation at the k-th position of this service with a valid version number, so AcceptVersions and the version parameter follow configuration order |
| Capabilities.Matching | Terradue.WebService.Ogc/Sos/GetCapabilitiesOperation.cs:361-367 | exactly the operations whose service equals the name ignoring case |
| Capabilities.MatchingInOrder | Terradue.WebService.Ogc/Sos/GetCapabilitiesOperation.cs:361-367 | the k-th matching operation is the configured operation at the k-th position whose service equals the name ignoring case, so the OperationsMetadata entries follow configuration order |
| Capabilities.Operations | Terradue.WebService.Ogc/Sos/GetCapabilitiesOperation.cs:356-412 | succeeds exactly when every matching handler can be described; then one entry per matching operation, in order |
| Capabilities.OperationsErrorPersists | Terradue.WebService.Ogc/Sos/GetCapabilitiesOperation.cs:361-412 | the first handler that throws decides the outcome |
| Capabilities.GetCapabilitiesOperation.constructor | Terradue.WebService.Ogc/Sos/GetCapabilitiesOperation.cs:76-79 | the configuration as given, versions not yet computed |
| Capabilities.GetCapabilitiesOperation.SupportedVersions | Terradue.WebService.Ogc/Sos/GetCapabilitiesOperation.cs:55-70 | computed on first use as the distinct service versions and kept |
| Capabilities.GetCapabilitiesOperation.OperationParameters | Terradue.WebService.Ogc/Sos/GetCapabilitiesOperation.cs:86-146 | updateSequence (any value), AcceptFormats (text/xml, application/xml), AcceptVersions (the supported versions) and Sections (five names and All) |
| Capabilities.GetCapabilitiesOperation.GetOperationsMetadata | Terradue.WebService.Ogc/Sos/GetCapabilitiesOperation.cs:356-441 | the operation entries, then the service parameter with this service and the version parameter with the supported versions |
| Capabilities.GetCapabilitiesOperation.Validate | Terradue.WebService.Ogc/Sos/GetCapabilitiesOperation.cs:203-256 | the validation statements compute exactly Negotiate |
| Capabilities.GetCapabilitiesOperation.ProcessRequest | Terradue.WebService.Ogc/Sos/GetCapabilitiesOperation.cs:203-289 | a failed negotiation is the error; otherwise each section is filled exactly when wanted, Filter_Capabilities never, in the negotiated format |
| WpsOperations.LoadedIds | Terradue.WebService.Ogc/Wps/BaseWpsOperation.cs:86-97 | one key per configuration entry, in order, all distinct; an unresolvable type or a repeated id throws |
| WpsOperations.LoadedIdsAre | Terradue.WebService.Ogc/Wps/BaseWpsOperation.cs:86-97 | a successful load lists each entry's process id at its own position, with no id twice |
| WpsOperations.LoadedIdsDistinct | Terradue.WebService.Ogc/Wps/BaseWpsOperation.cs:86-97 | when every type resolves, loading succeeds exactly when the process ids are distinct |
| WpsOperations.LoadErrorPersists | Terradue.WebService.Ogc/Wps/BaseWpsOperation.cs:90-94 | an error met within a prefix of the configuration is the error of the whole load |
| WpsOperations.LookupConfigured | Terradue.WebService.Ogc/Wps/BaseWpsOperation.cs:90-94 | a configured id finds the process built from that entry, with its description |
| WpsOperations.ProcessRegistry.constructor | Terradue.WebService.Ogc/Wps/BaseWpsOperation.cs:28 | nothing loaded yet |
| WpsOperations.ProcessRegistry.LoadProcessesFromConfiguration | Terradue.WebService.Ogc/Wps/BaseWpsOperation.cs:86-97 | fails exactly as LoadedIds does; otherwise one process per entry under its id, in order, which is the process that entry memoises: one memoised before is reused, and only an entry without one gets a fresh one |
| WpsOperations.ProcessRegistry.GetProcesses | Terradue.WebService.Ogc/Wps/BaseWpsOperation.cs:43-48 | loaded on first use, then the same map every time with the configuration untouched; a failed load is retried; every process reachable afterwards was reachable before or is fresh |
| WpsOperations.Descriptions | Terradue.WebService.Ogc/Wps/DescribeProcessOperation.cs:178-181 | the description of each identifier in order; a missing one throws KeyNotFound |
| WpsOperations.DescribeOutcome | Terradue.WebService.Ogc/Wps/DescribeProcessOperation.cs:155-186 | an empty identifier is NoApplicableCode; the whole identifier must be a key, else InvalidParameterValue("Identifier") |
| WpsOperations.SingleIdentifier | Terradue.WebService.Ogc/Wps/DescribeProcessOperation.cs:170-181 | a comma-free registered identifier yields exactly its process's description |
| WpsOperations.DescribedPerPart | Terradue.WebService.Ogc/Wps/DescribeProcessOperation.cs:170-181 | a described list requires the whole text to be a key and describes each comma-separated part |
| WpsOperations.DescriptionsErrorPersists | Terradue.WebService.Ogc/Wps/DescribeProcessOperation.cs:178-181 | a missing identifier in a prefix makes the whole list fail |
| WpsOperations.DescribeProcessOperation.constructor | Terradue.WebService.Ogc/Wps/DescribeProcessOperation.cs:48-51 | the operation over the given registry |
| WpsOperations.DescribeProcessOperation.OperationParameters | Terradue.WebService.Ogc/Wps/DescribeProcessOperation.cs:58-95 | Identifier with every registered id in order, and Language with no values; a failed load is that load's exception; an already loaded registry is kept |
| WpsOperations.DescribeProcessOperation.ProcessRequest | Terradue.WebService.Ogc/Wps/DescribeProcessOperation.cs:155-186 | DescribeOutcome of the Identifier (else identifier) parameter over the loaded registry; an already loaded registry is kept |
| WpsOperations.DescribeEach | Terradue.WebService.Ogc/Wps/DescribeProcessOperation.cs:175-181 | the loop gives exactly Descriptions: every part described in order, or KeyNotFound when a part is not a key |
| WpsOperations.ExecuteOperation.constructor | Terradue.WebService.Ogc/Wps/ExecuteOperation.cs:47-50 | the operation over the given registry, job cache and HTTP client |
| WpsOperations.ExecuteOperation.ProcessRequest | Terradue.WebService.Ogc/Wps/ExecuteOperation.cs:154-186 | a null payload throws, an empty identifier is NoApplicableCode, an unknown one InvalidParameterValue("identifier"); otherwise the process gets the client and cache, a previously free uid now maps to a fresh started job of that process with every other cache entry kept, the request is persisted, and the result is that job's response; on every failure path the job cache and the recovery store are unchanged |
| UrnManagers.GetUrnName | Terradue.WebService.Ogc/Sos/DefaultUrnManager.cs:46-49 | the URN starts with "urn:terradue:cp:" and has the length of prefix, escaped name, ":1.0.0:" and escaped value |
| UrnManagers.UrnParts | Terradue.WebService.Ogc/Sos/DefaultUrnManager.cs:46-49 | a URN read back is the prefix, a colon-free name, the version segment and the value |
| UrnManagers.UrnRoundTrip | Terradue.WebService.Ogc/Sos/DefaultUrnManager.cs:46-49 | a URN whose escaped name has no colon reads back as its escaped name and value |
| UrnManagers.UrnNameInjective | Terradue.WebService.Ogc/Sos/DefaultUrnManager.cs:46-49 | equal URNs come from equal escaped names and values |
| UrnManagers.SensorIdentifiers | Terradue.WebService.Ogc/Sos/BaseUrnManager.cs:106-107 | each sensor name with its identifier value or the exception reading it, in order |
| UrnManagers.UrnMap | Terradue.WebService.Ogc/Sos/BaseUrnManager.cs:106-107 | succeeds exactly when every value can be read, then maps each name to the URN of its value, in order; otherwise fails with the exception of the first value that cannot |
| UrnManagers.Inverted | Terradue.WebService.Ogc/Sos/BaseUrnManager.cs:70 | each pair turned round, in order |
| UrnManagers.ToDictionary | Terradue.WebService.Ogc/Sos/BaseUrnManager.cs:70 | succeeds exactly when no key repeats, else DuplicateKey |
| UrnManagers.UniqueKeysFunctional | Terradue.WebService.Ogc/Sos/BaseUrnManager.cs:70 | for a list without repeated pairs, distinct keys is the same as no URN paired with two names |
| UrnManagers.InvertedDistinct | Terradue.WebService.Ogc/Sos/BaseUrnManager.cs:70 | the inverse of a dictionary has no repeated pair |
| UrnManagers.AddInvertedSpec | Terradue.WebService.Ogc/Sos/BaseUrnManager.cs:70 | a union step succeeds exactly when the gathered pairs stay functional, and then holds exactly those pairs |
| UrnManagers.LookupLeftBehind | Terradue.WebService.Ogc/Sos/BaseUrnManager.cs:61-79 | what the field holds after construction: the lookup when it succeeds, else the last stage that did |
| UrnManagers.LookupIsInverse | Terradue.WebService.Ogc/Sos/BaseUrnManager.cs:61-79 | with all three maps built, the lookup is built exactly when no URN names two things, and is then exactly the inverse of their union |
| UrnManagers.LookupNeedsMaps | Terradue.WebService.Ogc/Sos/BaseUrnManager.cs:70-76 | a built lookup means all three maps were built |
| UrnManagers.SensorUrnRoundTrip | Terradue.WebService.Ogc/Sos/BaseUrnManager.cs:263-269 | GetUrnValue of a sensor's URN gives back the sensor's name |
| UrnManagers.LookupFindsOnlyInverses | Terradue.WebService.Ogc/Sos/BaseUrnManager.cs:263-269 | every name the lookup finds is one whose map gives it that URN |
| UrnManagers.UrnManager.constructor | Terradue.WebService.Ogc/Sos/BaseUrnManager.cs:38-42 | a manager with nothing memoised over a shared cache whose filled "__URN_*" entries are the tables these entities give |
| UrnManagers.UrnManager.UrnSensorNames | Terradue.WebService.Ogc/Sos/BaseUrnManager.cs:90-116 | the sensor map; once the field is set neither the cache nor the factory is consulted; a fresh map is stored in both |
| UrnManagers.UrnManager.UrnObservedPropertyNames | Terradue.WebService.Ogc/Sos/BaseUrnManager.cs:123-149 | the same memoisation for the observed property map |
| UrnManagers.UrnManager.UrnFeatureOfInterestNames | Terradue.WebService.Ogc/Sos/BaseUrnManager.cs:156-182 | the same memoisation for the feature-of-interest map |
| UrnManagers.UrnManager.SensorNames | Terradue.WebService.Ogc/Sos/BaseUrnManager.cs:188-194 | the sensor names of the factory, in order, exactly when the sensor map can be built; otherwise the exception of the first sensor whose identifier (NullReference) or identifier value (ArgumentNull) is null |
| UrnManagers.UrnManager.ObservedPropertyNames | Terradue.WebService.Ogc/Sos/BaseUrnManager.cs:200-206 | the observed property names, exactly when their map can be built |
| UrnManagers.UrnManager.FeatureOfInterestNames | Terradue.WebService.Ogc/Sos/BaseUrnManager.cs:212-218 | the feature-of-interest names, exactly when their map can be built |
| UrnManagers.UrnManager.UrnLookup | Terradue.WebService.Ogc/Sos/BaseUrnManager.cs:57-83 | the field, else the cached table, else the built lookup; a successful build is stored in the shared "__URN_LOOKUP" slot, a failed one leaves that slot empty and the stages built so far in the field; a field or cache hit leaves the slot as it was |
| UrnManagers.UrnManager.BuildLookup | Terradue.WebService.Ogc/Sos/BaseUrnManager.cs:65-79 | the staged construction returns the lookup or its exception and leaves behind exactly LookupLeftBehind |
| UrnManagers.UrnManager.GetUrnValue | Terradue.WebService.Ogc/Sos/BaseUrnManager.cs:263-269 | the name the lookup holds for the URN, or null; a lookup that cannot be built throws; a build it triggers memoises in the field and, only on success, in the shared "__URN_LOOKUP" slot |
| DescribeSensor.GetSensorML | Terradue.WebService.Ogc/Sos/DescribeSensorOperation.cs:210-213 | the SensorML formatter hands back the stored description unchanged |
| DescribeSensor.ProcessRequest | Terradue.WebService.Ogc/Sos/DescribeSensorOperation.cs:169-199 | payload type, then procedure, then format are checked; success only for a known procedure in a known format, with that sensor's description |
| DescribeSensor.DescribeSensorOkIff | Terradue.WebService.Ogc/Sos/DescribeSensorOperation.cs:169-199 | success exactly when the procedure names a sensor and the format is the SensorML key; the answer is that sensor's description |
| DescribeSensor.ProcedureCheckedFirst | Terradue.WebService.Ogc/Sos/DescribeSensorOperation.cs:181-196 | a null procedure throws ArgumentNull and an unknown one is reported whatever the format; for a known one a null format throws ArgumentNull and an unknown format is reported on outputFormat |
| DescribeSensor.SensorIdValues | Terradue.WebService.Ogc/Sos/DescribeSensorOperation.cs:72-75 | per sensor name, in order, the canonical text of its URN escaped again, which is UriHelper.ToString |
| DescribeSensor.AdvertisedIdIsNotName | Terradue.WebService.Ogc/Sos/DescribeSensorOperation.cs:72-75 | if escaping never shortens text and the canonical text decodes the name, an advertised SensorId is never the sensor's own name |
| DescribeSensor.AdvertisedIdRefused | Terradue.WebService.Ogc/Sos/DescribeSensorOperation.cs:181-186 | a request naming an advertised SensorId that is not a sensor name is refused on procedure |
| DescribeSensor.DescribeSensorOperation.constructor | Terradue.WebService.Ogc/Sos/DescribeSensorOperation.cs:48-51 | the operation over the given URN manager, formatters not yet built |
| DescribeSensor.DescribeSensorOperation.OutputFormatters | Terradue.WebService.Ogc/Sos/DescribeSensorOperation.cs:30-42 | built on first use with the single SensorML key, then kept |
| DescribeSensor.DescribeSensorOperation.OperationParameters | Terradue.WebService.Ogc/Sos/DescribeSensorOperation.cs:58-95 | SensorId with the URN text of each sensor name in order, and outputFormat with the formatter keys; fails exactly when the sensor map does, with the first unreadable sensor's exception |

## Left out

- OwsTypes.Query: a query parameter name is never null. HttpUtility.ParseQueryString gives a null name to a segment without '=' (`?service=SOS&debug`) or to a trailing '&'; the `StartsWith("$$")` test of Handler/OwsHttpRequestHandler.cs:121-123 (and OwsHttpRequestHandler.cs:121-123 of the older handler) then throws NullReference, which ends as the "Application error." report, after the current handler has already cached the result. The model cannot express that input.
- UrnManagers.SosEntities: a dictionary value of the entities factory is never null itself (only a sensor's identifier, its value or a remote schema can be), so the NullReference of `x.Value` at BaseUrnManager.cs:107, 140 and 173 on a null entry is not modelled.
- Jobs.WpsJob.GetExecuteResponse: the source fills the defaults into the very response object the process returned (WpsJob.cs:205-220), so the process's own response afterwards carries this job's serviceInstance, statusLocation, Process, service and version, and a later job of the same process that is handed the same object keeps the first job's statusLocation. The model treats the process's response as a value: the normalised response goes to the job order only, and the process's snapshot is unchanged.
- XML and JSON serialisation, file and stream I/O, and HTTP transport. Documents, files and replies are values, and the transport is a function parameter.
- Logging, locks, `Thread.Sleep` and the concurrency of tasks: every operation runs sequentially.
- Reflection and dependency injection (`Type.GetType`, `Activator`, `ActivatorUtilities`): handler creation and invocation are function parameters whose outcome may be an exception.
- Jobs.CreateMatchingProcess: the forced creation of WpsJob.cs:111 makes a fresh process but does not store it in that configuration entry's memo slot, as ProcessElement.cs:190 does, because the job operations take the configuration entries as values; a process registry that loads afterwards therefore sees the earlier memoised process in the model.
- `ToVersionNumber`, `TryParseEnum`, `Uri.EscapeUriString`, `Uri.ToString` and URI parsing are parameters. A `Uri` is compared as its string.
- Case-insensitive comparison folds ASCII letters only, and `orderby` on version strings is ordinal order, not culture collation.
- Cache expiry of the URN tables (`CacheTimeout`) is not modelled. A new manager's shared cache is required to hold only the tables its entities give (`UrnManagers.CacheAgrees`), which is what any sibling manager over the same entities stores.
- `OperationDcps`, `OperationConstraints`, `OperationMetadata` and `RequestType` of each operation are not modelled, nor is the DescribeSensor constraint built from `GetPropertyUrn`. They are constant descriptions.
- GetCapabilities' ServiceProvider and ServiceIdentification sections are read from files; they are parameters, and so is the Contents section.
- The formatter dictionaries of DescribeProcess and DescribeSensor are modelled by their keys. The only formatter function is `GetSensorML`.
- The HTTP-context check of the current handler and `ProcessRequestAsync` are not modelled.
- The SOS entities factory is a parameter (`SosEntities`).
- OwsTypes.OgcReport: MissingParameterValue is raised with a locator only, and InvalidParameterValue with a locator and the offending value, so their text is the default one of the OGC library's exception classes, whose wording is not part of this model; their report has no text. OperationNotSupported is raised with its own text and keeps it.
- Client.PollUntilComplete: recursion is bounded by a fuel count, and running out of fuel is an outcome of its own that the source does not have.
- Jobs.JobCache.FreshKey: the unbounded retry loop over `Guid.NewGuid` is bounded by a ghost index whose candidate is assumed free.
- Client.GetWpsExecuteResponse: a non-200 reply is one `HttpStatus` fault. The exception the source re-throws from parsing the body as an exception report is not distinguished.
