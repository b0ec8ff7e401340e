/** Core/Process/AsyncWPSProcess.cs and the WpsProcess wrapper around it: the
    uniform facade over a concrete process implementation. The members the
    concrete subclass supplies (Id, ProcessBrief, ProcessDescription,
    CreateTask, GetExecuteResponse, GetReport) are given by a ProcessImpl
    value and by the `current` snapshot of what its GetExecuteResponse does. */
module Processes {
  import opened Common
  import opened WpsTypes
  import opened Orders

  /** ows:CodeType */
  datatype CodeType = CodeType(value: string)

  /** ows:LanguageStringType */
  datatype LanguageString = LanguageString(value: string)

  /** What the implementation's GetExecuteResponse does when called: return a
      (possibly null) response, or throw. */
  datatype Snapshot = Returned(response: Option<ExecuteResponse>) | Threw(exn: Exn)

  /** The abstract members a concrete process implements; `respond` is what
      GetExecuteResponse of a newly created instance does. */
  datatype ProcessImpl = ProcessImpl(id: string, brief: ProcessBrief, description: ProcessDescription,
                                     report: Option<seq<string>>, respond: Snapshot)

  /** The handle of the task CreateTask builds; it is created cold and
      started by WpsJob.Run. */
  datatype TaskHandle = TaskHandle(processId: string, started: bool)

  class AsyncWPSProcess {
    var identifier: Option<CodeType>
    var title: Option<LanguageString>
    var processAbstract: Option<LanguageString>
    var version: Option<string>
    var status: StatusType
    /** The IMemoryCache field; an opaque reference here. */
    var cache: object?
    const impl: ProcessImpl
    /** The implementation's own state as its GetExecuteResponse observes it;
        the task that advances it runs outside this model. */
    var current: Snapshot

    /** Identifier, Title and Abstract are set only from non-empty arguments;
        Version defaults to "1.0" when omitted but stays null when an empty
        string or null is passed; the status starts as ProcessAccepted. */
    constructor (impl: ProcessImpl, now: int, identifier: Option<string>, title: Option<string>, descr: Option<string>,
                 version: Option<string> := Some("1.0"))
      ensures this.impl == impl && current == impl.respond && cache == null
      ensures this.identifier == if IsNullOrEmpty(identifier) then None else Some(CodeType(identifier.value))
      ensures this.title == if IsNullOrEmpty(title) then None else Some(LanguageString(title.value))
      ensures processAbstract == if IsNullOrEmpty(descr) then None else Some(LanguageString(descr.value))
      ensures this.version == if IsNullOrEmpty(version) then None else version
      ensures status == StatusType(ProcessAccepted("Process accepted"), now)
      ensures !IsTerminal(status)
      ensures Description() == if IsNullOrEmpty(descr) then None else descr
    {
      this.impl := impl;
      this.identifier := if !IsNullOrEmpty(identifier) then Some(CodeType(identifier.value)) else None;
      this.title := if !IsNullOrEmpty(title) then Some(LanguageString(title.value)) else None;
      processAbstract := if !IsNullOrEmpty(descr) then Some(LanguageString(descr.value)) else None;
      this.version := if !IsNullOrEmpty(version) then version else None;
      status := StatusType(ProcessAccepted("Process accepted"), now);
      cache := null;
      current := impl.respond;
    }

    /** Description: the text of Abstract when it is set, null otherwise. */
    function Description(): (d: Option<string>)
      reads this
      ensures d.Some? <==> processAbstract.Some?
      ensures d.Some? ==> LanguageString(d.value) == processAbstract.value
    {
      if processAbstract.Some? then Some(processAbstract.value.value) else None
    }
  }

  class WpsProcess {
    const iprocess: AsyncWPSProcess
    /** TimeSpan.FromSeconds(JobCachePeriod), in seconds. */
    var jobCacheTime: int
    var httpClient: object?

    constructor (iprocess: AsyncWPSProcess)
      ensures this.iprocess == iprocess && jobCacheTime == 0 && httpClient == null
    {
      this.iprocess := iprocess;
      jobCacheTime := 0;
      httpClient := null;
    }

    function Id(): string { iprocess.impl.id }

    function ProcessBrief(): ProcessBrief { iprocess.impl.brief }

    function ProcessDescription(): ProcessDescription { iprocess.impl.description }

    function GetMemoryCache(): object?
      reads iprocess
    {
      iprocess.cache
    }

    method SetMemoryCache(cache: object?)
      modifies iprocess`cache
      ensures GetMemoryCache() == cache
    {
      iprocess.cache := cache;
    }

    method SetHttpClient(client: object?)
      modifies this`httpClient
      ensures httpClient == client
    {
      httpClient := client;
    }

    /** CreateTask(order): a cold task of this process for the order. */
    method CreateTask(order: JobOrder) returns (t: TaskHandle)
      ensures t == TaskHandle(Id(), false)
    {
      t := TaskHandle(Id(), false);
    }

    function GetExecuteResponse(): Snapshot
      reads iprocess
    {
      iprocess.current
    }

    function GetReport(): Option<seq<string>> { iprocess.impl.report }
  }

  /** A <process> entry of the WebProcessingService configuration section.
      `handler` is what the configured type name resolves to; None when the
      type cannot be found. */
  datatype ProcessConfig = ProcessConfig(
    identifier: string, title: string, processAbstract: string, version: string,
    jobCachePeriod: int, handler: Option<ProcessImpl>)

  /** ProcessElement.CreateHandlerInstance when a new process is made: a fresh
      process built from the configured type and metadata, or
      ConfigurationErrors when the type cannot be resolved. */
  method NewProcess(config: ProcessConfig, cache: object?, httpClient: object?, now: int)
    returns (r: Result<WpsProcess>)
    ensures config.handler.None? <==> r.Err?
    ensures r.Err? ==> r.error == ConfigurationErrors
    ensures r.Ok? ==> fresh(r.value) && fresh(r.value.iprocess)
    ensures r.Ok? ==> r.value.Id() == config.handler.value.id && r.value.jobCacheTime == config.jobCachePeriod
    ensures r.Ok? ==> r.value.GetMemoryCache() == cache && r.value.httpClient == httpClient
    ensures r.Ok? ==> r.value.iprocess.impl == config.handler.value && r.value.GetExecuteResponse() == config.handler.value.respond
  {
    if config.handler.None? {
      return Err(ConfigurationErrors);
    }
    var iprocess := new AsyncWPSProcess(config.handler.value, now, Some(config.identifier), Some(config.title),
                                        Some(config.processAbstract), Some(config.version));
    var process := new WpsProcess(iprocess);
    process.jobCacheTime := config.jobCachePeriod;
    process.SetHttpClient(httpClient);
    process.SetMemoryCache(cache);
    r := Ok(process);
  }

  /** The <process> entries of the configuration section, each with the
      process its ProcessElement memoises (`memo[k]`, null until first
      created). The memo slots live in the configuration, so every operation
      over it sees the same processes. */
  class ProcessCollection {
    const configs: seq<ProcessConfig>
    var memo: seq<WpsProcess?>

    constructor (configs: seq<ProcessConfig>)
      ensures this.configs == configs && |memo| == |configs| && forall k :: 0 <= k < |memo| ==> memo[k] == null
      ensures Valid()
    {
      this.configs := configs;
      memo := seq(|configs|, _ => null);
    }

    /** One slot per entry, and a memoised process was built from its
        entry's process type. */
    predicate Valid()
      reads this
    {
      |memo| == |configs| &&
      forall k :: 0 <= k < |memo| && memo[k] != null ==> configs[k].handler == Some(memo[k].iprocess.impl)
    }

    /** ProcessElement.CreateHandlerInstance(accessor, cache, httpClient, logger,
        forceCreateNewProcess) on entry k: the memoised process when there is
        one and no new one is forced, otherwise a new process, which replaces
        the memoised one. */
    method CreateHandlerInstance(k: nat, cache: object?, httpClient: object?, now: int, force: bool)
      returns (r: Result<WpsProcess>)
      requires Valid() && k < |configs|
      modifies this`memo
      ensures Valid()
      ensures old(memo[k]) != null && !force ==> r == Ok(old(memo[k])) && memo == old(memo)
      ensures (old(memo[k]) == null || force) && configs[k].handler.None? ==>
                r == Err(ConfigurationErrors) && memo == old(memo)
      ensures (old(memo[k]) == null || force) && configs[k].handler.Some? ==>
                r.Ok? && memo == old(memo)[k := r.value] && fresh(r.value) && fresh(r.value.iprocess) &&
                r.value.jobCacheTime == configs[k].jobCachePeriod &&
                r.value.GetMemoryCache() == cache && r.value.httpClient == httpClient
      ensures r.Ok? ==> configs[k].handler == Some(r.value.iprocess.impl) && r.value.Id() == configs[k].handler.value.id
    {
      if memo[k] != null && !force {
        return Ok(memo[k]);
      }
      r := NewProcess(configs[k], cache, httpClient, now);
      if r.Ok? {
        memo := memo[k := r.value];
      }
    }
  }
}
