/** Wps/WpsJob.cs: one asynchronous WPS execution. A job is created for a
    submitted Execute request, registered in the job cache under a fresh
    uid, and later found again by uid, from the cache or rebuilt from the
    recovery store. */
module Jobs {
  import opened Common
  import opened WpsTypes
  import opened Progress
  import opened Orders
  import opened Processes

  /** JobStatusBaseUrl and what `new Uri(..)` makes of it: its scheme and
      host, or None when the text is not a valid URI. */
  datatype JobStatusBase = JobStatusBase(url: string, schemeAndHost: Option<(string, string)>)

  /** default(DateTime), the creation time of a status nobody set. */
  const DefaultCreationTime := 0

  // ---------------------------------------------------------------------
  // The job cache

  /** An entry of the job cache and its absolute expiration. */
  datatype CacheEntry = CacheEntry(job: WpsJob, expiry: int)

  /** The IMemoryCache that holds WpsJob objects by uid. An entry set with an
      absolute expiration is visible while the clock is before it. */
  class JobCache {
    var entries: map<string, CacheEntry>

    constructor ()
      ensures entries == map[]
    {
      entries := map[];
    }

    predicate Live(key: string, now: int)
      reads this
    {
      key in entries && now < entries[key].expiry
    }

    /** Get / TryGetValue: the job of a live entry, null otherwise. */
    function Get(key: string, now: int): (job: WpsJob?)
      reads this
      ensures job != null <==> Live(key, now)
      ensures job != null ==> job == entries[key].job
    {
      if Live(key, now) then entries[key].job else null
    }

    /** Set(key, job, absoluteExpiration): insert or replace. */
    method Set(key: string, job: WpsJob, expiry: int)
      modifies this
      ensures entries == old(entries)[key := CacheEntry(job, expiry)]
      ensures forall now :: now < expiry ==> Get(key, now) == job
    {
      entries := entries[key := CacheEntry(job, expiry)];
    }

    /** The uid loop of Save: draw candidates from `gen` (Guid.NewGuid) until
        one is not a live key. `bound` is the index of some free candidate,
        which makes the loop terminate. */
    method FreshKey(gen: nat -> string, now: int, ghost bound: nat) returns (key: string, k: nat)
      requires !Live(gen(bound), now)
      ensures !Live(key, now) && key == gen(k) && k <= bound
      ensures forall j :: 0 <= j < k ==> Live(gen(j), now)
    {
      k := 0;
      key := gen(0);
      while Live(key, now)
        invariant k <= bound && key == gen(k)
        invariant forall j :: 0 <= j < k ==> Live(gen(j), now)
        decreases bound - k
      {
        k := k + 1;
        key := gen(k);
      }
    }

    /** Everything a static job operation may change through the job
        cached under key: the job, its progress slot, its order and the
        order's store. */
    function EntryFootprint(key: string): set<object>
      reads this
    {
      if key in entries then
        var job := entries[key].job;
        {job, job.progress, job.jobOrder, job.jobOrder.store}
      else {}
    }
  }

  // ---------------------------------------------------------------------
  // The response of a job

  /** The ows:Exception written for one caught exception: NoApplicableCode,
      whose text is the stack trace when the message mentions a null
      reference and the message otherwise. */
  function Entry(e: Exn): ExceptionType {
    ExceptionType("NoApplicableCode", None, Some(if Contains(e.message, "Object reference") then e.stackTrace else e.message))
  }

  /** The entries of a list of exceptions, one each, in order. */
  function Entries(es: seq<Exn>): seq<ExceptionType> {
    seq(|es|, i requires 0 <= i < |es| => Entry(es[i]))
  }

  /** The entries one inner exception of the AggregateException contributes:
      the inner exceptions of a nested AggregateException first (one level
      only), then the exception itself. */
  function Group(e: Exn): seq<ExceptionType> {
    (if e.Aggregate? then Entries(e.inner) else []) + [Entry(e)]
  }

  /** The exception report built from the inner exceptions of a caught
      AggregateException. */
  function Flatten(inner: seq<Exn>): (xs: seq<ExceptionType>)
    ensures forall i :: 0 <= i < |xs| ==> xs[i].exceptionCode == "NoApplicableCode" && xs[i].locator.None?
    ensures |xs| >= |inner|
    decreases |inner|
  {
    if inner == [] then [] else Flatten(inner[..|inner| - 1]) + Group(inner[|inner| - 1])
  }

  /** The report of a concatenation is the concatenation of the reports. */
  lemma {:induction false} FlattenAppend(a: seq<Exn>, b: seq<Exn>)
    ensures Flatten(a + b) == Flatten(a) + Flatten(b)
    decreases |b|
  {
    if b == [] {
      assert a + b == a;
    } else {
      var b', last := b[..|b| - 1], b[|b| - 1];
      DropLastOfAppend(a, b);
      FlattenAppend(a, b');
      ConcatAssoc(Flatten(a), Flatten(b'), Group(last));
    }
  }

  /** Without nested aggregates the report has exactly one entry per inner
      exception, in order. */
  lemma {:induction false} FlattenPlain(inner: seq<Exn>)
    requires forall i :: 0 <= i < |inner| ==> inner[i].Simple?
    ensures Flatten(inner) == Entries(inner)
    decreases |inner|
  {
    if inner != [] {
      FlattenPlain(inner[..|inner| - 1]);
    }
  }

  /** The loops of GetExecuteResponse's catch block. */
  method FailureEntries(inner: seq<Exn>) returns (entries: seq<ExceptionType>)
    ensures entries == Flatten(inner)
  {
    entries := [];
    for i := 0 to |inner|
      invariant entries == Flatten(inner[..i])
    {
      var ex := inner[i];
      var before := entries;
      if ex.Aggregate? {
        for j := 0 to |ex.inner|
          invariant entries == before + Entries(ex.inner[..j])
        {
          EntriesStep(ex.inner, j);
          entries := entries + [Entry(ex.inner[j])];
        }
        assert ex.inner[..|ex.inner|] == ex.inner;
      }
      entries := entries + [Entry(ex)];
      assert entries == before + Group(ex);
      FlattenStep(inner, i);
    }
    assert inner[..|inner|] == inner;
  }

  /** Entries one exception further. */
  lemma EntriesStep(es: seq<Exn>, j: nat)
    requires j < |es|
    ensures Entries(es[..j + 1]) == Entries(es[..j]) + [Entry(es[j])]
  {
  }

  /** Flatten one inner exception further. */
  lemma FlattenStep(inner: seq<Exn>, i: nat)
    requires i < |inner|
    ensures Flatten(inner[..i + 1]) == Flatten(inner[..i]) + Group(inner[i])
  {
    assert inner[..i + 1][..i] == inner[..i];
  }

  /** `new ExecuteResponse()` whose only field is a ProcessFailed status. */
  function FailureResponse(entries: seq<ExceptionType>): ExecuteResponse {
    EmptyResponse.(status := Some(StatusType(ProcessFailed(ExceptionReport(entries)), DefaultCreationTime)))
  }

  /** Every field GetExecuteResponse guarantees is set. */
  predicate Filled(r: ExecuteResponse) {
    !IsNullOrEmpty(r.serviceInstance) && !IsNullOrEmpty(r.statusLocation) && r.process.Some?
    && !IsNullOrEmpty(r.service) && !IsNullOrEmpty(r.version)
  }

  /** `after` keeps the status, the outputs and every field `before` had set. */
  predicate Extends(before: ExecuteResponse, after: ExecuteResponse) {
    after.status == before.status && after.outputs == before.outputs
    && (!IsNullOrEmpty(before.serviceInstance) ==> after.serviceInstance == before.serviceInstance)
    && (!IsNullOrEmpty(before.statusLocation) ==> after.statusLocation == before.statusLocation)
    && (before.process.Some? ==> after.process == before.process)
    && (!IsNullOrEmpty(before.service) ==> after.service == before.service)
    && (!IsNullOrEmpty(before.version) ==> after.version == before.version)
  }

  /** The defaults GetExecuteResponse fills in: the service instance
      "{scheme}://{host}/" of the status base URL, the status location
      "{base}?id={uid}", the process brief, "WPS" and "1.0.0". Parsing the
      base URL fails only when it is needed. */
  function Normalize(r: ExecuteResponse, base: JobStatusBase, uid: Option<string>, brief: ProcessBrief): (n: Result<ExecuteResponse>)
    ensures n.Err? <==> IsNullOrEmpty(r.serviceInstance) && base.schemeAndHost.None?
    ensures n.Err? ==> n.error == UriFormat
    ensures n.Ok? ==> Filled(n.value) && Extends(r, n.value)
    ensures n.Ok? && IsNullOrEmpty(r.serviceInstance) ==>
              n.value.serviceInstance == Some(base.schemeAndHost.value.0 + "://" + base.schemeAndHost.value.1 + "/")
    ensures n.Ok? && IsNullOrEmpty(r.statusLocation) ==> n.value.statusLocation == Some(base.url + "?id=" + FormatArg(uid))
    ensures n.Ok? && r.process.None? ==> n.value.process == Some(brief)
    ensures n.Ok? && IsNullOrEmpty(r.service) ==> n.value.service == Some("WPS")
    ensures n.Ok? && IsNullOrEmpty(r.version) ==> n.value.version == Some("1.0.0")
  {
    if IsNullOrEmpty(r.serviceInstance) && base.schemeAndHost.None? then Err(UriFormat)
    else
      var instance := if IsNullOrEmpty(r.serviceInstance)
                      then Some(base.schemeAndHost.value.0 + "://" + base.schemeAndHost.value.1 + "/")
                      else r.serviceInstance;
      var location := if IsNullOrEmpty(r.statusLocation) then Some(base.url + "?id=" + FormatArg(uid)) else r.statusLocation;
      var process := if r.process.None? then Some(brief) else r.process;
      var service := if IsNullOrEmpty(r.service) then Some("WPS") else r.service;
      var version := if IsNullOrEmpty(r.version) then Some("1.0.0") else r.version;
      Ok(r.(serviceInstance := instance, statusLocation := location, process := process, service := service, version := version))
  }

  /** A response GetExecuteResponse produced is left alone by a second pass,
      whatever the base URL, uid and brief of that pass. */
  lemma NormalizeIdempotent(r: ExecuteResponse, base: JobStatusBase, uid: Option<string>, brief: ProcessBrief,
                            base': JobStatusBase, uid': Option<string>, brief': ProcessBrief)
    requires Normalize(r, base, uid, brief).Ok?
    ensures Normalize(Normalize(r, base, uid, brief).value, base', uid', brief') == Normalize(r, base, uid, brief)
  {
  }

  /** The response GetExecuteResponse builds from what the process did,
      before it is stored on the order: a null response is dereferenced, a
      plain exception propagates, an AggregateException becomes a
      ProcessFailed report. */
  function ComposeResponse(snapshot: Snapshot, base: JobStatusBase, uid: Option<string>, brief: ProcessBrief): (r: Result<ExecuteResponse>)
    ensures snapshot == Returned(None) ==> r == Err(NullReference)
    ensures snapshot.Threw? && snapshot.exn.Simple? ==> r == Err(Thrown(snapshot.exn))
    ensures snapshot.Returned? && snapshot.response.Some? ==> r == Normalize(snapshot.response.value, base, uid, brief)
    ensures snapshot.Threw? && snapshot.exn.Aggregate? && base.schemeAndHost.Some? ==>
              r.Ok? && r.value.status == Some(StatusType(ProcessFailed(ExceptionReport(Flatten(snapshot.exn.inner))), DefaultCreationTime))
    ensures r.Ok? ==> Filled(r.value)
  {
    match snapshot
    case Returned(None) => Err(NullReference)
    case Returned(Some(response)) => Normalize(response, base, uid, brief)
    case Threw(e) =>
      if e.Simple? then Err(Thrown(e)) else Normalize(FailureResponse(Flatten(e.inner)), base, uid, brief)
  }

  /** What GetExecuteResponse returns: the composed response, except that a
      response without a Status fails when its status is logged. */
  function JobResult(snapshot: Snapshot, base: JobStatusBase, uid: Option<string>, brief: ProcessBrief): (r: Result<ExecuteResponse>)
    ensures r.Ok? ==> Filled(r.value) && r.value.status.Some?
    ensures r.Ok? <==> ComposeResponse(snapshot, base, uid, brief).Ok? && ComposeResponse(snapshot, base, uid, brief).value.status.Some?
    ensures r.Ok? ==> r == ComposeResponse(snapshot, base, uid, brief)
  {
    match ComposeResponse(snapshot, base, uid, brief)
    case Err(e) => Err(e)
    case Ok(response) => if response.status.None? then Err(NullReference) else Ok(response)
  }

  // ---------------------------------------------------------------------
  // The job

  class WpsJob {
    const jobOrder: JobOrder
    const progress: JobProgress
    const wpsProcess: WpsProcess
    var uid: Option<string>
    var creationTime: int
    var task: TaskHandle
    /** Set by the submitting constructor only; a job rebuilt by Load has none. */
    var wpsJobCache: JobCache?

    /** WpsJob(wpsProcess, execute): a new job with a fresh progress slot and
        order, registered in the process's cache under a uid that was not
        live, whose Execute request is then persisted (write-once). */
    constructor (wpsProcess: WpsProcess, execute: Option<Execute>, store: RecoveryStore, cache: JobCache,
                 now: int, gen: nat -> string, ghost bound: nat)
      requires wpsProcess.GetMemoryCache() == cache
      requires !cache.Live(gen(bound), now)
      modifies cache, store
      ensures this.wpsProcess == wpsProcess && wpsJobCache == cache && creationTime == now
      ensures fresh(progress) && progress.status == None
      ensures fresh(jobOrder) && jobOrder.store == store && jobOrder.executeRequest == execute
      ensures jobOrder.jobProgress == progress && jobOrder.creationTime == now
      ensures jobOrder.executeResponse == None && jobOrder.recoveryInfo == None
      ensures task == TaskHandle(wpsProcess.Id(), false)
      ensures uid.Some? && jobOrder.uid == uid && var u := uid.value; !old(cache.Live(u, now))
      ensures Cached(cache.entries, old(cache.entries), uid.value, this, now + wpsProcess.jobCacheTime)
      ensures store.directory == old(store.directory)
      ensures store.files == if store.Configured() && execute.Some? && store.PathOf(uid.value, RequestFile) !in old(store.files)
                             then old(store.files)[store.PathOf(uid.value, RequestFile) := RequestXml(execute.value)]
                             else old(store.files)
    {
      this.wpsProcess := wpsProcess;
      wpsJobCache := cache;
      var p := new JobProgress();
      progress := p;
      creationTime := now;
      var order := new JobOrder(store, execute, p, now);
      jobOrder := order;
      var t := wpsProcess.CreateTask(order);
      task := t;
      uid := None;
      new;
      var id := Save(now + wpsProcess.jobCacheTime, now, gen, bound);
      uid := Some(id);
      jobOrder.uid := uid;
      store.WriteExecuteRequest(execute, id);
    }

    /** `new WpsJob() { .. }` as Load fills it in. */
    constructor Restore(uid: string, jobOrder: JobOrder, progress: JobProgress, wpsProcess: WpsProcess,
                        task: TaskHandle, creationTime: int)
      ensures this.uid == Some(uid) && this.jobOrder == jobOrder && this.progress == progress
      ensures this.wpsProcess == wpsProcess && this.task == task && this.creationTime == creationTime
      ensures wpsJobCache == null
    {
      this.uid := Some(uid);
      this.jobOrder := jobOrder;
      this.progress := progress;
      this.wpsProcess := wpsProcess;
      this.task := task;
      this.creationTime := creationTime;
      wpsJobCache := null;
    }

    /** Save(absoluteExpiration): register this job under the first candidate
        uid that is not live in the cache. */
    method Save(expiry: int, now: int, gen: nat -> string, ghost bound: nat) returns (id: string)
      requires wpsJobCache != null && !wpsJobCache.Live(gen(bound), now)
      modifies wpsJobCache
      ensures !old(wpsJobCache.Live(id, now))
      ensures wpsJobCache.entries == old(wpsJobCache.entries)[id := CacheEntry(this, expiry)]
    {
      var k;
      id, k := wpsJobCache.FreshKey(gen, now, bound);
      wpsJobCache.Set(id, this, expiry);
    }

    /** The response this job's GetExecuteResponse builds now. */
    function Composed(base: JobStatusBase): Result<ExecuteResponse>
      reads this`uid, wpsProcess.iprocess
    {
      ComposeResponse(wpsProcess.GetExecuteResponse(), base, uid, wpsProcess.ProcessBrief())
    }

    /** What this job's GetExecuteResponse returns now. */
    function Response(base: JobStatusBase): Result<ExecuteResponse>
      reads this`uid, wpsProcess.iprocess
    {
      JobResult(wpsProcess.GetExecuteResponse(), base, uid, wpsProcess.ProcessBrief())
    }

    /** GetExecuteResponse(): ask the process, turn an AggregateException into
        a ProcessFailed report, fill in the defaults and keep the result on
        the order (without persisting it). */
    method GetExecuteResponse(base: JobStatusBase) returns (r: Result<ExecuteResponse>)
      modifies jobOrder`executeResponse
      ensures r == Response(base)
      ensures r.Ok? ==> Filled(r.value) && r.value.status.Some?
      ensures jobOrder.executeResponse == if Composed(base).Ok? then Some(Composed(base).value) else old(jobOrder.executeResponse)
    {
      var response: ExecuteResponse;
      match wpsProcess.GetExecuteResponse() {
        case Returned(returned) =>
          if returned.None? {
            return Err(NullReference);
          }
          response := returned.value;
        case Threw(e) =>
          if e.Simple? {
            return Err(Thrown(e));
          }
          var entries := FailureEntries(e.inner);
          response := FailureResponse(entries);
      }
      var normalized := Normalize(response, base, uid, wpsProcess.ProcessBrief());
      if normalized.Err? {
        return Err(normalized.error);
      }
      jobOrder.executeResponse := Some(normalized.value);
      if normalized.value.status.None? {
        return Err(NullReference);
      }
      r := Ok(normalized.value);
    }

    /** Run(): start the task (a task can be started once), report
        ProcessStarted "Task Started" at 0 percent with the job's creation
        time, then return GetExecuteResponse. */
    method Run(base: JobStatusBase) returns (r: Result<ExecuteResponse>)
      modifies this`task, progress, jobOrder`executeResponse
      ensures old(task).started ==> r == Err(InvalidOperation) && task == old(task) && progress.status == old(progress.status)
      ensures old(task).started ==> jobOrder.executeResponse == old(jobOrder.executeResponse)
      ensures !old(task).started ==> task == old(task).(started := true) && r == Response(base)
      ensures !old(task).started ==> progress.status == Some(StatusType(ProcessStarted("Task Started", "0"), creationTime))
      ensures !old(task).started ==>
                jobOrder.executeResponse == if Composed(base).Ok? then Some(Composed(base).value) else old(jobOrder.executeResponse)
    {
      if task.started {
        return Err(InvalidOperation);
      }
      task := task.(started := true);
      progress.Report(Some(StatusType(ProcessStarted("Task Started", "0"), creationTime)));
      r := GetExecuteResponse(base);
    }

    /** The private GetReport(): the process's report list. */
    function GetReport(): Option<seq<string>> {
      wpsProcess.GetReport()
    }
  }

  // ---------------------------------------------------------------------
  // Finding a job again

  /** Whether the configured <process> entry answers to the identifier. */
  predicate Matches(config: ProcessConfig, id: Option<string>) {
    id == Some(config.identifier)
  }

  /** configs[i] has the identifier and no later entry has it. */
  predicate LastAt(configs: seq<ProcessConfig>, i: int, id: Option<string>) {
    0 <= i < |configs| && Matches(configs[i], id) && forall j :: i < j < |configs| ==> !Matches(configs[j], id)
  }

  /** The last configured process with the identifier: the one the foreach
      loop of Load keeps. */
  function LastMatching(configs: seq<ProcessConfig>, id: Option<string>): (c: Option<ProcessConfig>)
    ensures c.Some? ==> Matches(c.value, id)
    decreases |configs|
  {
    if configs == [] then None
    else if Matches(configs[|configs| - 1], id) then Some(configs[|configs| - 1])
    else LastMatching(configs[..|configs| - 1], id)
  }

  /** LastMatching is none exactly when no configured process has the
      identifier, and otherwise the entry at the last position that has it. */
  lemma {:induction false} LastMatchingIsLast(configs: seq<ProcessConfig>, id: Option<string>)
    ensures LastMatching(configs, id).None? <==> forall i :: 0 <= i < |configs| ==> !Matches(configs[i], id)
    ensures LastMatching(configs, id).Some? ==> exists i :: LastAt(configs, i, id) && configs[i] == LastMatching(configs, id).value
    decreases |configs|
  {
    if configs != [] {
      var last := |configs| - 1;
      if Matches(configs[last], id) {
        assert LastAt(configs, last, id);
      } else {
        var init := configs[..last];
        LastMatchingIsLast(init, id);
        assert forall i :: 0 <= i < last ==> init[i] == configs[i];
        if LastMatching(init, id).Some? {
          var i :| LastAt(init, i, id) && init[i] == LastMatching(init, id).value;
          assert LastAt(configs, i, id);
        }
      }
    }
  }

  /** The process was built from the configured entry c, sharing the job
      cache. */
  predicate InstanceOf(process: WpsProcess, c: ProcessConfig, cache: JobCache)
    reads process, process.iprocess
  {
    && c.handler.Some? && process.iprocess.impl == c.handler.value
    && process.GetExecuteResponse() == c.handler.value.respond && process.GetMemoryCache() == cache
    && process.jobCacheTime == c.jobCachePeriod
  }

  /** One more configured process: it is the last match if it matches,
      otherwise the last match so far stays. */
  lemma LastMatchingStep(configs: seq<ProcessConfig>, i: nat, id: Option<string>)
    requires i < |configs|
    ensures LastMatching(configs[..i + 1], id) ==
            if Matches(configs[i], id) then Some(configs[i]) else LastMatching(configs[..i], id)
  {
    var p := configs[..i + 1];
    assert p != [] && |p| - 1 == i;
    assert p[..i] == configs[..i];
    assert p[i] == configs[i];
  }

  /** One more configured process: all matches still resolve exactly when
      they did so far and the new one, if it matches, resolves. */
  lemma AllMatchingResolveStep(configs: seq<ProcessConfig>, i: nat, id: Option<string>)
    requires i < |configs|
    ensures AllMatchingResolve(configs[..i + 1], id) <==>
            AllMatchingResolve(configs[..i], id) && (Matches(configs[i], id) ==> configs[i].handler.Some?)
  {
    var p := configs[..i + 1];
    assert forall j :: 0 <= j < i ==> p[j] == configs[..i][j];
    assert p[i] == configs[i];
  }

  /** Every configured process with the identifier resolves its type: Load
      instantiates each of them, and the first that fails ends it. */
  predicate AllMatchingResolve(configs: seq<ProcessConfig>, id: Option<string>) {
    forall i :: 0 <= i < |configs| && Matches(configs[i], id) ==> configs[i].handler.Some?
  }

  /** The identifier Load looks the process up by: the RecoveryInfo's when a
      RecoveryInfo was read, else the request's ows:Identifier, whose
      absence is a null dereference. */
  function ServiceIdentifier(execute: Execute, info: Option<RecoveryInfo>): (r: Result<Option<string>>)
    ensures info.Some? ==> r == Ok(info.value.wpsProcessIdentifier)
    ensures info.None? ==> (r.Ok? <==> execute.identifier.Some?) && (r.Ok? ==> r.value == execute.identifier)
  {
    if info.Some? then Ok(info.value.wpsProcessIdentifier)
    else if execute.identifier.None? then Err(NullReference)
    else Ok(execute.identifier)
  }

  /** Load(uid, false) rebuilds a job exactly when the request and a response
      with a Status are on disk, the service identifier can be found, some
      configured process has it and every such process resolves. */
  predicate Recoverable(store: RecoveryStore, configs: seq<ProcessConfig>, uid: string)
    reads store
  {
    var execute := store.ReadExecuteRequest(uid);
    var response := store.ReadExecuteResponse(uid);
    execute.Some? && response.Some? && response.value.status.Some?
    && var id := ServiceIdentifier(execute.value, store.ReadRecoveryInfo(uid));
    id.Ok? && LastMatching(configs, id.value).Some? && AllMatchingResolve(configs, id.value)
  }

  /** The configured process a rebuilt job is made from. */
  function RebuiltConfig(store: RecoveryStore, configs: seq<ProcessConfig>, uid: string): ProcessConfig
    requires Recoverable(store, configs, uid)
    reads store
  {
    var id := ServiceIdentifier(store.ReadExecuteRequest(uid).value, store.ReadRecoveryInfo(uid));
    LastMatching(configs, id.value).value
  }

  /** The implementation a rebuilt job runs. */
  function RebuiltImpl(store: RecoveryStore, configs: seq<ProcessConfig>, uid: string): ProcessImpl
    requires Recoverable(store, configs, uid)
    reads store
  {
    var id := ServiceIdentifier(store.ReadExecuteRequest(uid).value, store.ReadRecoveryInfo(uid));
    LastMatchingIsLast(configs, id.value);
    var i :| LastAt(configs, i, id.value) && configs[i] == RebuiltConfig(store, configs, uid);
    RebuiltConfig(store, configs, uid).handler.value
  }

  /** The foreach loop of Load: instantiate every configured process with
      the identifier and keep the last. `resolved` is false when one of them
      could not be instantiated, which ends the loop. */
  method CreateMatchingProcess(configs: seq<ProcessConfig>, id: Option<string>, cache: JobCache, now: int)
    returns (resolved: bool, process: WpsProcess?)
    ensures resolved <==> AllMatchingResolve(configs, id)
    ensures resolved ==> (process == null <==> LastMatching(configs, id).None?)
    ensures resolved && process != null ==>
              fresh(process) && fresh(process.iprocess) && InstanceOf(process, LastMatching(configs, id).value, cache)
  {
    process := null;
    resolved := true;
    ghost var last: Option<ProcessConfig> := None;
    var i := 0;
    while i < |configs| && resolved
      invariant 0 <= i <= |configs|
      invariant resolved <==> AllMatchingResolve(configs[..i], id)
      invariant !resolved ==> !AllMatchingResolve(configs, id)
      invariant resolved ==> last == LastMatching(configs[..i], id)
      invariant resolved ==> (process == null <==> last.None?)
      invariant resolved && process != null ==>
                  fresh(process) && fresh(process.iprocess) && InstanceOf(process, last.value, cache)
    {
      LastMatchingStep(configs, i, id);
      AllMatchingResolveStep(configs, i, id);
      if Matches(configs[i], id) {
        var created := NewProcess(configs[i], cache, null, now);
        if created.Err? {
          assert Matches(configs[i], id) && configs[i].handler.None?;
          resolved := false;
          process := null;
        } else {
          process := created.value;
          last := Some(configs[i]);
        }
      }
      i := i + 1;
    }
    if resolved {
      assert configs[..i] == configs;
    }
  }

  /** The cache read of Load(uid): the job of a live entry. */
  function CachedJob(cache: JobCache, uid: string, now: int): WpsJob?
    reads cache
  {
    cache.Get(uid, now)
  }

  /** The job Load rebuilds for uid: its order holds the request, response
      and RecoveryInfo the store keeps for uid, its progress the stored
      status, and it runs the configured implementation with a task that
      has not started. */
  predicate RebuiltFrom(job: WpsJob, cache: JobCache, store: RecoveryStore, configs: seq<ProcessConfig>, uid: string,
                        now: int, before: map<string, CacheEntry>)
    reads job, job.jobOrder, job.progress, job.wpsProcess, job.wpsProcess.iprocess, store, cache
  {
    && Cached(cache.entries, before, uid, job, now + job.wpsProcess.jobCacheTime)
    && Recoverable(store, configs, uid)
    && var response := store.ReadExecuteResponse(uid).value;
    && job.uid == Some(uid) && job.wpsJobCache == null
    && job.jobOrder.uid == Some(uid) && job.jobOrder.store == store
    && job.jobOrder.executeRequest == store.ReadExecuteRequest(uid)
    && job.jobOrder.executeResponse == Some(response)
    && job.jobOrder.recoveryInfo == store.ReadRecoveryInfo(uid)
    && job.jobOrder.jobProgress == job.progress && job.progress.status == response.status
    && job.creationTime == response.status.value.creationTime
    && job.jobOrder.creationTime == response.status.value.creationTime
    && job.wpsProcess.iprocess.impl == RebuiltImpl(store, configs, uid)
    && job.wpsProcess.GetExecuteResponse() == RebuiltImpl(store, configs, uid).respond
    && job.wpsProcess.GetMemoryCache() == cache
    && job.task == TaskHandle(RebuiltImpl(store, configs, uid).id, false)
    && job.wpsProcess.jobCacheTime == RebuiltConfig(store, configs, uid).jobCachePeriod
  }

  /** The cache entries after `before` had `job` set under `key`, to expire at `expiry`. */
  predicate Cached(after: map<string, CacheEntry>, before: map<string, CacheEntry>, key: string, job: WpsJob, expiry: int) {
    && key in after && after[key].job == job && after[key].expiry == expiry
    && after == before[key := after[key]]
  }

  /** Load(uid, useCache). With the cache, a missing entry is dereferenced
      (a NullReferenceException escapes). Without it, the job is rebuilt
      from the recovery store and the configuration and cached again; every
      failure on that path is caught and yields null. */
  method Load(cache: JobCache, store: RecoveryStore, configs: seq<ProcessConfig>, uid: string, useCache: bool, now: int)
    returns (r: Result<WpsJob?>)
    modifies cache
    ensures useCache ==> cache.entries == old(cache.entries)
    ensures useCache ==> r == if old(cache.Live(uid, now)) then Ok(old(cache.entries[uid].job)) else Err(NullReference)
    ensures !useCache ==> r.Ok? && (r.value != null <==> Recoverable(store, configs, uid))
    ensures !useCache && r.value == null ==> cache.entries == old(cache.entries)
    ensures !useCache && r.value != null ==>
              var job := r.value;
              && fresh(job) && fresh(job.jobOrder) && fresh(job.progress) && fresh(job.wpsProcess) && fresh(job.wpsProcess.iprocess)
              && RebuiltFrom(job, cache, store, configs, uid, now, old(cache.entries))
  {
    if useCache {
      var job := cache.Get(uid, now);
      if job == null {
        return Err(NullReference);
      }
      return Ok(job);
    }
    var job := LoadStored(cache, store, configs, uid, now);
    r := Ok(job);
  }

  /** The path of Load without the cache: read the request, the response
      and the RecoveryInfo of uid, find the process, rebuild the job and
      cache it; null when any of it is missing. */
  method LoadStored(cache: JobCache, store: RecoveryStore, configs: seq<ProcessConfig>, uid: string, now: int)
    returns (job: WpsJob?)
    modifies cache
    ensures job != null <==> Recoverable(store, configs, uid)
    ensures job == null ==> cache.entries == old(cache.entries)
    ensures job != null ==>
              && fresh(job) && fresh(job.jobOrder) && fresh(job.progress) && fresh(job.wpsProcess) && fresh(job.wpsProcess.iprocess)
              && RebuiltFrom(job, cache, store, configs, uid, now, old(cache.entries))
  {
    var execute := store.ReadExecuteRequest(uid);
    if execute.None? {
      return null;
    }
    var response := store.ReadExecuteResponse(uid);
    var info := store.ReadRecoveryInfo(uid);
    if response.None? || response.value.status.None? {
      return null;
    }
    var id := ServiceIdentifier(execute.value, info);
    if id.Err? {
      return null;
    }
    var resolved, process := CreateMatchingProcess(configs, id.value, cache, now);
    if !resolved || process == null {
      return null;
    }
    job := Rebuild(cache, store, uid, execute.value, response.value, info, process, now);
  }

  /** The object graph Load builds for a job found on disk, and its cache entry. */
  method Rebuild(cache: JobCache, store: RecoveryStore, uid: string, execute: Execute, response: ExecuteResponse,
                 info: Option<RecoveryInfo>, process: WpsProcess, now: int)
    returns (job: WpsJob)
    requires response.status.Some?
    modifies cache
    ensures fresh(job) && fresh(job.jobOrder) && fresh(job.progress) && job.wpsProcess == process
    ensures job.uid == Some(uid) && job.wpsJobCache == null
    ensures job.jobOrder.uid == Some(uid) && job.jobOrder.store == store
    ensures job.jobOrder.executeRequest == Some(execute) && job.jobOrder.executeResponse == Some(response)
    ensures job.jobOrder.recoveryInfo == info
    ensures job.jobOrder.jobProgress == job.progress && job.progress.status == response.status
    ensures job.creationTime == response.status.value.creationTime && job.jobOrder.creationTime == job.creationTime
    ensures job.task == TaskHandle(process.Id(), false)
    ensures Cached(cache.entries, old(cache.entries), uid, job, now + process.jobCacheTime)
  {
    var progress := new JobProgress();
    progress.Report(response.status);
    var order := new JobOrder(store, Some(execute), progress, response.status.value.creationTime);
    order.executeResponse := Some(response);
    order.uid := Some(uid);
    order.SetRecoveryInfoField(info);
    var task := process.CreateTask(order);
    job := new WpsJob.Restore(uid, order, progress, process, task, response.status.value.creationTime);
    cache.Set(uid, job, now + process.jobCacheTime);
  }

  // ---------------------------------------------------------------------
  // The static job operations

  /** The cache after Load(uid, false) rebuilt a job: cache[uid] is a new job
      of the rebuilt process whose task has not started, expiring after that
      process's cache time, and every other entry is as `before` had it. */
  predicate Replaced(cache: JobCache, before: map<string, CacheEntry>, store: RecoveryStore,
                     configs: seq<ProcessConfig>, uid: string, now: int)
    requires Recoverable(store, configs, uid)
    reads cache, store, if uid in cache.entries then {cache.entries[uid].job} else {}
  {
    && uid in cache.entries
    && var job := cache.entries[uid].job;
    && Cached(cache.entries, before, uid, job, now + RebuiltConfig(store, configs, uid).jobCachePeriod)
    && job.uid == Some(uid) && job.task == TaskHandle(RebuiltImpl(store, configs, uid).id, false)
  }

  /** GetCachedExecuteResponse(uid): the response of the cached job. */
  method GetCachedExecuteResponse(cache: JobCache, store: RecoveryStore, configs: seq<ProcessConfig>, base: JobStatusBase,
                                  uid: string, now: int)
    returns (r: Result<ExecuteResponse>)
    modifies cache, cache.EntryFootprint(uid)
    ensures cache.entries == old(cache.entries)
    ensures !old(cache.Live(uid, now)) ==> r == Err(NullReference)
    ensures old(cache.Live(uid, now)) ==> r == old(cache.entries[uid].job.Response(base))
    ensures r.Ok? ==> Filled(r.value) && r.value.status.Some?
  {
    var job := Load(cache, store, configs, uid, true, now);
    if job.Err? {
      return Err(job.error);
    }
    if job.value == null {
      return Err(EntryPointNotFound);
    }
    r := job.value.GetExecuteResponse(base);
  }

  /** GetExecuteResponse(uid): the response of the job rebuilt from disk, or
      the stored response as it is when no job can be rebuilt. A rebuilt job
      replaces cache[uid], even when a live job was cached under it. */
  method GetExecuteResponse(cache: JobCache, store: RecoveryStore, configs: seq<ProcessConfig>, base: JobStatusBase,
                            uid: string, now: int)
    returns (r: Result<ExecuteResponse>)
    modifies cache
    ensures Recoverable(store, configs, uid) ==> Replaced(cache, old(cache.entries), store, configs, uid, now)
    ensures Recoverable(store, configs, uid) ==> fresh(cache.entries[uid].job)
    ensures !Recoverable(store, configs, uid) ==> cache.entries == old(cache.entries)
    ensures Recoverable(store, configs, uid) ==>
              r == JobResult(RebuiltImpl(store, configs, uid).respond, base, Some(uid), RebuiltImpl(store, configs, uid).brief)
    ensures !Recoverable(store, configs, uid) ==>
              r == if store.ReadExecuteResponse(uid).Some? then Ok(store.ReadExecuteResponse(uid).value) else Err(EntryPointNotFound)
  {
    var job := Load(cache, store, configs, uid, false, now);
    if job.value == null {
      var response := store.ReadExecuteResponse(uid);
      if response.None? {
        return Err(EntryPointNotFound);
      }
      return Ok(response.value);
    }
    r := job.value.GetExecuteResponse(base);
  }

  /** GetExecuteRequest(uid): the request of the job rebuilt from disk; a
      request whose job cannot be rebuilt is not returned. Reading it
      replaces cache[uid] with the rebuilt job, as GetExecuteResponse does. */
  method GetExecuteRequest(cache: JobCache, store: RecoveryStore, configs: seq<ProcessConfig>, uid: string, now: int)
    returns (r: Result<Execute>)
    modifies cache
    ensures Recoverable(store, configs, uid) ==> Replaced(cache, old(cache.entries), store, configs, uid, now)
    ensures Recoverable(store, configs, uid) ==> fresh(cache.entries[uid].job)
    ensures !Recoverable(store, configs, uid) ==> cache.entries == old(cache.entries)
    ensures r.Ok? <==> Recoverable(store, configs, uid)
    ensures r.Ok? ==> store.ReadExecuteRequest(uid) == Some(r.value)
    ensures r.Err? ==> r.error == EntryPointNotFound
  {
    var job := Load(cache, store, configs, uid, false, now);
    if job.value == null {
      return Err(EntryPointNotFound);
    }
    r := Ok(job.value.jobOrder.executeRequest.value);
  }

  /** GetRecoveryInfo(uid): the RecoveryInfo property of the cached job's order. */
  method GetRecoveryInfo(cache: JobCache, store: RecoveryStore, configs: seq<ProcessConfig>, uid: string, now: int)
    returns (r: Result<Option<RecoveryInfo>>)
    modifies cache, cache.EntryFootprint(uid)
    ensures cache.entries == old(cache.entries)
    ensures !old(cache.Live(uid, now)) ==> r == Err(NullReference)
    ensures old(cache.Live(uid, now)) ==>
              var order := old(cache.entries[uid].job).jobOrder;
              r == Ok(old(order.RecoveryInfoView())) && order.recoveryInfo == old(order.RecoveryInfoView())
  {
    var job := Load(cache, store, configs, uid, true, now);
    if job.Err? {
      return Err(job.error);
    }
    if job.value == null {
      return Err(EntryPointNotFound);
    }
    var info := job.value.jobOrder.GetRecoveryInfo();
    r := Ok(info);
  }

  /** ForceRetry(uid, retry): set the retry count on the cached job's
      RecoveryInfo, hand it to SetRecoveryInfo and run the job again. The
      store is write-once, so a RecoveryInfo already on disk keeps its old
      retry count; and a job whose task already ran fails to start. */
  method ForceRetry(cache: JobCache, store: RecoveryStore, configs: seq<ProcessConfig>, base: JobStatusBase,
                    uid: string, retry: int, now: int)
    returns (r: Result<()>)
    modifies cache, cache.EntryFootprint(uid)
    ensures cache.entries == old(cache.entries)
    ensures !old(cache.Live(uid, now)) ==> r == Err(NullReference)
    ensures old(cache.Live(uid, now)) ==>
              var job := old(cache.entries[uid].job);
              var info := old(job.jobOrder.RecoveryInfoView());
              var disk := job.jobOrder.store;
              var path := disk.PathOf(FormatArg(job.jobOrder.uid), RecoveryInfoFile);
              && job.jobOrder.recoveryInfo == (if info.Some? then Some(info.value.(retry := retry)) else None)
              && disk.directory == old(disk.directory)
              && disk.files == (if info.Some? && disk.Configured() && path !in old(disk.files)
                                then old(disk.files)[path := InfoJson(info.value.(retry := retry))]
                                else old(disk.files))
              && (old(job.task).started ==> r == Err(InvalidOperation) && job.progress.status == old(job.progress.status))
              && (!old(job.task).started ==>
                    && job.task.started && (r.Ok? <==> old(job.Response(base)).Ok?)
                    && job.progress.status == Some(StatusType(ProcessStarted("Task Started", "0"), job.creationTime)))
  {
    var loaded := Load(cache, store, configs, uid, true, now);
    if loaded.Err? {
      r := Err(loaded.error);
    } else if loaded.value == null {
      r := Err(EntryPointNotFound);
    } else {
      var job := loaded.value;
      var info := job.jobOrder.GetRecoveryInfo();
      if info.Some? {
        job.jobOrder.SetRecoveryInfoField(Some(info.value.(retry := retry)));
        job.jobOrder.SetRecoveryInfo(job.jobOrder.recoveryInfo);
      }
      var outcome := job.Run(base);
      r := if outcome.Err? then Err(outcome.error) else Ok(());
    }
  }

  /** GetReport(uid): the report of the cached job's process. */
  method GetReport(cache: JobCache, store: RecoveryStore, configs: seq<ProcessConfig>, uid: string, now: int)
    returns (r: Result<Option<seq<string>>>)
    modifies cache
    ensures cache.entries == old(cache.entries)
    ensures !cache.Live(uid, now) ==> r == Err(NullReference)
    ensures cache.Live(uid, now) ==> r == Ok(cache.entries[uid].job.GetReport())
  {
    var job := Load(cache, store, configs, uid, true, now);
    if job.Err? {
      return Err(job.error);
    }
    if job.value == null {
      return Err(EntryPointNotFound);
    }
    r := Ok(job.value.GetReport());
  }

  /** WpsProcess.SubmitExecuteProcess(execute): create the job and run it.
      The response is the process's current response completed with the new
      job's uid, and the request is persisted under that uid. */
  method SubmitExecuteProcess(process: WpsProcess, execute: Option<Execute>, store: RecoveryStore, cache: JobCache,
                              base: JobStatusBase, now: int, gen: nat -> string, ghost bound: nat)
    returns (r: Result<ExecuteResponse>, ghost uid: string)
    requires process.GetMemoryCache() == cache
    requires !cache.Live(gen(bound), now)
    modifies cache, store
    ensures !old(cache.Live(uid, now)) && uid in cache.entries
    ensures Cached(cache.entries, old(cache.entries), uid, cache.entries[uid].job, now + process.jobCacheTime)
    ensures fresh(cache.entries[uid].job) && cache.entries[uid].job.uid == Some(uid)
    ensures cache.entries[uid].job.wpsProcess == process && cache.entries[uid].job.task.started
    ensures r == JobResult(process.GetExecuteResponse(), base, Some(uid), process.ProcessBrief())
    ensures store.Configured() && execute.Some? && old(store.PathOf(uid, RequestFile) !in store.files) ==> store.ReadExecuteRequest(uid) == execute
  {
    var job := new WpsJob(process, execute, store, cache, now, gen, bound);
    uid := job.uid.value;
    r := job.Run(base);
  }
}
