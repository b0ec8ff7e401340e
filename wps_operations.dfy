/** Wps/BaseWpsOperation.cs, Wps/DescribeProcessOperation.cs and
    Wps/ExecuteOperation.cs: the registry of configured processes shared by
    the WPS operations, and the DescribeProcess and Execute operations that
    validate their identifier against it. The base class's registry is a
    separate ProcessRegistry object that each operation holds. */
module WpsOperations {
  import opened Common
  import opened WpsTypes
  import opened OwsTypes
  import opened Orders
  import opened Processes
  import opened Jobs

  // ---------------------------------------------------------------------
  // The process registry (BaseWpsOperation)

  /** The keys LoadProcessesFromConfiguration adds, in configuration order,
      or the exception that stops it: a process type that cannot be found,
      or an identifier already added (Dictionary.Add). */
  function LoadedIds(configs: seq<ProcessConfig>): (r: Result<seq<string>>)
    ensures r.Err? ==> r.error == ConfigurationErrors || r.error == DuplicateKey
    ensures r.Ok? ==> |r.value| == |configs|
  {
    if configs == [] then Ok([])
    else
      var init := configs[..|configs| - 1];
      var c := configs[|configs| - 1];
      match LoadedIds(init)
      case Err(f) => Err(f)
      case Ok(ids) =>
        if c.handler.None? then Err(ConfigurationErrors)
        else if c.handler.value.id in ids then Err(DuplicateKey)
        else Ok(ids + [c.handler.value.id])
  }

  /** A successful load lists every entry's process identifier, in order,
      each once. */
  lemma {:induction false} LoadedIdsAre(configs: seq<ProcessConfig>)
    requires LoadedIds(configs).Ok?
    ensures forall i :: 0 <= i < |configs| ==>
              configs[i].handler.Some? && LoadedIds(configs).value[i] == configs[i].handler.value.id
    ensures NoDuplicates(LoadedIds(configs).value)
  {
    if configs != [] {
      var init := configs[..|configs| - 1];
      LoadedIdsAre(init);
      assert forall i :: 0 <= i < |init| ==> init[i] == configs[i];
    }
  }

  /** When every process type resolves, loading succeeds exactly when the
      process identifiers are pairwise distinct. */
  lemma {:induction false} LoadedIdsDistinct(configs: seq<ProcessConfig>)
    requires forall i :: 0 <= i < |configs| ==> configs[i].handler.Some?
    ensures LoadedIds(configs).Ok? <==>
            forall i, j :: 0 <= i < j < |configs| ==> configs[i].handler.value.id != configs[j].handler.value.id
  {
    if configs != [] {
      var init := configs[..|configs| - 1];
      var c := configs[|configs| - 1];
      LoadedIdsDistinct(init);
      assert forall i :: 0 <= i < |init| ==> init[i] == configs[i];
      if LoadedIds(init).Ok? {
        var ids := LoadedIds(init).value;
        LoadedIdsAre(init);
        if c.handler.value.id in ids {
          var i :| 0 <= i < |ids| && ids[i] == c.handler.value.id;
          assert configs[i].handler.value.id == configs[|configs| - 1].handler.value.id;
        }
      } else {
        var i, j :| 0 <= i < j < |init| && init[i].handler.value.id == init[j].handler.value.id;
        assert configs[i].handler.value.id == configs[j].handler.value.id;
      }
    }
  }

  /** An error met within a prefix of the configuration is the error of the
      whole configuration. */
  lemma {:induction false} LoadErrorPersists(configs: seq<ProcessConfig>, n: nat)
    requires n <= |configs| && LoadedIds(configs[..n]).Err?
    ensures LoadedIds(configs) == LoadedIds(configs[..n])
    decreases |configs| - n
  {
    if n < |configs| {
      var init := configs[..|configs| - 1];
      assert init[..n] == configs[..n];
      LoadErrorPersists(init, n);
    } else {
      assert configs[..n] == configs;
    }
  }

  /** LoadedIds one configuration entry further. */
  lemma LoadedIdsStep(configs: seq<ProcessConfig>, i: nat)
    requires i < |configs|
    ensures LoadedIds(configs[..i + 1]) ==
            match LoadedIds(configs[..i])
            case Err(f) => Err(f)
            case Ok(ids) =>
              if configs[i].handler.None? then Err(ConfigurationErrors)
              else if configs[i].handler.value.id in ids then Err(DuplicateKey)
              else Ok(ids + [configs[i].handler.value.id])
  {
    assert configs[..i + 1][..i] == configs[..i];
  }

  /** The registry holds one process per configuration entry, in order, each
      under its own identifier and built from that entry's process type. */
  predicate Built(entries: seq<(string, WpsProcess)>, configs: seq<ProcessConfig>) {
    LoadedIds(configs).Ok? && Keys(entries) == LoadedIds(configs).value &&
    forall i :: 0 <= i < |entries| ==> configs[i].handler == Some(entries[i].1.iprocess.impl)
  }

  /** Looking a configured identifier up in a built registry yields the
      process made from that configuration entry. */
  lemma LookupConfigured(entries: seq<(string, WpsProcess)>, configs: seq<ProcessConfig>, i: nat)
    requires Built(entries, configs) && i < |configs|
    ensures Find(entries, configs[i].handler.value.id).Some?
    ensures Find(entries, configs[i].handler.value.id).value.iprocess.impl == configs[i].handler.value
    ensures Find(entries, configs[i].handler.value.id).value.ProcessDescription() == configs[i].handler.value.description
  {
    LoadedIdsAre(configs);
    assert forall j :: 0 <= j < |entries| ==> entries[j].0 == Keys(entries)[j];
    FindStored(entries, i);
  }

  /** One more configuration entry loaded: the loop invariant of
      LoadProcessesFromConfiguration carries over to the longer prefix. */
  lemma LoadedStep(entries: seq<(string, WpsProcess)>, configs: seq<ProcessConfig>, i: nat, id: string, p: WpsProcess)
    requires i == |entries| < |configs| && LoadedIds(configs[..i]) == Ok(Keys(entries))
    requires configs[i].handler.Some? && id == configs[i].handler.value.id && id !in Keys(entries)
    ensures LoadedIds(configs[..i + 1]) == Ok(Keys(entries + [(id, p)]))
  {
    LoadedIdsStep(configs, i);
    KeysAppend(entries, (id, p));
  }

  /** In a built registry an identifier is found exactly when it was
      loaded, and the process found under it has that identifier. */
  lemma FindBuilt(entries: seq<(string, WpsProcess)>, configs: seq<ProcessConfig>, id: string)
    requires Built(entries, configs)
    ensures Find(entries, id).Some? <==> id in LoadedIds(configs).value
    ensures Find(entries, id).Some? ==> Find(entries, id).value.Id() == id
  {
    if Find(entries, id).Some? {
      var i := KeyIndex(entries, id);
      assert entries[i].0 == Keys(entries)[i];
      LoadedIdsAre(configs);
    } else {
      assert forall i :: 0 <= i < |entries| ==> Keys(entries)[i] != id;
    }
  }

  class ProcessRegistry {
    /** WebProcessingServiceConfiguration.Settings.Processes: the entries and
        the processes they memoise, shared by every operation over the same
        configuration. */
    const settings: ProcessCollection
    const configs: seq<ProcessConfig>
    /** _processes: null until first loaded. */
    var processes: Option<seq<(string, WpsProcess)>>

    predicate Valid()
      reads this, settings
    {
      configs == settings.configs && settings.Valid() &&
      (processes.Some? ==> Built(processes.value, configs))
    }

    /** The configuration, the processes it memoises, and the processes the
        registry holds. */
    function Footprint(): set<object>
      reads this, settings
    {
      {settings as object} +
      (set k | 0 <= k < |settings.memo| && settings.memo[k] != null :: settings.memo[k] as object) +
      (set k | 0 <= k < |settings.memo| && settings.memo[k] != null :: settings.memo[k].iprocess as object) +
      (if processes.None? then {}
       else (set i | 0 <= i < |processes.value| :: processes.value[i].1 as object) +
            (set i | 0 <= i < |processes.value| :: processes.value[i].1.iprocess as object))
    }

    constructor (settings: ProcessCollection)
      requires settings.Valid()
      ensures this.settings == settings && configs == settings.configs && processes.None? && Valid()
    {
      this.settings := settings;
      configs := settings.configs;
      processes := None;
    }

    /** LoadProcessesFromConfiguration: each entry's process, added under its
        Id. CreateHandlerInstance is called without forcing, so an entry that
        already memoises a process contributes that same object, and one
        that does not memoises the process it creates now. */
    method LoadProcessesFromConfiguration(now: int) returns (r: Result<seq<(string, WpsProcess)>>)
      requires Valid()
      modifies settings`memo
      ensures Valid()
      ensures r.Err? <==> LoadedIds(configs).Err?
      ensures r.Err? ==> r.error == LoadedIds(configs).error
      ensures r.Ok? ==> Built(r.value, configs)
      ensures r.Ok? ==> forall i :: 0 <= i < |r.value| ==> r.value[i].1 == settings.memo[i]
      ensures forall k :: 0 <= k < |configs| && old(settings.memo[k]) != null ==> settings.memo[k] == old(settings.memo[k])
      ensures forall k :: 0 <= k < |configs| && old(settings.memo[k]) == null && settings.memo[k] != null ==>
                fresh(settings.memo[k]) && fresh(settings.memo[k].iprocess)
    {
      var entries := [];
      var failure := None;
      var i := 0;
      ghost var memo0 := settings.memo;
      while i < |configs| && failure.None?
        invariant 0 <= i <= |configs| && Valid() && |settings.memo| == |memo0|
        invariant failure.None? ==> LoadedIds(configs[..i]) == Ok(Keys(entries)) && |entries| == i
        invariant failure.None? ==> forall j :: 0 <= j < i ==> entries[j].1 == settings.memo[j]
        invariant failure.Some? ==> LoadedIds(configs) == Err(failure.value)
        invariant forall k :: 0 <= k < |memo0| && memo0[k] != null ==> settings.memo[k] == memo0[k]
        invariant forall k :: 0 <= k < |memo0| && memo0[k] == null && settings.memo[k] != null ==>
                    fresh(settings.memo[k]) && fresh(settings.memo[k].iprocess)
      {
        entries, failure := LoadEntry(i, now, entries);
        i := i + 1;
      }
      if failure.Some? {
        r := Err(failure.value);
      } else {
        assert configs[..|configs|] == configs;
        r := Ok(entries);
      }
    }

    /** One turn of the loading loop: entry i's memoised process, or the
        process it creates now and memoises, added under its Id; or the
        exception that ends the loading. */
    method LoadEntry(i: nat, now: int, entries: seq<(string, WpsProcess)>)
      returns (entries': seq<(string, WpsProcess)>, failure: Option<Fault>)
      requires Valid() && i < |configs|
      requires LoadedIds(configs[..i]) == Ok(Keys(entries)) && |entries| == i
      requires forall j :: 0 <= j < i ==> entries[j].1 == settings.memo[j]
      modifies settings`memo
      ensures Valid()
      ensures settings.memo == old(settings.memo) ||
              (old(settings.memo[i]) == null && settings.memo == old(settings.memo)[i := settings.memo[i]] &&
               settings.memo[i] != null && fresh(settings.memo[i]) && fresh(settings.memo[i].iprocess))
      ensures failure.None? ==> LoadedIds(configs[..i + 1]) == Ok(Keys(entries')) && |entries'| == i + 1
      ensures failure.None? ==> forall j :: 0 <= j < i + 1 ==> entries'[j].1 == settings.memo[j]
      ensures failure.Some? ==> LoadedIds(configs) == Err(failure.value)
    {
      var created := settings.CreateHandlerInstance(i, null, null, now, false);
      LoadedIdsStep(configs, i);
      entries' := entries;
      failure := None;
      if created.Err? {
        LoadErrorPersists(configs, i + 1);
        failure := Some(created.error);
      } else if created.value.Id() in Keys(entries) {
        LoadErrorPersists(configs, i + 1);
        failure := Some(DuplicateKey);
      } else {
        var process := created.value;
        LoadedStep(entries, configs, i, process.Id(), process);
        entries' := entries + [(process.Id(), process)];
      }
    }

    /** GetProcesses: loaded on first use, then the same map every time. */
    method GetProcesses(now: int) returns (r: Result<seq<(string, WpsProcess)>>)
      requires Valid()
      modifies this`processes, settings`memo
      ensures Valid()
      ensures r.Ok? <==> LoadedIds(configs).Ok?
      ensures r.Err? ==> r.error == LoadedIds(configs).error && processes.None?
      ensures r.Ok? ==> processes == Some(r.value) && Built(r.value, configs)
      ensures old(processes).Some? ==> processes == old(processes) && unchanged(settings)
      ensures old(processes).None? && r.Ok? ==> forall i :: 0 <= i < |r.value| ==> r.value[i].1 == settings.memo[i]
      ensures forall o :: o in Footprint() ==> o in old(Footprint()) || fresh(o)
    {
      if processes.None? {
        var loaded := LoadProcessesFromConfiguration(now);
        if loaded.Err? {
          return loaded;
        }
        processes := Some(loaded.value);
      }
      r := Ok(processes.value);
    }
  }

  /** The identifier query parameter: "Identifier", else "identifier". */
  function IdentifierParameter(q: Query): Option<string> {
    if Get(q, "Identifier").Some? then Get(q, "Identifier") else Get(q, "identifier")
  }

  // ---------------------------------------------------------------------
  // DescribeProcess

  /** The description of each identifier, in order; an identifier that is
      not a key throws KeyNotFoundException. */
  function Descriptions(entries: seq<(string, WpsProcess)>, ids: seq<string>): (r: Result<seq<ProcessDescription>>)
    ensures r.Ok? <==> forall i :: 0 <= i < |ids| ==> Find(entries, ids[i]).Some?
    ensures r.Err? ==> r.error == KeyNotFound
    ensures r.Ok? ==> |r.value| == |ids| &&
                      forall i :: 0 <= i < |ids| ==> r.value[i] == Find(entries, ids[i]).value.ProcessDescription()
  {
    if ids == [] then Ok([])
    else
      var init := ids[..|ids| - 1];
      assert forall i :: 0 <= i < |init| ==> init[i] == ids[i];
      match Descriptions(entries, init)
      case Err(f) => Err(f)
      case Ok(ds) =>
        var p := Find(entries, ids[|ids| - 1]);
        if p.None? then Err(KeyNotFound) else Ok(ds + [p.value.ProcessDescription()])
  }

  /** What DescribeProcess answers for the requested identifier, given the
      registry's load outcome: the identifier must be present and, as a
      whole, a key; then each comma-separated part is described. */
  function DescribeOutcome(identifier: Option<string>, loaded: Result<seq<(string, WpsProcess)>>)
    : (r: Result<seq<ProcessDescription>>)
    ensures IsNullOrEmpty(identifier) ==>
              r == Err(Ogc(NoApplicableCode("Process identifier is mandatory for DescribeProcess operation.")))
    ensures !IsNullOrEmpty(identifier) && loaded.Err? ==> r == Err(loaded.error)
    ensures r.Ok? ==> loaded.Ok? && !IsNullOrEmpty(identifier) && Find(loaded.value, identifier.value).Some?
    ensures !IsNullOrEmpty(identifier) && loaded.Ok? && Find(loaded.value, identifier.value).None? ==>
              r == Err(Ogc(InvalidParameterValue("Identifier", identifier.value)))
  {
    if IsNullOrEmpty(identifier) then Err(Ogc(NoApplicableCode("Process identifier is mandatory for DescribeProcess operation.")))
    else match loaded
      case Err(f) => Err(f)
      case Ok(entries) =>
        if Find(entries, identifier.value).None? then Err(Ogc(InvalidParameterValue("Identifier", identifier.value)))
        else Descriptions(entries, Split(identifier.value, ','))
  }

  /** A comma-free identifier that is a key yields exactly its process's
      description. */
  lemma SingleIdentifier(entries: seq<(string, WpsProcess)>, id: string)
    requires id != "" && ',' !in id && Find(entries, id).Some?
    ensures DescribeOutcome(Some(id), Ok(entries)).Ok?
    ensures DescribeOutcome(Some(id), Ok(entries)).value == [Find(entries, id).value.ProcessDescription()]
  {
    assert Split(id, ',') == [id];
  }

  /** A list of identifiers is described part by part, and only when the
      whole list is itself a registered identifier: the key check comes
      before the split. */
  lemma DescribedPerPart(entries: seq<(string, WpsProcess)>, id: string)
    requires DescribeOutcome(Some(id), Ok(entries)).Ok?
    ensures Find(entries, id).Some?
    ensures var parts := Split(id, ',');
            var ds := DescribeOutcome(Some(id), Ok(entries)).value;
            |ds| == |parts| &&
            forall i :: 0 <= i < |parts| ==> Find(entries, parts[i]).Some? && ds[i] == Find(entries, parts[i]).value.ProcessDescription()
  {
  }

  class DescribeProcessOperation {
    const registry: ProcessRegistry

    constructor (registry: ProcessRegistry)
      ensures this.registry == registry
    {
      this.registry := registry;
    }

    /** OutputFormatters: created empty on first use and never filled. */
    function OutputFormatters(): seq<string> {
      []
    }

    /** OperationParameters: Identifier with every registered identifier in
        order, and Language with the output formatter keys. */
    method OperationParameters(now: int) returns (r: Result<seq<DomainType>>)
      requires registry.Valid()
      modifies registry`processes, registry.settings`memo
      ensures registry.Valid()
      ensures r.Err? <==> LoadedIds(registry.configs).Err?
      ensures r.Err? ==> r.error == LoadedIds(registry.configs).error
      ensures old(registry.processes).Some? ==> registry.processes == old(registry.processes)
      ensures r.Ok? ==> r.value == [DomainType("Identifier", LoadedIds(registry.configs).value, false),
                                    DomainType("Language", [], false)]
    {
      var loaded := registry.GetProcesses(now);
      if loaded.Err? {
        return Err(loaded.error);
      }
      var entries := loaded.value;
      var allowed: seq<string> := [];
      for i := 0 to |entries|
        invariant allowed == Keys(entries[..i])
        invariant registry.processes == Some(entries) && registry.Valid()
      {
        assert entries[..i + 1] == entries[..i] + [entries[i]];
        KeysAppend(entries[..i], entries[i]);
        allowed := allowed + [entries[i].0];
      }
      assert entries[..|entries|] == entries;
      r := Ok([DomainType("Identifier", allowed, false), DomainType("Language", OutputFormatters(), false)]);
    }

    /** ProcessRequest: the descriptions of the requested processes. */
    method ProcessRequest(q: Query, now: int) returns (r: Result<seq<ProcessDescription>>)
      requires registry.Valid()
      modifies registry`processes, registry.settings`memo
      ensures registry.Valid()
      ensures IsNullOrEmpty(IdentifierParameter(q)) ==>
                registry.processes == old(registry.processes) &&
                r == Err(Ogc(NoApplicableCode("Process identifier is mandatory for DescribeProcess operation.")))
      ensures !IsNullOrEmpty(IdentifierParameter(q)) && LoadedIds(registry.configs).Err? ==>
                r == Err(LoadedIds(registry.configs).error)
      ensures !IsNullOrEmpty(IdentifierParameter(q)) && LoadedIds(registry.configs).Ok? ==>
                registry.processes.Some? && r == DescribeOutcome(IdentifierParameter(q), Ok(registry.processes.value))
      ensures old(registry.processes).Some? ==> registry.processes == old(registry.processes)
    {
      var identifier := IdentifierParameter(q);
      if IsNullOrEmpty(identifier) {
        return Err(Ogc(NoApplicableCode("Process identifier is mandatory for DescribeProcess operation.")));
      }
      var loaded := registry.GetProcesses(now);
      if loaded.Err? {
        return Err(loaded.error);
      }
      var entries := loaded.value;
      if Find(entries, identifier.value).None? {
        return Err(Ogc(InvalidParameterValue("Identifier", identifier.value)));
      }
      r := DescribeEach(entries, Split(identifier.value, ','));
    }
  }

  /** The loop of DescribeProcess over the comma-separated identifiers: each
      one's description in turn, stopping with KeyNotFound at the first that
      is not a key. */
  method DescribeEach(entries: seq<(string, WpsProcess)>, ids: seq<string>) returns (r: Result<seq<ProcessDescription>>)
    ensures r == Descriptions(entries, ids)
  {
    var descriptions: seq<ProcessDescription> := [];
    for i := 0 to |ids|
      invariant Descriptions(entries, ids[..i]) == Ok(descriptions)
    {
      DescriptionsStep(entries, ids, i);
      var p := Find(entries, ids[i]);
      if p.None? {
        DescriptionsErrorPersists(entries, ids, i + 1);
        return Err(KeyNotFound);
      }
      descriptions := descriptions + [p.value.ProcessDescription()];
    }
    assert ids[..|ids|] == ids;
    r := Ok(descriptions);
  }

  /** Descriptions one identifier further. */
  lemma DescriptionsStep(entries: seq<(string, WpsProcess)>, ids: seq<string>, i: nat)
    requires i < |ids|
    ensures Descriptions(entries, ids[..i + 1]) ==
            match Descriptions(entries, ids[..i])
            case Err(f) => Err(f)
            case Ok(ds) =>
              if Find(entries, ids[i]).None? then Err(KeyNotFound)
              else Ok(ds + [Find(entries, ids[i]).value.ProcessDescription()])
  {
    assert ids[..i + 1][..i] == ids[..i];
  }

  /** A missing identifier within a prefix makes the whole list fail. */
  lemma {:induction false} DescriptionsErrorPersists(entries: seq<(string, WpsProcess)>, ids: seq<string>, n: nat)
    requires n <= |ids| && Descriptions(entries, ids[..n]).Err?
    ensures Descriptions(entries, ids).Err?
  {
    var i :| 0 <= i < n && Find(entries, ids[..n][i]).None?;
    assert ids[i] == ids[..n][i];
  }

  // ---------------------------------------------------------------------
  // Execute

  class ExecuteOperation {
    const registry: ProcessRegistry
    /** The operation's IMemoryCache, which holds the jobs. */
    const cache: JobCache
    const httpClient: object?

    constructor (registry: ProcessRegistry, cache: JobCache, httpClient: object?)
      ensures this.registry == registry && this.cache == cache && this.httpClient == httpClient
    {
      this.registry := registry;
      this.cache := cache;
      this.httpClient := httpClient;
    }

    /** The request names a process of the configuration, so that a job is
        submitted for it. */
    predicate Accepts(payload: Option<Execute>) {
      payload.Some? && !IsNullOrEmpty(payload.value.identifier) && LoadedIds(registry.configs).Ok? &&
      payload.value.identifier.value in LoadedIds(registry.configs).value
    }

    /** ProcessRequest: validate the identifier, hand the operation's HTTP
        client and cache to the process, and submit the request to it; the
        result is the response SubmitExecuteProcess returns. */
    method ProcessRequest(payload: Option<Execute>, store: RecoveryStore, base: JobStatusBase, now: int,
                          gen: nat -> string, ghost bound: nat)
      returns (r: Result<ExecuteResponse>, ghost uid: string)
      requires registry.Valid()
      requires !cache.Live(gen(bound), now)
      modifies registry`processes, registry.Footprint(), cache, store
      ensures registry.Valid()
      ensures payload.None? ==> r == Err(NullReference)
      ensures payload.Some? && IsNullOrEmpty(payload.value.identifier) ==>
                r == Err(Ogc(NoApplicableCode("Process identifier is mandatory for Execute operation.")))
      ensures payload.Some? && !IsNullOrEmpty(payload.value.identifier) && LoadedIds(registry.configs).Err? ==>
                r == Err(LoadedIds(registry.configs).error)
      ensures payload.Some? && !IsNullOrEmpty(payload.value.identifier) && LoadedIds(registry.configs).Ok? &&
              payload.value.identifier.value !in LoadedIds(registry.configs).value ==>
                r == Err(Ogc(InvalidParameterValue("identifier", payload.value.identifier.value)))
      ensures payload.Some? && !IsNullOrEmpty(payload.value.identifier) && LoadedIds(registry.configs).Ok? &&
              payload.value.identifier.value in LoadedIds(registry.configs).value ==>
                registry.processes.Some? &&
                var process := Find(registry.processes.value, payload.value.identifier.value).value;
                process.Id() == payload.value.identifier.value &&
                process.httpClient == httpClient && process.GetMemoryCache() == cache &&
                r == JobResult(process.GetExecuteResponse(), base, Some(uid), process.ProcessBrief())
      ensures Accepts(payload) ==>
                registry.processes.Some? &&
                var process := Find(registry.processes.value, payload.value.identifier.value).value;
                !old(cache.Live(uid, now)) && uid in cache.entries &&
                Cached(cache.entries, old(cache.entries), uid, cache.entries[uid].job, now + process.jobCacheTime) &&
                fresh(cache.entries[uid].job) && cache.entries[uid].job.uid == Some(uid) &&
                cache.entries[uid].job.wpsProcess == process && cache.entries[uid].job.task.started &&
                (store.Configured() && old(store.PathOf(uid, RequestFile) !in store.files) ==>
                   store.ReadExecuteRequest(uid) == payload)
      ensures !Accepts(payload) ==> cache.entries == old(cache.entries) && unchanged(store)
      ensures old(registry.processes).Some? ==> registry.processes == old(registry.processes)
    {
      uid := "";
      if payload.None? {
        return Err(NullReference), uid;
      }
      var identifier := payload.value.identifier;
      if IsNullOrEmpty(identifier) {
        return Err(Ogc(NoApplicableCode("Process identifier is mandatory for Execute operation."))), uid;
      }
      var loaded := registry.GetProcesses(now);
      if loaded.Err? {
        return Err(loaded.error), uid;
      }
      var entries := loaded.value;
      var found := Find(entries, identifier.value);
      FindBuilt(entries, registry.configs, identifier.value);
      if found.None? {
        return Err(Ogc(InvalidParameterValue("identifier", identifier.value))), uid;
      }
      var process := found.value;
      process.SetHttpClient(httpClient);
      process.SetMemoryCache(cache);
      r, uid := SubmitExecuteProcess(process, payload, store, cache, base, now, gen, bound);
    }
  }
}
