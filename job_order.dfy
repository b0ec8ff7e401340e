/** Core/Process/JobOrder.cs: one job's request, latest response, progress
    slot and lazily loaded RecoveryInfo, and the best-effort recovery store
    that keeps three artifacts per job uid on disk. */
module Orders {
  import opened Common
  import opened WpsTypes
  import opened Progress

  /** The three artifacts kept for a job. */
  datatype ArtifactKind = RecoveryInfoFile | RequestFile | ResponseFile

  function Suffix(k: ArtifactKind): string {
    match k
    case RecoveryInfoFile => ".RecoveryInfo.json"
    case RequestFile => ".ExecuteRequest.xml"
    case ResponseFile => ".ExecuteResponse.xml"
  }

  /** "{directory}/{uid}{suffix}" */
  function ArtifactPath(directory: string, uid: string, k: ArtifactKind): string {
    directory + "/" + uid + Suffix(k)
  }

  /** The artifacts of different kinds never share a file, whatever the two
      uids are: .json and .xml differ in their last character, and
      "Request.xml" and "Response.xml" in their fifth character from the end. */
  lemma {:induction false} ArtifactKindsDisjoint(directory: string, u1: string, u2: string, k1: ArtifactKind, k2: ArtifactKind)
    requires k1 != k2
    ensures ArtifactPath(directory, u1, k1) != ArtifactPath(directory, u2, k2)
  {
    var p1, p2 := ArtifactPath(directory, u1, k1), ArtifactPath(directory, u2, k2);
    var s1, s2 := Suffix(k1), Suffix(k2);
    assert p1 == (directory + "/" + u1) + s1 && p2 == (directory + "/" + u2) + s2;
    assert p1[|p1| - 1] == s1[|s1| - 1] && p2[|p2| - 1] == s2[|s2| - 1];
    assert p1[|p1| - 5] == s1[|s1| - 5] && p2[|p2| - 5] == s2[|s2| - 5];
  }

  /** Within one kind the path determines the uid. */
  lemma {:induction false} ArtifactPathInjective(directory: string, u1: string, u2: string, k: ArtifactKind)
    requires ArtifactPath(directory, u1, k) == ArtifactPath(directory, u2, k)
    ensures u1 == u2
  {
    var p := ArtifactPath(directory, u1, k);
    var n, m := |directory| + 1, |Suffix(k)|;
    assert p == (directory + "/") + u1 + Suffix(k);
    assert p[n..|p| - m] == u1;
    assert ArtifactPath(directory, u2, k) == (directory + "/") + u2 + Suffix(k);
    assert p[n..|p| - m] == u2;
  }

  /** What a file of the store holds once read and deserialised; Garbage is a
      file that does not deserialise to the type the reader expects. */
  datatype FileContent =
    | InfoJson(info: RecoveryInfo)
    | RequestXml(execute: Execute)
    | ResponseXml(response: ExecuteResponse)
    | Garbage

  /** The file system under the configured "app:recoveryfiles_path". */
  class RecoveryStore {
    var directory: Option<string>
    var files: map<string, FileContent>

    constructor (directory: Option<string>, files: map<string, FileContent>)
      ensures this.directory == directory && this.files == files
    {
      this.directory := directory;
      this.files := files;
    }

    /** Persistence is switched on only when the path setting is non-empty. */
    predicate Configured()
      reads this
    {
      !IsNullOrEmpty(directory)
    }

    function PathOf(uid: string, k: ArtifactKind): string
      reads this
    {
      ArtifactPath(FormatArg(directory), uid, k)
    }

    /** ReadRecoveryInfo: null when unconfigured, when the file is missing or
        when it does not deserialise; never throws. */
    function ReadRecoveryInfo(uid: string): (r: Option<RecoveryInfo>)
      reads this
      ensures r.Some? <==> Configured() && PathOf(uid, RecoveryInfoFile) in files && files[PathOf(uid, RecoveryInfoFile)].InfoJson?
      ensures r.Some? ==> files[PathOf(uid, RecoveryInfoFile)] == InfoJson(r.value)
    {
      var path := PathOf(uid, RecoveryInfoFile);
      if Configured() && path in files && files[path].InfoJson? then Some(files[path].info) else None
    }

    /** ReadExecuteRequest, with the same failure rules. */
    function ReadExecuteRequest(uid: string): (r: Option<Execute>)
      reads this
      ensures r.Some? <==> Configured() && PathOf(uid, RequestFile) in files && files[PathOf(uid, RequestFile)].RequestXml?
      ensures r.Some? ==> files[PathOf(uid, RequestFile)] == RequestXml(r.value)
    {
      var path := PathOf(uid, RequestFile);
      if Configured() && path in files && files[path].RequestXml? then Some(files[path].execute) else None
    }

    /** ReadExecuteResponse, with the same failure rules. */
    function ReadExecuteResponse(uid: string): (r: Option<ExecuteResponse>)
      reads this
      ensures r.Some? <==> Configured() && PathOf(uid, ResponseFile) in files && files[PathOf(uid, ResponseFile)].ResponseXml?
      ensures r.Some? ==> files[PathOf(uid, ResponseFile)] == ResponseXml(r.value)
    {
      var path := PathOf(uid, ResponseFile);
      if Configured() && path in files && files[path].ResponseXml? then Some(files[path].response) else None
    }

    /** WriteExecuteRequest: write-once. Nothing happens when persistence is
        off, when the request is null or when the file already exists. */
    method WriteExecuteRequest(execute: Option<Execute>, uid: string)
      modifies this
      ensures directory == old(directory)
      ensures files == if Configured() && execute.Some? && PathOf(uid, RequestFile) !in old(files)
                       then old(files)[PathOf(uid, RequestFile) := RequestXml(execute.value)]
                       else old(files)
      ensures old(ReadExecuteRequest(uid)).None? && Configured() && execute.Some? && PathOf(uid, RequestFile) !in old(files)
              ==> ReadExecuteRequest(uid) == execute
      ensures forall u :: ReadExecuteResponse(u) == old(ReadExecuteResponse(u)) && ReadRecoveryInfo(u) == old(ReadRecoveryInfo(u))
      ensures forall u :: u != uid ==> ReadExecuteRequest(u) == old(ReadExecuteRequest(u))
    {
      var path := PathOf(uid, RequestFile);
      if Configured() && execute.Some? {
        if path !in files {
          files := files[path := RequestXml(execute.value)];
        }
      }
      OnlyOneFileChanged(old(files), uid, RequestFile);
    }

    /** WriteExecuteResponse: overwrites whenever persistence is on and the
        response is non-null. */
    method WriteExecuteResponse(response: Option<ExecuteResponse>, uid: string)
      modifies this
      ensures directory == old(directory)
      ensures files == if Configured() && response.Some?
                       then old(files)[PathOf(uid, ResponseFile) := ResponseXml(response.value)]
                       else old(files)
      ensures Configured() && response.Some? ==> ReadExecuteResponse(uid) == response
      ensures forall u :: ReadExecuteRequest(u) == old(ReadExecuteRequest(u)) && ReadRecoveryInfo(u) == old(ReadRecoveryInfo(u))
      ensures forall u :: u != uid ==> ReadExecuteResponse(u) == old(ReadExecuteResponse(u))
    {
      if Configured() && response.Some? {
        files := files[PathOf(uid, ResponseFile) := ResponseXml(response.value)];
      }
      OnlyOneFileChanged(old(files), uid, ResponseFile);
    }

    /** The RecoveryInfo write of SetRecoveryInfo: write-once. */
    method WriteRecoveryInfo(info: Option<RecoveryInfo>, uid: string)
      modifies this
      ensures directory == old(directory)
      ensures files == if Configured() && info.Some? && PathOf(uid, RecoveryInfoFile) !in old(files)
                       then old(files)[PathOf(uid, RecoveryInfoFile) := InfoJson(info.value)]
                       else old(files)
      ensures forall u :: ReadExecuteRequest(u) == old(ReadExecuteRequest(u)) && ReadExecuteResponse(u) == old(ReadExecuteResponse(u))
      ensures forall u :: u != uid ==> ReadRecoveryInfo(u) == old(ReadRecoveryInfo(u))
    {
      var path := PathOf(uid, RecoveryInfoFile);
      if Configured() && info.Some? && path !in files {
        files := files[path := InfoJson(info.value)];
      }
      OnlyOneFileChanged(old(files), uid, RecoveryInfoFile);
    }

    /** If only the file of (uid, k) changed, every other read is unchanged. */
    lemma OnlyOneFileChanged(before: map<string, FileContent>, uid: string, k: ArtifactKind)
      requires forall p :: p != PathOf(uid, k) ==> (p in files <==> p in before) && (p in files ==> files[p] == before[p])
      ensures forall u, k' :: (u, k') != (uid, k) ==> PathOf(u, k') != PathOf(uid, k)
    {
      forall u, k' | (u, k') != (uid, k)
        ensures PathOf(u, k') != PathOf(uid, k)
      {
        if k' != k {
          ArtifactKindsDisjoint(FormatArg(directory), u, uid, k', k);
        } else if PathOf(u, k') == PathOf(uid, k) {
          ArtifactPathInjective(FormatArg(directory), u, uid, k);
        }
      }
    }
  }

  /** JobOrder: the in-memory record of one job. */
  class JobOrder {
    var creationTime: int
    var executeRequest: Option<Execute>
    var executeResponse: Option<ExecuteResponse>
    var jobProgress: JobProgress?
    var uid: Option<string>
    /** The backing field _recoveryInfo of the lazy RecoveryInfo property. */
    var recoveryInfo: Option<RecoveryInfo>
    /** The process-wide recovery store the static Read and Write calls use. */
    const store: RecoveryStore

    /** `new JobOrder() { ExecuteRequest = .., JobProgress = .., CreationTime = .. }` */
    constructor (store: RecoveryStore, executeRequest: Option<Execute>, jobProgress: JobProgress?, creationTime: int)
      ensures this.store == store && this.executeRequest == executeRequest
      ensures this.jobProgress == jobProgress && this.creationTime == creationTime
      ensures executeResponse == None && uid == None && recoveryInfo == None
    {
      this.store := store;
      this.executeRequest := executeRequest;
      this.jobProgress := jobProgress;
      this.creationTime := creationTime;
      executeResponse := None;
      uid := None;
      recoveryInfo := None;
    }

    /** What the RecoveryInfo getter returns in the current state. */
    function RecoveryInfoView(): Option<RecoveryInfo>
      reads this, store
    {
      if recoveryInfo.None? && !IsNullOrEmpty(uid) then store.ReadRecoveryInfo(uid.value) else recoveryInfo
    }

    /** The RecoveryInfo getter: reads the store only while the field is null
        and Uid is non-empty; a non-null result is kept, a null one is read
        again on the next access. */
    method GetRecoveryInfo() returns (r: Option<RecoveryInfo>)
      modifies this`recoveryInfo
      ensures recoveryInfo == if old(recoveryInfo).None? && !IsNullOrEmpty(uid)
                              then store.ReadRecoveryInfo(uid.value)
                              else old(recoveryInfo)
      ensures r == recoveryInfo && r == old(RecoveryInfoView())
      ensures old(recoveryInfo).Some? ==> r == old(recoveryInfo)
    {
      if recoveryInfo.None? && !IsNullOrEmpty(uid) {
        recoveryInfo := store.ReadRecoveryInfo(uid.value);
      }
      r := recoveryInfo;
    }

    /** The RecoveryInfo setter. */
    method SetRecoveryInfoField(info: Option<RecoveryInfo>)
      modifies this`recoveryInfo
      ensures recoveryInfo == info
    {
      recoveryInfo := info;
    }

    /** SetRecoveryInfo: persists only when the path is configured, the info
        is non-null and no RecoveryInfo file exists; never overwrites. */
    method SetRecoveryInfo(info: Option<RecoveryInfo>)
      modifies store
      ensures store.directory == old(store.directory)
      ensures store.files == if store.Configured() && info.Some? && store.PathOf(FormatArg(uid), RecoveryInfoFile) !in old(store.files)
                             then old(store.files)[store.PathOf(FormatArg(uid), RecoveryInfoFile) := InfoJson(info.value)]
                             else old(store.files)
      ensures old(store.ReadRecoveryInfo(FormatArg(uid))).Some? ==> store.ReadRecoveryInfo(FormatArg(uid)) == old(store.ReadRecoveryInfo(FormatArg(uid)))
    {
      store.WriteRecoveryInfo(info, FormatArg(uid));
    }

    /** Report(response): keep the response, forward its status to the
        progress slot and overwrite the stored response. A null response is
        stored and then dereferenced; a null progress slot is dereferenced
        after the response is stored; either way nothing is written. */
    method Report(response: Option<ExecuteResponse>) returns (r: Result<()>)
      modifies this`executeResponse, jobProgress, store
      ensures executeResponse == response
      ensures r.Err? <==> response.None? || jobProgress == null
      ensures r.Err? ==> r.error == NullReference && unchanged(store)
      ensures r.Err? && jobProgress != null ==> jobProgress.status == old(jobProgress.status)
      ensures r.Ok? ==> jobProgress.status == response.value.status
      ensures r.Ok? ==> store.directory == old(store.directory)
      ensures r.Ok? ==> store.files == if store.Configured()
                                        then old(store.files)[store.PathOf(FormatArg(uid), ResponseFile) := ResponseXml(response.value)]
                                        else old(store.files)
      ensures r.Ok? && store.Configured() ==> store.ReadExecuteResponse(FormatArg(uid)) == response
    {
      executeResponse := response;
      if response.None? || jobProgress == null {
        return Err(NullReference);
      }
      jobProgress.Report(response.value.status);
      store.WriteExecuteResponse(response, FormatArg(uid));
      r := Ok(());
    }

    /** Report(status): Report of a fresh response whose only field is Status. */
    method ReportStatus(status: Option<StatusType>) returns (r: Result<()>)
      modifies this`executeResponse, jobProgress, store
      ensures executeResponse == Some(EmptyResponse.(status := status))
      ensures r.Err? <==> jobProgress == null
      ensures r.Err? ==> r.error == NullReference && unchanged(store)
      ensures r.Ok? ==> jobProgress.status == status
      ensures r.Ok? ==> store.directory == old(store.directory)
      ensures r.Ok? ==> store.files == if store.Configured()
                                        then old(store.files)[store.PathOf(FormatArg(uid), ResponseFile) := ResponseXml(EmptyResponse.(status := status))]
                                        else old(store.files)
    {
      r := Report(Some(EmptyResponse.(status := status)));
    }
  }
}
