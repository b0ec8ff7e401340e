/** The WPS 1.0.0 and OWS 1.1 payload objects the job engine reads and writes,
    reduced to the fields the engine touches. Everything else in them is
    carried as opaque text. */
module WpsTypes {
  import opened Common

  /** ows:Exception */
  datatype ExceptionType = ExceptionType(exceptionCode: string, locator: Option<string>, exceptionText: Option<string>)

  /** ows:ExceptionReport */
  datatype ExceptionReport = ExceptionReport(exceptions: seq<ExceptionType>)

  /** The choice inside wps:Status; the variant is the ItemElementName. */
  datatype StatusItem =
    | ProcessAccepted(acceptedText: string)
    | ProcessStarted(startedText: string, percentCompleted: string)
    | ProcessPaused(pausedText: string)
    | ProcessSucceeded(succeededText: string)
    | ProcessFailed(report: ExceptionReport)

  /** wps:Status; creationTime is a DateTime, modelled as an integer clock. */
  datatype StatusType = StatusType(item: StatusItem, creationTime: int)

  /** Succeeded and Failed are the terminal states of a WPS job. */
  predicate IsTerminal(s: StatusType) {
    s.item.ProcessSucceeded? || s.item.ProcessFailed?
  }

  /** wps:ProcessBrief */
  datatype ProcessBrief = ProcessBrief(identifier: string, title: string, processVersion: string)

  /** wps:ProcessDescription */
  datatype ProcessDescription = ProcessDescription(identifier: string, document: string)

  /** wps:ExecuteResponse; a missing element or attribute is None. */
  datatype ExecuteResponse = ExecuteResponse(
    status: Option<StatusType>,
    serviceInstance: Option<string>,
    statusLocation: Option<string>,
    process: Option<ProcessBrief>,
    service: Option<string>,
    version: Option<string>,
    outputs: seq<string>)

  /** `new ExecuteResponse()`: every field unset. */
  const EmptyResponse := ExecuteResponse(None, None, None, None, None, None, [])

  /** wps:Execute; identifier is None when the ows:Identifier element is missing. */
  datatype Execute = Execute(identifier: Option<string>, inputs: seq<string>)

  /** The RecoveryInfo record persisted as JSON next to a job. */
  datatype RecoveryInfo = RecoveryInfo(wpsProcessIdentifier: Option<string>, retry: int)
}
