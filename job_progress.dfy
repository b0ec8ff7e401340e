/** Core/Process/JobProgress.cs: the single status slot a running job reports into. */
module Progress {
  import opened Common
  import opened WpsTypes

  class JobProgress {
    /** Status; None (null) until the first report. */
    var status: Option<StatusType>

    constructor ()
      ensures status == None
    {
      status := None;
    }

    /** Report(value): overwrite the slot. No validation: null and a
        non-terminal value after a terminal one are stored as given. */
    method Report(value: Option<StatusType>)
      modifies this
      ensures status == value
    {
      status := value;
    }
  }

  /** Last write wins: two reports leave only the second, whatever the first was. */
  method ReportTwice(p: JobProgress, a: Option<StatusType>, b: Option<StatusType>)
    modifies p
    ensures p.status == b
  {
    p.Report(a);
    p.Report(b);
  }
}
