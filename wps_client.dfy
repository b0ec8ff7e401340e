/** Wps/Client/WpsClient.cs: the client side of an asynchronous WPS
    execution, which posts an Execute request and then follows the
    statusLocation of each response until the execution completes. */
module Client {
  import opened Common
  import opened WpsTypes

  /** What a response body deserialises to: no ExecuteResponse at all (the
      serializer throws), or an ExecuteResponse that may be null. */
  datatype Body = Malformed | Decoded(response: Option<ExecuteResponse>)

  /** The result of one HTTP request: the URI cannot be parsed, the request
      fails, or a reply arrives with its status code and body. */
  datatype Transfer = BadUri | Unreachable | Reply(statusCode: int, body: Body)

  /** GetWpsExecuteResponse: the body is deserialised before the status code
      is looked at; a non-200 reply throws; every exception is rethrown; a
      null deserialisation yields null. */
  function GetWpsExecuteResponse(t: Transfer): (r: Result<Option<ExecuteResponse>>)
    ensures r.Ok? <==> t.Reply? && t.statusCode == 200 && t.body.Decoded?
    ensures r.Ok? ==> r.value == t.body.response
    ensures t.Reply? && t.body.Malformed? ==> r == Err(XmlError)
    ensures t.Reply? && t.body.Decoded? && t.statusCode != 200 ==> r == Err(HttpStatus(t.statusCode))
  {
    match t
    case BadUri => Err(UriFormat)
    case Unreachable => Err(Transport)
    case Reply(code, body) =>
      if body.Malformed? then Err(XmlError)
      else if code != 200 then Err(HttpStatus(code))
      else Ok(body.response)
  }

  /** How polling ended: with a response, with an exception, or (in this
      model only) because the bound on the number of polls was reached. */
  datatype PollOutcome = Done(response: ExecuteResponse) | Aborted(fault: Fault) | OutOfFuel

  /** The outcome, the statuses handed to onStateChange in order, and the
      number of status requests made. */
  datatype Poll = Poll(outcome: PollOutcome, notified: seq<StatusType>, requests: nat)

  /** The ExecutionState as polling sees it: its Status, which polling never
      updates, and the StatusType.Equals it is compared with. */
  datatype ExecutionState = ExecutionState(status: Option<StatusType>, equals: (StatusType, StatusType) -> bool)

  /** Whether onStateChange is called for a status: Equals(null) is false. */
  predicate Changed(state: ExecutionState, s: StatusType) {
    state.status.None? || !state.equals(s, state.status.value)
  }

  /** PollUntilComplete. A terminal status ends polling; any other status
      that differs from the state's is handed to onStateChange; a response
      without statusLocation ends polling; otherwise the status location is
      fetched and polling goes on with what it returns. The request number n
      and the server function stand for the network; `fuel` bounds the
      number of polls. */
  function PollUntilComplete(response: Option<ExecuteResponse>, state: ExecutionState, server: (nat, string) -> Transfer,
                             n: nat, fuel: nat): (p: Poll)
    ensures response.None? ==> p == Poll(Aborted(NullReference), [], 0)
    ensures response.Some? && response.value.status.Some? && IsTerminal(response.value.status.value) ==>
              p == Poll(Done(response.value), [], 0)
    ensures p.requests <= fuel
    decreases fuel
  {
    if response.None? then Poll(Aborted(NullReference), [], 0)
    else
      var r := response.value;
      if r.status.Some? && IsTerminal(r.status.value) then Poll(Done(r), [], 0)
      else
        var notified := if r.status.Some? && Changed(state, r.status.value) then [r.status.value] else [];
        if IsNullOrEmpty(r.statusLocation) then Poll(Done(r), notified, 0)
        else if fuel == 0 then Poll(OutOfFuel, notified, 0)
        else
          match GetWpsExecuteResponse(server(n, r.statusLocation.value))
          case Err(e) => Poll(Aborted(e), notified, 1)
          case Ok(next) =>
            var rest := PollUntilComplete(next, state, server, n + 1, fuel - 1);
            Poll(rest.outcome, notified + rest.notified, rest.requests + 1)
  }

  /** Polling returns only a completed execution, or a response that gives no
      status location to follow. */
  lemma {:induction false} PollDoneIsFinal(response: Option<ExecuteResponse>, state: ExecutionState, server: (nat, string) -> Transfer, n: nat, fuel: nat)
    requires PollUntilComplete(response, state, server, n, fuel).outcome.Done?
    ensures var r := PollUntilComplete(response, state, server, n, fuel).outcome.response;
            (r.status.Some? && IsTerminal(r.status.value)) || IsNullOrEmpty(r.statusLocation)
    decreases fuel
  {
    var r := response.value;
    if !(r.status.Some? && IsTerminal(r.status.value)) && !IsNullOrEmpty(r.statusLocation) && fuel > 0 {
      var next := GetWpsExecuteResponse(server(n, r.statusLocation.value));
      PollDoneIsFinal(next.value, state, server, n + 1, fuel - 1);
    }
  }

  /** onStateChange never sees a terminal status nor one equal to the
      state's, and sees at most one status per response. */
  lemma {:induction false} NotifiedAreRunning(response: Option<ExecuteResponse>, state: ExecutionState, server: (nat, string) -> Transfer, n: nat, fuel: nat)
    ensures var p := PollUntilComplete(response, state, server, n, fuel);
            forall i :: 0 <= i < |p.notified| ==> !IsTerminal(p.notified[i]) && Changed(state, p.notified[i])
    ensures |PollUntilComplete(response, state, server, n, fuel).notified| <= PollUntilComplete(response, state, server, n, fuel).requests + 1
    decreases fuel
  {
    if response.Some? {
      var r := response.value;
      if !(r.status.Some? && IsTerminal(r.status.value)) && !IsNullOrEmpty(r.statusLocation) && fuel > 0 {
        var next := GetWpsExecuteResponse(server(n, r.statusLocation.value));
        if next.Ok? {
          NotifiedAreRunning(next.value, state, server, n + 1, fuel - 1);
        }
      }
    }
  }

  /** More polls never change an outcome reached within fewer: the bound
      only cuts off executions that have not completed. */
  lemma {:induction false} PollFuelMonotone(response: Option<ExecuteResponse>, state: ExecutionState, server: (nat, string) -> Transfer, n: nat,
                                             fuel: nat, more: nat)
    requires fuel <= more
    requires !PollUntilComplete(response, state, server, n, fuel).outcome.OutOfFuel?
    ensures PollUntilComplete(response, state, server, n, more) == PollUntilComplete(response, state, server, n, fuel)
    decreases fuel
  {
    if response.Some? {
      var r := response.value;
      if !(r.status.Some? && IsTerminal(r.status.value)) && !IsNullOrEmpty(r.statusLocation) {
        var next := GetWpsExecuteResponse(server(n, r.statusLocation.value));
        if next.Ok? {
          PollFuelMonotone(next.value, state, server, n + 1, fuel - 1, more - 1);
        }
      }
    }
  }

  /** A status request that fails ends polling with its exception. */
  lemma PollFailureAborts(response: ExecuteResponse, state: ExecutionState, server: (nat, string) -> Transfer, n: nat, fuel: nat)
    requires !(response.status.Some? && IsTerminal(response.status.value)) && !IsNullOrEmpty(response.statusLocation) && fuel > 0
    requires GetWpsExecuteResponse(server(n, response.statusLocation.value)).Err?
    ensures PollUntilComplete(Some(response), state, server, n, fuel).outcome
            == Aborted(GetWpsExecuteResponse(server(n, response.statusLocation.value)).error)
    ensures PollUntilComplete(Some(response), state, server, n, fuel).requests == 1
  {
  }

  /** ExecuteAsyncAndPollUntilComplete: post the request (its reply is
      `submitted`), then poll from the response. Status requests are
      numbered from 0. */
  function ExecuteAndPoll(submitted: Transfer, state: ExecutionState, server: (nat, string) -> Transfer, fuel: nat): (p: Poll)
    ensures GetWpsExecuteResponse(submitted).Err? ==> p == Poll(Aborted(GetWpsExecuteResponse(submitted).error), [], 0)
    ensures GetWpsExecuteResponse(submitted).Ok? ==> p == PollUntilComplete(GetWpsExecuteResponse(submitted).value, state, server, 0, fuel)
  {
    match GetWpsExecuteResponse(submitted)
    case Err(e) => Poll(Aborted(e), [], 0)
    case Ok(response) => PollUntilComplete(response, state, server, 0, fuel)
  }
}
