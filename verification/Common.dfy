/** Result types shared by every module of the model. */
module Common {

  datatype Option<+T> = None | Some(value: T)

  /** The ways the modelled code can stop the simulation. */
  datatype Fault =
    | Panic                 // gem5 panic_if / fatal_if
    | BadIndex              // an index assertion of the blocking packet helper
    | NoExtension           // a payload without its gem5 extension
    | BadPayload            // acquire or release of a payload that is not in use
    | NotBlocking           // a request is unblocked that was not blocking
    | ResponseBlocked       // a second response while one is blocked
    | ResponseRefused       // a retried response is refused again
    | AddressOutOfRange     // an address outside the memory of the router
    | IllegalPhase          // a phase the callee does not expect
    | TwoResponses          // a second pending response in the target
    | TargetBusy            // END_REQ while a transaction is in progress
    | NullTransaction       // a null transaction pointer is used
    | TimeOrder             // gem5 time and SystemC time out of order
    | OutOfEvents           // the event loop ran dry
    | NotSimulating         // the event loop is entered outside simulate
    | NoExitEvent           // simulate returns without an exit event
    | NotCaughtUp           // gem5 acts while its time lags behind SystemC time
    | LostEvent             // an event on the gem5 queue that nobody has raised
    | RetryProtocol         // a retry flag is in the wrong state

  /** Either a value or the fault that stopped the simulation. */
  datatype Outcome<+T> = Ok(value: T) | Fatal(fault: Fault) {
    predicate IsFailure() {
      Fatal?
    }

    function PropagateFailure<U>(): (r: Outcome<U>)
      requires Fatal?
    {
      Fatal(fault)
    }

    function Extract(): (r: T)
      requires Ok?
    {
      value
    }
  }

  /** The natural numbers below n. */
  function Below(n: nat): (r: set<nat>)
    ensures forall k: nat :: k in r <==> k < n
  {
    if n == 0 then {} else Below(n - 1) + {n - 1}
  }
}
