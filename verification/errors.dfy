/** The errors the aggregate returns, and Go's `errors.Is` / `errors.Join` over them. */
module StudentErrors {
  import opened Wrappers

  datatype Error =
    | EventNotFound                                                   // the ErrEventNotFound sentinel
    | EventDataError(reason: string)                                  // payload unmarshalling failed; cause formatted with %s
    | StudentAlreadyExists
    | StudentNotFound
    | Processing(eventType: string, aggregateId: string, cause: Error) // context added with %w
    | MarshalError(reason: string)                                    // the codec's marshalling error
    | Joined(errs: seq<Error>)                                        // errors.Join of the non-nil arguments
    | SnapshotDataError(reason: string)                               // snapshot unmarshalling failed; cause formatted with %s

  /** `errors.Is`: the error is the target, or unwraps (through %w or a join) to an error that is. */
  predicate Is(err: Error, target: Error) {
    err == target ||
    match err
    case Processing(_, _, cause) => Is(cause, target)
    case Joined(errs) => exists i | 0 <= i < |errs| :: Is(errs[i], target)
    case _ => false
  }

  /** Adds the event type and aggregate id to an error, keeping the cause matchable. */
  function Wrap(eventType: string, aggregateId: string, cause: Error): (w: Error)
    ensures forall target :: Is(cause, target) ==> Is(w, target)
    ensures w != cause
  {
    Processing(eventType, aggregateId, cause)
  }

  /** `errors.Join` of two possibly-nil errors: nil exactly when both are nil. */
  function Join(a: Option<Error>, b: Option<Error>): (r: Option<Error>)
    ensures r.None? <==> a.None? && b.None?
    ensures a.Some? ==> r.Some? && forall target :: Is(a.value, target) ==> Is(r.value, target)
    ensures b.Some? ==> r.Some? && forall target :: Is(b.value, target) ==> Is(r.value, target)
  {
    var errs := (if a.Some? then [a.value] else []) + (if b.Some? then [b.value] else []);
    if errs == [] then None
    else
      assert a.Some? ==> errs[0] == a.value;
      assert b.Some? ==> errs[|errs| - 1] == b.value;
      Some(Joined(errs))
  }

}
