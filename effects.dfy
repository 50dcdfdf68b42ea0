/** What the model takes from the environment: fresh identifiers, clock readings and the
    failures of external calls; and the two error types those failures travel in. */
module Effects {
  import opened Wrappers
  import opened Eval

  /** The fresh UUID (`Uuid::new_v4()`) and the clock reading (`Utc::now()`) one insert uses. */
  datatype Stamp = Stamp(id: Uuid, at: Timestamp)

  /** The `step`-th external call (counting from 0) an operation makes fails with `message`;
      every call before it succeeds. */
  datatype Fault = Fault(step: nat, message: string)

  /** Whether an operation that makes `calls` external calls meets its fault. */
  predicate Fails(calls: nat, fault: Option<Fault>) {
    fault.Some? && fault.value.step < calls
  }

  /** How many of `calls` external calls succeed before the fault stops the operation. */
  function Succeeded(calls: nat, fault: Option<Fault>): (n: nat)
    ensures n <= calls
    ensures n < calls <==> Fails(calls, fault)
  {
    if Fails(calls, fault) then fault.value.step else calls
  }

  /** The stamps' identifiers are pairwise distinct and unused by `taken`. */
  ghost predicate FreshIds(stamps: seq<Stamp>, taken: set<Uuid>) {
    && (forall i, j :: 0 <= i < j < |stamps| ==> stamps[i].id != stamps[j].id)
    && (forall i :: 0 <= i < |stamps| ==> stamps[i].id !in taken)
  }

  /** The domain layer's error (shared/src/error.rs). */
  datatype DomainError = NotFound(message: string) | Validation(message: string) | Conflict(message: string) | Internal(message: string)

  /** An `anyhow::Error`: a domain error passed up with `?`, or a message from a backend client. */
  datatype AnyError = FromDomain(domain: DomainError) | Message(text: string)
}
