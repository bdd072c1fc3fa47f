/**
 * The open-state coordinator shared by every dropdown inside one provider.
 *
 * The provider keeps two state cells, the id of the dropdown that is open and
 * an "is open" flag. Its two operations overwrite both cells, so whichever
 * request comes last decides the state, and anyone may close a dropdown that
 * someone else opened.
 */
module Coordinator {

  datatype Option<+T> = None | Some(value: T)

  /** Dropdown identities are opaque tokens, only ever compared for equality. */
  type Id = string

  /** The provider's two state cells. */
  datatype Shared = Shared(dropdownId: Option<Id>, isOpen: bool)

  /** The representation invariant: the flag is set exactly when an id is held. */
  predicate Wf(s: Shared) {
    s.isOpen <==> s.dropdownId.Some?
  }

  /** The coordinator reports no open dropdown at all. */
  predicate IsClosed(s: Shared) {
    !s.isOpen && s.dropdownId == None
  }

  const DefaultOpenState: bool := false

  /** The state a fresh provider starts in (and the context's fallback value). */
  function Initial(): (s: Shared)
    ensures Wf(s)
    ensures IsClosed(s)
  {
    Shared(None, DefaultOpenState)
  }

  /** `open(id)`: unconditionally make `id` the open dropdown. */
  function Open(s: Shared, id: Id): (r: Shared)
    ensures Wf(r)
    ensures r.isOpen && r.dropdownId == Some(id)
  {
    Shared(Some(id), true)
  }

  /** `close()`: clear the open dropdown, whoever opened it. */
  function Close(s: Shared): (r: Shared)
    ensures Wf(r)
    ensures IsClosed(r)
    ensures r == Initial()
  {
    Shared(None, false)
  }

  /** A call a client makes on the coordinator. */
  datatype Request = OpenRequest(id: Id) | CloseRequest

  function Perform(s: Shared, q: Request): (r: Shared)
    ensures Wf(r)
    ensures q.OpenRequest? ==> r.isOpen && r.dropdownId == Some(q.id)
    ensures q.CloseRequest? ==> IsClosed(r)
  {
    match q
    case OpenRequest(id) => Open(s, id)
    case CloseRequest => Close(s)
  }

  /**
   * A batch of requests, performed in order. Since every request overwrites
   * the whole state, only the last one of a non-empty batch matters.
   */
  function PerformAll(s: Shared, qs: seq<Request>): (r: Shared)
    ensures qs == [] ==> r == s
    ensures qs != [] ==> r == Perform(s, qs[|qs| - 1])
    ensures Wf(s) ==> Wf(r)
    decreases |qs|
  {
    if qs == [] then s else PerformAll(Perform(s, qs[0]), qs[1..])
  }

  /** Performing two batches one after the other is performing their concatenation. */
  lemma PerformAllAppend(s: Shared, qs: seq<Request>, more: seq<Request>)
    ensures PerformAll(s, qs + more) == PerformAll(PerformAll(s, qs), more)
  {
  }

  /** The invariant holds initially and both operations preserve it (they in fact establish it). */
  lemma WfInvariant(s: Shared, id: Id)
    ensures Wf(Initial())
    ensures Wf(Open(s, id)) && Wf(Close(s))
  {
  }

  /** Whatever the prior state, `open(id)` leaves `id` open. */
  lemma OpenForgetsPriorState(s: Shared, t: Shared, id: Id)
    ensures Open(s, id) == Open(t, id)
    ensures Open(s, id).isOpen && Open(s, id).dropdownId == Some(id)
  {
  }

  /** Last writer wins: `open(a); open(b)` is `open(b)`. */
  lemma LastWriterWins(s: Shared, a: Id, b: Id)
    ensures Open(Open(s, a), b) == Open(s, b)
    ensures Open(Open(s, a), b).dropdownId == Some(b)
  {
  }

  /** `close()` ignores who opened the dropdown: closing after any `open` is the plain close. */
  lemma CloseIgnoresOpener(s: Shared, id: Id)
    ensures Close(Open(s, id)) == Close(s) == Initial()
  {
  }

  /** `close()` is idempotent. */
  lemma CloseIdempotent(s: Shared)
    ensures Close(Close(s)) == Close(s)
  {
  }
}
