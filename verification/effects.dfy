/**
 * What a click handler does, as an ordered trace of effects: stopping the
 * event's propagation, running a foreign callback, or calling the
 * coordinator. The trace is applied to the coordinator in order, the way
 * the state updates made inside one event handler are batched and applied
 * in call order.
 */
module Effects {
  import opened Coordinator

  /**
   * A callback supplied by the embedding application: the coordinator calls
   * it makes, in order, and whether it then throws instead of returning.
   * Its other effects are invisible to this model.
   */
  datatype Action = Action(requests: seq<Request>, throws: bool)

  datatype Effect =
    | StopPropagation
    | RunHandler(action: Action)
    | Call(request: Request)

  /** The coordinator calls made by a trace, in order. */
  function Requests(es: seq<Effect>): (qs: seq<Request>)
    ensures es == [] ==> qs == []
    decreases |es|
  {
    if es == [] then []
    else
      var here := match es[0]
        case StopPropagation => []
        case RunHandler(a) => a.requests
        case Call(q) => [q];
      here + Requests(es[1..])
  }

  /** Apply a trace to the coordinator, one effect at a time. */
  function Apply(s: Shared, es: seq<Effect>): (r: Shared)
    ensures Wf(s) ==> Wf(r)
    decreases |es|
  {
    if es == [] then s
    else
      var next := match es[0]
        case StopPropagation => s
        case RunHandler(a) => PerformAll(s, a.requests)
        case Call(q) => Perform(s, q);
      Apply(next, es[1..])
  }

  /** Applying a trace is performing its coordinator calls as one batch. */
  lemma {:induction false} ApplyIsPerformAll(s: Shared, es: seq<Effect>)
    ensures Apply(s, es) == PerformAll(s, Requests(es))
    decreases |es|
  {
    if es != [] {
      var here := match es[0]
        case StopPropagation => []
        case RunHandler(a) => a.requests
        case Call(q) => [q];
      var next := match es[0]
        case StopPropagation => s
        case RunHandler(a) => PerformAll(s, a.requests)
        case Call(q) => Perform(s, q);
      assert PerformAll(s, here) == next by {
        if es[0].Call? {
          assert here[1..] == [];
        }
      }
      ApplyIsPerformAll(next, es[1..]);
      PerformAllAppend(s, here, Requests(es[1..]));
    }
  }

  /** `Requests` distributes over concatenation of traces. */
  lemma {:induction false} RequestsAppend(es: seq<Effect>, more: seq<Effect>)
    ensures Requests(es + more) == Requests(es) + Requests(more)
    decreases |es|
  {
    if es == [] {
      assert es + more == more;
    } else {
      assert (es + more)[0] == es[0];
      assert (es + more)[1..] == es[1..] + more;
      RequestsAppend(es[1..], more);
    }
  }

  /** A handler that stops propagation and then makes one call has that call's effect. */
  lemma ApplyStopThenCall(s: Shared, q: Request)
    ensures Apply(s, [StopPropagation, Call(q)]) == Perform(s, q)
    ensures Apply(s, [StopPropagation]) == s
  {
    var es := [StopPropagation, Call(q)];
    assert es[1..] == [Call(q)] && es[1..][1..] == [];
    assert Apply(s, es[1..]) == Apply(Perform(s, q), []);
    assert [StopPropagation][1..] == [];
  }

  /** A trace whose last coordinator call is `close()` leaves the coordinator closed. */
  lemma ApplyEndingInClose(s: Shared, es: seq<Effect>)
    requires |Requests(es)| > 0 && Requests(es)[|Requests(es)| - 1] == CloseRequest
    ensures Apply(s, es) == Initial()
  {
    ApplyIsPerformAll(s, es);
  }
}
