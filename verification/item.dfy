/**
 * One entry of a dropdown's panel. When the entry's child is an element,
 * its click handler is wrapped: the click stops propagating, the child's
 * own handler runs if it is a function, and the coordinator is asked to
 * close. Any other child is rendered as it is, with no handler added.
 */
module Item {
  import opened Coordinator
  import opened Effects

  /**
   * The shape of the wrapped child: plain content (text, a number, several
   * nodes) or a single element, whose `onClick` prop may or may not hold a
   * function.
   */
  datatype Kind = Plain | Element(onClick: Option<Action>)

  /** The child's own handler exists and throws. */
  predicate Throws(k: Kind) {
    k.Element? && k.onClick.Some? && k.onClick.value.throws
  }

  /**
   * The effects of a click on the item's child, in the order they happen.
   * A throwing handler ends the wrapped handler before `close()`.
   */
  function ClickEffects(k: Kind): (t: seq<Effect>)
    ensures k.Plain? ==> t == []
    ensures k.Element? ==> |t| >= 2 && t[0] == StopPropagation
    ensures k.Element? ==> (t[|t| - 1] == Call(CloseRequest) <==> !Throws(k))
    ensures Throws(k) ==> t[|t| - 1] == RunHandler(k.onClick.value)
    ensures forall i :: 0 < i < |t| ==> t[i] != StopPropagation
    ensures forall a :: RunHandler(a) in t <==> k == Element(Some(a))
  {
    match k
    case Plain => []
    case Element(None) => [StopPropagation, Call(CloseRequest)]
    case Element(Some(a)) =>
      if a.throws then [StopPropagation, RunHandler(a)]
      else [StopPropagation, RunHandler(a), Call(CloseRequest)]
  }

  /**
   * The wrapped handler's coordinator calls: the child's own, then `close()`
   * unless the child's handler threw.
   */
  lemma ElementRequests(k: Kind)
    requires k.Element?
    ensures k.onClick.None? ==> Requests(ClickEffects(k)) == [CloseRequest]
    ensures k.onClick.Some? && !Throws(k) ==> Requests(ClickEffects(k)) == k.onClick.value.requests + [CloseRequest]
    ensures Throws(k) ==> Requests(ClickEffects(k)) == k.onClick.value.requests
  {
    var t := ClickEffects(k);
    if k.onClick.None? {
      assert t[1..][1..] == [];
    } else if Throws(k) {
      var a := k.onClick.value;
      assert t[1..][1..] == [];
      assert Requests(t[1..]) == a.requests + [];
      assert Requests(t) == [] + Requests(t[1..]);
    } else {
      var a := k.onClick.value;
      assert t[1..][1..][1..] == [];
      assert Requests(t[1..][1..]) == [CloseRequest];
      assert Requests(t[1..]) == a.requests + [CloseRequest];
      assert Requests(t) == [] + Requests(t[1..]);
    }
  }

  /**
   * Clicking an element item ends closed, whatever the child's own handler
   * asked of the coordinator, provided that handler returns. If it throws,
   * `close()` is not reached and the state is what the handler's calls made it.
   */
  lemma ElementClickCloses(s: Shared, k: Kind)
    requires k.Element?
    ensures !Throws(k) ==> Apply(s, ClickEffects(k)) == Initial()
    ensures !Throws(k) ==> IsClosed(Apply(s, ClickEffects(k)))
    ensures Throws(k) ==> Apply(s, ClickEffects(k)) == PerformAll(s, k.onClick.value.requests)
  {
    ElementRequests(k);
    ApplyIsPerformAll(s, ClickEffects(k));
  }

  /** Clicking plain content does nothing to the coordinator. */
  lemma PlainClickKeepsState(s: Shared)
    ensures Apply(s, ClickEffects(Plain)) == s
  {
  }
}
