/**
 * One dropdown instance and how events reach it: the visibility rule, the
 * trigger's click toggle, the window listener that closes on outside
 * clicks, and the hover handlers with their single timer slot shared by
 * every instance.
 *
 * A click travels from its target outwards through the handlers on its
 * path; a handler that stops propagation ends the walk, so the window
 * listener never sees it. Each handler decides from the coordinator state
 * it was rendered with, and the coordinator calls of one click are applied
 * in order afterwards.
 *
 * Timers are abstract tokens: `Leave` schedules one, `Fire(k)` is the
 * moment token `k`'s deferred `close()` would run, and a cancelled token
 * never fires. Real time, and hence the order in which tokens come due, is
 * not modelled: any pending token may fire next.
 */
module Menu {
  import opened Coordinator
  import opened Effects
  import Item

  /** Milliseconds before a pointer leave closes the panel, unless the instance says otherwise. */
  const DefaultDelay: int := 200

  /** An instance's fixed data: its generated id and its optional `delay` prop. */
  datatype Instance = Instance(id: Id, delay: Option<int>)

  function Delay(inst: Instance): int {
    match inst.delay
    case None => DefaultDelay
    case Some(d) => d
  }

  // ---------------------------------------------------------------- visibility

  /** An instance shows its panel iff the flag is set and it holds the open id. */
  predicate Displayed(s: Shared, current: Id)
    ensures Wf(s) ==> (Displayed(s, current) <==> s.dropdownId == Some(current))
    ensures IsClosed(s) ==> !Displayed(s, current)
  {
    s.isOpen && s.dropdownId == Some(current)
  }

  predicate Distinct(ids: seq<Id>) {
    forall i, j :: 0 <= i < j < |ids| ==> ids[i] != ids[j]
  }

  /**
   * How many of the instances `ids` show their panel. For distinct ids it is
   * one exactly when the coordinator is open for one of them, zero otherwise.
   */
  function CountDisplayed(s: Shared, ids: seq<Id>): (n: nat)
    ensures n <= |ids|
    ensures Distinct(ids) ==> n == if s.isOpen && s.dropdownId.Some? && s.dropdownId.value in ids then 1 else 0
    decreases |ids|
  {
    if ids == [] then 0
    else (if Displayed(s, ids[0]) then 1 else 0) + CountDisplayed(s, ids[1..])
  }

  /** At most one of a set of distinct instances shows its panel, in any coordinator state. */
  lemma AtMostOneDisplayed(s: Shared, ids: seq<Id>)
    requires Distinct(ids)
    ensures CountDisplayed(s, ids) <= 1
    ensures forall i, j :: 0 <= i < |ids| && 0 <= j < |ids| && Displayed(s, ids[i]) && Displayed(s, ids[j]) ==> i == j
  {
  }

  /** `open(id)` shows exactly instance `id`; `close()` shows none. */
  lemma OpenShowsOnlyItsInstance(s: Shared, id: Id, other: Id)
    ensures Displayed(Open(s, id), id)
    ensures other != id ==> !Displayed(Open(s, id), other)
    ensures !Displayed(Close(s), other) && !Displayed(Initial(), other)
  {
  }

  // ---------------------------------------------------------------- clicks

  /** The click handlers a click can pass. */
  datatype Handler =
    | TriggerClick(id: Id)            // the trigger's toggle of instance `id`
    | PanelClick                      // the panel's propagation stopper
    | ItemClick(kind: Item.Kind)      // an item's wrapped child
    | WindowClose                     // the provider's `close` as a window listener

  /** What a handler does, given the coordinator state it was rendered with. */
  function HandlerEffects(h: Handler, snap: Shared): (t: seq<Effect>)
    ensures (h.TriggerClick? || h.PanelClick?) ==> |t| > 0 && t[0] == StopPropagation
    ensures h.TriggerClick? ==> |t| == 2 && (t[1] == Call(CloseRequest) <==> snap.isOpen)
    ensures h.TriggerClick? && !snap.isOpen ==> t[1] == Call(OpenRequest(h.id))
    ensures h.PanelClick? ==> Requests(t) == []
    ensures h.WindowClose? ==> t == [Call(CloseRequest)] && StopPropagation !in t
    ensures h.ItemClick? ==> t == Item.ClickEffects(h.kind)
  {
    match h
    case TriggerClick(id) => [StopPropagation, Call(if snap.isOpen then CloseRequest else OpenRequest(id))]
    case PanelClick => [StopPropagation]
    case ItemClick(k) => Item.ClickEffects(k)
    case WindowClose => [Call(CloseRequest)]
  }

  predicate Stops(h: Handler, snap: Shared) {
    StopPropagation in HandlerEffects(h, snap)
  }

  /** Where a click lands: a trigger, the open panel (on an item or not), or anywhere else. */
  datatype Target = OnTrigger(id: Id) | OnPanel(item: Option<Item.Kind>) | Outside

  /**
   * The window's click listener of one provider. Every instance under the
   * provider registers the same `close` function taken from the context, and
   * the window keeps a single copy of an identical listener, so there is one
   * listener while it is registered (`listening`) and none otherwise.
   */
  function WindowListeners(listening: bool): (hs: seq<Handler>)
    ensures |hs| <= 1
    ensures WindowClose in hs <==> listening
    ensures forall i :: 0 <= i < |hs| ==> hs[i] == WindowClose
  {
    if listening then [WindowClose] else []
  }

  /** The handlers on a click's path, from the target outwards. */
  function Path(target: Target, listening: bool): (p: seq<Handler>)
    ensures WindowClose in p <==> listening
    ensures listening ==> p[|p| - 1] == WindowClose
    ensures target.Outside? ==> p == WindowListeners(listening)
    ensures target.OnTrigger? ==> |p| > 0 && p[0] == TriggerClick(target.id)
    ensures target.OnPanel? ==> |p| > 0 && PanelClick in p && (target.item.Some? ==> p[0] == ItemClick(target.item.value))
  {
    match target
    case OnTrigger(id) => [TriggerClick(id)] + WindowListeners(listening)
    case OnPanel(None) => [PanelClick] + WindowListeners(listening)
    case OnPanel(Some(k)) => [ItemClick(k), PanelClick] + WindowListeners(listening)
    case Outside => WindowListeners(listening)
  }

  /**
   * The handlers a click actually runs: a prefix of its path that ends at
   * the first handler stopping propagation, or the whole path if none does.
   */
  function Reached(path: seq<Handler>, snap: Shared): (r: seq<Handler>)
    ensures |r| <= |path| && r == path[..|r|]
    ensures forall i :: 0 <= i < |r| - 1 ==> !Stops(r[i], snap)
    ensures |r| < |path| ==> |r| > 0 && Stops(r[|r| - 1], snap)
    decreases |path|
  {
    if path == [] then []
    else if Stops(path[0], snap) then [path[0]]
    else [path[0]] + Reached(path[1..], snap)
  }

  /** The effects of the handlers `hs`, one handler after the other. */
  function Collect(hs: seq<Handler>, snap: Shared): seq<Effect>
    decreases |hs|
  {
    if hs == [] then [] else HandlerEffects(hs[0], snap) + Collect(hs[1..], snap)
  }

  /** The coordinator state after a click on `target`, with the window listener registered or not. */
  function ClickOutcome(s: Shared, target: Target, listening: bool): (r: Shared)
    ensures Wf(s) ==> Wf(r)
  {
    Apply(s, Collect(Reached(Path(target, listening), s), s))
  }

  /** When no handler on a path stops propagation, the click runs all of them. */
  lemma ReachedAll(path: seq<Handler>, snap: Shared)
    requires forall i :: 0 <= i < |path| ==> !Stops(path[i], snap)
    ensures Reached(path, snap) == path
  {
  }

  /** A path whose first handler stops propagation runs only that handler. */
  lemma ReachedFirst(path: seq<Handler>, snap: Shared)
    requires |path| > 0 && Stops(path[0], snap)
    ensures Reached(path, snap) == [path[0]]
    ensures Collect(Reached(path, snap), snap) == HandlerEffects(path[0], snap)
  {
    assert [path[0]][1..] == [];
  }

  /** An unshielded click makes one `close()` call if the listener is registered, none otherwise. */
  lemma WindowRequests(listening: bool, snap: Shared)
    ensures Requests(Collect(WindowListeners(listening), snap)) == if listening then [CloseRequest] else []
  {
    if listening {
      var es := [Call(CloseRequest)];
      assert [WindowClose][1..] == [];
      assert Collect([WindowClose], snap) == es + [];
      assert es[1..] == [];
      assert Requests(es) == [CloseRequest] + [];
    }
  }

  /**
   * A click outside every trigger and panel closes the dropdown through the
   * provider's window listener; with no listener registered nothing happens.
   */
  lemma OutsideClickCloses(s: Shared, listening: bool)
    ensures listening ==> ClickOutcome(s, Outside, listening) == Initial()
    ensures !listening ==> ClickOutcome(s, Outside, listening) == s
  {
    var path := Path(Outside, listening);
    ReachedAll(path, s);
    WindowRequests(listening, s);
    ApplyIsPerformAll(s, Collect(path, s));
  }

  /** Clicks on a trigger or on the panel stop before any window listener. */
  lemma InsideClickNeverReachesWindow(target: Target, listening: bool, snap: Shared)
    requires !target.Outside?
    ensures WindowClose !in Reached(Path(target, listening), snap)
  {
  }

  /**
   * The trigger's click looks only at the shared flag: while any instance
   * is open, clicking any trigger closes it; otherwise it opens this one.
   */
  lemma TriggerClickToggles(s: Shared, id: Id, listening: bool)
    ensures s.isOpen ==> IsClosed(ClickOutcome(s, OnTrigger(id), listening))
    ensures !s.isOpen ==> ClickOutcome(s, OnTrigger(id), listening) == Open(s, id)
    ensures !s.isOpen ==> Displayed(ClickOutcome(s, OnTrigger(id), listening), id)
  {
    var path := Path(OnTrigger(id), listening);
    ReachedFirst(path, s);
    ApplyStopThenCall(s, if s.isOpen then CloseRequest else OpenRequest(id));
  }

  /** A click on the panel itself, or on a plain item in it, changes nothing. */
  lemma PanelClickKeepsState(s: Shared, listening: bool)
    ensures ClickOutcome(s, OnPanel(None), listening) == s
    ensures ClickOutcome(s, OnPanel(Some(Item.Plain)), listening) == s
  {
    ApplyStopThenCall(s, CloseRequest);
    var path := Path(OnPanel(None), listening);
    ReachedFirst(path, s);
    var itemPath := Path(OnPanel(Some(Item.Plain)), listening);
    assert itemPath[1..][0] == PanelClick;
    ReachedFirst(itemPath[1..], s);
    var r := Reached(itemPath, s);
    assert r == [ItemClick(Item.Plain)] + Reached(itemPath[1..], s);
    assert r[1..] == Reached(itemPath[1..], s);
    assert Collect(r, s) == [] + Collect(r[1..], s) == [StopPropagation];
  }

  /**
   * Clicking an element item in the panel closes the dropdown, unless the
   * child's own handler throws: then `close()` is never reached and the
   * coordinator is left as the handler's calls left it.
   */
  lemma ItemClickCloses(s: Shared, k: Item.Kind, listening: bool)
    requires k.Element?
    ensures !Item.Throws(k) ==> ClickOutcome(s, OnPanel(Some(k)), listening) == Initial()
    ensures Item.Throws(k) ==> ClickOutcome(s, OnPanel(Some(k)), listening) == PerformAll(s, k.onClick.value.requests)
  {
    var path := Path(OnPanel(Some(k)), listening);
    ReachedFirst(path, s);
    Item.ElementClickCloses(s, k);
  }

  /**
   * A throwing item handler that makes no coordinator call leaves the open
   * panel open: its propagation was already stopped, so the window listener
   * does not close it either.
   */
  lemma ThrowingItemLeavesPanelOpen(s: Shared, id: Id, a: Action, listening: bool)
    requires Displayed(s, id) && a.throws && a.requests == []
    ensures Displayed(ClickOutcome(s, OnPanel(Some(Item.Element(Some(a)))), listening), id)
  {
    ItemClickCloses(s, Item.Element(Some(a)), listening);
  }

  // ---------------------------------------------------------------- hover timers

  type Token = nat

  /**
   * The module-wide timer state: the one slot every instance writes its
   * handle into, the timers still pending (with their delays), and the next
   * fresh handle.
   */
  datatype Timers = Timers(slot: Option<Token>, pending: map<Token, int>, next: Token)

  /** Every handle ever handed out, in the slot or pending, is older than `next`. */
  predicate TimersWf(t: Timers) {
    && (t.slot.Some? ==> t.slot.value < t.next)
    && (forall k :: k in t.pending ==> k < t.next)
  }

  datatype World = World(shared: Shared, timers: Timers)

  predicate Inv(w: World) {
    Wf(w.shared) && TimersWf(w.timers)
  }

  function InitialWorld(): (w: World)
    ensures Inv(w)
    ensures IsClosed(w.shared) && w.timers.slot.None? && w.timers.pending == map[]
  {
    World(Initial(), Timers(None, map[], 0))
  }

  /**
   * Pointer enters a trigger or panel: open this instance, and cancel the
   * timer whose handle is in the slot. The slot keeps the (now stale)
   * handle; no other timer is touched.
   */
  function MouseEnter(w: World, inst: Instance): (r: World)
    ensures Displayed(r.shared, inst.id)
    ensures r.timers.slot == w.timers.slot && r.timers.next == w.timers.next
    ensures w.timers.slot.Some? ==> w.timers.slot.value !in r.timers.pending
    ensures r.timers.pending.Keys <= w.timers.pending.Keys
    ensures forall k :: k in w.timers.pending && w.timers.slot != Some(k) ==>
              k in r.timers.pending && r.timers.pending[k] == w.timers.pending[k]
    ensures Inv(w) ==> Inv(r)
  {
    var t := w.timers;
    var pending := match t.slot
      case None => t.pending
      case Some(h) => t.pending - {h};
    World(Open(w.shared, inst.id), t.(pending := pending))
  }

  /**
   * Pointer leaves a trigger or panel: schedule a `close()` after the
   * instance's delay and store its handle in the slot, without cancelling
   * the timer previously stored there.
   */
  function MouseLeave(w: World, inst: Instance): (r: World)
    ensures r.shared == w.shared
    ensures r.timers.slot == Some(w.timers.next) && r.timers.next > w.timers.next
    ensures r.timers.pending.Keys == w.timers.pending.Keys + {w.timers.next}
    ensures r.timers.pending[w.timers.next] == Delay(inst)
    ensures forall k :: k in w.timers.pending && k != w.timers.next ==> r.timers.pending[k] == w.timers.pending[k]
    ensures Inv(w) ==> Inv(r) && w.timers.next !in w.timers.pending
  {
    var t := w.timers;
    World(w.shared, Timers(Some(t.next), t.pending[t.next := Delay(inst)], t.next + 1))
  }

  /** Timer `k` comes due: if still pending it runs `close()`; a cancelled or spent one does nothing. */
  function TimerFire(w: World, k: Token): (r: World)
    ensures k in w.timers.pending ==> IsClosed(r.shared) && r.timers.pending == w.timers.pending - {k}
    ensures k !in w.timers.pending ==> r == w
    ensures r.timers.slot == w.timers.slot && r.timers.next == w.timers.next
    ensures Inv(w) ==> Inv(r)
  {
    if k in w.timers.pending then
      World(Close(w.shared), w.timers.(pending := w.timers.pending - {k}))
    else w
  }

  /** An instance without a `delay` prop schedules its close 200 ms out; one with it, after that delay. */
  lemma LeaveUsesDelayProp(w: World, id: Id, d: int)
    ensures MouseLeave(w, Instance(id, None)).timers.pending[w.timers.next] == 200
    ensures MouseLeave(w, Instance(id, Some(d))).timers.pending[w.timers.next] == d
  {
  }

  /** The pointer comes back before the delay: the scheduled close never fires and the dropdown stays open. */
  lemma ReenterCancelsPendingClose(w: World, a: Instance, b: Instance)
    requires Inv(w)
    ensures var k := w.timers.next;
            var w2 := MouseEnter(MouseLeave(w, a), b);
            k !in w2.timers.pending && TimerFire(w2, k) == w2 && Displayed(TimerFire(w2, k).shared, b.id)
  {
  }

  /** The pointer does not come back: when the delay runs out the dropdown closes. */
  lemma LeaveThenTimeoutCloses(w: World, a: Instance)
    requires Inv(w)
    ensures var w2 := TimerFire(MouseLeave(w, a), w.timers.next);
            IsClosed(w2.shared) && !Displayed(w2.shared, a.id)
  {
  }

  /**
   * Two leaves in a row overwrite the slot without cancelling the first
   * timer: a later enter cancels only the second one, and the first still
   * fires and closes the dropdown the pointer has just entered.
   */
  lemma OverwrittenTimerStillFires(w: World, a: Instance, b: Instance, c: Instance)
    requires Inv(w)
    ensures var first := w.timers.next;
            var w1 := MouseLeave(MouseLeave(w, a), b);
            var w2 := MouseEnter(w1, c);
            && first in w2.timers.pending
            && Displayed(w2.shared, c.id)
            && !Displayed(TimerFire(w2, first).shared, c.id)
  {
  }

  /**
   * The slot is shared by all instances: entering instance `b` cancels the
   * close that instance `a`'s leave scheduled.
   */
  lemma EnterCancelsAnotherInstancesTimer(w: World, a: Instance, b: Instance)
    requires Inv(w)
    ensures var w2 := MouseEnter(MouseLeave(w, a), b);
            w.timers.next !in w2.timers.pending
  {
  }

  // ---------------------------------------------------------------- event runs

  datatype Event =
    | Click(target: Target)
    | Enter(inst: Instance)
    | Leave(inst: Instance)
    | Fire(token: Token)

  /** One event, with the provider's window listener registered or not. */
  function Step(w: World, e: Event, listening: bool): (r: World)
    ensures Inv(w) ==> Inv(r)
    ensures e.Click? ==> r.timers == w.timers
  {
    match e
    case Click(target) => w.(shared := ClickOutcome(w.shared, target, listening))
    case Enter(inst) => MouseEnter(w, inst)
    case Leave(inst) => MouseLeave(w, inst)
    case Fire(k) => TimerFire(w, k)
  }

  function Run(w: World, es: seq<Event>, listening: bool): World
    decreases |es|
  {
    if es == [] then w else Run(Step(w, es[0], listening), es[1..], listening)
  }

  /** Every run keeps the coordinator and timer invariants. */
  lemma {:induction false} RunPreservesInv(w: World, es: seq<Event>, listening: bool)
    requires Inv(w)
    ensures Inv(Run(w, es, listening))
    decreases |es|
  {
    if es != [] {
      RunPreservesInv(Step(w, es[0], listening), es[1..], listening);
    }
  }

  /**
   * Mutual exclusion: after any sequence of events, at most one of a set of
   * distinct instances shows its panel, and the coordinator invariant holds.
   */
  lemma MutualExclusion(es: seq<Event>, ids: seq<Id>, listening: bool)
    requires Distinct(ids)
    ensures Wf(Run(InitialWorld(), es, listening).shared)
    ensures CountDisplayed(Run(InitialWorld(), es, listening).shared, ids) <= 1
  {
    RunPreservesInv(InitialWorld(), es, listening);
  }

  /**
   * Clicking a second trigger while the first instance is open closes the
   * first and does not open the second, since the toggle reads the shared flag.
   */
  lemma ClickSecondTriggerWhileOpen(a: Id, b: Id, listening: bool)
    ensures var w := Run(InitialWorld(), [Click(OnTrigger(a)), Click(OnTrigger(b))], listening);
            IsClosed(w.shared) && !Displayed(w.shared, a) && !Displayed(w.shared, b)
  {
    var es := [Click(OnTrigger(a)), Click(OnTrigger(b))];
    var w1 := Step(InitialWorld(), es[0], listening);
    TriggerClickToggles(InitialWorld().shared, a, listening);
    TriggerClickToggles(w1.shared, b, listening);
    assert es[1..] == [es[1]] && es[1..][1..] == [];
    assert Run(w1, es[1..], listening) == Run(Step(w1, es[1], listening), [], listening);
  }

  /**
   * Hovering a trigger already opens its instance, so a click on that
   * trigger after the hover closes it again.
   */
  lemma HoverThenClickCloses(a: Instance, listening: bool)
    ensures var w := Run(InitialWorld(), [Enter(a), Click(OnTrigger(a.id))], listening);
            IsClosed(w.shared)
  {
    var es := [Enter(a), Click(OnTrigger(a.id))];
    var w1 := Step(InitialWorld(), es[0], listening);
    TriggerClickToggles(w1.shared, a.id, listening);
    assert es[1..] == [es[1]] && es[1..][1..] == [];
    assert Run(w1, es[1..], listening) == Run(Step(w1, es[1], listening), [], listening);
  }
}
