/**
 * Where an open dropdown's panel is placed.
 *
 * The trigger's rectangle is measured and stored as "coordinates"; the panel
 * is then translated to sit below-left of the trigger, flipped upwards when
 * it would not fit the height of the trigger's parent element, and flipped
 * leftwards when it would not fit that parent's width. The two flips are
 * decided independently. Measurements are integer inputs here.
 */
module Placement {
  import opened Coordinator

  /** A rectangle's four edges, as `getBoundingClientRect` reports them. */
  datatype Rect = Rect(top: int, right: int, bottom: int, left: int)

  /** The window's scroll position (`scrollX`, `scrollY`). */
  datatype Scroll = Scroll(x: int, y: int)

  /** An element's inner size (`clientHeight`, `clientWidth`). */
  datatype Size = Size(height: nat, width: nat)

  /** The outcome of the two space checks. */
  datatype Space = Space(enoughHeight: bool, enoughWidth: bool)

  /** The translation applied to the panel. */
  datatype Offset = Offset(x: int, y: int)

  /** The coordinates an instance holds before its trigger was first measured. */
  const InitialCoordinates: Rect := Rect(0, 0, 0, 0)

  /** Starting at `start`, an extent of `extent` reaches `limit` or beyond. */
  predicate Overflows(start: int, extent: int, limit: int) {
    !(start + extent < limit)
  }

  /**
   * The coordinates the instance stores after measuring its trigger, as the
   * source computes them: the scroll offset is added to `top` and `left`
   * only, while `right` and `bottom` stay relative to the viewport. With no
   * trigger element the previous coordinates are kept.
   */
  function StoredCoordinates(prev: Rect, trigger: Option<Rect>, scroll: Scroll): (c: Rect)
    ensures trigger.None? ==> c == prev
    ensures trigger.Some? ==> c.top == trigger.value.top + scroll.y && c.left == trigger.value.left + scroll.x
    ensures trigger.Some? ==> c.right == trigger.value.right && c.bottom == trigger.value.bottom
  {
    match trigger
    case None => prev
    case Some(v) => Rect(v.top + scroll.y, v.right, v.bottom, v.left + scroll.x)
  }

  /**
   * The corrected measurement: all four edges moved into document
   * coordinates, so that every anchor the placement uses lives in one frame.
   */
  function AbsoluteCoordinates(prev: Rect, trigger: Option<Rect>, scroll: Scroll): (c: Rect)
    ensures trigger.None? ==> c == prev
    ensures trigger.Some? ==> c.top - trigger.value.top == c.bottom - trigger.value.bottom == scroll.y
    ensures trigger.Some? ==> c.left - trigger.value.left == c.right - trigger.value.right == scroll.x
  {
    match trigger
    case None => prev
    case Some(v) => Rect(v.top + scroll.y, v.right + scroll.x, v.bottom + scroll.y, v.left + scroll.x)
  }

  /**
   * The two space checks. `container` is the size of the trigger's parent
   * element, or `None` when there is no trigger element, in which case both
   * checks report enough space. Reaching the container's size exactly
   * already counts as not enough.
   */
  function EnoughSpace(c: Rect, panel: Size, container: Option<Size>): (sp: Space)
    ensures container.None? ==> sp == Space(true, true)
    ensures container.Some? ==> (sp.enoughHeight <==> !Overflows(c.top, panel.height, container.value.height))
    ensures container.Some? ==> (sp.enoughWidth <==> !Overflows(c.left, panel.width, container.value.width))
  {
    match container
    case None => Space(true, true)
    case Some(box) => Space(c.top + panel.height < box.height, c.left + panel.width < box.width)
  }

  /**
   * The panel's translation. Unflipped, the panel's top-left corner sits at
   * the trigger's bottom-left; flipped vertically, the panel's bottom edge
   * sits on the trigger's top edge; flipped horizontally, the panel's right
   * edge is aligned with the trigger's right edge.
   */
  function ContentOffset(c: Rect, panel: Size, container: Option<Size>): (o: Offset)
    ensures EnoughSpace(c, panel, container).enoughHeight ==> o.y == c.bottom
    ensures !EnoughSpace(c, panel, container).enoughHeight ==> o.y + panel.height == c.top
    ensures EnoughSpace(c, panel, container).enoughWidth ==> o.x == c.left
    ensures !EnoughSpace(c, panel, container).enoughWidth ==> o.x + panel.width == c.right
  {
    var space := EnoughSpace(c, panel, container);
    var y := if space.enoughHeight then c.bottom else c.top - panel.height;
    var x := if space.enoughWidth then c.left else c.right - panel.width;
    Offset(x, y)
  }

  /**
   * The panel's next translation: recomputed when the panel element exists,
   * otherwise the previous one (`None` before any was computed) is kept.
   */
  function NextNavOffset(prev: Option<Offset>, c: Rect, panel: Option<Size>, container: Option<Size>): (o: Option<Offset>)
    ensures panel.None? ==> o == prev
    ensures panel.Some? ==> o.Some? && o.value == ContentOffset(c, panel.value, container)
  {
    match panel
    case None => prev
    case Some(p) => Some(ContentOffset(c, p, container))
  }

  /**
   * Once the panel element exists, the translation is recomputed from the
   * current measurements alone: nothing of an earlier translation is kept.
   */
  lemma NavOffsetNotCached(prev: Option<Offset>, other: Option<Offset>, c: Rect, panel: Size, container: Option<Size>)
    ensures NextNavOffset(prev, c, Some(panel), container) == NextNavOffset(other, c, Some(panel), container)
    ensures NextNavOffset(prev, c, None, container) == prev
  {
  }

  /** Measurement followed by placement, as the source composes them. */
  function PanelOffsetAsWritten(prev: Rect, trigger: Option<Rect>, scroll: Scroll, panel: Size, container: Option<Size>): Offset
  {
    ContentOffset(StoredCoordinates(prev, trigger, scroll), panel, container)
  }

  /** Measurement followed by placement, with the corrected measurement. */
  function PanelOffset(prev: Rect, trigger: Option<Rect>, scroll: Scroll, panel: Size, container: Option<Size>): Offset
  {
    ContentOffset(AbsoluteCoordinates(prev, trigger, scroll), panel, container)
  }

  /** Without a trigger element, or when both checks pass, the panel is placed at (left, bottom). */
  lemma DefaultPlacement(c: Rect, panel: Size, container: Option<Size>)
    requires container.None? ||
             (!Overflows(c.top, panel.height, container.value.height) &&
              !Overflows(c.left, panel.width, container.value.width))
    ensures ContentOffset(c, panel, container) == Offset(c.left, c.bottom)
  {
  }

  /** A panel that reaches the container's height, equality included, is flipped up. */
  lemma VerticalFlip(c: Rect, panel: Size, box: Size)
    requires c.top + panel.height >= box.height
    ensures ContentOffset(c, panel, Some(box)).y == c.top - panel.height
  {
  }

  /** A panel that reaches the container's width, equality included, is flipped left. */
  lemma HorizontalFlip(c: Rect, panel: Size, box: Size)
    requires c.left + panel.width >= box.width
    ensures ContentOffset(c, panel, Some(box)).x == c.right - panel.width
  {
  }

  /**
   * The flips are independent: the horizontal offset depends only on the
   * horizontal measurements, and the vertical offset only on the vertical ones.
   */
  lemma FlipsAreIndependent(c: Rect, d: Rect, p: Size, q: Size, box: Size, other: Size)
    ensures c.left == d.left && c.right == d.right && p.width == q.width && box.width == other.width ==>
              ContentOffset(c, p, Some(box)).x == ContentOffset(d, q, Some(other)).x
    ensures c.top == d.top && c.bottom == d.bottom && p.height == q.height && box.height == other.height ==>
              ContentOffset(c, p, Some(box)).y == ContentOffset(d, q, Some(other)).y
  {
  }

  /** A taller panel flips whenever a shorter one already did. */
  lemma VerticalFlipIsMonotone(c: Rect, shorter: Size, taller: Size, box: Size)
    requires shorter.height <= taller.height
    requires !EnoughSpace(c, shorter, Some(box)).enoughHeight
    ensures !EnoughSpace(c, taller, Some(box)).enoughHeight
  {
  }

  /**
   * A trigger no taller than 40 whose bottom is 10 above the container's
   * height gets a 50-tall panel placed above it.
   */
  lemma NearBottomFlipsUp(c: Rect, panel: Size, box: Size)
    requires c.bottom == box.height - 10 && c.top <= c.bottom <= c.top + 40
    requires panel.height == 50
    ensures ContentOffset(c, panel, Some(box)).y == c.top - 50
  {
  }

  /**
   * With the corrected measurement the panel always touches the trigger in
   * document coordinates: below it or above it, and left-aligned or
   * right-aligned with it, whatever the scroll position.
   */
  lemma PanelAdjoinsTrigger(prev: Rect, v: Rect, scroll: Scroll, panel: Size, container: Option<Size>)
    ensures var o := PanelOffset(prev, Some(v), scroll, panel, container);
            (o.y == v.bottom + scroll.y || o.y + panel.height == v.top + scroll.y) &&
            (o.x == v.left + scroll.x || o.x + panel.width == v.right + scroll.x)
  {
  }

  /**
   * The measurement as written mixes frames: on a page scrolled down by 100,
   * a trigger with viewport edges top 10 and bottom 30 gets an unflipped
   * panel at y = 30, which is neither below the trigger's document position
   * (130) nor above it (90).
   */
  lemma StoredCoordinatesMixFrames()
    ensures var v := Rect(10, 50, 30, 0);
            var scroll := Scroll(0, 100);
            var panel := Size(20, 20);
            var o := PanelOffsetAsWritten(InitialCoordinates, Some(v), scroll, panel, Some(Size(1000, 1000)));
            o.y == 30 && o.y != v.bottom + scroll.y && o.y + panel.height != v.top + scroll.y
  {
  }
}
