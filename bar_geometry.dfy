/**
 * Window geometry of the launcher bar (main.js): keeping a window inside the
 * screen's work area, the bar's height, collapsing the bar into a small edge
 * tab and expanding it again, dragging the tab vertically, and where a quick
 * window opens next to the bar.
 *
 * The work area (`screen.getPrimaryDisplay().workArea`) is read afresh by each
 * handler in the source; here it is a parameter of each operation. Electron's
 * `setBounds` is taken to give the window exactly the bounds asked for, and
 * the user dragging the bar between two handlers is not an event of the model.
 */
module BarGeometry {
  import opened Wrappers
  import opened Services
  import opened AppConfig

  /** A window's or the work area's bounds, in integer screen pixels. */
  datatype Rect = Rect(x: int, y: int, width: int, height: int)

  function Min(a: int, b: int): int { if a <= b then a else b }
  function Max(a: int, b: int): int { if a >= b then a else b }

  /** `Math.max(lo, Math.min(v, hi))`: `lo` wins when the range is empty. */
  function Clamp(v: int, lo: int, hi: int): (r: int)
    ensures lo <= r
    ensures lo <= hi ==> r <= hi
    ensures lo <= v <= hi ==> r == v
    ensures hi < lo ==> r == lo
    ensures r == v || r == lo || r == hi
  {
    Max(lo, Min(v, hi))
  }

  /**
   * `Math.round(n / 2)` for an integer `n`: the half is exact or ends in .5,
   * and JavaScript rounds .5 upwards.
   */
  function RoundHalf(n: int): (r: int)
    ensures n <= 2 * r <= n + 1
  {
    (n + 1) / 2
  }

  /**
   * `clampToWorkArea` (main.js:95-106). Note that the position is clamped with
   * the requested size while the returned size is cut down to the area's.
   */
  function ClampToWorkArea(wa: Rect, x: int, y: int, width: int, height: int): (r: Rect)
    ensures r.width == Min(width, wa.width) && r.height == Min(height, wa.height)
    ensures wa.x <= r.x && wa.y <= r.y
    ensures width <= wa.width ==> r.x + width <= wa.x + wa.width
    ensures height <= wa.height ==> r.y + height <= wa.y + wa.height
    ensures width > wa.width ==> r.x == wa.x
    ensures height > wa.height ==> r.y == wa.y
    ensures wa.x <= x && x + width <= wa.x + wa.width ==> r.x == x
    ensures wa.y <= y && y + height <= wa.y + wa.height ==> r.y == y
  {
    Rect(Clamp(x, wa.x, wa.x + wa.width - width), Clamp(y, wa.y, wa.y + wa.height - height),
         Min(width, wa.width), Min(height, wa.height))
  }

  /** A window already clamped to the work area is left where it is. */
  lemma ClampToWorkAreaIdempotent(wa: Rect, x: int, y: int, width: int, height: int)
    ensures var r := ClampToWorkArea(wa, x, y, width, height);
      ClampToWorkArea(wa, r.x, r.y, r.width, r.height) == r
  {
  }

  /** Height of the bar in pixels: padding 2*8, the drag handle 26, 58 per shown button and the actions 50. */
  function BarHeight(visibleCount: nat, workAreaHeight: int): (h: int)
    ensures h <= workAreaHeight
    ensures h == 16 + 26 + 58 * visibleCount + 50 || h == workAreaHeight
    ensures 16 + 26 + 58 * visibleCount + 50 <= workAreaHeight ==> h == 16 + 26 + 58 * visibleCount + 50
  {
    Min(16 + 26 + visibleCount * 58 + 50, workAreaHeight)
  }

  const BarWidth: int := 72

  /**
   * The bar's first bounds (main.js:122-134): at the saved position, else
   * 12 px from the right edge and vertically centred, then clamped.
   */
  function InitialBarBounds(services: seq<Service>, saved: Option<Point>, wa: Rect): (r: Rect)
    ensures r.height == Min(BarHeight(VisibleCount(services), wa.height), wa.height)
    ensures r.width == Min(BarWidth, wa.width)
    ensures wa.x <= r.x && wa.y <= r.y
    ensures BarWidth <= wa.width ==> r.x + BarWidth <= wa.x + wa.width
    ensures r.y + r.height <= wa.y + wa.height
    ensures (saved.Some? && wa.x <= saved.value.x && saved.value.x + BarWidth <= wa.x + wa.width &&
             wa.y <= saved.value.y && saved.value.y + r.height <= wa.y + wa.height) ==>
      r == Rect(saved.value.x, saved.value.y, BarWidth, r.height)
    ensures saved.None? && BarWidth + 12 <= wa.width && 0 <= wa.height ==>
      r == Rect(wa.x + wa.width - BarWidth - 12, wa.y + RoundHalf(wa.height - r.height), BarWidth, r.height)
  {
    var h := BarHeight(VisibleCount(services), wa.height);
    var pos := saved.GetOr(Point(wa.x + wa.width - BarWidth - 12, wa.y + RoundHalf(wa.height - h)));
    ClampToWorkArea(wa, pos.x, pos.y, BarWidth, h)
  }

  /** `save-services` (main.js:444-451): the bar is resized to the new number of shown buttons and re-clamped. */
  function ResizedBar(bounds: Rect, services: seq<Service>, wa: Rect): (r: Rect)
    ensures r.height == BarHeight(VisibleCount(services), wa.height)
    ensures r.width == Min(bounds.width, wa.width)
    ensures wa.y <= r.y && r.y + r.height <= wa.y + wa.height
    ensures wa.x <= r.x && (bounds.width <= wa.width ==> r.x + bounds.width <= wa.x + wa.width)
  {
    ClampToWorkArea(wa, bounds.x, bounds.y, bounds.width, BarHeight(VisibleCount(services), wa.height))
  }

  const TabWidth: int := 14
  const TabHeight: int := 50

  /**
   * Whether the bar's centre lies right of the screen's centre,
   * `b.x + b.width / 2 > wa.x + wa.width / 2` over the reals, doubled.
   */
  predicate RightHalf(b: Rect, wa: Rect) {
    2 * b.x + b.width > 2 * wa.x + wa.width
  }

  /** The collapsed tab for a bar with bounds `b` (main.js:204-218). */
  function CollapsedTab(b: Rect, wa: Rect): (t: Rect)
    ensures t.width == TabWidth && t.height == TabHeight
    ensures t.x == (if RightHalf(b, wa) then wa.x + wa.width - TabWidth else wa.x)
    ensures wa.y <= t.y && (TabHeight <= wa.height ==> t.y + TabHeight <= wa.y + wa.height)
    ensures wa.y <= b.y + RoundHalf(b.height - TabHeight) <= wa.y + wa.height - TabHeight ==>
      2 * (t.y - b.y) + TabHeight - b.height in {0, 1}
  {
    var tabX := if RightHalf(b, wa) then wa.x + wa.width - TabWidth else wa.x;
    var tabY := Clamp(b.y + RoundHalf(b.height - TabHeight), wa.y, wa.y + wa.height - TabHeight);
    Rect(tabX, tabY, TabWidth, TabHeight)
  }

  /**
   * The state the collapse/expand handlers read and write: whether the main
   * window exists, its bounds, `isCollapsed`, `expandedBounds`, the in-memory
   * `config.barPosition`, and the `collapse-changed` notices sent to the bar's
   * page, oldest first.
   */
  datatype BarState = BarState(
    hasWindow: bool, bounds: Rect, isCollapsed: bool, expandedBounds: Option<Rect>,
    barPosition: Option<Point>, notices: seq<bool>)

  /** What holds between handlers: a collapsed bar always remembers its expanded bounds. */
  predicate Consistent(st: BarState) {
    st.isCollapsed ==> st.expandedBounds.Some?
  }

  /** `collapseBar` (main.js:197-226). */
  function CollapseBar(st: BarState, wa: Rect): (r: BarState)
    ensures !st.hasWindow || st.isCollapsed ==> r == st
    ensures st.hasWindow && !st.isCollapsed ==>
      && r == st.(bounds := r.bounds, isCollapsed := true, expandedBounds := Some(st.bounds),
                   notices := st.notices + [true])
      && r.bounds == CollapsedTab(st.bounds, wa)
  {
    if !st.hasWindow || st.isCollapsed then st
    else st.(bounds := CollapsedTab(st.bounds, wa), isCollapsed := true,
             expandedBounds := Some(st.bounds), notices := st.notices + [true])
  }

  /**
   * `expandBar` (main.js:228-246): the expanded bounds come back with the
   * tab's current top edge as their top edge, clamped; that position is
   * stored both as `barPosition` and in `expandedBounds`.
   */
  function ExpandBar(st: BarState, wa: Rect): (r: BarState)
    ensures !st.hasWindow || !st.isCollapsed || st.expandedBounds.None? ==> r == st
    ensures st.hasWindow && st.isCollapsed && st.expandedBounds.Some? ==>
      var eb := st.expandedBounds.value;
      && r == st.(bounds := r.bounds, isCollapsed := false, expandedBounds := Some(r.bounds),
                   barPosition := Some(Point(eb.x, r.bounds.y)), notices := st.notices + [false])
      && r.bounds == eb.(y := r.bounds.y)
      && wa.y <= r.bounds.y
      && (eb.height <= wa.height ==> r.bounds.y + eb.height <= wa.y + wa.height)
      && (wa.y <= st.bounds.y && st.bounds.y + eb.height <= wa.y + wa.height ==> r.bounds.y == st.bounds.y)
  {
    if !st.hasWindow || !st.isCollapsed || st.expandedBounds.None? then st
    else
      var eb := st.expandedBounds.value;
      var newY := Clamp(st.bounds.y, wa.y, wa.y + wa.height - eb.height);
      var b := eb.(y := newY);
      st.(bounds := b, isCollapsed := false, expandedBounds := Some(b),
          barPosition := Some(Point(eb.x, newY)), notices := st.notices + [false])
  }

  /**
   * The position `ExpandBar` stores is where the next start puts the bar: a
   * bar of the start-up size that fits the work area reopens exactly where it
   * was expanded.
   */
  lemma ExpandThenRestart(st: BarState, wa: Rect, services: seq<Service>)
    requires st.hasWindow && st.isCollapsed && st.expandedBounds.Some?
    requires var eb := st.expandedBounds.value;
      eb.width == BarWidth && eb.height == BarHeight(VisibleCount(services), wa.height) &&
      0 <= eb.height && wa.x <= eb.x && eb.x + BarWidth <= wa.x + wa.width
    ensures var r := ExpandBar(st, wa);
      InitialBarBounds(services, r.barPosition, wa) == r.bounds
  {
  }

  /** `toggleCollapse` (main.js:248-254). */
  function ToggleCollapse(st: BarState, wa: Rect): BarState {
    if st.isCollapsed then ExpandBar(st, wa) else CollapseBar(st, wa)
  }

  /** `move-tab-y` (main.js:637-645): only a collapsed tab moves, vertically, within the work area. */
  function MoveTabY(st: BarState, wa: Rect, deltaY: int): (r: BarState)
    ensures !st.hasWindow || !st.isCollapsed ==> r == st
    ensures st.hasWindow && st.isCollapsed ==>
      && r == st.(bounds := st.bounds.(y := r.bounds.y))
      && wa.y <= r.bounds.y
      && (st.bounds.height <= wa.height ==> r.bounds.y + st.bounds.height <= wa.y + wa.height)
      && (wa.y <= st.bounds.y + deltaY && st.bounds.y + deltaY + st.bounds.height <= wa.y + wa.height ==>
            r.bounds.y == st.bounds.y + deltaY)
  {
    if !st.hasWindow || !st.isCollapsed then st
    else st.(bounds := st.bounds.(y := Clamp(st.bounds.y + deltaY, wa.y, wa.y + wa.height - st.bounds.height)))
  }

  /** The main window's `closed` event: the handle is dropped, the collapse state is kept. */
  function WindowClosed(st: BarState): (r: BarState)
    ensures !r.hasWindow && r == st.(hasWindow := false)
  {
    st.(hasWindow := false)
  }

  /** Every handler keeps a collapsed bar's expanded bounds. */
  lemma ConsistentPreserved(st: BarState, wa: Rect, deltaY: int)
    requires Consistent(st)
    ensures Consistent(CollapseBar(st, wa)) && Consistent(ExpandBar(st, wa))
    ensures Consistent(ToggleCollapse(st, wa)) && Consistent(MoveTabY(st, wa, deltaY))
    ensures Consistent(WindowClosed(st))
  {
  }

  /** With the window open, toggling always switches between bar and tab and sends one notice of the new state. */
  lemma ToggleSwitches(st: BarState, wa: Rect)
    requires Consistent(st) && st.hasWindow
    ensures var r := ToggleCollapse(st, wa);
      r.isCollapsed == !st.isCollapsed && r.notices == st.notices + [r.isCollapsed]
  {
  }

  /**
   * Collapsing and then expanding at once brings the bar back with its size
   * and horizontal position, but with the tab's top edge as its top edge:
   * unless the work area's edges intervene, the bar ends up
   * `Math.round((height - 50) / 2)` pixels lower than it was.
   */
  lemma {:induction false} CollapseExpandShift(st: BarState, wa: Rect)
    requires st.hasWindow && !st.isCollapsed
    requires wa.y <= st.bounds.y
    requires TabHeight <= st.bounds.height
    requires st.bounds.y + RoundHalf(st.bounds.height - TabHeight) + st.bounds.height <= wa.y + wa.height
    ensures var r := ExpandBar(CollapseBar(st, wa), wa);
      && r.bounds == st.bounds.(y := st.bounds.y + RoundHalf(st.bounds.height - TabHeight))
      && !r.isCollapsed && r.notices == st.notices + [true, false]
      && r.barPosition == Some(Point(st.bounds.x, r.bounds.y))
  {
    var c := CollapseBar(st, wa);
    var ty := st.bounds.y + RoundHalf(st.bounds.height - TabHeight);
    assert c.bounds.y == ty;
    assert st.notices + [true] + [false] == st.notices + [true, false];
  }

  /** A bar held at the bottom edge comes back exactly where it was. */
  lemma StillAfterCollapseExpand(st: BarState, wa: Rect)
    requires st.hasWindow && !st.isCollapsed
    requires wa.y <= st.bounds.y && st.bounds.y + st.bounds.height == wa.y + wa.height
    requires TabHeight <= st.bounds.height
    ensures ExpandBar(CollapseBar(st, wa), wa).bounds == st.bounds
  {
  }

  /** A quick window's size: the saved size, with a missing or zero width or height read as 500 or 700. */
  function QuickWindowSize(size: Option<Size>): (r: Size)
    ensures r.width == (if size.Some? && size.value.width != 0 then size.value.width else 500)
    ensures r.height == (if size.Some? && size.value.height != 0 then size.value.height else 700)
  {
    var w := if size.Some? && size.value.width != 0 then size.value.width else 500;
    var h := if size.Some? && size.value.height != 0 then size.value.height else 700;
    Size(w, h)
  }

  /**
   * Where a quick or chat window opens (main.js:317-330, 338): 10 px left of
   * the bar, else 10 px right of it when the left side would leave the work
   * area, or centred when there is no bar; then clamped.
   */
  function QuickWindowBounds(size: Option<Size>, bar: Option<Rect>, wa: Rect): (r: Rect)
    ensures r == ClampToWorkArea(wa, r.x, r.y, QuickWindowSize(size).width, QuickWindowSize(size).height)
    ensures var s := QuickWindowSize(size);
      bar.Some? && wa.x <= bar.value.x - s.width - 10 && bar.value.x - 10 <= wa.x + wa.width && wa.y <= bar.value.y
      && bar.value.y + s.height <= wa.y + wa.height ==>
      r.x + s.width + 10 == bar.value.x && r.y == bar.value.y
    ensures var s := QuickWindowSize(size);
      bar.Some? && bar.value.x - s.width - 10 < wa.x && wa.x <= bar.value.x + bar.value.width + 10
      && bar.value.x + bar.value.width + 10 + s.width <= wa.x + wa.width ==>
      r.x == bar.value.x + bar.value.width + 10
    ensures var s := QuickWindowSize(size);
      bar.None? && 0 <= s.width <= wa.width ==> 0 <= 2 * (r.x - wa.x) - (wa.width - s.width) <= 1
  {
    var s := QuickWindowSize(size);
    var origin :=
      if bar.Some? then
        var m := bar.value;
        if m.x - s.width - 10 < wa.x then Point(m.x + m.width + 10, m.y) else Point(m.x - s.width - 10, m.y)
      else Point(wa.x + RoundHalf(wa.width - s.width), wa.y + RoundHalf(wa.height - s.height));
    ClampToWorkAreaIdempotent(wa, origin.x, origin.y, s.width, s.height);
    ClampToWorkArea(wa, origin.x, origin.y, s.width, s.height)
  }

  /**
   * The main window and its collapse state, as main.js keeps them in
   * `mainWindow`, `isCollapsed`, `expandedBounds` and `config.barPosition`.
   * Each handler is proved against the state function above of the same name.
   */
  class BarWindow {
    var hasWindow: bool
    var bounds: Rect
    var isCollapsed: bool
    var expandedBounds: Option<Rect>
    var barPosition: Option<Point>
    ghost var notices: seq<bool>

    ghost function State(): BarState
      reads this
    {
      BarState(hasWindow, bounds, isCollapsed, expandedBounds, barPosition, notices)
    }

    ghost predicate Valid()
      reads this
    {
      Consistent(State())
    }

    /**
     * The bar as `createMainWindow` leaves it (main.js:118-134): open,
     * expanded, at the first bounds for the configured services and saved
     * position.
     */
    constructor (cfg: Config, wa: Rect)
      ensures Valid()
      ensures State() == BarState(true, InitialBarBounds(cfg.services, cfg.barPosition, wa), false, None, cfg.barPosition, [])
    {
      hasWindow, bounds, isCollapsed := true, InitialBarBounds(cfg.services, cfg.barPosition, wa), false;
      expandedBounds, barPosition := None, cfg.barPosition;
      notices := [];
    }

    method Collapse(wa: Rect)
      modifies this
      ensures State() == CollapseBar(old(State()), wa)
      ensures old(Valid()) ==> Valid()
    {
      if !hasWindow || isCollapsed {
        return;
      }
      expandedBounds := Some(bounds);
      var tabX := if 2 * bounds.x + bounds.width > 2 * wa.x + wa.width then wa.x + wa.width - TabWidth else wa.x;
      var tabY := bounds.y + RoundHalf(bounds.height - TabHeight);
      tabY := Max(wa.y, Min(tabY, wa.y + wa.height - TabHeight));
      isCollapsed := true;
      bounds := Rect(tabX, tabY, TabWidth, TabHeight);
      notices := notices + [true];
    }

    method Expand(wa: Rect)
      modifies this
      ensures State() == ExpandBar(old(State()), wa)
      ensures old(Valid()) ==> Valid()
    {
      if !hasWindow || !isCollapsed || expandedBounds.None? {
        return;
      }
      var tab := bounds;
      var eb := expandedBounds.value;
      var newY := tab.y;
      newY := Max(wa.y, Min(newY, wa.y + wa.height - eb.height));
      isCollapsed := false;
      bounds := eb.(y := newY);
      barPosition := Some(Point(eb.x, newY));
      expandedBounds := Some(eb.(y := newY));
      notices := notices + [false];
    }

    method Toggle(wa: Rect)
      modifies this
      ensures State() == ToggleCollapse(old(State()), wa)
      ensures old(Valid()) ==> Valid()
    {
      if isCollapsed {
        Expand(wa);
      } else {
        Collapse(wa);
      }
    }

    method MoveTab(wa: Rect, deltaY: int)
      modifies this
      ensures State() == MoveTabY(old(State()), wa, deltaY)
      ensures old(Valid()) ==> Valid()
    {
      if !hasWindow || !isCollapsed {
        return;
      }
      var newY := bounds.y + deltaY;
      newY := Max(wa.y, Min(newY, wa.y + wa.height - bounds.height));
      bounds := bounds.(y := newY);
    }

    method Closed()
      modifies this
      ensures State() == WindowClosed(old(State()))
      ensures old(Valid()) ==> Valid()
    {
      hasWindow := false;
    }
  }
}
