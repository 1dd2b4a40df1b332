/** The overlay coordinator `Popper`: a `visible` flag driven by `show`, `hide`,
    `toggle` and the controlled `visible` prop, the middleware list handed to the
    geometry engine, the arrow's static side and the trigger event tables. */
module Popper {
  import opened Common

  datatype Trigger = Hover | Click | ContextMenu

  /** The DOM events the popper listens for. */
  datatype DomEvent = MouseEnter | ClickEvent | ContextMenuEvent | Focus

  datatype Side = Top | Right | Bottom | Left
  datatype Alignment = Centered | Start | End

  /** A floating-ui placement such as `bottom` or `top-start`. */
  datatype Placement = Placement(side: Side, alignment: Alignment)

  /** The `autoPlacement` prop: absent or `false`, `true`, or a list of allowed
      placements (an empty list is still truthy). */
  datatype AutoPlacementOption = NoAutoPlacement | AnyPlacement | AllowedPlacements(placements: seq<Placement>)

  /** One positioning middleware; `AutoPlace(None)` is `autoPlacement` without an
      allowed-placement list. */
  datatype Middleware = Shift | Arrow | Offset(distance: int) | AutoPlace(allowed: Option<seq<Placement>>)

  datatype PopperProps = PopperProps(
    trigger: Trigger,
    placement: Placement,
    autoPlacement: AutoPlacementOption,
    disabled: bool,
    offset: int,
    arrow: bool,
    hideAfter: int,
    visible: Option<bool>)

  /** The props as a caller writes them; `None` fields take the defaults. */
  datatype PopperOptions = PopperOptions(
    trigger: Option<Trigger>,
    placement: Option<Placement>,
    autoPlacement: AutoPlacementOption,
    disabled: bool,
    offset: Option<int>,
    arrow: Option<bool>,
    hideAfter: Option<int>,
    visible: Option<bool>)

  /** The `onShow` and `onHide` callback invocations, in order. */
  datatype PopperCall = OnShow | OnHide

  datatype PopperState = PopperState(visible: bool, calls: seq<PopperCall>)

  /** `mergeProps(defaultProps, props)`: trigger `hover`, placement `bottom`,
      hideAfter 200, offset 6 and an arrow unless the caller says otherwise. */
  function WithDefaults(o: PopperOptions): (p: PopperProps)
    ensures p.trigger == (if o.trigger.Some? then o.trigger.value else Hover)
    ensures p.placement == (if o.placement.Some? then o.placement.value else Placement(Bottom, Centered))
    ensures p.hideAfter == (if o.hideAfter.Some? then o.hideAfter.value else 200)
    ensures p.offset == (if o.offset.Some? then o.offset.value else 6)
    ensures p.arrow == (if o.arrow.Some? then o.arrow.value else true)
    ensures p.autoPlacement == o.autoPlacement && p.disabled == o.disabled && p.visible == o.visible
  {
    PopperProps(o.trigger.GetOr(Hover), o.placement.GetOr(Placement(Bottom, Centered)),
                o.autoPlacement, o.disabled, o.offset.GetOr(6), o.arrow.GetOr(true),
                o.hideAfter.GetOr(200), o.visible)
  }

  // ---------------------------------------------------------------------------
  // The trigger event tables

  /** `showEventMap`: the event on the trigger element that opens the popper. */
  function ShowEvent(t: Trigger): (e: DomEvent)
    ensures t == Hover <==> e == MouseEnter
    ensures t == Click <==> e == ClickEvent
    ensures t == ContextMenu <==> e == ContextMenuEvent
    ensures e != Focus
  {
    match t
    case Hover => MouseEnter
    case Click => ClickEvent
    case ContextMenu => ContextMenuEvent
  }

  /** `hideEventMap`: the events outside the content that dismiss it. */
  function HideEvents(t: Trigger): (es: seq<DomEvent>)
    ensures ClickEvent in es && Focus in es
    ensures MouseEnter in es <==> t == Hover
    ensures ContextMenuEvent !in es
  {
    match t
    case Hover => [MouseEnter, ClickEvent, Focus]
    case Click => [ClickEvent, Focus]
    case ContextMenu => [ClickEvent, Focus]
  }

  // ---------------------------------------------------------------------------
  // The middleware list

  /** The position of each kind of middleware in the list. */
  function Rank(m: Middleware): nat {
    match m
    case Shift => 0
    case Arrow => 1
    case Offset(_) => 2
    case AutoPlace(_) => 3
  }

  /** The ranks strictly increase along the list: each kind at most once, in order. */
  predicate RanksIncrease(ms: seq<Middleware>) {
    forall i :: 0 < i < |ms| ==> Rank(ms[i - 1]) < Rank(ms[i])
  }

  /** The middleware array built before `computePosition`: `shift`, then each
      optional middleware pushed in turn when its prop asks for it. */
  function BuildMiddleware(arrow: bool, offset: int, auto: AutoPlacementOption): (r: seq<Middleware>)
    ensures 1 <= |r| <= 4 && r[0] == Shift
    ensures |r| == 1 + (if arrow then 1 else 0) + (if offset != 0 then 1 else 0) +
                   (if auto.NoAutoPlacement? then 0 else 1)
  {
    var withShift := [Shift];
    var withArrow := if arrow then withShift + [Arrow] else withShift;
    var withOffset := if offset != 0 then withArrow + [Offset(offset)] else withArrow;
    match auto
    case NoAutoPlacement => withOffset
    case AnyPlacement => withOffset + [AutoPlace(None)]
    case AllowedPlacements(ps) => withOffset + [AutoPlace(Some(ps))]
  }

  /** The list starts with `shift` and lists each kind at most once, in the order
      shift, arrow, offset, autoPlacement. */
  lemma MiddlewareOrder(arrow: bool, offset: int, auto: AutoPlacementOption)
    ensures var r := BuildMiddleware(arrow, offset, auto);
      |r| >= 1 && r[0] == Shift && RanksIncrease(r) &&
      forall k :: 0 < k < |r| ==> r[k] != Shift
  {
    ShiftOnlyFirst(BuildMiddleware(arrow, offset, auto));
  }

  /** `arrow` is present iff enabled, `offset` iff the distance is non-zero, and
      then with that distance. */
  lemma MiddlewareArrowAndOffset(arrow: bool, offset: int, auto: AutoPlacementOption)
    ensures var r := BuildMiddleware(arrow, offset, auto);
      && (Arrow in r <==> arrow)
      && (Offset(offset) in r <==> offset != 0)
      && (forall k :: 0 <= k < |r| && r[k].Offset? ==> r[k].distance == offset)
  {
  }

  /** `autoPlacement` is present iff the prop is truthy; `true` gives no
      allowed-placement list, a list is passed on as it is. */
  lemma MiddlewareAutoPlacement(arrow: bool, offset: int, auto: AutoPlacementOption)
    ensures var r := BuildMiddleware(arrow, offset, auto);
      && ((forall k :: 0 <= k < |r| ==> !r[k].AutoPlace?) <==> auto.NoAutoPlacement?)
      && (forall k :: 0 <= k < |r| && r[k].AutoPlace? ==>
            (r[k].allowed.None? <==> auto.AnyPlacement?) &&
            (auto.AllowedPlacements? ==> r[k].allowed == Some(auto.placements)))
  {
    var r := BuildMiddleware(arrow, offset, auto);
    assert !auto.NoAutoPlacement? ==> r[|r| - 1].AutoPlace?;
  }

  /** Ranks that increase forbid a second `Shift` after the first. */
  lemma ShiftOnlyFirst(ms: seq<Middleware>)
    requires RanksIncrease(ms) && |ms| >= 1 && ms[0] == Shift
    ensures forall k :: 0 < k < |ms| ==> ms[k] != Shift
  {
    assert forall k :: 0 < k < |ms| ==> Rank(ms[k]) >= k by {
      forall k | 0 < k < |ms| ensures Rank(ms[k]) >= k {
        RankAtLeastIndex(ms, k);
      }
    }
  }

  lemma {:induction false} RankAtLeastIndex(ms: seq<Middleware>, k: nat)
    requires RanksIncrease(ms) && k < |ms|
    ensures Rank(ms[k]) >= k
  {
    if k > 0 {
      RankAtLeastIndex(ms, k - 1);
    }
  }

  // ---------------------------------------------------------------------------
  // The arrow's static side

  function SideName(s: Side): string {
    match s
    case Top => "top"
    case Right => "right"
    case Bottom => "bottom"
    case Left => "left"
  }

  /** The placement string floating-ui reports, e.g. `top-start`. */
  function PlacementName(p: Placement): string {
    SideName(p.side) + match p.alignment
      case Centered => ""
      case Start => "-start"
      case End => "-end"
  }

  function Opposite(s: Side): Side {
    match s
    case Top => Bottom
    case Right => Left
    case Bottom => Top
    case Left => Right
  }

  /** `name.split('-')[0]`: the text before the first dash. */
  function BaseSide(name: string): (r: string)
    ensures r <= name && '-' !in r
    ensures |r| < |name| ==> name[|r|] == '-'
  {
    if |name| == 0 || name[0] == '-' then ""
    else [name[0]] + BaseSide(name[1..])
  }

  /** The lookup `{top: 'bottom', right: 'left', bottom: 'top', left: 'right'}[base]`;
      `None` is the `undefined` a foreign string yields. */
  function StaticSide(placementName: string): (r: Option<Side>)
    ensures r.Some? <==> BaseSide(placementName) in ["top", "right", "bottom", "left"]
    ensures r.Some? ==> SideName(Opposite(r.value)) == BaseSide(placementName)
  {
    var base := BaseSide(placementName);
    if base == "top" then Some(Bottom)
    else if base == "right" then Some(Left)
    else if base == "bottom" then Some(Top)
    else if base == "left" then Some(Right)
    else None
  }

  /** Splitting a dash-free head followed by a dash (or nothing) gives the head back. */
  lemma {:induction false} BaseSideOfHead(head: string, rest: string)
    requires '-' !in head
    requires rest == [] || rest[0] == '-'
    ensures BaseSide(head + rest) == head
  {
    if head == [] {
      assert head + rest == rest;
    } else {
      assert (head + rest)[1..] == head[1..] + rest;
      BaseSideOfHead(head[1..], rest);
    }
  }

  /** For every placement the arrow sits on the side opposite the base side. */
  lemma StaticSideIsOpposite(p: Placement)
    ensures StaticSide(PlacementName(p)) == Some(Opposite(p.side))
  {
    var suffix := match p.alignment
      case Centered => ""
      case Start => "-start"
      case End => "-end";
    assert PlacementName(p) == SideName(p.side) + suffix;
    BaseSideOfHead(SideName(p.side), suffix);
  }

  // ---------------------------------------------------------------------------
  // Visibility

  /** The state after construction: `visible` starts false and the
      (non-deferred) controlled-prop effect immediately sets it to `!!props.visible`. */
  function Initial(p: PopperProps): (s: PopperState)
    ensures s.visible <==> p.visible == Some(true)
    ensures s.calls == []
  {
    PopperState(p.visible == Some(true), [])
  }

  /** `show()`: nothing when disabled, else visible and `onShow` called. */
  function AfterShow(p: PopperProps, s: PopperState): (r: PopperState)
    ensures p.disabled ==> r == s
    ensures !p.disabled ==> r.visible && r.calls == s.calls + [OnShow]
  {
    if p.disabled then s else PopperState(true, s.calls + [OnShow])
  }

  /** `hide()`: hidden and `onHide` called, whether or not disabled. */
  function AfterHide(p: PopperProps, s: PopperState): (r: PopperState)
    ensures !r.visible && r.calls == s.calls + [OnHide]
  {
    PopperState(false, s.calls + [OnHide])
  }

  /** `toggle()`: `hide()` when visible, `show()` otherwise. */
  function AfterToggle(p: PopperProps, s: PopperState): (r: PopperState)
    ensures s.visible ==> r == AfterHide(p, s)
    ensures !s.visible ==> r == AfterShow(p, s)
  {
    if s.visible then AfterHide(p, s) else AfterShow(p, s)
  }

  /** The controlled-prop effect `on(() => props.visible, val => setVisible(!!val))`:
      it reacts to a change of the prop only, bypasses `disabled` and calls no callback. */
  function AfterVisibleProp(previous: Option<bool>, next: Option<bool>, s: PopperState): (r: PopperState)
    ensures previous == next ==> r == s
    ensures previous != next ==> r.visible == (next == Some(true)) && r.calls == s.calls
  {
    if previous == next then s else s.(visible := next == Some(true))
  }

  /** The content is rendered only when `!props.disabled && visible()`. */
  predicate ContentRendered(p: PopperProps, s: PopperState) {
    !p.disabled && s.visible
  }

  /** The imperative handle's operations, for traces. */
  datatype PopperOp = ShowOp | HideOp | ToggleOp

  function Apply(p: PopperProps, s: PopperState, op: PopperOp): PopperState {
    match op
    case ShowOp => AfterShow(p, s)
    case HideOp => AfterHide(p, s)
    case ToggleOp => AfterToggle(p, s)
  }

  function Run(p: PopperProps, s: PopperState, ops: seq<PopperOp>): PopperState
    decreases |ops|
  {
    if ops == [] then s else Run(p, Apply(p, s, ops[0]), ops[1..])
  }

  /** On an enabled popper a second `show()` leaves the state's visibility as the
      first one left it, but calls `onShow` again. */
  lemma ShowTwice(p: PopperProps, s: PopperState)
    requires !p.disabled
    ensures AfterShow(p, AfterShow(p, s)).visible == AfterShow(p, s).visible
    ensures AfterShow(p, AfterShow(p, s)).calls == s.calls + [OnShow, OnShow]
  {
  }

  /** `show()` followed by `hide()` in one tick ends hidden. */
  lemma ShowThenHideIsHidden(p: PopperProps, s: PopperState)
    ensures !AfterHide(p, AfterShow(p, s)).visible
    ensures !ContentRendered(p, AfterHide(p, AfterShow(p, s)))
  {
  }

  /** Toggling a hidden disabled popper leaves it hidden and calls nothing. */
  lemma ToggleHiddenDisabled(p: PopperProps, s: PopperState)
    requires p.disabled && !s.visible
    ensures AfterToggle(p, s) == s
  {
  }

  /** On an enabled popper, toggling twice restores the visibility. */
  lemma ToggleTwiceRestores(p: PopperProps, s: PopperState)
    requires !p.disabled
    ensures AfterToggle(p, AfterToggle(p, s)).visible == s.visible
  {
  }

  /** A disabled popper that starts hidden stays hidden under any sequence of
      `show`, `hide` and `toggle`, and `onShow` is never called. */
  lemma {:induction false} DisabledStaysHidden(p: PopperProps, s: PopperState, ops: seq<PopperOp>)
    requires p.disabled && !s.visible
    ensures !Run(p, s, ops).visible
    ensures |Run(p, s, ops).calls| >= |s.calls| && Run(p, s, ops).calls[..|s.calls|] == s.calls
    ensures forall k :: |s.calls| <= k < |Run(p, s, ops).calls| ==> Run(p, s, ops).calls[k] == OnHide
    decreases |ops|
  {
    if ops != [] {
      var next := Apply(p, s, ops[0]);
      assert !next.visible;
      assert next.calls == s.calls || next.calls == s.calls + [OnHide];
      DisabledStaysHidden(p, next, ops[1..]);
      var final := Run(p, next, ops[1..]);
      assert final == Run(p, s, ops);
      assert final.calls[..|s.calls|] == next.calls[..|next.calls|][..|s.calls|];
    }
  }

  /** A popper instance: the `visible` signal, the props it was given and the
      callbacks it has made. */
  class Popper {
    var props: PopperProps
    var visible: bool
    var calls: seq<PopperCall>

    function State(): PopperState
      reads this
    {
      PopperState(visible, calls)
    }

    constructor (props: PopperProps)
      ensures this.props == props && State() == Initial(props)
    {
      this.props := props;
      visible := props.visible == Some(true);
      calls := [];
    }

    method Show()
      modifies this`visible, this`calls
      ensures State() == AfterShow(props, old(State()))
    {
      if !props.disabled {
        visible := true;
        calls := calls + [OnShow];
      }
    }

    method Hide()
      modifies this`visible, this`calls
      ensures State() == AfterHide(props, old(State()))
    {
      visible := false;
      calls := calls + [OnHide];
    }

    method Toggle()
      modifies this`visible, this`calls
      ensures State() == AfterToggle(props, old(State()))
    {
      if visible {
        Hide();
      } else {
        Show();
      }
    }

    /** The parent passes a new value for the controlled `visible` prop. */
    method SetVisibleProp(v: Option<bool>)
      modifies this
      ensures props == old(props).(visible := v)
      ensures State() == AfterVisibleProp(old(props).visible, v, old(State()))
    {
      if props.visible != v {
        visible := v == Some(true);
      }
      props := props.(visible := v);
    }

    function ContentShown(): bool
      reads this
    {
      ContentRendered(props, State())
    }
  }
}
