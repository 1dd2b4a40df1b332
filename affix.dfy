/** The `Affix` pin computation. The `update` effect decides, from the
    measured rectangles of the root and the target and from the window height,
    whether the content is pinned (`fixed`) and how far it is shifted
    (`transform`); the two style records follow from those signals. */
module Affix {
  import opened Common

  datatype Position = Top | Bottom

  datatype AffixProps = AffixProps(zIndex: int, target: Option<string>, offset: int, position: Position)

  /** The props as a caller writes them; `None` fields take the defaults. */
  datatype AffixOptions = AffixOptions(zIndex: Option<int>, target: Option<string>, offset: Option<int>,
                                       position: Option<Position>)

  /** A bounding rectangle (integer pixels). */
  datatype Rect = Rect(top: int, bottom: int, width: int, height: int)

  /** The scroll container `getScrollContainer` found for the root. */
  datatype Container = WindowContainer | ElementContainer

  /** An element `document.body.querySelector` can return, or the document element. */
  datatype Element = Found(id: nat) | DocumentElement

  /** Everything `update` reads besides its own signals. */
  datatype Measurements = Measurements(root: Rect, target: Rect, windowHeight: int,
                                       documentScrollTop: int, containerScrollTop: int)

  datatype AffixState = AffixState(target: Option<Element>, container: Option<Container>,
                                   fixed: bool, scrollTop: int, transform: int)

  /** A CSS length as the style records write it: `''`, `0` or `Npx`. */
  datatype Length = Unset | Zero | Px(n: int)

  datatype RootStyle = RootStyle(height: int, width: int)

  datatype AffixStyle = AffixStyle(height: int, width: int, top: Length, bottom: Length, translateY: Option<int>)

  /** `mergeProps(defaultProps, props)`: zIndex 100, offset 0, position top. */
  function WithDefaults(o: AffixOptions): (p: AffixProps)
    ensures p.zIndex == (if o.zIndex.Some? then o.zIndex.value else 100)
    ensures p.offset == (if o.offset.Some? then o.offset.value else 0)
    ensures p.position == (if o.position.Some? then o.position.value else Top)
    ensures p.target == o.target
  {
    AffixProps(o.zIndex.GetOr(100), o.target, o.offset.GetOr(0), o.position.GetOr(Top))
  }

  /** `props.target` is truthy. */
  predicate HasTarget(p: AffixProps) {
    p.target.Some? && p.target.value != ""
  }

  /** Nothing resolved, nothing pinned, no shift. */
  function Initial(): (s: AffixState)
    ensures s.target.None? && s.container.None? && !s.fixed && s.scrollTop == 0 && s.transform == 0
  {
    AffixState(None, None, false, 0, 0)
  }

  /** The element `onMount` selects: the match for a truthy `target`, else the
      document element; a selector with no match is an error. `query` is what
      `document.body.querySelector` finds for each selector. */
  function ResolveTarget(p: AffixProps, query: map<string, nat>): (r: Result<Element>)
    ensures !HasTarget(p) ==> r == Ok(DocumentElement)
    ensures HasTarget(p) && p.target.value in query ==> r == Ok(Found(query[p.target.value]))
    ensures HasTarget(p) && p.target.value !in query ==>
              r == Err(Thrown("Affix", "Target is not existed: " + p.target.value))
  {
    if !HasTarget(p) then Ok(DocumentElement)
    else if p.target.value in query then Ok(Found(query[p.target.value]))
    else Err(Thrown("Affix", "Target is not existed: " + p.target.value))
  }

  /** `onMount`: set the target, then the scroll container. When the selector
      has no match the error leaves both unset. */
  function AfterMount(p: AffixProps, s: AffixState, query: map<string, nat>, c: Container): (r: AffixState)
    ensures ResolveTarget(p, query).Ok? ==> r == s.(target := Some(ResolveTarget(p, query).value), container := Some(c))
    ensures ResolveTarget(p, query).Err? ==> r == s
  {
    match ResolveTarget(p, query)
    case Ok(el) => s.(target := Some(el), container := Some(c))
    case Err(_) => s
  }

  /** `scrollContainer() instanceof Window ? document scrollTop : element scrollTop || 0` */
  function ScrollTopOf(c: Container, m: Measurements): (t: int)
    ensures c == WindowContainer ==> t == m.documentScrollTop
    ensures c == ElementContainer ==> t == m.containerScrollTop
  {
    if c == WindowContainer then m.documentScrollTop else m.containerScrollTop
  }

  /** `update` as the source writes it. For position top with a target it sets
      only `transform`, never `fixed`. */
  function AfterUpdateAsWritten(p: AffixProps, s: AffixState, m: Measurements): (r: AffixState)
    ensures s.container.None? ==> r == s
    ensures s.container.Some? ==> r.scrollTop == ScrollTopOf(s.container.value, m)
    ensures r.target == s.target && r.container == s.container
    ensures s.container.Some? && p.position == Top && HasTarget(p) ==> r.fixed == s.fixed
  {
    if s.container.None? then s
    else
      var s1 := s.(scrollTop := ScrollTopOf(s.container.value, m));
      if p.position == Top && HasTarget(p) then
        var d := m.target.bottom - p.offset - m.root.height;
        s1.(transform := if d < 0 then d else 0)
      else UpdateOtherBranches(p, s1, m)
  }

  /** The three branches of `update` the correction leaves alone. */
  function UpdateOtherBranches(p: AffixProps, s: AffixState, m: Measurements): (r: AffixState)
    requires !(p.position == Top && HasTarget(p))
    ensures r.target == s.target && r.container == s.container && r.scrollTop == s.scrollTop
    ensures p.position == Top ==> r == s.(fixed := p.offset > m.root.top)
    ensures p.position == Bottom && HasTarget(p) ==>
              r.fixed == (m.windowHeight - p.offset < m.root.bottom && m.windowHeight > m.target.top)
    ensures p.position == Bottom && !HasTarget(p) ==>
              r == s.(fixed := m.windowHeight - p.offset < m.root.bottom)
  {
    if p.position == Top then s.(fixed := p.offset > m.root.top)
    else if HasTarget(p) then
      var d := m.windowHeight - m.target.top - p.offset - m.root.height;
      s.(fixed := m.windowHeight - p.offset < m.root.bottom && m.windowHeight > m.target.top,
         transform := if d < 0 then -d else 0)
    else s.(fixed := m.windowHeight - p.offset < m.root.bottom)
  }

  /** `update` with the position-top-with-target branch also deciding `fixed`:
      pinned once the root's top passes the offset while the target's bottom
      is still below the top of the viewport. */
  function AfterUpdate(p: AffixProps, s: AffixState, m: Measurements): (r: AffixState)
    ensures s.container.None? ==> r == s
    ensures s.container.Some? ==> r.scrollTop == ScrollTopOf(s.container.value, m)
    ensures r.target == s.target && r.container == s.container
    ensures s.container.Some? && p.position == Top && HasTarget(p) ==>
              r.fixed == (p.offset > m.root.top && m.target.bottom > 0)
  {
    if s.container.None? then s
    else
      var s1 := s.(scrollTop := ScrollTopOf(s.container.value, m));
      if p.position == Top && HasTarget(p) then
        var d := m.target.bottom - p.offset - m.root.height;
        s1.(fixed := p.offset > m.root.top && m.target.bottom > 0, transform := if d < 0 then d else 0)
      else UpdateOtherBranches(p, s1, m)
  }

  /** The two definitions differ only in `fixed` on the position-top-with-target branch. */
  lemma UpdateCorrectionIsLocal(p: AffixProps, s: AffixState, m: Measurements)
    ensures AfterUpdate(p, s, m).(fixed := AfterUpdateAsWritten(p, s, m).fixed) == AfterUpdateAsWritten(p, s, m)
    ensures !(p.position == Top && HasTarget(p)) ==> AfterUpdate(p, s, m) == AfterUpdateAsWritten(p, s, m)
  {
  }

  /** Position top with a target: the shift is the overlap of the root with the
      bottom of the target, never positive. */
  lemma TopTargetShift(p: AffixProps, s: AffixState, m: Measurements)
    requires s.container.Some? && p.position == Top && HasTarget(p)
    ensures var d := m.target.bottom - p.offset - m.root.height;
            AfterUpdate(p, s, m).transform == (if d < 0 then d else 0) &&
            AfterUpdateAsWritten(p, s, m).transform == AfterUpdate(p, s, m).transform
    ensures AfterUpdate(p, s, m).transform <= 0
  {
  }

  /** Position bottom with a target: pinned iff the root's bottom is below the
      offset line and the target's top is above the window's bottom; the shift
      is never negative. */
  lemma BottomTargetPinAndShift(p: AffixProps, s: AffixState, m: Measurements)
    requires s.container.Some? && p.position == Bottom && HasTarget(p)
    ensures var r := AfterUpdate(p, s, m);
            var d := m.windowHeight - m.target.top - p.offset - m.root.height;
            (r.fixed <==> m.windowHeight - p.offset < m.root.bottom && m.windowHeight > m.target.top) &&
            r.transform == (if d < 0 then -d else 0) && r.transform >= 0
  {
  }

  /** Without a target: pinned iff the root crossed the offset line; the shift is kept. */
  lemma NoTargetPin(p: AffixProps, s: AffixState, m: Measurements)
    requires s.container.Some? && !HasTarget(p)
    ensures var r := AfterUpdate(p, s, m);
            r.transform == s.transform &&
            (p.position == Top ==> (r.fixed <==> p.offset > m.root.top)) &&
            (p.position == Bottom ==> (r.fixed <==> m.windowHeight - p.offset < m.root.bottom))
  {
  }

  /** `rootStyle()`: empty unless pinned and the root has a size. */
  function RootStyleOf(fixed: bool, root: Rect): (r: Option<RootStyle>)
    ensures r.None? <==> !fixed || (root.width == 0 && root.height == 0)
    ensures r.Some? ==> r.value == RootStyle(root.height, root.width)
  {
    if !fixed || (root.width == 0 && root.height == 0) then None
    else Some(RootStyle(root.height, root.width))
  }

  /** `affixStyle()`: the same emptiness rule; the offset goes to `top` or to
      `bottom` by position; the shift is written only when non-zero. */
  function AffixStyleOf(p: AffixProps, fixed: bool, transform: int, root: Rect): (r: Option<AffixStyle>)
    ensures r.None? <==> !fixed || (root.width == 0 && root.height == 0)
    ensures r.Some? ==> r.value.height == root.height && r.value.width == root.width
    ensures r.Some? ==> (r.value.translateY.Some? <==> transform != 0)
    ensures r.Some? && r.value.translateY.Some? ==> r.value.translateY.value == transform
  {
    if !fixed || (root.width == 0 && root.height == 0) then None
    else
      var offset := if p.offset != 0 then Px(p.offset) else Zero;
      Some(AffixStyle(root.height, root.width,
                      if p.position == Top then offset else Unset,
                      if p.position == Bottom then offset else Unset,
                      if transform != 0 then Some(transform) else None))
  }

  /** Exactly one of `top` and `bottom` is set, the one the position names. */
  lemma AffixStyleSide(p: AffixProps, fixed: bool, transform: int, root: Rect)
    requires AffixStyleOf(p, fixed, transform, root).Some?
    ensures var st := AffixStyleOf(p, fixed, transform, root).value;
            (p.position == Top ==> st.bottom == Unset && st.top != Unset) &&
            (p.position == Bottom ==> st.top == Unset && st.bottom != Unset) &&
            (st.top == Px(p.offset) || st.bottom == Px(p.offset) <==> p.offset != 0) &&
            (p.offset == 0 ==> (p.position == Top ==> st.top == Zero) && (p.position == Bottom ==> st.bottom == Zero)) &&
            (p.offset != 0 ==> (p.position == Top ==> st.top == Px(p.offset)) &&
                               (p.position == Bottom ==> st.bottom == Px(p.offset)))
  {
  }

  function RunAsWritten(p: AffixProps, s: AffixState, ms: seq<Measurements>): AffixState
    decreases |ms|
  {
    if |ms| == 0 then s else RunAsWritten(p, AfterUpdateAsWritten(p, s, ms[0]), ms[1..])
  }

  function Run(p: AffixProps, s: AffixState, ms: seq<Measurements>): AffixState
    decreases |ms|
  {
    if |ms| == 0 then s else Run(p, AfterUpdate(p, s, ms[0]), ms[1..])
  }

  /** As written, an affix at the top with a target never pins, whatever is
      measured: its style records stay empty, so the shift it computes is
      never shown. */
  lemma {:induction false} TopTargetNeverPinsAsWritten(p: AffixProps, s: AffixState, ms: seq<Measurements>)
    requires p.position == Top && HasTarget(p) && !s.fixed
    ensures !RunAsWritten(p, s, ms).fixed
    ensures forall root: Rect :: AffixStyleOf(p, RunAsWritten(p, s, ms).fixed, RunAsWritten(p, s, ms).transform, root).None?
    decreases |ms|
  {
    if |ms| != 0 {
      TopTargetNeverPinsAsWritten(p, AfterUpdateAsWritten(p, s, ms[0]), ms[1..]);
    }
  }

  /** With the correction, scrolling a sized root past the offset while the
      target is in view pins it and produces a style. */
  lemma TopTargetPins(p: AffixProps, s: AffixState, m: Measurements)
    requires s.container.Some? && p.position == Top && HasTarget(p)
    requires p.offset > m.root.top && m.target.bottom > 0 && m.root.height > 0
    ensures AfterUpdate(p, s, m).fixed
    ensures AffixStyleOf(p, AfterUpdate(p, s, m).fixed, AfterUpdate(p, s, m).transform, m.root).Some?
  {
  }

  /** A mount that threw leaves no scroll container, so every later update is a no-op. */
  lemma {:induction false} FailedMountFreezes(p: AffixProps, query: map<string, nat>, c: Container,
                                             ms: seq<Measurements>)
    requires ResolveTarget(p, query).Err?
    ensures Run(p, AfterMount(p, Initial(), query, c), ms) == Initial()
    ensures RunAsWritten(p, AfterMount(p, Initial(), query, c), ms) == Initial()
  {
    FrozenWithoutContainer(p, Initial(), ms);
  }

  lemma {:induction false} FrozenWithoutContainer(p: AffixProps, s: AffixState, ms: seq<Measurements>)
    requires s.container.None?
    ensures Run(p, s, ms) == s && RunAsWritten(p, s, ms) == s
    decreases |ms|
  {
    if |ms| != 0 {
      assert AfterUpdate(p, s, ms[0]) == s == AfterUpdateAsWritten(p, s, ms[0]);
      FrozenWithoutContainer(p, s, ms[1..]);
    }
  }

  /** An affix instance: its props and the signals `update` writes. */
  class Affix {
    const props: AffixProps
    var target: Option<Element>
    var container: Option<Container>
    var fixed: bool
    var scrollTop: int
    var transform: int

    function State(): AffixState
      reads this
    {
      AffixState(target, container, fixed, scrollTop, transform)
    }

    constructor (props: AffixProps)
      ensures this.props == props && State() == Initial()
    {
      this.props := props;
      target, container := None, None;
      fixed, scrollTop, transform := false, 0, 0;
    }

    /** `onMount`; `c` is what `getScrollContainer` returns for the root. */
    method Mount(query: map<string, nat>, c: Container) returns (outcome: Outcome)
      modifies this`target, this`container
      ensures State() == AfterMount(props, old(State()), query, c)
      ensures outcome.Threw? <==> ResolveTarget(props, query).Err?
      ensures outcome.Threw? ==> outcome.error == ResolveTarget(props, query).error
    {
      if props.target.Some? && props.target.value != "" {
        var selector := props.target.value;
        if selector !in query {
          return Threw(Thrown("Affix", "Target is not existed: " + selector));
        }
        target := Some(Found(query[selector]));
      } else {
        target := Some(DocumentElement);
      }
      container := Some(c);
      outcome := Completed;
    }

    /** `update` as the source writes it: the position-top-with-target branch
        only shifts. */
    method Update(m: Measurements)
      modifies this`fixed, this`scrollTop, this`transform
      ensures State() == AfterUpdateAsWritten(props, old(State()), m)
    {
      if container.None? {
        return;
      }
      scrollTop := if container.value == WindowContainer then m.documentScrollTop else m.containerScrollTop;
      if props.position == Top {
        if props.target.Some? && props.target.value != "" {
          var difference := m.target.bottom - props.offset - m.root.height;
          transform := if difference < 0 then difference else 0;
        } else {
          fixed := props.offset > m.root.top;
        }
      } else if props.target.Some? && props.target.value != "" {
        var difference := m.windowHeight - m.target.top - props.offset - m.root.height;
        fixed := m.windowHeight - props.offset < m.root.bottom && m.windowHeight > m.target.top;
        transform := if difference < 0 then -difference else 0;
      } else {
        fixed := m.windowHeight - props.offset < m.root.bottom;
      }
    }

    function CurrentRootStyle(root: Rect): Option<RootStyle>
      reads this
    {
      RootStyleOf(fixed, root)
    }

    function CurrentAffixStyle(root: Rect): Option<AffixStyle>
      reads this
    {
      AffixStyleOf(props, fixed, transform, root)
    }
  }
}
