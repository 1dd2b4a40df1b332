/** `Backtop`: the button appears once the watched element has scrolled at
    least `visibilityHeight`, and a click asks that element to scroll to the
    top. The element is the document element, or the match of `target`. */
module Backtop {
  import opened Common

  datatype BacktopProps = BacktopProps(visibilityHeight: int, target: Option<string>, right: int, bottom: int)

  /** The props as a caller writes them; `None` fields take the defaults. */
  datatype BacktopOptions = BacktopOptions(visibilityHeight: Option<int>, target: Option<string>,
                                           right: Option<int>, bottom: Option<int>)

  datatype Element = DocumentElement | Found(id: nat)

  /** `el` is the watched element (`null` after a selector that matched
      nothing); `listening` says the scroll listener has been attached. */
  datatype BacktopState = BacktopState(visible: bool, el: Option<Element>, listening: bool)

  /** `el.scrollTo({ top: 0, behavior: 'smooth' })` */
  datatype ScrollRequest = ScrollRequest(el: Element, top: int, smooth: bool)

  /** `mergeProps(defaultProps, props)`: visibilityHeight 200, right 40, bottom 40. */
  function WithDefaults(o: BacktopOptions): (p: BacktopProps)
    ensures p.visibilityHeight == (if o.visibilityHeight.Some? then o.visibilityHeight.value else 200)
    ensures p.right == (if o.right.Some? then o.right.value else 40)
    ensures p.bottom == (if o.bottom.Some? then o.bottom.value else 40)
    ensures p.target == o.target
  {
    BacktopProps(o.visibilityHeight.GetOr(200), o.target, o.right.GetOr(40), o.bottom.GetOr(40))
  }

  predicate HasTarget(p: BacktopProps) {
    p.target.Some? && p.target.value != ""
  }

  /** Hidden, watching the document element, not yet listening. */
  function Initial(): (s: BacktopState)
    ensures !s.visible && s.el == Some(DocumentElement) && !s.listening
  {
    BacktopState(false, Some(DocumentElement), false)
  }

  /** `onMount`: with a truthy `target`, watch its match, throwing when there is
      none (before the listener is attached); then listen for scrolls.
      `query` is what `document.querySelector` finds for each selector. */
  function AfterMount(p: BacktopProps, s: BacktopState, query: map<string, nat>): (r: BacktopState)
    ensures HasTarget(p) && p.target.value !in query ==> r == s.(el := None)
    ensures HasTarget(p) && p.target.value in query ==>
              r == s.(el := Some(Found(query[p.target.value])), listening := true)
    ensures !HasTarget(p) ==> r == s.(listening := true)
  {
    if HasTarget(p) then
      if p.target.value in query then s.(el := Some(Found(query[p.target.value])), listening := true)
      else s.(el := None)
    else s.(listening := true)
  }

  function MountOutcome(p: BacktopProps, query: map<string, nat>): (o: Outcome)
    ensures o.Threw? <==> HasTarget(p) && p.target.value !in query
    ensures o.Threw? ==> o.error == Thrown("Bactop", "target is not existed: " + p.target.value)
  {
    if HasTarget(p) && p.target.value !in query
    then Threw(Thrown("Bactop", "target is not existed: " + p.target.value))
    else Completed
  }

  /** `handleScroll()`, given the watched element's `scrollTop`. */
  function AfterHandleScroll(p: BacktopProps, s: BacktopState, scrollTop: int): (r: BacktopState)
    ensures s.el.Some? ==> r == s.(visible := scrollTop >= p.visibilityHeight)
    ensures s.el.None? ==> r == s
  {
    if s.el.Some? then s.(visible := scrollTop >= p.visibilityHeight) else s
  }

  /** A `scroll` event on the document reaches `handleScroll` only once the
      listener is attached. */
  function AfterScrollEvent(p: BacktopProps, s: BacktopState, scrollTop: int): (r: BacktopState)
    ensures s.listening ==> r == AfterHandleScroll(p, s, scrollTop)
    ensures !s.listening ==> r == s
  {
    if s.listening then AfterHandleScroll(p, s, scrollTop) else s
  }

  /** `scrollToTop()`: a request to the watched element for position 0, or
      nothing when there is no element. */
  function ScrollToTop(s: BacktopState): (r: Option<ScrollRequest>)
    ensures r.Some? <==> s.el.Some?
    ensures r.Some? ==> r.value == ScrollRequest(s.el.value, 0, true)
  {
    if s.el.Some? then Some(ScrollRequest(s.el.value, 0, true)) else None
  }

  function Scrolls(p: BacktopProps, s: BacktopState, tops: seq<int>): BacktopState
    decreases |tops|
  {
    if |tops| == 0 then s else Scrolls(p, AfterScrollEvent(p, s, tops[0]), tops[1..])
  }

  /** After a successful mount, the button is visible exactly when the last
      scroll reached `visibilityHeight`, whatever came before. */
  lemma {:induction false} VisibleTracksLastScroll(p: BacktopProps, s: BacktopState, tops: seq<int>)
    requires s.listening && s.el.Some? && |tops| > 0
    ensures Scrolls(p, s, tops).visible <==> tops[|tops| - 1] >= p.visibilityHeight
    decreases |tops|
  {
    var next := AfterScrollEvent(p, s, tops[0]);
    if |tops| > 1 {
      VisibleTracksLastScroll(p, next, tops[1..]);
    }
  }

  /** A mount whose selector found nothing leaves the button hidden forever. */
  lemma {:induction false} FailedMountStaysHidden(p: BacktopProps, query: map<string, nat>, tops: seq<int>)
    requires MountOutcome(p, query).Threw?
    ensures !Scrolls(p, AfterMount(p, Initial(), query), tops).visible
    ensures ScrollToTop(AfterMount(p, Initial(), query)).None?
  {
    Unchanged(p, AfterMount(p, Initial(), query), tops);
  }

  lemma {:induction false} Unchanged(p: BacktopProps, s: BacktopState, tops: seq<int>)
    requires !s.listening || s.el.None?
    ensures Scrolls(p, s, tops) == s
    decreases |tops|
  {
    if |tops| != 0 {
      Unchanged(p, AfterScrollEvent(p, s, tops[0]), tops[1..]);
    }
  }

  /** A back-to-top instance. */
  class BacktopBox {
    const props: BacktopProps
    var visible: bool
    var el: Option<Element>
    var listening: bool

    function State(): BacktopState
      reads this
    {
      BacktopState(visible, el, listening)
    }

    constructor (props: BacktopProps)
      ensures this.props == props && State() == Initial()
    {
      this.props := props;
      visible, el, listening := false, Some(DocumentElement), false;
    }

    method Mount(query: map<string, nat>) returns (outcome: Outcome)
      modifies this`el, this`listening
      ensures State() == AfterMount(props, old(State()), query)
      ensures outcome == MountOutcome(props, query)
    {
      if props.target.Some? && props.target.value != "" {
        var selector := props.target.value;
        el := if selector in query then Some(Found(query[selector])) else None;
        if el.None? {
          return Threw(Thrown("Bactop", "target is not existed: " + selector));
        }
      }
      listening := true;
      outcome := Completed;
    }

    method HandleScroll(scrollTop: int)
      modifies this`visible
      ensures State() == AfterHandleScroll(props, old(State()), scrollTop)
    {
      if el.Some? {
        visible := scrollTop >= props.visibilityHeight;
      }
    }

    method ScrollToTopRequest() returns (r: Option<ScrollRequest>)
      ensures r == ScrollToTop(State())
      ensures r.Some? ==> r.value.top == 0
    {
      r := None;
      if el.Some? {
        r := Some(ScrollRequest(el.value, 0, true));
      }
    }
  }
}
