/** The modal `Dialog`: `doOpen`/`doClose`, the `beforeClose`-guarded
    `handleClose` that the close button, the mask and the escape key share, the
    drag offset and the style record. */
module Dialog {
  import opened Common

  datatype Position = Position(x: int, y: int)

  datatype DialogProps = DialogProps(
    visible: bool,
    zIndex: int,
    top: int,
    width: int,
    fullscreen: bool,
    draggable: bool,
    mask: bool,
    maskClosable: bool,
    escClosable: bool,
    showClose: bool,
    lockScroll: bool)

  /** The props as a caller writes them; `None` fields take the defaults.
      A `zIndex`, `top` or `width` of 0 reads as absent, as in the source. */
  datatype DialogOptions = DialogOptions(
    visible: Option<bool>,
    zIndex: int,
    top: int,
    width: int,
    fullscreen: bool,
    draggable: bool,
    mask: Option<bool>,
    maskClosable: Option<bool>,
    escClosable: Option<bool>,
    showClose: Option<bool>,
    lockScroll: Option<bool>)

  /** What calling the optional `beforeClose` yields once awaited: no hook, a
      value, or a rejection. */
  datatype BeforeClose = NoHook | Returned(value: JsValue) | Rejected

  /** The `onOpen` / `onClose` callbacks scheduled for the next tick. */
  datatype Notice = OpenNotice | CloseNotice

  datatype DialogState = DialogState(
    visible: bool,
    zIndex: int,
    transform: Option<Position>,
    notices: seq<Notice>)

  /** The style record of the dialog box: the CSS variables and the drag transform. */
  datatype DialogStyle = DialogStyle(marginTop: Option<int>, width: Option<int>, transform: Option<Position>)

  /** `mergeProps(defaultProps, props)`: visible, mask, maskClosable, escClosable,
      showClose and lockScroll all default to true. */
  function WithDefaults(o: DialogOptions): (p: DialogProps)
    ensures p.visible == (o.visible != Some(false))
    ensures p.mask == (o.mask != Some(false)) && p.maskClosable == (o.maskClosable != Some(false))
    ensures p.escClosable == (o.escClosable != Some(false))
    ensures p.showClose == (o.showClose != Some(false)) && p.lockScroll == (o.lockScroll != Some(false))
    ensures p.zIndex == o.zIndex && p.top == o.top && p.width == o.width
    ensures p.fullscreen == o.fullscreen && p.draggable == o.draggable
  {
    DialogProps(o.visible.GetOr(true), o.zIndex, o.top, o.width, o.fullscreen, o.draggable,
                o.mask.GetOr(true), o.maskClosable.GetOr(true), o.escClosable.GetOr(true),
                o.showClose.GetOr(true), o.lockScroll.GetOr(true))
  }

  /** `props.zIndex || useZIndex()`, with `nextIndex` the allocator's next index. */
  function ZIndexFor(p: DialogProps, nextIndex: int): (z: int)
    ensures p.zIndex != 0 ==> z == p.zIndex
    ensures p.zIndex == 0 ==> z == nextIndex
  {
    if p.zIndex != 0 then p.zIndex else nextIndex
  }

  /** `doOpen()`: a no-op on the server; otherwise the z-index is chosen, the
      dialog becomes visible and `onOpen` is scheduled. */
  function AfterOpen(p: DialogProps, s: DialogState, isServer: bool, nextIndex: int): (r: DialogState)
    ensures isServer ==> r == s
    ensures !isServer ==> r.visible && r.zIndex == ZIndexFor(p, nextIndex) &&
                          r.transform == s.transform && r.notices == s.notices + [OpenNotice]
  {
    if isServer then s
    else s.(visible := true, zIndex := ZIndexFor(p, nextIndex), notices := s.notices + [OpenNotice])
  }

  /** `doClose()`: unconditionally hidden, `onClose` scheduled. */
  function AfterClose(s: DialogState): (r: DialogState)
    ensures !r.visible && r.zIndex == s.zIndex && r.transform == s.transform
    ensures r.notices == s.notices + [CloseNotice]
  {
    s.(visible := false, notices := s.notices + [CloseNotice])
  }

  /** `(await props.beforeClose?.()) ?? true`, then the truthiness test. A
      rejection aborts `handleClose` before `doClose`. */
  function ShouldClose(b: BeforeClose): (close: bool)
    ensures !close <==> b.Rejected? || (b.Returned? && !Nullish(b.value) && !Truthy(b.value))
  {
    match b
    case NoHook => true
    case Returned(v) => if Nullish(v) then true else Truthy(v)
    case Rejected => false
  }

  /** `handleClose()`: closes exactly when the guard lets it. */
  function AfterHandleClose(s: DialogState, b: BeforeClose): (r: DialogState)
    ensures ShouldClose(b) ==> r == AfterClose(s)
    ensures !ShouldClose(b) ==> r == s
  {
    if ShouldClose(b) then AfterClose(s) else s
  }

  /** `handleMaskClick()`: tries to close only when both `maskClosable` and `mask` hold. */
  function AfterMaskClick(p: DialogProps, s: DialogState, b: BeforeClose): (r: DialogState)
    ensures p.maskClosable && p.mask ==> r == AfterHandleClose(s, b)
    ensures !(p.maskClosable && p.mask) ==> r == s
  {
    if p.maskClosable && p.mask then AfterHandleClose(s, b) else s
  }

  /** The escape key is bound to `handleClose` only when `escClosable`. */
  function AfterEscape(p: DialogProps, s: DialogState, b: BeforeClose): (r: DialogState)
    ensures p.escClosable ==> r == AfterHandleClose(s, b)
    ensures !p.escClosable ==> r == s
  {
    if p.escClosable then AfterHandleClose(s, b) else s
  }

  /** The drag handler's `onEnd` exists only while visible and draggable; it
      records the final position. */
  function AfterDragEnd(p: DialogProps, s: DialogState, pos: Position): (r: DialogState)
    ensures s.visible && p.draggable ==> r == s.(transform := Some(pos))
    ensures !(s.visible && p.draggable) ==> r == s
  {
    if s.visible && p.draggable then s.(transform := Some(pos)) else s
  }

  /** The effect on the `visible` prop: truthy opens, falsy closes. */
  function AfterVisibleEffect(p: DialogProps, s: DialogState, isServer: bool, nextIndex: int): (r: DialogState)
    ensures p.visible ==> r == AfterOpen(p, s, isServer, nextIndex)
    ensures !p.visible ==> r == AfterClose(s)
  {
    if p.visible then AfterOpen(p, s, isServer, nextIndex) else AfterClose(s)
  }

  /** Construction: the signals start at `props.zIndex || useZIndex()` and
      `!!props.visible`, then the visible-prop effect runs once; so a dialog
      created hidden schedules `onClose` without ever having been open. */
  function Initial(p: DialogProps, isServer: bool, nextIndex0: int, nextIndex1: int): (s: DialogState)
    ensures s.visible == p.visible
    ensures s.transform == None
    ensures p.visible && !isServer ==> s.notices == [OpenNotice] && s.zIndex == ZIndexFor(p, nextIndex1)
    ensures p.visible && isServer ==> s.notices == [] && s.zIndex == ZIndexFor(p, nextIndex0)
    ensures !p.visible ==> s.notices == [CloseNotice] && s.zIndex == ZIndexFor(p, nextIndex0)
  {
    AfterVisibleEffect(p, DialogState(p.visible, ZIndexFor(p, nextIndex0), None, []), isServer, nextIndex1)
  }

  /** `style()`: outside fullscreen, the margin-top variable iff `top` is
      truthy and the width variable iff `width` is; fullscreen sets neither;
      `transform` iff a drag position exists. */
  function Style(p: DialogProps, transform: Option<Position>): (st: DialogStyle)
    ensures st.marginTop.Some? <==> !p.fullscreen && p.top != 0
    ensures st.marginTop.Some? ==> st.marginTop.value == p.top
    ensures st.width.Some? <==> !p.fullscreen && p.width != 0
    ensures st.width.Some? ==> st.width.value == p.width
    ensures st.transform == transform
  {
    var marginTop := if !p.fullscreen && p.top != 0 then Some(p.top) else None;
    var width := if !p.fullscreen && p.width != 0 then Some(p.width) else None;
    DialogStyle(marginTop, width, transform)
  }

  /** A `beforeClose` resolving `false` leaves the dialog exactly as it was,
      whichever of the three close paths is taken. */
  lemma BeforeCloseFalseKeepsOpen(p: DialogProps, s: DialogState)
    ensures AfterHandleClose(s, Returned(Bool(false))) == s
    ensures AfterMaskClick(p, s, Returned(Bool(false))) == s
    ensures AfterEscape(p, s, Returned(Bool(false))) == s
  {
  }

  /** A missing hook or a hook returning nothing closes the dialog. */
  lemma AbsentVerdictCloses(s: DialogState)
    ensures !AfterHandleClose(s, NoHook).visible
    ensures !AfterHandleClose(s, Returned(Undefined)).visible
    ensures !AfterHandleClose(s, Returned(Null)).visible
  {
  }

  /** With both dismissals enabled, the escape key and the mask take the same
      path as the close button. */
  lemma DismissalsShareOnePath(p: DialogProps, s: DialogState, b: BeforeClose)
    requires p.escClosable && p.mask && p.maskClosable
    ensures AfterEscape(p, s, b) == AfterMaskClick(p, s, b) == AfterHandleClose(s, b)
  {
  }

  /** The drag offset survives closing and reopening. */
  lemma DragOffsetPersists(p: DialogProps, s: DialogState, b: BeforeClose, nextIndex: int)
    ensures AfterOpen(p, AfterHandleClose(s, b), false, nextIndex).transform == s.transform
  {
  }

  /** A dialog instance: the `visible` and `zIndex` signals, the drag `transform`
      and the callbacks scheduled so far. */
  class Dialog {
    var props: DialogProps
    const isServer: bool
    var visible: bool
    var zIndex: int
    var transform: Option<Position>
    var notices: seq<Notice>

    function State(): DialogState
      reads this
    {
      DialogState(visible, zIndex, transform, notices)
    }

    /** `nextIndex0` and `nextIndex1` are what the z-index allocator hands out, if asked. */
    constructor (props: DialogProps, isServer: bool, nextIndex0: int, nextIndex1: int)
      ensures this.props == props && this.isServer == isServer
      ensures State() == Initial(props, isServer, nextIndex0, nextIndex1)
    {
      this.props := props;
      this.isServer := isServer;
      zIndex := if props.zIndex != 0 then props.zIndex else nextIndex0;
      visible := props.visible;
      transform := None;
      notices := [];
      new;
      if props.visible {
        DoOpen(nextIndex1);
      } else {
        DoClose();
      }
    }

    method DoOpen(nextIndex: int)
      modifies this`visible, this`zIndex, this`notices
      ensures State() == AfterOpen(props, old(State()), isServer, nextIndex)
    {
      if isServer {
        return;
      }
      zIndex := if props.zIndex != 0 then props.zIndex else nextIndex;
      visible := true;
      notices := notices + [OpenNotice];
    }

    method DoClose()
      modifies this`visible, this`notices
      ensures State() == AfterClose(old(State()))
    {
      visible := false;
      notices := notices + [CloseNotice];
    }

    method HandleClose(b: BeforeClose)
      modifies this`visible, this`notices
      ensures State() == AfterHandleClose(old(State()), b)
    {
      var shouldClose := match b
        case NoHook => true
        case Returned(v) => if v.Undefined? || v.Null? then true else Truthy(v)
        case Rejected => false;
      if shouldClose {
        DoClose();
      }
    }

    method HandleMaskClick(b: BeforeClose)
      modifies this`visible, this`notices
      ensures State() == AfterMaskClick(props, old(State()), b)
    {
      if props.maskClosable && props.mask {
        HandleClose(b);
      }
    }

    method HandleEscape(b: BeforeClose)
      modifies this`visible, this`notices
      ensures State() == AfterEscape(props, old(State()), b)
    {
      if props.escClosable {
        HandleClose(b);
      }
    }

    method DragEnd(pos: Position)
      modifies this`transform
      ensures State() == AfterDragEnd(props, old(State()), pos)
    {
      if visible && props.draggable {
        transform := Some(pos);
      }
    }

    /** The parent changes the `visible` prop; the effect reruns on a change. */
    method SetVisibleProp(v: bool, nextIndex: int)
      modifies this
      ensures props == old(props).(visible := v)
      ensures old(props).visible == v ==> State() == old(State())
      ensures old(props).visible != v ==> State() == AfterVisibleEffect(props, old(State()), isServer, nextIndex)
    {
      var changed := props.visible != v;
      props := props.(visible := v);
      if changed {
        if v {
          DoOpen(nextIndex);
        } else {
          DoClose();
        }
      }
    }

    function CurrentStyle(): DialogStyle
      reads this
    {
      Style(props, transform)
    }
  }
}
