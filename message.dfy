/** The `Message` auto-close timer: one `timer` variable, a `setTimeout`
    armed on mount and on mouse leave, cleared on mouse enter, and closing the
    message when it fires. Timeouts are modelled by their ids: `armed` holds
    the ids still pending, `timer` the id last stored in the variable. */
module Message {
  import opened Common

  datatype MessageType = SuccessType | InfoType | WarningType | ErrorType

  /** The badge class the message's type selects. */
  datatype BadgeKind = SuccessBadge | InfoBadge | WarningBadge | DangerBadge

  datatype MessageProps = MessageProps(duration: int, messageType: Option<MessageType>, offset: int, showClose: bool)

  /** The props as a caller writes them; `None` fields take the defaults. */
  datatype MessageOptions = MessageOptions(duration: Option<int>, messageType: Option<MessageType>,
                                           offset: Option<int>, showClose: bool)

  /** `issued` counts the ids handed out by `setTimeout`, which are 1, 2, 3, … */
  datatype MessageState = MessageState(visible: bool, timer: Option<nat>, armed: set<nat>, issued: nat)

  /** `mergeProps(defaultProps, props)`: duration 3000, type info, offset 16. */
  function WithDefaults(o: MessageOptions): (p: MessageProps)
    ensures p.duration == (if o.duration.Some? then o.duration.value else 3000)
    ensures p.messageType == (if o.messageType.Some? then o.messageType else Some(InfoType))
    ensures p.offset == (if o.offset.Some? then o.offset.value else 16)
    ensures p.showClose == o.showClose
  {
    MessageProps(o.duration.GetOr(3000), if o.messageType.Some? then o.messageType else Some(InfoType),
                 o.offset.GetOr(16), o.showClose)
  }

  /** `badgeType()`: `error` becomes `danger`, a missing type `info`, the rest pass through. */
  function BadgeType(t: Option<MessageType>): (b: BadgeKind)
    ensures b == DangerBadge <==> t == Some(ErrorType)
    ensures b == InfoBadge <==> t.None? || t == Some(InfoType)
    ensures b == SuccessBadge <==> t == Some(SuccessType)
    ensures b == WarningBadge <==> t == Some(WarningType)
  {
    match t
    case None => InfoBadge
    case Some(SuccessType) => SuccessBadge
    case Some(InfoType) => InfoBadge
    case Some(WarningType) => WarningBadge
    case Some(ErrorType) => DangerBadge
  }

  /** At most the timeout the variable names is pending. */
  predicate Valid(s: MessageState) {
    (s.timer.None? ==> s.armed == {}) &&
    (s.timer.Some? ==> s.armed <= {s.timer.value})
  }

  /** Visible, with no timer yet: the state before `onMount`. */
  function Fresh(): (s: MessageState)
    ensures s.visible && s.timer.None? && s.armed == {} && Valid(s)
  {
    MessageState(true, None, {}, 0)
  }

  /** `clearTimer()`: cancel the timeout the variable names, if any; the
      variable keeps its (now stale) id. */
  function AfterClearTimer(s: MessageState): (r: MessageState)
    ensures s.timer.Some? ==> r.armed == s.armed - {s.timer.value}
    ensures s.timer.None? ==> r.armed == s.armed
    ensures r.visible == s.visible && r.timer == s.timer && r.issued == s.issued
    ensures Valid(s) ==> Valid(r) && r.armed == {}
  {
    if s.timer.Some? then s.(armed := s.armed - {s.timer.value}) else s
  }

  /** `startTimer()`: nothing for a non-positive duration; otherwise clear the
      old timeout, then arm a new one and store its id. */
  function AfterStartTimer(duration: int, s: MessageState): (r: MessageState)
    ensures duration <= 0 ==> r == s
    ensures duration > 0 ==> r.timer == Some(s.issued + 1) && r.issued == s.issued + 1
    ensures duration > 0 ==> r.armed == AfterClearTimer(s).armed + {s.issued + 1}
    ensures r.visible == s.visible
    ensures duration > 0 && Valid(s) ==> r.armed == {s.issued + 1}
    ensures Valid(s) ==> Valid(r)
  {
    if duration <= 0 then s
    else
      var id := s.issued + 1;
      var cleared := AfterClearTimer(s);
      cleared.(timer := Some(id), armed := cleared.armed + {id}, issued := id)
  }

  /** `close()`: hide the message; the timer is left alone. */
  function AfterClose(s: MessageState): (r: MessageState)
    ensures !r.visible && r.timer == s.timer && r.armed == s.armed && r.issued == s.issued
  {
    s.(visible := false)
  }

  /** The timeout with this id fires: if it is still pending it runs `close`. */
  function AfterExpire(id: nat, s: MessageState): (r: MessageState)
    ensures id in s.armed ==> !r.visible && r.armed == s.armed - {id} && r.timer == s.timer
    ensures id !in s.armed ==> r == s
    ensures Valid(s) ==> Valid(r)
  {
    if id in s.armed then AfterClose(s).(armed := s.armed - {id}) else s
  }

  /** The state after `onMount(startTimer)`. */
  function Initial(duration: int): (s: MessageState)
    ensures s.visible && Valid(s)
    ensures duration > 0 ==> s.armed == {1}
    ensures duration <= 0 ==> s.armed == {}
  {
    AfterStartTimer(duration, Fresh())
  }

  /** What can happen to a mounted message. */
  datatype MessageEvent = MouseEnter | MouseLeave | CloseClick | Expire(id: nat)

  function Apply(duration: int, s: MessageState, e: MessageEvent): MessageState {
    match e
    case MouseEnter => AfterClearTimer(s)
    case MouseLeave => AfterStartTimer(duration, s)
    case CloseClick => AfterClose(s)
    case Expire(id) => AfterExpire(id, s)
  }

  function Run(duration: int, s: MessageState, es: seq<MessageEvent>): MessageState
    decreases |es|
  {
    if |es| == 0 then s else Run(duration, Apply(duration, s, es[0]), es[1..])
  }

  /** One armed timeout at most. */
  lemma AtMostOneArmed(s: MessageState)
    requires Valid(s)
    ensures |s.armed| <= 1
  {
    if s.timer.Some? {
      assert s.armed <= {s.timer.value};
      if s.armed != {} {
        assert s.armed == {s.timer.value};
      }
    }
  }

  /** Every sequence of events from the mounted state keeps at most one timeout pending. */
  lemma {:induction false} RunKeepsOneTimer(duration: int, s: MessageState, es: seq<MessageEvent>)
    requires Valid(s)
    ensures Valid(Run(duration, s, es)) && |Run(duration, s, es).armed| <= 1
    decreases |es|
  {
    if |es| == 0 {
      AtMostOneArmed(s);
    } else {
      RunKeepsOneTimer(duration, Apply(duration, s, es[0]), es[1..]);
    }
  }

  /** With a non-positive duration nothing is ever armed, so only the close
      button hides the message. */
  lemma {:induction false} NoDurationNoTimer(duration: int, s: MessageState, es: seq<MessageEvent>)
    requires duration <= 0 && s.armed == {}
    ensures Run(duration, s, es).armed == {}
    ensures s.visible && CloseClick !in es ==> Run(duration, s, es).visible
    decreases |es|
  {
    if |es| != 0 {
      NoDurationNoTimer(duration, Apply(duration, s, es[0]), es[1..]);
    }
  }

  /** Once hidden, a message stays hidden. */
  lemma {:induction false} HiddenStaysHidden(duration: int, s: MessageState, es: seq<MessageEvent>)
    requires !s.visible
    ensures !Run(duration, s, es).visible
    decreases |es|
  {
    if |es| != 0 {
      HiddenStaysHidden(duration, Apply(duration, s, es[0]), es[1..]);
    }
  }

  /** Hovering pauses the countdown: after mouse enter no timeout can close
      the message; leaving again arms a fresh one. */
  lemma HoverPausesTimer(duration: int, s: MessageState, id: nat)
    requires Valid(s)
    ensures AfterExpire(id, AfterClearTimer(s)) == AfterClearTimer(s)
    ensures duration > 0 ==> AfterStartTimer(duration, AfterClearTimer(s)).armed == {s.issued + 1}
  {
  }

  /** A message instance: the `visible` signal, the `timer` variable and the
      pending timeouts. */
  class MessageBox {
    const props: MessageProps
    var visible: bool
    var timer: Option<nat>
    var armed: set<nat>
    var issued: nat

    function State(): MessageState
      reads this
    {
      MessageState(visible, timer, armed, issued)
    }

    /** Creation and `onMount(startTimer)`. */
    constructor (props: MessageProps)
      ensures this.props == props && State() == Initial(props.duration)
    {
      this.props := props;
      visible, timer, armed, issued := true, None, {}, 0;
      new;
      StartTimer();
    }

    method ClearTimer()
      modifies this`armed
      ensures State() == AfterClearTimer(old(State()))
    {
      if timer.Some? {
        armed := armed - {timer.value};
      }
    }

    method StartTimer()
      modifies this`timer, this`armed, this`issued
      ensures State() == AfterStartTimer(props.duration, old(State()))
    {
      if props.duration <= 0 {
        return;
      }
      ClearTimer();
      issued := issued + 1;
      timer := Some(issued);
      armed := armed + {issued};
    }

    method Close()
      modifies this`visible
      ensures State() == AfterClose(old(State()))
    {
      visible := false;
    }

    /** The timeout with this id fires. */
    method Expire(id: nat)
      modifies this`visible, this`armed
      ensures State() == AfterExpire(id, old(State()))
    {
      if id in armed {
        armed := armed - {id};
        Close();
      }
    }

    method HandleMouseEnter()
      modifies this`armed
      ensures State() == Apply(props.duration, old(State()), MouseEnter)
    {
      ClearTimer();
    }

    method HandleMouseLeave()
      modifies this`timer, this`armed, this`issued
      ensures State() == Apply(props.duration, old(State()), MouseLeave)
    {
      StartTimer();
    }

    function CurrentBadge(): BadgeKind
      reads this
    {
      BadgeType(props.messageType)
    }
  }
}
