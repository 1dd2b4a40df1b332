/** The package copy of `Message`. Its timer handling is written out on its own
    here and proved to follow the same step functions as the application copy
    (module Message), so everything proved there holds for it. */
module PackageMessage {
  import opened Common
  import Message

  /** `mergeProps(defaultProps, props)`: duration 3000, type info, offset 16. */
  function WithDefaults(o: Message.MessageOptions): (p: Message.MessageProps)
    ensures p == Message.WithDefaults(o)
  {
    Message.MessageProps(
      if o.duration.Some? then o.duration.value else 3000,
      if o.messageType.None? then Some(Message.InfoType) else o.messageType,
      if o.offset.Some? then o.offset.value else 16,
      o.showClose)
  }

  /** `badgeType()` of the package copy. */
  function BadgeType(t: Option<Message.MessageType>): (b: Message.BadgeKind)
    ensures b == Message.BadgeType(t)
    ensures b == Message.DangerBadge <==> t == Some(Message.ErrorType)
  {
    if t.None? then Message.InfoBadge
    else if t.value == Message.ErrorType then Message.DangerBadge
    else if t.value == Message.SuccessType then Message.SuccessBadge
    else if t.value == Message.WarningType then Message.WarningBadge
    else Message.InfoBadge
  }

  class MessageBox {
    const props: Message.MessageProps
    var visible: bool
    var timer: Option<nat>
    var armed: set<nat>
    var issued: nat

    function State(): Message.MessageState
      reads this
    {
      Message.MessageState(visible, timer, armed, issued)
    }

    /** Creation and `onMount(startTimer)`. */
    constructor (props: Message.MessageProps)
      ensures this.props == props && State() == Message.Initial(props.duration)
      ensures Message.Valid(State())
    {
      this.props := props;
      visible := true;
      timer := None;
      armed := {};
      issued := 0;
      new;
      StartTimer();
    }

    method StartTimer()
      modifies this`timer, this`armed, this`issued
      ensures State() == Message.AfterStartTimer(props.duration, old(State()))
    {
      if props.duration > 0 {
        ClearTimer();
        var id := issued + 1;
        armed := armed + {id};
        timer := Some(id);
        issued := id;
      }
    }

    method ClearTimer()
      modifies this`armed
      ensures State() == Message.AfterClearTimer(old(State()))
    {
      match timer
      case Some(id) => armed := armed - {id};
      case None =>
    }

    method Close()
      modifies this`visible
      ensures State() == Message.AfterClose(old(State()))
    {
      visible := false;
    }

    method Expire(id: nat)
      modifies this`visible, this`armed
      ensures State() == Message.AfterExpire(id, old(State()))
    {
      if id in armed {
        visible := false;
        armed := armed - {id};
      }
    }

    /** Any event, as the application copy's trace semantics defines it. */
    method Handle(e: Message.MessageEvent)
      modifies this`visible, this`timer, this`armed, this`issued
      ensures State() == Message.Apply(props.duration, old(State()), e)
    {
      match e
      case MouseEnter => ClearTimer();
      case MouseLeave => StartTimer();
      case CloseClick => Close();
      case Expire(id) => Expire(id);
    }
  }
}
