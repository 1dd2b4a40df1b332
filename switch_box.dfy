/** The `Switch` toggle protocol: `checked` is derived from the controlled
    `value`, a toggle emits the other value through `onChange`, and an optional
    `beforeChange` guard may proceed, deny or break its contract. */
module SwitchBox {
  import opened Common
  import CommonProps

  /** `boolean | string | number` */
  datatype SwitchValue = BoolValue(b: bool) | StrValue(s: string) | NumValue(n: int)

  datatype SwitchProps = SwitchProps(
    value: SwitchValue,
    activeValue: SwitchValue,
    inactiveValue: SwitchValue,
    disabled: bool,
    loading: bool,
    validateEvent: bool,
    ctx: CommonProps.Contexts)

  /** The props as a caller writes them; `None` fields take the defaults. */
  datatype SwitchOptions = SwitchOptions(
    value: Option<SwitchValue>,
    activeValue: Option<SwitchValue>,
    inactiveValue: Option<SwitchValue>,
    disabled: bool,
    loading: bool,
    validateEvent: Option<bool>,
    ctx: CommonProps.Contexts)

  /** What calling the optional `beforeChange` gives: no guard, a plain
      (non-promise) value, or a promise that resolved to a value or rejected. */
  datatype BeforeChange = NoGuard | Plain(value: JsValue) | Resolved(result: JsValue) | Rejected

  /** How `switchValue` treats the guard's answer: go on, stop (with a warning
      for a rejection), or throw because the answer is neither a boolean nor a promise. */
  datatype Verdict = Proceed | Deny(warned: bool) | ContractError

  /** `onChange` calls and `debugWarn` reports, in order. */
  datatype SwitchEffect = Changed(value: SwitchValue) | Warned

  /** `effects` is what the switch has emitted; `syncPending` says a
      `nextTick` write of `inputRef.checked` is queued; `inputChecked` is the
      native checkbox's `checked` property. */
  datatype SwitchState = SwitchState(effects: seq<SwitchEffect>, syncPending: bool, inputChecked: bool)

  const GuardMessage: string := "beforeChange must return type `Promise<boolean>` or `boolean`"

  /** `mergeProps(defaultProps, props)`: value `false`, activeValue `true`,
      inactiveValue `false`, validateEvent `true`. */
  function WithDefaults(o: SwitchOptions): (p: SwitchProps)
    ensures p.value == (if o.value.Some? then o.value.value else BoolValue(false))
    ensures p.activeValue == (if o.activeValue.Some? then o.activeValue.value else BoolValue(true))
    ensures p.inactiveValue == (if o.inactiveValue.Some? then o.inactiveValue.value else BoolValue(false))
    ensures p.validateEvent == (o.validateEvent != Some(false))
    ensures p.disabled == o.disabled && p.loading == o.loading && p.ctx == o.ctx
  {
    SwitchProps(o.value.GetOr(BoolValue(false)), o.activeValue.GetOr(BoolValue(true)),
                o.inactiveValue.GetOr(BoolValue(false)), o.disabled, o.loading,
                o.validateEvent.GetOr(true), o.ctx)
  }

  /** `useDisabled(props, () => props.loading)`: a loading switch is disabled. */
  function Disabled(p: SwitchProps): (d: bool)
    ensures d <==> p.disabled || p.loading || CommonProps.FormDisabled(p.ctx)
  {
    CommonProps.UseDisabled(p.disabled, p.loading, p.ctx)
  }

  /** `props.value === props.activeValue` */
  predicate Checked(p: SwitchProps) {
    p.value == p.activeValue
  }

  /** The value `handleChange` emits. */
  function NextValue(p: SwitchProps): (v: SwitchValue)
    ensures Checked(p) ==> v == p.inactiveValue
    ensures !Checked(p) ==> v == p.activeValue
  {
    if Checked(p) then p.inactiveValue else p.activeValue
  }

  /** The guard's answer, read as `switchValue` reads it. */
  function Decide(g: BeforeChange): (v: Verdict)
    ensures v == Proceed <==> g.NoGuard? || (g.Plain? && g.value == Bool(true)) || (g.Resolved? && Truthy(g.result))
    ensures v == ContractError <==> g.Plain? && !g.value.Bool?
    ensures v == Deny(true) <==> g.Rejected?
  {
    match g
    case NoGuard => Proceed
    case Plain(v) => if v.Bool? then (if v.b then Proceed else Deny(false)) else ContractError
    case Resolved(r) => if Truthy(r) then Proceed else Deny(false)
    case Rejected => Deny(true)
  }

  /** `handleChange()`: emit the other value and queue the checkbox sync. */
  function AfterHandleChange(p: SwitchProps, s: SwitchState): (r: SwitchState)
    ensures r.effects == s.effects + [Changed(NextValue(p))]
    ensures r.syncPending && r.inputChecked == s.inputChecked
  {
    s.(effects := s.effects + [Changed(NextValue(p))], syncPending := true)
  }

  /** `switchValue()`: nothing when disabled; otherwise as the guard decides. */
  function AfterSwitchValue(p: SwitchProps, s: SwitchState, g: BeforeChange): (r: SwitchState)
    ensures Disabled(p) ==> r == s
    ensures !Disabled(p) && Decide(g) == Proceed ==> r == AfterHandleChange(p, s)
    ensures !Disabled(p) && Decide(g) == Deny(true) ==> r == s.(effects := s.effects + [Warned])
    ensures !Disabled(p) && (Decide(g) == Deny(false) || Decide(g) == ContractError) ==> r == s
  {
    if Disabled(p) then s
    else match Decide(g)
      case Proceed => AfterHandleChange(p, s)
      case Deny(warned) => if warned then s.(effects := s.effects + [Warned]) else s
      case ContractError => s
  }

  /** Whether `switchValue()` throws. */
  function SwitchValueOutcome(p: SwitchProps, g: BeforeChange): (o: Outcome)
    ensures o.Threw? <==> !Disabled(p) && g.Plain? && !g.value.Bool?
    ensures o.Threw? ==> o.error == Thrown("Switch", GuardMessage)
  {
    if !Disabled(p) && Decide(g) == ContractError then Threw(Thrown("Switch", GuardMessage)) else Completed
  }

  /** `handleKeydown`: the Enter key runs `switchValue`, other keys do nothing.
      `EVENT_CODE.enter` is taken to be `"Enter"`. */
  function AfterKeydown(p: SwitchProps, s: SwitchState, key: string, g: BeforeChange): (r: SwitchState)
    ensures key == "Enter" ==> r == AfterSwitchValue(p, s, g)
    ensures key != "Enter" ==> r == s
  {
    if key == "Enter" then AfterSwitchValue(p, s, g) else s
  }

  /** The queued `nextTick` callback: `inputRef.checked = checked()`, read at the
      time it runs. */
  function AfterTick(p: SwitchProps, s: SwitchState): (r: SwitchState)
    ensures s.syncPending ==> !r.syncPending && r.inputChecked == Checked(p) && r.effects == s.effects
    ensures !s.syncPending ==> r == s
  {
    if s.syncPending then s.(syncPending := false, inputChecked := Checked(p)) else s
  }

  /** A disabled or loading switch ignores every toggle attempt and never throws. */
  lemma DisabledIgnoresToggle(p: SwitchProps, s: SwitchState, g: BeforeChange)
    requires p.disabled || p.loading
    ensures AfterSwitchValue(p, s, g) == s && SwitchValueOutcome(p, g) == Completed
  {
  }

  /** Without a guard, the change always fires. */
  lemma NoGuardAlwaysChanges(p: SwitchProps, s: SwitchState)
    requires !Disabled(p)
    ensures AfterSwitchValue(p, s, NoGuard).effects == s.effects + [Changed(NextValue(p))]
  {
  }

  /** A boolean guard fires the change iff it returned `true`. */
  lemma BooleanGuardDecides(p: SwitchProps, s: SwitchState, b: bool)
    requires !Disabled(p)
    ensures b ==> AfterSwitchValue(p, s, Plain(Bool(b))) == AfterHandleChange(p, s)
    ensures !b ==> AfterSwitchValue(p, s, Plain(Bool(b))) == s
  {
  }

  /** A promise fires the change iff it resolves to a truthy value. */
  lemma ResolvedPromiseDecides(p: SwitchProps, s: SwitchState, result: JsValue)
    requires !Disabled(p)
    ensures Truthy(result) ==> AfterSwitchValue(p, s, Resolved(result)) == AfterHandleChange(p, s)
    ensures !Truthy(result) ==> AfterSwitchValue(p, s, Resolved(result)) == s
  {
  }

  /** A rejected promise never fires `onChange`; it only records a warning. */
  lemma RejectionOnlyWarns(p: SwitchProps, s: SwitchState)
    requires !Disabled(p)
    ensures AfterSwitchValue(p, s, Rejected).effects == s.effects + [Warned]
    ensures SwitchValueOutcome(p, Rejected) == Completed
  {
  }

  /** If the parent applies the emitted value, `checked` flips (given distinct
      active and inactive values). */
  lemma EmittedValueFlipsChecked(p: SwitchProps)
    requires p.activeValue != p.inactiveValue
    ensures NextValue(p) != p.value
    ensures Checked(p.(value := NextValue(p))) == !Checked(p)
  {
  }

  /** A switch instance: the controlled props and what it has emitted. */
  class Switch {
    var props: SwitchProps
    var effects: seq<SwitchEffect>
    var syncPending: bool
    var inputChecked: bool

    function State(): SwitchState
      reads this
    {
      SwitchState(effects, syncPending, inputChecked)
    }

    /** `inputChecked` is the checkbox's state as first rendered. */
    constructor (props: SwitchProps, inputChecked: bool)
      ensures this.props == props && State() == SwitchState([], false, inputChecked)
    {
      this.props := props;
      effects := [];
      syncPending := false;
      this.inputChecked := inputChecked;
    }

    method HandleChange()
      modifies this`effects, this`syncPending
      ensures State() == AfterHandleChange(props, old(State()))
    {
      var value := if props.value == props.activeValue then props.inactiveValue else props.activeValue;
      effects := effects + [Changed(value)];
      syncPending := true;
    }

    method SwitchValue(g: BeforeChange) returns (outcome: Outcome)
      modifies this`effects, this`syncPending
      ensures State() == AfterSwitchValue(props, old(State()), g)
      ensures outcome == SwitchValueOutcome(props, g)
    {
      outcome := Completed;
      if CommonProps.UseDisabled(props.disabled, props.loading, props.ctx) {
        return;
      }
      if g.NoGuard? {
        HandleChange();
        return;
      }
      var isPromise := g.Resolved? || g.Rejected?;
      var isBoolean := g.Plain? && g.value.Bool?;
      if !isPromise && !isBoolean {
        outcome := Threw(Thrown("Switch", GuardMessage));
        return;
      }
      if isPromise {
        if g.Resolved? {
          if Truthy(g.result) {
            HandleChange();
          }
        } else {
          effects := effects + [Warned];
        }
      } else if g.value.b {
        HandleChange();
      }
    }

    method HandleKeydown(key: string, g: BeforeChange) returns (outcome: Outcome)
      modifies this`effects, this`syncPending
      ensures State() == AfterKeydown(props, old(State()), key, g)
      ensures outcome == if key == "Enter" then SwitchValueOutcome(props, g) else Completed
    {
      outcome := Completed;
      if key == "Enter" {
        outcome := SwitchValue(g);
      }
    }

    /** The queued `nextTick` callback runs. */
    method Tick()
      modifies this`syncPending, this`inputChecked
      ensures State() == AfterTick(props, old(State()))
    {
      if syncPending {
        inputChecked := props.value == props.activeValue;
        syncPending := false;
      }
    }

    /** The parent passes a new `value`. */
    method SetValueProp(v: SwitchValue)
      modifies this`props
      ensures props == old(props).(value := v)
    {
      props := props.(value := v);
    }

    function IsChecked(): bool
      reads this
    {
      Checked(props)
    }
  }
}
