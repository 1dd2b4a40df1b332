/** The `Input` component's own logic: the display predicates for the clear
    icon, the password toggle and the word-limit counter; the IME composition
    guard on `onInput`; `clear`; and the sync of the internal value from the
    `value` prop. */
module Input {
  import opened Common
  import CommonProps

  datatype InputType = Text | Textarea | Number | Password

  datatype InputProps = InputProps(
    value: Option<string>,
    inputType: InputType,
    disabled: bool,
    clearable: bool,
    maxLength: Option<int>,
    showWordLimit: bool,
    showPassword: bool,
    validateEvent: bool,
    ctx: CommonProps.Contexts)

  /** The props as a caller writes them; `None` fields take the defaults. */
  datatype InputOptions = InputOptions(
    value: Option<string>,
    inputType: Option<InputType>,
    disabled: bool,
    clearable: bool,
    maxLength: Option<int>,
    showWordLimit: bool,
    showPassword: bool,
    validateEvent: Option<bool>,
    ctx: CommonProps.Contexts)

  /** Calls of `onInput`, `onChange`, `onFocus`, `onBlur`, and requests to focus
      the native element, in order. */
  datatype InputEffect = Inputted(text: string) | Changed(text: string) | Focused | Blurred | FocusRequested

  /** The five signals and the emitted effects. */
  datatype InputState = InputState(
    value: string,
    composing: bool,
    focused: bool,
    hovering: bool,
    passwordVisible: bool,
    effects: seq<InputEffect>)

  /** `mergeProps(defaultProps, props)`: type `text`, validateEvent `true`. */
  function WithDefaults(o: InputOptions): (p: InputProps)
    ensures p.inputType == (if o.inputType.Some? then o.inputType.value else Text)
    ensures p.validateEvent == (o.validateEvent != Some(false))
    ensures p.value == o.value && p.disabled == o.disabled && p.clearable == o.clearable
    ensures p.maxLength == o.maxLength && p.showWordLimit == o.showWordLimit
    ensures p.showPassword == o.showPassword && p.ctx == o.ctx
  {
    InputProps(o.value, o.inputType.GetOr(Text), o.disabled, o.clearable, o.maxLength,
               o.showWordLimit, o.showPassword, o.validateEvent.GetOr(true), o.ctx)
  }

  /** `props.value || ''` */
  function PropText(v: Option<string>): (t: string)
    ensures v.Some? ==> t == v.value
    ensures v.None? ==> t == ""
  {
    v.GetOr("")
  }

  /** `useDisabled(props)`, with no fallback: only the prop and the form count. */
  function Disabled(p: InputProps): (d: bool)
    ensures d <==> p.disabled || CommonProps.FormDisabled(p.ctx)
  {
    CommonProps.UseDisabled(p.disabled, false, p.ctx)
  }

  /** `!!props.maxLength`: an absent or zero limit is falsy. */
  predicate HasMaxLength(p: InputProps) {
    p.maxLength.Some? && p.maxLength.value != 0
  }

  predicate ShowClear(p: InputProps, s: InputState) {
    p.clearable && !Disabled(p) && s.value != "" && (s.focused || s.hovering)
  }

  predicate ShowPwdVisible(p: InputProps, s: InputState) {
    p.showPassword && !Disabled(p) && s.value != "" && s.focused
  }

  /** `showWordLimit || (…)`: `||` binds loosest, so `showWordLimit` alone
      makes the counter visible. */
  predicate WordLimitVisible(p: InputProps) {
    p.showWordLimit ||
      (HasMaxLength(p) && (p.inputType == Text || p.inputType == Textarea) && !Disabled(p) && !p.showPassword)
  }

  /** `String.prototype.length`: the number of UTF-16 code units, two for a
      character outside the Basic Multilingual Plane. */
  function Utf16Length(s: string): (n: nat)
    ensures |s| <= n <= 2 * |s|
    ensures (forall i :: 0 <= i < |s| ==> s[i] < '\U{10000}') ==> n == |s|
    decreases |s|
  {
    if |s| == 0 then 0
    else (if s[0] < '\U{10000}' then 1 else 2) + Utf16Length(s[1..])
  }

  /** `value().length > Number(props.maxLength)`; `Number(undefined)` is NaN,
      and every comparison with NaN is false. */
  predicate InputExceed(p: InputProps, s: InputState) {
    WordLimitVisible(p) && p.maxLength.Some? && Utf16Length(s.value) > p.maxLength.value
  }

  /** The initial signals: value from the prop, every flag false. */
  function Initial(p: InputProps): (s: InputState)
    ensures s.value == PropText(p.value) && s.effects == []
    ensures !s.composing && !s.focused && !s.hovering && !s.passwordVisible
  {
    InputState(PropText(p.value), false, false, false, false, [])
  }

  /** `handleInput`: the element's current text is emitted unless a composition
      is in progress; the internal value is not touched. */
  function AfterInput(s: InputState, domValue: string): (r: InputState)
    ensures s.composing ==> r == s
    ensures !s.composing ==> r == s.(effects := s.effects + [Inputted(domValue)])
  {
    if s.composing then s else s.(effects := s.effects + [Inputted(domValue)])
  }

  /** `handleChange`: always forwarded. */
  function AfterChange(s: InputState, domValue: string): (r: InputState)
    ensures r == s.(effects := s.effects + [Changed(domValue)])
  {
    s.(effects := s.effects + [Changed(domValue)])
  }

  function AfterCompositionStart(s: InputState): (r: InputState)
    ensures r == s.(composing := true)
  {
    s.(composing := true)
  }

  /** `handleCompositionEnd`: clear the flag, then run `handleInput`. */
  function AfterCompositionEnd(s: InputState, domValue: string): (r: InputState)
    ensures !r.composing
    ensures r == s.(composing := false, effects := s.effects + [Inputted(domValue)])
  {
    AfterInput(s.(composing := false), domValue)
  }

  function AfterFocus(s: InputState): (r: InputState)
    ensures r == s.(focused := true, effects := s.effects + [Focused])
  {
    s.(focused := true, effects := s.effects + [Focused])
  }

  function AfterBlur(s: InputState): (r: InputState)
    ensures r == s.(focused := false, effects := s.effects + [Blurred])
  {
    s.(focused := false, effects := s.effects + [Blurred])
  }

  function AfterHover(s: InputState, entering: bool): (r: InputState)
    ensures r == s.(hovering := entering)
  {
    s.(hovering := entering)
  }

  /** `handlePasswordVisible`: flip visibility, then focus the element. */
  function AfterPasswordToggle(s: InputState): (r: InputState)
    ensures r.passwordVisible == !s.passwordVisible
    ensures r.effects == s.effects + [FocusRequested]
    ensures r.value == s.value && r.focused == s.focused && r.composing == s.composing && r.hovering == s.hovering
  {
    s.(passwordVisible := !s.passwordVisible, effects := s.effects + [FocusRequested])
  }

  /** `clear`: empty the value, then `onInput('')`, then `onChange('')`. */
  function AfterClear(s: InputState): (r: InputState)
    ensures r.value == ""
    ensures r.effects == s.effects + [Inputted(""), Changed("")]
    ensures r.composing == s.composing && r.focused == s.focused && r.hovering == s.hovering
    ensures r.passwordVisible == s.passwordVisible
  {
    s.(value := "", effects := s.effects + [Inputted(""), Changed("")])
  }

  /** The deferred effect on `props.value`: reset the internal value. */
  function AfterValueProp(s: InputState, v: Option<string>): (r: InputState)
    ensures r.value == PropText(v)
    ensures r == s.(value := r.value)
  {
    s.(value := PropText(v))
  }

  /** The inner element's `type` as the source computes it: keyed on
      `showWordLimit`. */
  function InnerTypeAsWritten(p: InputProps, passwordVisible: bool): (t: InputType)
    ensures p.showWordLimit ==> (t == Text <==> passwordVisible)
    ensures p.showWordLimit ==> (t == Password <==> !passwordVisible)
    ensures !p.showWordLimit ==> t == p.inputType
  {
    if p.showWordLimit then (if passwordVisible then Text else Password) else p.inputType
  }

  /** The inner element's `type` keyed on `showPassword`, as the password
      toggle it belongs to requires. */
  function InnerType(p: InputProps, passwordVisible: bool): (t: InputType)
    ensures p.showPassword ==> (t == Text <==> passwordVisible)
    ensures p.showPassword ==> (t == Password <==> !passwordVisible)
    ensures !p.showPassword ==> t == p.inputType
  {
    if p.showPassword then (if passwordVisible then Text else Password) else p.inputType
  }

  /** As written, a plain text field with a word-limit counter is masked as a
      password field, and a password field with `showPassword` (and no word
      limit) can never be revealed by its toggle. */
  lemma InnerTypeAsWrittenMasksWordLimit()
    ensures var p := InputProps(None, Text, false, false, Some(10), true, false, true,
                                CommonProps.Contexts(None, None));
            InnerTypeAsWritten(p, false) == Password && InnerType(p, false) == Text
    ensures var p := InputProps(Some("secret"), Password, false, false, None, false, true, true,
                                CommonProps.Contexts(None, None));
            InnerTypeAsWritten(p, true) == Password && InnerType(p, true) == Text
  {
  }

  /** With the corrected choice, toggling the password icon twice restores the
      inner type, and a single toggle of a password field reveals or hides it. */
  lemma PasswordToggleSwitchesInnerType(p: InputProps, s: InputState)
    requires p.showPassword
    ensures InnerType(p, AfterPasswordToggle(s).passwordVisible) != InnerType(p, s.passwordVisible)
    ensures InnerType(p, AfterPasswordToggle(AfterPasswordToggle(s)).passwordVisible) == InnerType(p, s.passwordVisible)
  {
  }

  /** A disabled input shows neither icon; its word-limit counter is visible
      only through an explicit `showWordLimit`. */
  lemma DisabledHidesIcons(p: InputProps, s: InputState)
    requires Disabled(p)
    ensures !ShowClear(p, s) && !ShowPwdVisible(p, s)
    ensures WordLimitVisible(p) <==> p.showWordLimit
  {
  }

  /** The counter counts UTF-16 code units: one emoji exceeds a limit of 1. */
  lemma EmojiCountsTwice(p: InputProps, s: InputState)
    requires p.showWordLimit && p.maxLength == Some(1) && s.value == "\U{1F600}"
    ensures InputExceed(p, s)
    ensures |s.value| == 1
  {
    assert Utf16Length(s.value) == 2 + Utf16Length(s.value[1..]);
  }

  /** `input` and `change` events never touch the value, so they never change
      whether the limit is exceeded; only the synced `value` prop decides it. */
  lemma OnlyValuePropMovesExceed(p: InputProps, s: InputState, domValue: string, v: Option<string>)
    ensures InputExceed(p, AfterInput(s, domValue)) == InputExceed(p, s)
    ensures InputExceed(p, AfterChange(s, domValue)) == InputExceed(p, s)
    ensures InputExceed(p, AfterValueProp(s, v)) <==>
              WordLimitVisible(p) && p.maxLength.Some? && Utf16Length(PropText(v)) > p.maxLength.value
  {
  }

  /** After `clear` neither the clear icon nor the password icon shows, and the
      counter does not report an overflow unless the limit is negative. */
  lemma ClearHidesIcons(p: InputProps, s: InputState)
    ensures !ShowClear(p, AfterClear(s)) && !ShowPwdVisible(p, AfterClear(s))
    ensures p.maxLength.Some? && p.maxLength.value >= 0 ==> !InputExceed(p, AfterClear(s))
  {
  }

  /** Blurring hides the password icon; the clear icon then stays only while
      the pointer hovers. */
  lemma BlurHidesPasswordIcon(p: InputProps, s: InputState)
    ensures !ShowPwdVisible(p, AfterBlur(s))
    ensures ShowClear(p, AfterBlur(s)) <==> ShowClear(p, s.(focused := false)) && s.hovering
    ensures !AfterBlur(s).hovering ==> !ShowClear(p, AfterBlur(s))
  {
  }

  /** Feeding several `input` events in a row. */
  function TypeAll(s: InputState, typed: seq<string>): (r: InputState)
    ensures r.value == s.value && r.composing == s.composing && r.focused == s.focused
    ensures r.hovering == s.hovering && r.passwordVisible == s.passwordVisible
    ensures |s.effects| <= |r.effects| && r.effects[..|s.effects|] == s.effects
    decreases |typed|
  {
    if |typed| == 0 then s else TypeAll(AfterInput(s, typed[0]), typed[1..])
  }

  /** While composing, any number of `input` events emit nothing. */
  lemma {:induction false} ComposingSuppressesInput(s: InputState, typed: seq<string>)
    requires s.composing
    ensures TypeAll(s, typed) == s
    decreases |typed|
  {
    if |typed| != 0 {
      assert AfterInput(s, typed[0]) == s;
      ComposingSuppressesInput(s, typed[1..]);
    }
  }

  /** A whole composition, start, intermediate `input` events, end, emits
      exactly one `onInput`, with the text at the end. */
  lemma CompositionEmitsOnce(s: InputState, typed: seq<string>, final: string)
    ensures var r := AfterCompositionEnd(TypeAll(AfterCompositionStart(s), typed), final);
            r.effects == s.effects + [Inputted(final)] && !r.composing && r.value == s.value
  {
    ComposingSuppressesInput(AfterCompositionStart(s), typed);
  }

  /** Outside a composition every `input` event is forwarded, in order. */
  lemma {:induction false} TypingForwardsEach(s: InputState, typed: seq<string>)
    requires !s.composing
    ensures TypeAll(s, typed).effects == s.effects + Inputs(typed)
    decreases |typed|
  {
    if |typed| != 0 {
      TypingForwardsEach(AfterInput(s, typed[0]), typed[1..]);
      assert [Inputted(typed[0])] + Inputs(typed[1..]) == Inputs(typed);
    }
  }

  function Inputs(typed: seq<string>): (r: seq<InputEffect>)
    ensures |r| == |typed|
    ensures forall i :: 0 <= i < |typed| ==> r[i] == Inputted(typed[i])
  {
    if |typed| == 0 then [] else [Inputted(typed[0])] + Inputs(typed[1..])
  }

  /** An input instance: its props and its signals. */
  class InputBox {
    var props: InputProps
    var value: string
    var composing: bool
    var focused: bool
    var hovering: bool
    var passwordVisible: bool
    var effects: seq<InputEffect>

    function State(): InputState
      reads this
    {
      InputState(value, composing, focused, hovering, passwordVisible, effects)
    }

    constructor (props: InputProps)
      ensures this.props == props && State() == Initial(props)
    {
      this.props := props;
      value := PropText(props.value);
      composing, focused, hovering, passwordVisible := false, false, false, false;
      effects := [];
    }

    method HandleInput(domValue: string)
      modifies this`effects
      ensures State() == AfterInput(old(State()), domValue)
    {
      if composing {
        return;
      }
      effects := effects + [Inputted(domValue)];
    }

    method HandleChange(domValue: string)
      modifies this`effects
      ensures State() == AfterChange(old(State()), domValue)
    {
      effects := effects + [Changed(domValue)];
    }

    method HandleCompositionStart()
      modifies this`composing
      ensures State() == AfterCompositionStart(old(State()))
    {
      composing := true;
    }

    method HandleCompositionEnd(domValue: string)
      modifies this`composing, this`effects
      ensures State() == AfterCompositionEnd(old(State()), domValue)
    {
      composing := false;
      HandleInput(domValue);
    }

    method HandleFocus()
      modifies this`focused, this`effects
      ensures State() == AfterFocus(old(State()))
    {
      focused := true;
      effects := effects + [Focused];
    }

    method HandleBlur()
      modifies this`focused, this`effects
      ensures State() == AfterBlur(old(State()))
    {
      focused := false;
      effects := effects + [Blurred];
    }

    method HandleMouseEnter()
      modifies this`hovering
      ensures State() == AfterHover(old(State()), true)
    {
      hovering := true;
    }

    method HandleMouseLeave()
      modifies this`hovering
      ensures State() == AfterHover(old(State()), false)
    {
      hovering := false;
    }

    method HandlePasswordVisible()
      modifies this`passwordVisible, this`effects
      ensures State() == AfterPasswordToggle(old(State()))
    {
      passwordVisible := !passwordVisible;
      effects := effects + [FocusRequested];
    }

    method Clear()
      modifies this`value, this`effects
      ensures State() == AfterClear(old(State()))
    {
      value := "";
      effects := effects + [Inputted("")];
      effects := effects + [Changed("")];
    }

    /** The parent passes a `value` prop; the deferred effect runs only when it
        differs from the previous one. */
    method SetValueProp(v: Option<string>)
      modifies this`props, this`value
      ensures props == old(props).(value := v)
      ensures State() == if v != old(props.value) then AfterValueProp(old(State()), v) else old(State())
    {
      var changed := v != props.value;
      props := props.(value := v);
      if changed {
        value := PropText(v);
      }
    }

    /** The inner element's `type` as this instance renders it, keyed on
        `showWordLimit` as written. */
    function CurrentInnerType(): InputType
      reads this
    {
      InnerTypeAsWritten(props, passwordVisible)
    }
  }
}
