# solid-ui component logic in Dafny

This project models the behaviour of the core components of solid-ui, a
SolidJS component library, and proves properties of that model. It covers
the overlay coordinator `Popper` and the `Dialog`, `Switch`, `Input`,
`Affix`, `Badge`, `Message` (both the application copy and the package
copy), `Backtop`, `Button`, `Popconfirm` and `Avatar` components. It also
covers the two inherited-prop hooks `useSize` and `useDisabled`, again in
both copies.

The model is built the same way for every component:

- **Props.** `mergeProps(defaultProps, props)` is a `WithDefaults` function
  from an options record, whose absent fields are `None`, to the resolved
  props.
- **Signals.** A component's signals form a state datatype. Each handler
  is a pure step function `After…` from the old state to the new one.
- **Callbacks.** The callbacks a handler makes (`onShow`, `onChange`,
  `onInput`, …) are appended to a log inside the state, in order. A log
  entry marks the point where the source calls the optional callback. When
  the caller passed no callback, that call does nothing.
- **Instances.** Each stateful component is also a `class` whose fields are
  its signals. Each handler is a `method` that modifies only the fields the
  handler writes, and is proved to produce exactly the step function's
  result. Where the source has a defect (see "## Findings"), the instance
  follows the source as written, and a corrected pure function beside it
  states the intended behaviour.
- **Computed values.** Derived values such as the badge text, the dialog
  style, the affix style records and the middleware list are functions.
  Lemmas state what they mean.

The outside world enters only as parameters:

- results of `document.querySelector`, given as a map from selector to
  element;
- the scroll container and the measured rectangles;
- the z-index allocator's next index;
- whether the code runs on the server;
- the resolved value of an async `beforeClose` or `beforeChange` hook;
- the locale text;
- the ideograph test.

Timers are modelled by their ids: `Message` keeps the set of timeouts still
pending.

## Model

| member | source | states |
|---|---|---|
| CommonProps.FirstSet | src/effect-hooks/use-comon-props/index.ts:9 | the result of an or-chain over optional values is empty iff every candidate is, and otherwise it is the first candidate that is set |
| CommonProps.UseSize | src/effect-hooks/use-comon-props/index.ts:7-10 | an explicit size always wins; the size is unset only when the prop, the fallback, the form item, the form and the global size are all unset |
| CommonProps.UseDisabled | src/effect-hooks/use-comon-props/index.ts:12-15 | disabled iff the prop, the fallback or the form says so |
| CommonProps.FirstSetCons | src/effect-hooks/use-comon-props/index.ts:9 | taking the first candidate of the chain or passing on to the rest is the reference chain's unfolding |
| CommonProps.UseSizeIsFirstSet | src/effect-hooks/use-comon-props/index.ts:9 | `useSize` equals the first set candidate in the order prop, fallback, form item, form, global configuration |
| CommonProps.UseDisabledIgnoresFormItem | src/effect-hooks/use-comon-props/index.ts:13-14 | `useDisabled` reads only the form: contexts that differ in their form item give the same answer |
| FormCommonProps.UseSize | packages/components/form/src/hooks/use-form-common-props.ts:7-20 | the package `useSize` agrees with the application copy on every input |
| FormCommonProps.UseDisabled | packages/components/form/src/hooks/use-form-common-props.ts:22-30 | the package `useDisabled` agrees with the application copy and is disabled iff prop, fallback or form says so |
| FormCommonProps.UseDisabledIgnoresFormItem | packages/components/form/src/hooks/use-form-common-props.ts:26-29 | the package `useDisabled` does not depend on the form item |
| Popper.WithDefaults | src/components/popper/index.tsx:43-53 | trigger hover, placement bottom, hideAfter 200, offset 6 and arrow on unless the caller sets them; other props pass through |
| Popper.ShowEvent | src/components/popper/index.tsx:55-59 | the opening event is `mouseenter` exactly for the hover trigger, `click` exactly for the click trigger and `contextmenu` exactly for the contextmenu trigger; never `focus` |
| Popper.HideEvents | src/components/popper/index.tsx:60-64 | every trigger is dismissed by click and focus outside; `mouseenter` only for hover; never `contextmenu` |
| Popper.MiddlewareOrder | src/components/popper/index.tsx:82-93 | the middleware list starts with `shift`, holds each kind at most once, in the order shift, arrow, offset, autoPlacement |
| Popper.BuildMiddleware | src/components/popper/index.tsx:82-93 | the list starts with `shift` and has one more entry for each enabled option: `arrow` when on, `offset` when non-zero, `autoPlacement` when set |
| Popper.StaticSide | src/components/popper/index.tsx:110-115 | defined exactly for the four base sides `top`, `right`, `bottom`, `left`, and then the opposite of the placement's base side |
| Popper.ContentRendered | src/components/popper/index.tsx:171 | the content is in the tree iff the popper is not disabled and is visible |
| Popper.MiddlewareArrowAndOffset | src/components/popper/index.tsx:83-88 | `arrow` is present iff enabled; `offset` iff the distance is non-zero, and then with that distance |
| Popper.MiddlewareAutoPlacement | src/components/popper/index.tsx:89-93 | `autoPlacement` is present iff the prop is truthy; `true` passes no allowed list, a list is passed on unchanged |
| Popper.ShiftOnlyFirst | src/components/popper/index.tsx:82 | in a list whose kinds strictly increase, `shift` can only be first |
| Popper.RankAtLeastIndex | src/components/popper/index.tsx:82-93 | in such a list the k-th middleware has rank at least k |
| Popper.BaseSide | src/components/popper/index.tsx:115 | `split('-')[0]` is the dash-free prefix of the placement, ending at the first dash or at the end |
| Popper.BaseSideOfHead | src/components/popper/index.tsx:115 | a dash-free head followed by a dash or by nothing splits back to the head |
| Popper.StaticSideIsOpposite | src/components/popper/index.tsx:110-115 | for every placement, the arrow's static side is the side opposite the placement's base side |
| Popper.Initial | src/components/popper/index.tsx:68-79 | the popper starts visible iff the `visible` prop is `true`, with no callback made |
| Popper.AfterShow | src/components/popper/index.tsx:145-150 | a disabled popper is unchanged; otherwise it becomes visible and calls `onShow` once |
| Popper.AfterHide | src/components/popper/index.tsx:151-154 | always hidden afterwards, with `onHide` called once, even when disabled |
| Popper.AfterToggle | src/components/popper/index.tsx:155-157 | hides when visible, shows otherwise |
| Popper.AfterVisibleProp | src/components/popper/index.tsx:77-79 | a changed `visible` prop sets visibility to the prop's truthiness, bypassing `disabled` and calling nothing; an unchanged prop does nothing |
| Popper.ShowTwice | src/components/popper/index.tsx:145-150 | a second `show` keeps the visibility but calls `onShow` a second time |
| Popper.ShowThenHideIsHidden | src/components/popper/index.tsx:145-154 | `show` then `hide` ends hidden, with no content rendered |
| Popper.ToggleHiddenDisabled | src/components/popper/index.tsx:145-157 | toggling a hidden disabled popper changes nothing |
| Popper.ToggleTwiceRestores | src/components/popper/index.tsx:145-157 | on an enabled popper two toggles restore the visibility |
| Popper.DisabledStaysHidden | src/components/popper/index.tsx:145-157 | under any sequence of show, hide and toggle, a disabled hidden popper stays hidden and only ever calls `onHide` |
| Popper.Popper.constructor | src/components/popper/index.tsx:66-79 | a new instance is in the `Initial` state |
| Popper.Popper.Show | src/components/popper/index.tsx:145-150 | the instance's new state is `AfterShow` of the old |
| Popper.Popper.Hide | src/components/popper/index.tsx:151-154 | the instance's new state is `AfterHide` of the old |
| Popper.Popper.Toggle | src/components/popper/index.tsx:155-157 | the instance's new state is `AfterToggle` of the old |
| Popper.Popper.SetVisibleProp | src/components/popper/index.tsx:77-79 | the prop is replaced and the state follows `AfterVisibleProp` |
| Dialog.WithDefaults | src/components/dialog/index.tsx:49-57 | visible, mask, maskClosable, escClosable, showClose and lockScroll are true unless set to false; the rest pass through |
| Dialog.ZIndexFor | src/components/dialog/index.tsx:112 | a non-zero `zIndex` prop wins, else the allocator's next index |
| Dialog.AfterOpen | src/components/dialog/index.tsx:110-115 | on the server nothing changes; otherwise visible, z-index re-chosen, `onOpen` scheduled, drag offset kept |
| Dialog.AfterClose | src/components/dialog/index.tsx:116-119 | hidden and `onClose` scheduled, z-index and drag offset kept |
| Dialog.ShouldClose | src/components/dialog/index.tsx:121-122 | the dialog stays open iff the hook rejects or resolves to a non-nullish falsy value |
| Dialog.AfterHandleClose | src/components/dialog/index.tsx:120-125 | closes through `doClose` exactly when the hook's answer allows, else nothing changes |
| Dialog.AfterMaskClick | src/components/dialog/index.tsx:126-130 | a mask click tries to close only when both `maskClosable` and `mask` hold |
| Dialog.AfterEscape | src/components/dialog/index.tsx:131-133 | the escape key tries to close only when `escClosable` |
| Dialog.AfterDragEnd | src/components/dialog/index.tsx:99-108 | the end of a drag records the position only while visible and draggable |
| Dialog.AfterVisibleEffect | src/components/dialog/index.tsx:96-98 | a truthy `visible` prop opens, a falsy one closes |
| Dialog.Initial | src/components/dialog/index.tsx:96-98 | a new dialog's visibility is the prop's; an open one has `onOpen` scheduled, and a hidden one has `onClose` scheduled without ever having opened |
| Dialog.Style | src/components/dialog/index.tsx:70-85 | outside fullscreen, the margin-top variable iff `top` is non-zero and the width variable iff `width` is; fullscreen sets neither; the transform iff a drag position exists |
| Dialog.BeforeCloseFalseKeepsOpen | src/components/dialog/index.tsx:120-133 | a hook answering `false` leaves the dialog as it was on each of the three close paths |
| Dialog.AbsentVerdictCloses | src/components/dialog/index.tsx:121 | no hook, `undefined` or `null` closes the dialog |
| Dialog.DismissalsShareOnePath | src/components/dialog/index.tsx:120-133 | with both dismissals enabled, the mask and the escape key act exactly as the close button |
| Dialog.DragOffsetPersists | src/components/dialog/index.tsx:99-108 | the drag offset survives closing and reopening |
| Dialog.Dialog.constructor | src/components/dialog/index.tsx:59-64 | a new instance is in the `Initial` state |
| Dialog.Dialog.DoOpen | src/components/dialog/index.tsx:110-115 | the instance's new state is `AfterOpen` of the old |
| Dialog.Dialog.DoClose | src/components/dialog/index.tsx:116-119 | the instance's new state is `AfterClose` of the old |
| Dialog.Dialog.HandleClose | src/components/dialog/index.tsx:120-125 | the instance's new state is `AfterHandleClose` of the old |
| Dialog.Dialog.HandleMaskClick | src/components/dialog/index.tsx:126-130 | the instance's new state is `AfterMaskClick` of the old |
| Dialog.Dialog.HandleEscape | src/components/dialog/index.tsx:131-133 | the instance's new state is `AfterEscape` of the old |
| Dialog.Dialog.DragEnd | src/components/dialog/index.tsx:99-108 | the instance's new state is `AfterDragEnd` of the old |
| Dialog.Dialog.SetVisibleProp | src/components/dialog/index.tsx:96-98 | the prop is replaced; an unchanged value changes nothing, a changed one runs `AfterVisibleEffect` |
| SwitchBox.WithDefaults | src/components/switch-box/index.tsx:40-45 | value false, activeValue true, inactiveValue false, validateEvent true unless given |
| SwitchBox.Disabled | src/components/switch-box/index.tsx:51 | disabled iff the prop, `loading` or the form says so |
| SwitchBox.Checked | src/components/switch-box/index.tsx:52 | the switch is checked iff `value` equals `activeValue` |
| SwitchBox.NextValue | src/components/switch-box/index.tsx:84 | a checked switch emits the inactive value, an unchecked one the active value |
| SwitchBox.Decide | src/components/switch-box/index.tsx:99-130 | the change proceeds iff there is no guard, the guard returned `true` or its promise resolved truthy; a rejection is the only warning; a non-boolean non-promise answer is the only contract error |
| SwitchBox.AfterHandleChange | src/components/switch-box/index.tsx:83-89 | `onChange` is called with the next value and a checkbox sync is queued |
| SwitchBox.AfterSwitchValue | src/components/switch-box/index.tsx:96-131 | a disabled switch is unchanged; otherwise the guard's verdict decides between a change, a warning and nothing |
| SwitchBox.SwitchValueOutcome | src/components/switch-box/index.tsx:107-116 | `switchValue` throws exactly when enabled and the guard returned a non-boolean, non-promise value, with the library's message |
| SwitchBox.AfterKeydown | src/components/switch-box/index.tsx:90-94 | Enter runs `switchValue`; other keys do nothing |
| SwitchBox.AfterTick | src/components/switch-box/index.tsx:86-88 | the queued sync writes the current `checked` into the checkbox and clears the queue |
| SwitchBox.DisabledIgnoresToggle | src/components/switch-box/index.tsx:96-97 | a disabled or loading switch ignores every attempt and never throws |
| SwitchBox.NoGuardAlwaysChanges | src/components/switch-box/index.tsx:99-103 | without a guard the change always fires |
| SwitchBox.BooleanGuardDecides | src/components/switch-box/index.tsx:128-130 | a boolean guard fires the change iff it returned `true` |
| SwitchBox.ResolvedPromiseDecides | src/components/switch-box/index.tsx:118-124 | a promise fires the change iff it resolves truthy |
| SwitchBox.RejectionOnlyWarns | src/components/switch-box/index.tsx:125-127 | a rejected promise only warns, and does not throw |
| SwitchBox.EmittedValueFlipsChecked | src/components/switch-box/index.tsx:83-85 | with distinct active and inactive values, applying the emitted value flips `checked` |
| SwitchBox.Switch.constructor | src/components/switch-box/index.tsx:47-52 | a new instance has emitted nothing and has no sync pending |
| SwitchBox.Switch.HandleChange | src/components/switch-box/index.tsx:83-89 | the instance's new state is `AfterHandleChange` of the old |
| SwitchBox.Switch.SwitchValue | src/components/switch-box/index.tsx:96-131 | the new state is `AfterSwitchValue` and the outcome is `SwitchValueOutcome` |
| SwitchBox.Switch.HandleKeydown | src/components/switch-box/index.tsx:90-94 | the new state is `AfterKeydown`; only Enter can throw |
| SwitchBox.Switch.Tick | src/components/switch-box/index.tsx:86-88 | the instance's new state is `AfterTick` of the old |
| SwitchBox.Switch.SetValueProp | src/components/switch-box/index.tsx:52 | only the `value` prop changes |
| Input.WithDefaults | src/components/input/index.tsx:48-51 | type text and validateEvent true unless given; the rest pass through |
| Input.PropText | src/components/input/index.tsx:57-82 | the prop's text, or the empty string when the prop is unset |
| Input.Initial | src/components/input/index.tsx:57-61 | the value comes from the prop and every flag starts false |
| Input.AfterInput | src/components/input/index.tsx:101-106 | during a composition nothing happens; otherwise `onInput` gets the element's text; the internal value is never touched |
| Input.AfterChange | src/components/input/index.tsx:107-109 | `onChange` always gets the element's text |
| Input.AfterCompositionStart | src/components/input/index.tsx:110-112 | enters the composing state |
| Input.AfterCompositionEnd | src/components/input/index.tsx:113-116 | leaves the composing state and forwards the final text once |
| Input.AfterFocus | src/components/input/index.tsx:117-120 | focused, then `onFocus` |
| Input.AfterBlur | src/components/input/index.tsx:121-127 | not focused, then `onBlur` |
| Input.AfterHover | src/components/input/index.tsx:128-133 | hovering follows mouse enter and leave |
| Input.AfterPasswordToggle | src/components/input/index.tsx:134-137 | flips password visibility and requests focus, nothing else changes |
| Input.AfterClear | src/components/input/index.tsx:144-148 | the value becomes empty, then `onInput('')` and `onChange('')`; flags are kept |
| Input.AfterValueProp | src/components/input/index.tsx:81-86 | a changed `value` prop resets the internal value to the prop's text (empty when unset) and nothing else |
| Input.Disabled | src/components/input/index.tsx:66 | disabled iff the prop or the form says so |
| Input.HasMaxLength | src/components/input/index.tsx:70 | `!!maxLength`: a limit is set and is not zero |
| Input.ShowClear | src/components/input/index.tsx:68 | the clear icon shows iff clearable, enabled, non-empty, and focused or hovered |
| Input.ShowPwdVisible | src/components/input/index.tsx:69 | the password icon shows iff `showPassword`, enabled, non-empty and focused |
| Input.WordLimitVisible | src/components/input/index.tsx:70 | the counter shows with `showWordLimit` alone, or for an enabled text or textarea with a non-zero limit and no `showPassword` |
| Input.Utf16Length | src/components/input/index.tsx:71 | `length` counts UTF-16 code units: between one and two per character, exactly one each when every character is in the Basic Multilingual Plane |
| Input.InputExceed | src/components/input/index.tsx:71 | exceeded iff the counter shows, a limit is set and the text's UTF-16 length is above it |
| Input.EmojiCountsTwice | src/components/input/index.tsx:71 | a single emoji exceeds a limit of 1: one character, two code units |
| Input.OnlyValuePropMovesExceed | src/components/input/index.tsx:71-86 | `input` and `change` events never change whether the limit is exceeded; after a `value` prop change it is exceeded iff the prop's text is longer, in code units, than a visible limit |
| Input.BlurHidesPasswordIcon | src/components/input/index.tsx:68-127 | after `blur` the password icon is hidden, and the clear icon stays only while hovering |
| Input.InnerTypeAsWritten | src/components/input/index.tsx:216 | the inner type as written: with `showWordLimit` it is text iff the password is visible, else the `type` prop |
| Input.InnerType | src/components/input/index.tsx:216 | the corrected inner type: with `showPassword` it is text iff the password is visible, else the `type` prop |
| Input.InnerTypeAsWrittenMasksWordLimit | src/components/input/index.tsx:216 | two counterexamples: a text field with a word limit is masked, and a password field with `showPassword` cannot be revealed |
| Input.PasswordToggleSwitchesInnerType | src/components/input/index.tsx:134-137 | with the corrected type, one toggle switches between hidden and revealed, two restore it |
| Input.DisabledHidesIcons | src/components/input/index.tsx:66-70 | a disabled input shows neither icon; its counter shows only through `showWordLimit` |
| Input.ClearHidesIcons | src/components/input/index.tsx:144-148 | after `clear` neither icon shows and a non-negative limit is not exceeded |
| Input.TypeAll | src/components/input/index.tsx:101-106 | a run of `input` events changes no signal and only appends to the callback log |
| Input.ComposingSuppressesInput | src/components/input/index.tsx:101-104 | during a composition any number of `input` events emit nothing |
| Input.CompositionEmitsOnce | src/components/input/index.tsx:101-116 | a whole composition emits exactly one `onInput`, with the final text |
| Input.TypingForwardsEach | src/components/input/index.tsx:101-106 | outside a composition every `input` event is forwarded, in order |
| Input.InputBox.constructor | src/components/input/index.tsx:53-61 | a new instance is in the `Initial` state |
| Input.InputBox.HandleInput | src/components/input/index.tsx:101-106 | the instance's new state is `AfterInput` of the old |
| Input.InputBox.HandleChange | src/components/input/index.tsx:107-109 | the instance's new state is `AfterChange` of the old |
| Input.InputBox.HandleCompositionStart | src/components/input/index.tsx:110-112 | the instance's new state is `AfterCompositionStart` of the old |
| Input.InputBox.HandleCompositionEnd | src/components/input/index.tsx:113-116 | the instance's new state is `AfterCompositionEnd` of the old |
| Input.InputBox.HandleFocus | src/components/input/index.tsx:117-120 | the instance's new state is `AfterFocus` of the old |
| Input.InputBox.HandleBlur | src/components/input/index.tsx:121-127 | the instance's new state is `AfterBlur` of the old |
| Input.InputBox.HandleMouseEnter | src/components/input/index.tsx:128-130 | the instance is hovering |
| Input.InputBox.HandleMouseLeave | src/components/input/index.tsx:131-133 | the instance is not hovering |
| Input.InputBox.HandlePasswordVisible | src/components/input/index.tsx:134-137 | the instance's new state is `AfterPasswordToggle` of the old |
| Input.InputBox.Clear | src/components/input/index.tsx:144-148 | the instance's new state is `AfterClear` of the old |
| Input.InputBox.SetValueProp | src/components/input/index.tsx:81-86 | the prop is replaced; the value is reset only when the prop changed |
| Affix.WithDefaults | src/components/affix/index.tsx:20-24 | zIndex 100, offset 0 and position top unless given |
| Affix.HasTarget | src/components/affix/index.tsx:66 | `props.target` is a non-empty string |
| Affix.Initial | src/components/affix/index.tsx:29-35 | no target, no container, not pinned, no scroll, no shift |
| Affix.ResolveTarget | src/components/affix/index.tsx:66-76 | no target selects the document element; a matched selector its element; an unmatched one raises the library's error |
| Affix.AfterMount | src/components/affix/index.tsx:64-79 | a resolved target sets the target and the container; an error sets neither |
| Affix.ScrollTopOf | src/components/affix/index.tsx:86-88 | the window reads the document's scroll offset, an element its own |
| Affix.AfterUpdateAsWritten | src/components/affix/index.tsx:81-104 | `update` as written: without a container nothing changes; with a top position and a target `fixed` is never changed |
| Affix.UpdateOtherBranches | src/components/affix/index.tsx:93-103 | top without a target pins iff the offset passes the root's top; bottom pins iff the root's bottom is below the offset line (and, with a target, the target's top is in view) |
| Affix.AfterUpdate | src/components/affix/index.tsx:81-104 | the corrected `update`: top with a target pins iff the offset passes the root's top and the target's bottom is still in view |
| Affix.UpdateCorrectionIsLocal | src/components/affix/index.tsx:89-92 | the corrected and as-written updates differ only in `fixed`, and only on the top-with-target branch |
| Affix.TopTargetShift | src/components/affix/index.tsx:90-92 | top with a target shifts by the root's overlap with the target's bottom, never positive, in both versions |
| Affix.BottomTargetPinAndShift | src/components/affix/index.tsx:97-100 | bottom with a target pins iff the root's bottom is below the offset line and the target's top is in view; the shift is never negative |
| Affix.NoTargetPin | src/components/affix/index.tsx:93-103 | without a target the pin follows the offset line and the shift is kept |
| Affix.RootStyleOf | src/components/affix/index.tsx:41-49 | empty unless pinned and sized; then the root's height and width |
| Affix.AffixStyleOf | src/components/affix/index.tsx:50-62 | the same emptiness rule; the root's size; a translation iff the shift is non-zero |
| Affix.AffixStyleSide | src/components/affix/index.tsx:54-59 | exactly the side the position names carries the offset: `0` as the zero length, any other offset in pixels; the other side is absent |
| Affix.TopTargetNeverPinsAsWritten | src/components/affix/index.tsx:89-92 | as written, a top affix with a target never pins under any measurements, so its style stays empty |
| Affix.TopTargetPins | src/components/affix/index.tsx:89-92 | with the correction, a sized root past the offset with the target in view pins and gets a style |
| Affix.FailedMountFreezes | src/components/affix/index.tsx:69-84 | after a failed mount every later update is a no-op, both as written and corrected |
| Affix.FrozenWithoutContainer | src/components/affix/index.tsx:82-84 | without a container any run of updates changes nothing, both as written and corrected |
| Affix.Affix.constructor | src/components/affix/index.tsx:27-35 | a new instance is in the `Initial` state |
| Affix.Affix.Mount | src/components/affix/index.tsx:64-79 | the new state is `AfterMount`, and it throws exactly when the selector has no match, with that error |
| Affix.Affix.Update | src/components/affix/index.tsx:81-104 | the instance's new state is `AfterUpdateAsWritten` of the old: it follows the source, so a top affix with a target only shifts |
| Badge.WithDefaults | src/components/badge/index.tsx:15-19 | value `''`, max 99, type danger unless given |
| Badge.DigitChar | src/components/badge/index.tsx:29 | a digit's character denotes that digit |
| Badge.NatToString | src/components/badge/index.tsx:29 | decimal digits, at least one, without a leading zero |
| Badge.IntToString | src/components/badge/index.tsx:29 | a leading `-` exactly for negatives |
| Badge.NatToStringRoundTrip | src/components/badge/index.tsx:29 | the digits written for a natural number read back as that number |
| Badge.IntToStringRoundTrip | src/components/badge/index.tsx:29-31 | `${n}` for an integer reads back as the integer |
| Badge.Content | src/components/badge/index.tsx:25-32 | a dot has no text; a number above `max` shows `max+`; other numbers and text show themselves |
| Badge.ShownExactly | src/components/badge/index.tsx:36 | shown iff not hidden and a dot, a number, or a non-empty text |
| Badge.Shown | src/components/badge/index.tsx:36 | the badge shows iff not hidden and it has text or is a dot |
| Badge.PlusMarksOverflow | src/components/badge/index.tsx:28-30 | a numeric label ends in `+` iff the number exceeds `max`; the number shown is `max` or the value |
| Message.WithDefaults | src/components/message/index.tsx:26-30 | duration 3000, type info, offset 16 unless given |
| Message.BadgeType | src/components/message/index.tsx:39 | `error` gives danger, a missing type info, the others themselves |
| Message.Fresh | src/components/message/index.tsx:37-47 | visible with no timer |
| Message.AfterClearTimer | src/components/message/index.tsx:55-57 | cancels the stored timeout; with one timer at most nothing stays pending |
| Message.AfterStartTimer | src/components/message/index.tsx:48-54 | a non-positive duration does nothing; otherwise the old timeout is cancelled and a fresh one is armed and stored |
| Message.AfterClose | src/components/message/index.tsx:58-61 | hidden, timers untouched |
| Message.AfterExpire | src/components/message/index.tsx:53-61 | a pending timeout that fires hides the message; a cancelled one does nothing |
| Message.Initial | src/components/message/index.tsx:37-45 | after mount the message is visible, with one timeout pending iff the duration is positive |
| Message.AtMostOneArmed | src/components/message/index.tsx:47-57 | the invariant allows at most one pending timeout |
| Message.RunKeepsOneTimer | src/components/message/index.tsx:47-68 | every sequence of hovers, leaves, close clicks and expiries keeps at most one timeout pending |
| Message.NoDurationNoTimer | src/components/message/index.tsx:49-51 | with a non-positive duration no timeout is ever pending and only the close button hides the message |
| Message.HiddenStaysHidden | src/components/message/index.tsx:58-61 | nothing makes a hidden message visible again |
| Message.HoverPausesTimer | src/components/message/index.tsx:67-68 | while hovered no timeout can close the message, and leaving arms exactly one fresh timeout |
| Message.MessageBox.constructor | src/components/message/index.tsx:37-45 | a new instance is in the `Initial` state |
| Message.MessageBox.ClearTimer | src/components/message/index.tsx:55-57 | the instance's new state is `AfterClearTimer` of the old |
| Message.MessageBox.StartTimer | src/components/message/index.tsx:48-54 | the instance's new state is `AfterStartTimer` of the old |
| Message.MessageBox.Close | src/components/message/index.tsx:58-72 | the instance's new state is `AfterClose` of the old |
| Message.MessageBox.Expire | src/components/message/index.tsx:53 | the instance's new state is `AfterExpire` of the old |
| Message.MessageBox.HandleMouseEnter | src/components/message/index.tsx:67 | the instance follows the trace semantics for a mouse enter |
| Message.MessageBox.HandleMouseLeave | src/components/message/index.tsx:68 | the instance follows the trace semantics for a mouse leave |
| PackageMessage.WithDefaults | packages/components/message/src/index.tsx:13-17 | the package defaults equal the application copy's |
| PackageMessage.BadgeType | packages/components/message/src/index.tsx:26 | the package badge type equals the application copy's; danger exactly for `error` |
| PackageMessage.MessageBox.constructor | packages/components/message/src/index.tsx:24-32 | a new instance is in the application copy's `Initial` state, which keeps the one-timer invariant |
| PackageMessage.MessageBox.StartTimer | packages/components/message/src/index.tsx:35-41 | follows `Message.AfterStartTimer` |
| PackageMessage.MessageBox.ClearTimer | packages/components/message/src/index.tsx:42-44 | follows `Message.AfterClearTimer` |
| PackageMessage.MessageBox.Close | packages/components/message/src/index.tsx:45-48 | follows `Message.AfterClose` |
| PackageMessage.MessageBox.Expire | packages/components/message/src/index.tsx:40 | follows `Message.AfterExpire` |
| PackageMessage.MessageBox.Handle | packages/components/message/src/index.tsx:54-59 | every event follows the application copy's trace semantics |
| Backtop.WithDefaults | src/components/backtop/index.tsx:23-27 | visibilityHeight 200, right 40, bottom 40 unless given |
| Backtop.Initial | src/components/backtop/index.tsx:32-34 | hidden, watching the document element, not yet listening |
| Backtop.HasTarget | src/components/backtop/index.tsx:42 | `props.target` is a non-empty string |
| Backtop.AfterMount | src/components/backtop/index.tsx:41-50 | a matched target is watched and the listener attached; an unmatched one leaves no element and no listener; no target just attaches the listener |
| Backtop.MountOutcome | src/components/backtop/index.tsx:42-46 | mounting throws exactly for an unmatched target, with the library's message |
| Backtop.AfterHandleScroll | src/components/backtop/index.tsx:51-55 | with an element, visible iff its scroll offset reaches `visibilityHeight`; without one nothing changes |
| Backtop.AfterScrollEvent | src/components/backtop/index.tsx:48-49 | scroll events reach the handler only once the listener is attached |
| Backtop.ScrollToTop | src/components/backtop/index.tsx:56-61 | a smooth scroll to 0 of the watched element, or nothing without one |
| Backtop.VisibleTracksLastScroll | src/components/backtop/index.tsx:51-55 | after a successful mount, visibility depends on the last scroll only |
| Backtop.FailedMountStaysHidden | src/components/backtop/index.tsx:42-55 | after a failed mount the button never appears and clicking it does nothing |
| Backtop.Unchanged | src/components/backtop/index.tsx:48-55 | without a listener or an element, scroll events change nothing |
| Backtop.BacktopBox.constructor | src/components/backtop/index.tsx:30-34 | a new instance is in the `Initial` state |
| Backtop.BacktopBox.Mount | src/components/backtop/index.tsx:41-50 | the new state is `AfterMount` and the outcome is `MountOutcome` |
| Backtop.BacktopBox.HandleScroll | src/components/backtop/index.tsx:51-55 | the instance's new state is `AfterHandleScroll` of the old |
| Backtop.BacktopBox.ScrollToTopRequest | src/components/backtop/index.tsx:56-61 | the request is `ScrollToTop` of the state, always to position 0 |
| Button.Pick | src/components/button/button.tsx:34 | the caller's value wins over the configured one, which wins over the default |
| Button.Merge | src/components/button/button.tsx:29-34 | each merged prop is picked from the caller, the configuration and the defaults; type, size, nativeType and loadingIcon are always set |
| Button.ResolvedType | src/components/button/button.tsx:46 | the caller's own type, else the group's, else the configured or default type |
| Button.ResolvedSize | src/components/button/button.tsx:44 | `useSize` with the group as props and the merged size as fallback; always set |
| Button.Disabled | src/components/button/button.tsx:46 | disabled iff the merged prop or the form says so |
| Button.DisabledAttribute | src/components/button/button.tsx:70-71 | disabled iff the prop, `loading` or the form says so |
| Button.ShownIcon | src/components/button/button.tsx:76-77 | an icon shows iff loading or a non-empty icon is set; loading shows the loading icon |
| Button.TrimStart | src/components/button/button.tsx:52 | drops the leading whitespace only, leaving a suffix that starts with non-space |
| Button.TrimEnd | src/components/button/button.tsx:52 | drops the trailing whitespace only, leaving a prefix that ends with non-space |
| Button.LeadingSpaces | src/components/button/button.tsx:52 | the count of leading whitespace: every character before it is whitespace and the next one is not |
| Button.Trim | src/components/button/button.tsx:52 | the trimmed text is the slice of the input just after its leading whitespace, everything after the slice is whitespace, and it begins and ends with non-space |
| Button.ShouldAddSpace | src/components/button/button.tsx:49-55 | a space is added only with `autoInsertSpace`, text children and exactly two ideographs after trimming |
| Button.TrimStartSkipsSpaces | src/components/button/button.tsx:52 | leading whitespace before a non-space is removed exactly |
| Button.TrimEndSkipsSpaces | src/components/button/button.tsx:52 | trailing whitespace after a non-space is removed exactly |
| Button.PaddedIdeographPairAddsSpace | src/components/button/button.tsx:49-55 | two ideographs with any surrounding whitespace get the extra space |
| Button.GroupSizeBeatsOwnSize | src/components/button/button.tsx:43-44 | inside a sized group the button's own size is ignored |
| Button.MergedSizeBeatsForm | src/components/button/button.tsx:34-44 | outside a sized group the merged size wins, so the form and global size are never consulted |
| Button.LoadingButton | src/components/button/button.tsx:70-77 | a loading button is disabled and shows the loading icon |
| Popconfirm.MergeProps | src/components/popconfirm/index.tsx:34 | the merged keys are the defaults plus the caller's defined ones; a defined own value wins |
| Popconfirm.SplitProps | src/components/popconfirm/index.tsx:36 | the kept part has exactly the listed keys, the rest the others, with unchanged values |
| Popconfirm.SplitIsPartition | src/components/popconfirm/index.tsx:36 | the two parts are disjoint and together give the props back |
| Popconfirm.ForwardedProps | src/components/popconfirm/index.tsx:34-36 | the popover receives exactly the non-local keys of the defaults and the caller's defined props, each with the caller's value when defined and the default otherwise |
| Popconfirm.DefaultsReachPopover | src/components/popconfirm/index.tsx:23-31 | unless overridden, the popover opens on click and hides after 200 ms |
| Popconfirm.BindButton | src/components/popconfirm/index.tsx:70-79 | a `text` type becomes a text button with no type, any other type passes through |
| Popconfirm.BindButtonRoundTrip | src/components/popconfirm/index.tsx:70-79 | the configured type can be read back from the binding |
| Popconfirm.DefaultButtonBindings | src/components/popconfirm/index.tsx:68-80 | by default the cancel button is a text button and the confirm button primary |
| Popconfirm.ButtonLabel | src/components/popconfirm/index.tsx:41-42 | a non-empty explicit label wins over the locale's |
| Popconfirm.AfterConfirm | src/components/popconfirm/index.tsx:44-51 | calls `onConfirm`, then hides the popper |
| Popconfirm.AfterCancel | src/components/popconfirm/index.tsx:44-55 | calls `onCancel`, then hides the popper |
| Popconfirm.BothButtonsHide | src/components/popconfirm/index.tsx:44-55 | both buttons leave the popper in the same hidden state with no content rendered |
| Popconfirm.PopconfirmBox.constructor | src/components/popconfirm/index.tsx:39-58 | the instance holds the popover's popper and has made no calls |
| Popconfirm.PopconfirmBox.Confirm | src/components/popconfirm/index.tsx:48-51 | the calls and the popper's state follow `AfterConfirm` |
| Popconfirm.PopconfirmBox.Cancel | src/components/popconfirm/index.tsx:52-55 | the calls and the popper's state follow `AfterCancel` |
| Avatar.WithDefaults | src/components/avatar/index.tsx:21-24 | shape circle and fit cover unless given |
| Avatar.DisplayOf | src/components/avatar/index.tsx:54-61 | the image iff a source is set and has not failed; else the icon if set; else the children |
| Avatar.SizeVar | src/components/avatar/index.tsx:31-39 | the size variable exactly for a numeric size, with that size |
| Avatar.SizeClass | src/components/avatar/index.tsx:50 | the size class exactly for a named size |
| Avatar.SizeVarOrClass | src/components/avatar/index.tsx:31-50 | a size gives the variable or the class, never both |
| Avatar.Initial | src/components/avatar/index.tsx:30 | no load error, no `onError` call |
| Avatar.AfterError | src/components/avatar/index.tsx:43-46 | the failure is remembered and `onError` called once |
| Avatar.AfterSrcChange | src/components/avatar/index.tsx:40-42 | a new source forgets the failure |
| Avatar.ErrorFallsBack | src/components/avatar/index.tsx:43-61 | a failed image falls back to the icon, or to the children without one |
| Avatar.NewSrcRetriesImage | src/components/avatar/index.tsx:40-55 | a new, non-empty source shows the image again after a failure |
| Avatar.AvatarBox.constructor | src/components/avatar/index.tsx:27-30 | a new instance is in the `Initial` state |
| Avatar.AvatarBox.HandleError | src/components/avatar/index.tsx:43-46 | the instance's new state is `AfterError` of the old |
| Avatar.AvatarBox.SetSrc | src/components/avatar/index.tsx:40-42 | the prop is replaced; the failure is forgotten only when the source changed |

## Left out

- Rendering is not modelled: the JSX trees, class names, `Portal`, `Transition`, icons and headers. Only the values they read are modelled.
- Popper: floating-ui's `computePosition`, the coordinates and the arrow offsets. Only the middleware list and the arrow's static side are modelled.
- Popper: the second effect, which positions the content when it becomes visible. Also `mountTo`, `strategy`, `effect` and `transition`.
- Popper: `useClickOutside`, the `debounce(hide, hideAfter)` it installs and its cleanup. `hideAfter` is only checked as a prop.
- Popper.Popper.SetVisibleProp: the effect is taken to run on every change of the prop. Solid's scheduling is not modelled.
- Dialog: `useZIndex` is the `nextIndex` parameter and `isServer` is a parameter.
- Dialog: `useLockscreen` and the `useEscapeKeydown` listener are not modelled. The escape binding is modelled as the `escClosable` guard.
- Dialog: of `useDraggable` only the `onEnd` position is modelled.
- Dialog: `nextTick(onOpen/onClose)` is modelled as a scheduled notice. When the callback later runs is not modelled.
- Dialog.Dialog.SetVisibleProp: the visible effect also re-runs `doOpen` when the `zIndex` prop changes while open. Only changes of `visible` are modelled.
- SwitchBox: `beforeChange` promises are modelled by their settled outcome. The change that follows a resolution is applied in the same step, not later.
- SwitchBox: `EVENT_CODE.enter` is taken to be `"Enter"`. The aria constants file is not part of this model.
- SwitchBox: the `focus` instance method is not modelled. Nor is the `formItem.validate('change')` effect on `checked`.
- Input: the `formItem.validate` calls and the `debugWarn` of their failures are not modelled.
- Input: the `focus`/`blur`/`select` instance methods call the DOM and are not modelled. The focus request of the password toggle is logged as an effect.
- Input: `useSize`, the status icon and the textarea layout only reach the rendering.
- Affix: `useElementBounding`, `useWindowSize` and `getScrollContainer` are not modelled. Their values are the `Measurements` and container parameters.
- Affix: the `console.log` in `update` is not modelled. The `zIndex` prop is declared and defaults to 100, but the source never reads it, so no style carries it.
- Affix: `getScrollContainer(root)` is taken to succeed. `update` re-runs whenever a measurement is given.
- Message: `useZIndex`, the style, the `TypeIconMap` icon and the `instances` list are not modelled.
- Message: `onClose` is never called by the source, so it is not modelled. Nor is `e.stopPropagation()`.
- Backtop: `throttle(handleScroll, 300)` is not modelled. Each scroll event in a trace is one that passed the throttle.
- Backtop: `useEventListener`'s cleanup is not modelled.
- Button: the `Unified_Ideograph` Unicode property is the `isIdeograph` parameter.
- Button: the `splitProps` of attributes is not modelled, and `children()` is resolved to text or other.
- Popconfirm: `Popover` is not part of this model. Its popper is modelled by `Popper.Popper`, and it receives the forwarded props as a map.
- Popconfirm: the locale function `t` is a parameter of `ButtonLabel`.
- Popconfirm: `addUnit` of the width is not modelled. The `style` merge is not either.
- Avatar: `addUnit` of a numeric size is not modelled. The size variable carries the number.
- Numbers are integers throughout: NaN, fractions and how JavaScript prints floating-point values are not modelled.
- Dialog and Popconfirm: exceptions are not modelled. A `beforeClose` promise that rejects leaves an unhandled rejection from the un-awaited async `handleClose` (src/components/dialog/index.tsx:120-125). An `onConfirm` or `onCancel` that throws skips `hidePopper()` (src/components/popconfirm/index.tsx:48-55).
- Optional callbacks: when the caller passes none, the source's `?.()` does nothing. The logs record where each call would happen.

## Findings

| source | as written | input that shows it | evidently intended | confidence | as-written member | corrected member |
|---|---|---|---|---|---|---|
| src/components/input/index.tsx:216 | the inner element's `type` keys on `showWordLimit` | a text input with `showWordLimit` is rendered as a password field; a `type="password"` input with `showPassword` stays masked after its toggle | key on `showPassword`, the option that shows the toggle and `handlePasswordVisible` belongs to | not executed | Input.InnerTypeAsWrittenMasksWordLimit | Input.PasswordToggleSwitchesInnerType |
| src/components/affix/index.tsx:89-92 | position `top` with a `target` sets `transform` but never `fixed`, so both style records stay empty and the computed shift is never shown | `position: 'top'`, a target, the root scrolled past the offset with the target still in view: stays unpinned forever | pin as the other branches do, using the offset line while the target's bottom is in view | not executed | Affix.TopTargetNeverPinsAsWritten | Affix.TopTargetPins |
