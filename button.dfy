/** `Button`: how its props merge with the global button configuration, and
    how its type, size, disabled attribute, icon and ideograph spacing are
    resolved from the merged props, the button group and the form. */
module Button {
  import opened Common
  import CommonProps

  datatype ButtonType = DefaultType | PrimaryType | SuccessType | WarningType | InfoType | DangerType

  datatype NativeType = ButtonNative | ResetNative | SubmitNative

  /** The props this component reads, each possibly unset. The same shape
      serves for the defaults, the global `config.button` and the caller's props. */
  datatype ButtonSettings = ButtonSettings(
    buttonType: Option<ButtonType>,
    size: Option<ComponentSize>,
    nativeType: Option<NativeType>,
    loadingIcon: Option<string>,
    icon: Option<string>,
    disabled: Option<bool>,
    loading: Option<bool>,
    autoInsertSpace: Option<bool>)

  /** The enclosing button group's context; outside a group both are unset. */
  datatype GroupContext = GroupContext(size: Option<ComponentSize>, buttonType: Option<ButtonType>)

  /** What the button's children resolve to: a plain string or anything else. */
  datatype Children = TextChildren(text: string) | OtherChildren | NoChildren

  /** size `default`, type `default`, nativeType `button`, loadingIcon `ep:loading`. */
  const Defaults: ButtonSettings :=
    ButtonSettings(Some(DefaultType), Some(Default), Some(ButtonNative), Some("ep:loading"), None, None, None, None)

  /** `mergeProps` for one prop: the last source that defines it wins. */
  function Pick<T>(own: Option<T>, config: Option<T>, fallback: Option<T>): (r: Option<T>)
    ensures own.Some? ==> r == own
    ensures own.None? && config.Some? ==> r == config
    ensures own.None? && config.None? ==> r == fallback
  {
    if own.Some? then own else if config.Some? then config else fallback
  }

  /** `mergeProps(defaultProps, config.button || {}, props)` */
  function Merge(config: ButtonSettings, own: ButtonSettings): (m: ButtonSettings)
    ensures m.buttonType.Some? && m.size.Some? && m.nativeType.Some? && m.loadingIcon.Some?
    ensures m.nativeType == Pick(own.nativeType, config.nativeType, Some(ButtonNative))
    ensures m.loadingIcon == Pick(own.loadingIcon, config.loadingIcon, Some("ep:loading"))
    ensures m.buttonType == Pick(own.buttonType, config.buttonType, Some(DefaultType))
    ensures m.size == Pick(own.size, config.size, Some(Default))
    ensures m.icon == Pick(own.icon, config.icon, None) && m.disabled == Pick(own.disabled, config.disabled, None)
    ensures m.loading == Pick(own.loading, config.loading, None)
    ensures m.autoInsertSpace == Pick(own.autoInsertSpace, config.autoInsertSpace, None)
  {
    ButtonSettings(
      Pick(own.buttonType, config.buttonType, Defaults.buttonType),
      Pick(own.size, config.size, Defaults.size),
      Pick(own.nativeType, config.nativeType, Defaults.nativeType),
      Pick(own.loadingIcon, config.loadingIcon, Defaults.loadingIcon),
      Pick(own.icon, config.icon, Defaults.icon),
      Pick(own.disabled, config.disabled, Defaults.disabled),
      Pick(own.loading, config.loading, Defaults.loading),
      Pick(own.autoInsertSpace, config.autoInsertSpace, Defaults.autoInsertSpace))
  }

  /** An optional flag read as a boolean. */
  predicate Flag(b: Option<bool>) {
    b == Some(true)
  }

  /** `_props.type || group.type || props.type` */
  function ResolvedType(config: ButtonSettings, own: ButtonSettings, group: GroupContext): (t: ButtonType)
    ensures own.buttonType.Some? ==> t == own.buttonType.value
    ensures own.buttonType.None? && group.buttonType.Some? ==> t == group.buttonType.value
    ensures own.buttonType.None? && group.buttonType.None? ==>
              t == (if config.buttonType.Some? then config.buttonType.value else DefaultType)
  {
    if own.buttonType.Some? then own.buttonType.value
    else if group.buttonType.Some? then group.buttonType.value
    else Merge(config, own).buttonType.value
  }

  /** `useSize(buttonGroupContext, () => props.size)`: the group is passed as
      the props, the button's own merged size as the fallback. */
  function ResolvedSize(merged: ButtonSettings, group: GroupContext, ctx: CommonProps.Contexts,
                        globalSize: Option<ComponentSize>): (r: Option<ComponentSize>)
    ensures r == CommonProps.UseSize(group.size, merged.size, ctx, globalSize)
    ensures merged.size.Some? ==> r.Some?
  {
    CommonProps.UseSize(group.size, merged.size, ctx, globalSize)
  }

  /** `useDisabled(props)`: the merged prop or the form. */
  function Disabled(merged: ButtonSettings, ctx: CommonProps.Contexts): (d: bool)
    ensures d <==> Flag(merged.disabled) || CommonProps.FormDisabled(ctx)
  {
    CommonProps.UseDisabled(Flag(merged.disabled), false, ctx)
  }

  /** The `disabled` and `aria-disabled` attributes. */
  function DisabledAttribute(merged: ButtonSettings, ctx: CommonProps.Contexts): (d: bool)
    ensures d <==> Flag(merged.disabled) || Flag(merged.loading) || CommonProps.FormDisabled(ctx)
  {
    Disabled(merged, ctx) || Flag(merged.loading)
  }

  /** The icon shown before the text: the loading icon while loading, else the
      `icon` prop when it is a non-empty string, else none. */
  function ShownIcon(merged: ButtonSettings): (r: Option<string>)
    requires merged.loadingIcon.Some?
    ensures r.Some? <==> Flag(merged.loading) || (merged.icon.Some? && merged.icon.value != "")
    ensures Flag(merged.loading) ==> r == merged.loadingIcon
    ensures !Flag(merged.loading) && r.Some? ==> r == merged.icon
  {
    if Flag(merged.loading) then merged.loadingIcon
    else if merged.icon.Some? && merged.icon.value != "" then merged.icon
    else None
  }

  /** The characters `String.prototype.trim` removes. */
  predicate IsSpace(c: char) {
    c == '\t' || c == '\n' || c == '\U{B}' || c == '\U{C}' || c == '\r' || c == ' ' ||
    c == '\U{A0}' || c == '\U{1680}' || ('\U{2000}' <= c <= '\U{200A}') || c == '\U{2028}' ||
    c == '\U{2029}' || c == '\U{202F}' || c == '\U{205F}' || c == '\U{3000}' || c == '\U{FEFF}'
  }

  function TrimStart(s: string): (r: string)
    ensures |r| <= |s| && r == s[|s| - |r|..]
    ensures forall i :: 0 <= i < |s| - |r| ==> IsSpace(s[i])
    ensures |r| > 0 ==> !IsSpace(r[0])
    decreases |s|
  {
    if |s| > 0 && IsSpace(s[0]) then TrimStart(s[1..]) else s
  }

  function TrimEnd(s: string): (r: string)
    ensures |r| <= |s| && r == s[..|r|]
    ensures forall i :: |r| <= i < |s| ==> IsSpace(s[i])
    ensures |r| > 0 ==> !IsSpace(r[|r| - 1])
    decreases |s|
  {
    if |s| > 0 && IsSpace(s[|s| - 1]) then TrimEnd(s[..|s| - 1]) else s
  }

  /** How many whitespace characters `trim` removes from the front. */
  function LeadingSpaces(s: string): (n: nat)
    ensures n <= |s|
    ensures forall j :: 0 <= j < n ==> IsSpace(s[j])
    ensures n < |s| ==> !IsSpace(s[n])
  {
    |s| - |TrimStart(s)|
  }

  /** `text.trim()`: `s` less its whitespace prefix and its whitespace suffix. */
  function Trim(s: string): (r: string)
    ensures LeadingSpaces(s) + |r| <= |s|
    ensures r == s[LeadingSpaces(s)..LeadingSpaces(s) + |r|]
    ensures forall j :: LeadingSpaces(s) + |r| <= j < |s| ==> IsSpace(s[j])
    ensures |r| == 0 || (!IsSpace(r[0]) && !IsSpace(r[|r| - 1]))
  {
    var t := TrimStart(s);
    var r := TrimEnd(t);
    TrimEndOfSuffix(s, t, r);
    r
  }

  /** Cutting a whitespace tail off a suffix of `s` leaves a slice of `s`
      followed only by whitespace. */
  lemma TrimEndOfSuffix(s: string, t: string, r: string)
    requires |t| <= |s| && t == s[|s| - |t|..]
    requires |r| <= |t| && r == t[..|r|]
    requires forall j :: |r| <= j < |t| ==> IsSpace(t[j])
    ensures r == s[|s| - |t|..|s| - |t| + |r|]
    ensures forall j :: |s| - |t| + |r| <= j < |s| ==> IsSpace(s[j])
  {
    var n := |s| - |t|;
    forall j | n + |r| <= j < |s| ensures IsSpace(s[j]) {
      assert s[j] == t[j - n];
    }
  }

  /** `shouldAddSpace()`: `isIdeograph` stands for the `Unified_Ideograph`
      Unicode property. */
  function ShouldAddSpace(merged: ButtonSettings, children: Children, isIdeograph: char -> bool): (b: bool)
    ensures b ==> Flag(merged.autoInsertSpace) && children.TextChildren?
    ensures b ==> |Trim(children.text)| == 2 && isIdeograph(Trim(children.text)[0]) &&
                  isIdeograph(Trim(children.text)[1])
  {
    if Flag(merged.autoInsertSpace) && children.TextChildren? then
      var t := Trim(children.text);
      |t| == 2 && isIdeograph(t[0]) && isIdeograph(t[1])
    else false
  }

  lemma {:induction false} TrimStartSkipsSpaces(pre: string, s: string)
    requires forall i :: 0 <= i < |pre| ==> IsSpace(pre[i])
    requires |s| > 0 && !IsSpace(s[0])
    ensures TrimStart(pre + s) == s
    decreases |pre|
  {
    if |pre| > 0 {
      assert (pre + s)[1..] == pre[1..] + s;
      TrimStartSkipsSpaces(pre[1..], s);
    }
  }

  lemma {:induction false} TrimEndSkipsSpaces(s: string, post: string)
    requires forall i :: 0 <= i < |post| ==> IsSpace(post[i])
    requires |s| > 0 && !IsSpace(s[|s| - 1])
    ensures TrimEnd(s + post) == s
    decreases |post|
  {
    if |post| > 0 {
      assert (s + post)[..|s + post| - 1] == s + post[..|post| - 1];
      TrimEndSkipsSpaces(s, post[..|post| - 1]);
    }
  }

  /** Two ideographs with any surrounding whitespace get the extra space when
      `autoInsertSpace` is on. */
  lemma PaddedIdeographPairAddsSpace(merged: ButtonSettings, pre: string, a: char, b: char, post: string,
                                     isIdeograph: char -> bool)
    requires Flag(merged.autoInsertSpace)
    requires isIdeograph(a) && isIdeograph(b) && !IsSpace(a) && !IsSpace(b)
    requires forall i :: 0 <= i < |pre| ==> IsSpace(pre[i])
    requires forall i :: 0 <= i < |post| ==> IsSpace(post[i])
    ensures ShouldAddSpace(merged, TextChildren(pre + [a, b] + post), isIdeograph)
  {
    assert pre + [a, b] + post == pre + ([a, b] + post);
    TrimStartSkipsSpaces(pre, [a, b] + post);
    TrimEndSkipsSpaces([a, b], post);
  }

  /** Inside a group that sets a size, the button's own size is ignored. */
  lemma GroupSizeBeatsOwnSize(config: ButtonSettings, own: ButtonSettings, group: GroupContext,
                              ctx: CommonProps.Contexts, globalSize: Option<ComponentSize>)
    requires group.size.Some?
    ensures ResolvedSize(Merge(config, own), group, ctx, globalSize) == group.size
  {
  }

  /** Outside a sized group, the merged size (own, else configured, else
      `default`) wins, so the form and the global size are never consulted. */
  lemma MergedSizeBeatsForm(config: ButtonSettings, own: ButtonSettings, group: GroupContext,
                            ctx: CommonProps.Contexts, globalSize: Option<ComponentSize>)
    requires group.size.None?
    ensures ResolvedSize(Merge(config, own), group, ctx, globalSize) == Merge(config, own).size
    ensures own.size.Some? ==> ResolvedSize(Merge(config, own), group, ctx, globalSize) == own.size
  {
  }

  /** A loading button is disabled and shows the loading icon. */
  lemma LoadingButton(config: ButtonSettings, own: ButtonSettings, ctx: CommonProps.Contexts)
    requires own.loading == Some(true)
    ensures DisabledAttribute(Merge(config, own), ctx)
    ensures ShownIcon(Merge(config, own)) == Pick(own.loadingIcon, config.loadingIcon, Some("ep:loading"))
  {
  }
}
