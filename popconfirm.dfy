/** `Popconfirm`: a popover with a cancel and a confirm button. Its props
    are merged with the defaults and split into the ones it keeps and the ones
    it forwards to the popover; each button's `type` is mapped to the button's
    `type` and `text` props; confirming or cancelling calls the matching
    callback and then hides the popper. */
module Popconfirm {
  import opened Common
  import Popper

  /** A props object: the keys a caller set, with their values. */
  type PropBag = map<string, JsValue>

  const DefaultProps: PropBag := map[
    "confirmButtonType" := Str("primary"),
    "cancelButtonType" := Str("text"),
    "iconColor" := Str("#f90"),
    "icon" := Str("ep:question-filled"),
    "hideAfter" := Num(200),
    "width" := Num(150),
    "trigger" := Str("click")]

  /** The keys `splitProps` keeps for the component itself. */
  const LocalKeys: set<string> := {
    "class", "style", "title", "confirmButtonText", "confirmButtonType", "cancelButtonText",
    "cancelButtonType", "icon", "iconColor", "onConfirm", "onCancel", "width"}

  /** `mergeProps(defaults, own)`: an own value that is not `undefined` wins. */
  function MergeProps(defaults: PropBag, own: PropBag): (m: PropBag)
    ensures forall k :: k in m <==> k in defaults || (k in own && own[k] != Undefined)
    ensures forall k :: k in own && own[k] != Undefined ==> m[k] == own[k]
    ensures forall k :: k in defaults && !(k in own && own[k] != Undefined) ==> m[k] == defaults[k]
  {
    map k | k in defaults.Keys + own.Keys && (k in defaults || own[k] != Undefined) ::
      if k in own && own[k] != Undefined then own[k] else defaults[k]
  }

  /** `splitProps(props, keys)`: the kept part and the rest. */
  function SplitProps(m: PropBag, keys: set<string>): (r: (PropBag, PropBag))
    ensures r.0.Keys == m.Keys * keys && r.1.Keys == m.Keys - keys
    ensures forall k :: k in r.0 ==> r.0[k] == m[k]
    ensures forall k :: k in r.1 ==> r.1[k] == m[k]
  {
    (map k | k in m && k in keys :: m[k], map k | k in m && k !in keys :: m[k])
  }

  /** The two halves of a split put back together give the props again. */
  lemma SplitIsPartition(m: PropBag, keys: set<string>)
    ensures SplitProps(m, keys).0 + SplitProps(m, keys).1 == m
    ensures SplitProps(m, keys).0.Keys !! SplitProps(m, keys).1.Keys
  {
    var (l, r) := SplitProps(m, keys);
    assert (l + r).Keys == m.Keys;
  }

  /** What the popover receives: every merged prop except the local ones. */
  function ForwardedProps(own: PropBag): (f: PropBag)
    ensures forall k :: k in f <==> k !in LocalKeys && (k in DefaultProps || (k in own && own[k] != Undefined))
    ensures forall k :: k in f ==> f[k] == (if k in own && own[k] != Undefined then own[k] else DefaultProps[k])
  {
    SplitProps(MergeProps(DefaultProps, own), LocalKeys).1
  }

  /** Unless the caller overrides them, the popover opens on click and hides
      after 200 ms. */
  lemma DefaultsReachPopover(own: PropBag)
    requires "trigger" !in own && "hideAfter" !in own
    ensures "trigger" in ForwardedProps(own) && ForwardedProps(own)["trigger"] == Str("click")
    ensures "hideAfter" in ForwardedProps(own) && ForwardedProps(own)["hideAfter"] == Num(200)
  {
    var m := MergeProps(DefaultProps, own);
    assert "trigger" in m && "hideAfter" in m;
    assert m["trigger"] == Str("click");
    assert m["hideAfter"] == Num(200);
    assert "trigger" !in LocalKeys;
    assert "hideAfter" !in LocalKeys;
  }

  /** The `type` and `text` props one inner button receives. */
  datatype ButtonBinding = ButtonBinding(buttonType: JsValue, text: bool)

  /** `type === 'text' ? undefined : type`, with `text = type === 'text'`. */
  function BindButton(t: JsValue): (b: ButtonBinding)
    ensures b.text <==> t == Str("text")
    ensures b.text ==> b.buttonType == Undefined
    ensures !b.text ==> b.buttonType == t
  {
    if t == Str("text") then ButtonBinding(Undefined, true) else ButtonBinding(t, false)
  }

  /** Reading the configured button type back from a binding. */
  function UnbindButton(b: ButtonBinding): JsValue {
    if b.text then Str("text") else b.buttonType
  }

  /** The mapping loses nothing. */
  lemma BindButtonRoundTrip(t: JsValue)
    ensures UnbindButton(BindButton(t)) == t
  {
  }

  /** With the defaults the cancel button is a text button and the confirm
      button a primary one. */
  lemma DefaultButtonBindings(own: PropBag)
    requires "cancelButtonType" !in own && "confirmButtonType" !in own
    ensures BindButton(MergeProps(DefaultProps, own)["cancelButtonType"]) == ButtonBinding(Undefined, true)
    ensures BindButton(MergeProps(DefaultProps, own)["confirmButtonType"]) == ButtonBinding(Str("primary"), false)
  {
    assert "cancelButtonType" in DefaultProps && "confirmButtonType" in DefaultProps;
  }

  /** `text || t(key)`: the explicit label when non-empty, else the locale's. */
  function ButtonLabel(explicit: Option<string>, localeText: string): (l: string)
    ensures explicit.Some? && explicit.value != "" ==> l == explicit.value
    ensures explicit.None? || explicit.value == "" ==> l == localeText
  {
    if explicit.Some? && explicit.value != "" then explicit.value else localeText
  }

  /** `onConfirm`/`onCancel` calls, in order. */
  datatype PopconfirmCall = Confirmed | Cancelled

  /** `confirm`: call `onConfirm`, then `popper.hide()`. */
  function AfterConfirm(calls: seq<PopconfirmCall>, popperProps: Popper.PopperProps,
                        popper: Popper.PopperState): (r: (seq<PopconfirmCall>, Popper.PopperState))
    ensures r.0 == calls + [Confirmed]
    ensures r.1 == Popper.AfterHide(popperProps, popper)
    ensures !r.1.visible && r.1.calls == popper.calls + [Popper.OnHide]
  {
    (calls + [Confirmed], Popper.AfterHide(popperProps, popper))
  }

  /** `cancel`: call `onCancel`, then `popper.hide()`. */
  function AfterCancel(calls: seq<PopconfirmCall>, popperProps: Popper.PopperProps,
                       popper: Popper.PopperState): (r: (seq<PopconfirmCall>, Popper.PopperState))
    ensures r.0 == calls + [Cancelled]
    ensures r.1 == Popper.AfterHide(popperProps, popper)
    ensures !r.1.visible && r.1.calls == popper.calls + [Popper.OnHide]
  {
    (calls + [Cancelled], Popper.AfterHide(popperProps, popper))
  }

  /** Both buttons close the popover, even a disabled one, and leave it in the
      same state. */
  lemma BothButtonsHide(calls: seq<PopconfirmCall>, popperProps: Popper.PopperProps, popper: Popper.PopperState)
    ensures AfterConfirm(calls, popperProps, popper).1 == AfterCancel(calls, popperProps, popper).1
    ensures !AfterConfirm(calls, popperProps, popper).1.visible
    ensures !Popper.ContentRendered(popperProps, AfterConfirm(calls, popperProps, popper).1)
  {
  }

  /** A popconfirm instance, holding the popper its popover exposes. */
  class PopconfirmBox {
    const popper: Popper.Popper
    var calls: seq<PopconfirmCall>

    constructor (popper: Popper.Popper)
      ensures this.popper == popper && calls == []
    {
      this.popper := popper;
      calls := [];
    }

    method Confirm()
      modifies this`calls, popper`visible, popper`calls
      ensures (calls, popper.State()) == AfterConfirm(old(calls), popper.props, old(popper.State()))
    {
      calls := calls + [Confirmed];
      popper.Hide();
    }

    method Cancel()
      modifies this`calls, popper`visible, popper`calls
      ensures (calls, popper.State()) == AfterCancel(old(calls), popper.props, old(popper.State()))
    {
      calls := calls + [Cancelled];
      popper.Hide();
    }
  }
}
