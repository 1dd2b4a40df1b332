/** The inherited-prop hooks `useSize` and `useDisabled`: a component's size and
    disabled flag fall back, in a fixed order, to an explicit fallback, the
    enclosing form item, the enclosing form and the global configuration. */
module CommonProps {
  import opened Common

  /** The form context as far as these hooks read it. */
  datatype FormContext = FormContext(size: Option<ComponentSize>, disabled: bool)

  /** The form-item context as far as these hooks read it. */
  datatype FormItemContext = FormItemContext(size: Option<ComponentSize>)

  /** What `useFormItem` finds around a component; either context may be missing. */
  datatype Contexts = Contexts(form: Option<FormContext>, formItem: Option<FormItemContext>)

  /** `formItem?.size` */
  function FormItemSize(ctx: Contexts): Option<ComponentSize> {
    if ctx.formItem.Some? then ctx.formItem.value.size else None
  }

  /** `form?.size` */
  function FormSize(ctx: Contexts): Option<ComponentSize> {
    if ctx.form.Some? then ctx.form.value.size else None
  }

  /** `form?.disabled`, with `undefined` read as false. */
  function FormDisabled(ctx: Contexts): bool {
    ctx.form.Some? && ctx.form.value.disabled
  }

  /** The reference definition of a `||` chain over optional sizes: the first
      candidate that is set, or nothing when none is. */
  function FirstSet<T>(candidates: seq<Option<T>>): (r: Option<T>)
    ensures r.None? <==> forall i :: 0 <= i < |candidates| ==> candidates[i].None?
    ensures r.Some? ==>
      exists i :: 0 <= i < |candidates| && candidates[i] == r &&
        forall j :: 0 <= j < i ==> candidates[j].None?
  {
    if |candidates| == 0 then None
    else if candidates[0].Some? then candidates[0]
    else
      var rest := FirstSet(candidates[1..]);
      assert forall i :: 1 <= i < |candidates| ==> candidates[i] == candidates[1..][i - 1];
      rest
  }

  /** `props.size || fallback || formItem?.size || form?.size || globalSize`.
      Every `ComponentSize` is a non-empty string, so `||` picks the first one set. */
  function UseSize(propSize: Option<ComponentSize>, fallback: Option<ComponentSize>,
                   ctx: Contexts, globalSize: Option<ComponentSize>): (r: Option<ComponentSize>)
    ensures propSize.Some? ==> r == propSize
    ensures r.None? <==> propSize.None? && fallback.None? && FormItemSize(ctx).None? &&
                         FormSize(ctx).None? && globalSize.None?
  {
    if propSize.Some? then propSize
    else if fallback.Some? then fallback
    else if FormItemSize(ctx).Some? then FormItemSize(ctx)
    else if FormSize(ctx).Some? then FormSize(ctx)
    else globalSize
  }

  /** `props.disabled || fallback || form?.disabled`, read as a boolean. */
  function UseDisabled(propDisabled: bool, fallback: bool, ctx: Contexts): (r: bool)
    ensures r <==> propDisabled || fallback || (ctx.form.Some? && ctx.form.value.disabled)
  {
    propDisabled || fallback || FormDisabled(ctx)
  }

  /** Unfolding one step of `FirstSet`. */
  lemma FirstSetCons<T>(head: Option<T>, tail: seq<Option<T>>)
    ensures FirstSet([head] + tail) == if head.Some? then head else FirstSet(tail)
  {
    assert ([head] + tail)[1..] == tail;
  }

  /** `useSize` is the first set candidate in the order prop, fallback, form
      item, form, global configuration. */
  lemma UseSizeIsFirstSet(propSize: Option<ComponentSize>, fallback: Option<ComponentSize>,
                          ctx: Contexts, globalSize: Option<ComponentSize>)
    ensures UseSize(propSize, fallback, ctx, globalSize)
         == FirstSet([propSize, fallback, FormItemSize(ctx), FormSize(ctx), globalSize])
  {
    var item, form := FormItemSize(ctx), FormSize(ctx);
    FirstSetCons(globalSize, []);
    FirstSetCons(form, [globalSize]);
    FirstSetCons(item, [form, globalSize]);
    FirstSetCons(fallback, [item, form, globalSize]);
    FirstSetCons(propSize, [fallback, item, form, globalSize]);
  }

  /** `useDisabled` never reads the form item: two contexts that differ only in
      their form item give the same answer. */
  lemma UseDisabledIgnoresFormItem(propDisabled: bool, fallback: bool, form: Option<FormContext>,
                                   item1: Option<FormItemContext>, item2: Option<FormItemContext>)
    ensures UseDisabled(propDisabled, fallback, Contexts(form, item1))
         == UseDisabled(propDisabled, fallback, Contexts(form, item2))
  {
  }
}
