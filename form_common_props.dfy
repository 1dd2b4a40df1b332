/** The package copy of the inherited-prop hooks. It is written separately from
    the application copy (module CommonProps); its functions are proved to agree
    with that copy on every input. */
module FormCommonProps {
  import opened Common
  import CommonProps

  /** `props.size || unAccessor(fallback) || formItem?.size || form?.size || useGlobalConfig('size')` */
  function UseSize(propSize: Option<ComponentSize>, fallback: Option<ComponentSize>,
                   ctx: CommonProps.Contexts, globalSize: Option<ComponentSize>): (r: Option<ComponentSize>)
    ensures r == CommonProps.UseSize(propSize, fallback, ctx, globalSize)
    ensures propSize.Some? ==> r == propSize
  {
    match (propSize, fallback)
    case (Some(s), _) => Some(s)
    case (None, Some(f)) => Some(f)
    case (None, None) =>
      var itemSize := if ctx.formItem.Some? then ctx.formItem.value.size else None;
      var formSize := if ctx.form.Some? then ctx.form.value.size else None;
      match (itemSize, formSize)
      case (Some(s), _) => Some(s)
      case (None, Some(s)) => Some(s)
      case (None, None) => globalSize
  }

  /** `props.disabled || unAccessor(fallback) || form?.disabled`; the form item is not read. */
  function UseDisabled(propDisabled: bool, fallback: bool, ctx: CommonProps.Contexts): (r: bool)
    ensures r == CommonProps.UseDisabled(propDisabled, fallback, ctx)
    ensures r <==> propDisabled || fallback || (ctx.form.Some? && ctx.form.value.disabled)
  {
    if propDisabled then true
    else if fallback then true
    else match ctx.form
      case Some(f) => f.disabled
      case None => false
  }

  /** The package `useDisabled` does not depend on the form item either. */
  lemma UseDisabledIgnoresFormItem(propDisabled: bool, fallback: bool, form: Option<CommonProps.FormContext>,
                                   item1: Option<CommonProps.FormItemContext>,
                                   item2: Option<CommonProps.FormItemContext>)
    ensures UseDisabled(propDisabled, fallback, CommonProps.Contexts(form, item1))
         == UseDisabled(propDisabled, fallback, CommonProps.Contexts(form, item2))
  {
  }
}
