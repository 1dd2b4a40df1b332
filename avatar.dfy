/** `Avatar`: shows its image until the image fails to load, then its icon,
    then its children; a new `src` forgets the failure. A numeric size becomes
    a CSS variable, a named size a modifier class. */
module Avatar {
  import opened Common

  datatype Shape = Circle | Square

  datatype AvatarSize = NoSize | NamedSize(name: ComponentSize) | PixelSize(px: int)

  datatype AvatarProps = AvatarProps(size: AvatarSize, shape: Shape, icon: Option<string>, src: Option<string>,
                                     srcSet: Option<string>, fit: string)

  /** The props as a caller writes them; `None` fields take the defaults. */
  datatype AvatarOptions = AvatarOptions(size: AvatarSize, shape: Option<Shape>, icon: Option<string>,
                                         src: Option<string>, srcSet: Option<string>, fit: Option<string>)

  /** Which branch of the `Switch` renders. */
  datatype Display = ImageDisplay | IconDisplay | ChildrenDisplay

  /** `onErrors` counts the `onError` calls. */
  datatype AvatarState = AvatarState(hasLoadError: bool, onErrors: nat)

  /** `mergeProps(defaultProps, props)`: shape circle, fit cover. */
  function WithDefaults(o: AvatarOptions): (p: AvatarProps)
    ensures p.shape == (if o.shape.Some? then o.shape.value else Circle)
    ensures p.fit == (if o.fit.Some? then o.fit.value else "cover")
    ensures p.size == o.size && p.icon == o.icon && p.src == o.src && p.srcSet == o.srcSet
  {
    AvatarProps(o.size, o.shape.GetOr(Circle), o.icon, o.src, o.srcSet, o.fit.GetOr("cover"))
  }

  /** An optional string read as a boolean. */
  predicate Set(s: Option<string>) {
    s.Some? && s.value != ""
  }

  /** The `Switch`/`Match` choice. */
  function DisplayOf(p: AvatarProps, hasLoadError: bool): (d: Display)
    ensures d == ImageDisplay <==> (Set(p.src) || Set(p.srcSet)) && !hasLoadError
    ensures d == IconDisplay <==> !((Set(p.src) || Set(p.srcSet)) && !hasLoadError) && Set(p.icon)
    ensures d == ChildrenDisplay <==> !((Set(p.src) || Set(p.srcSet)) && !hasLoadError) && !Set(p.icon)
  {
    if (Set(p.src) || Set(p.srcSet)) && !hasLoadError then ImageDisplay
    else if Set(p.icon) then IconDisplay
    else ChildrenDisplay
  }

  /** The `--size` variable `sizeStyle()` adds, in pixels. */
  function SizeVar(p: AvatarProps): (v: Option<int>)
    ensures v.Some? <==> p.size.PixelSize?
    ensures v.Some? ==> v.value == p.size.px
  {
    if p.size.PixelSize? then Some(p.size.px) else None
  }

  /** The size modifier class, `ns.m(size)` for a string size. */
  function SizeClass(p: AvatarProps): (c: Option<ComponentSize>)
    ensures c.Some? <==> p.size.NamedSize?
    ensures c.Some? ==> c.value == p.size.name
  {
    if p.size.NamedSize? then Some(p.size.name) else None
  }

  /** A size gives either the variable or the class, never both. */
  lemma SizeVarOrClass(p: AvatarProps)
    ensures !(SizeVar(p).Some? && SizeClass(p).Some?)
    ensures p.size != NoSize ==> SizeVar(p).Some? || SizeClass(p).Some?
  {
  }

  function Initial(): (s: AvatarState)
    ensures !s.hasLoadError && s.onErrors == 0
  {
    AvatarState(false, 0)
  }

  /** `handleError`: remember the failure, then call `onError`. */
  function AfterError(s: AvatarState): (r: AvatarState)
    ensures r.hasLoadError && r.onErrors == s.onErrors + 1
  {
    AvatarState(true, s.onErrors + 1)
  }

  /** The deferred effect on `src`: forget the failure. */
  function AfterSrcChange(s: AvatarState): (r: AvatarState)
    ensures !r.hasLoadError && r.onErrors == s.onErrors
  {
    s.(hasLoadError := false)
  }

  /** A failed image falls back to the icon, or to the children without one. */
  lemma ErrorFallsBack(p: AvatarProps, s: AvatarState)
    ensures DisplayOf(p, AfterError(s).hasLoadError) == if Set(p.icon) then IconDisplay else ChildrenDisplay
  {
  }

  /** A new, non-empty `src` shows the image again after a failure. */
  lemma NewSrcRetriesImage(p: AvatarProps, s: AvatarState, src: string)
    requires src != ""
    ensures DisplayOf(p.(src := Some(src)), AfterSrcChange(AfterError(s)).hasLoadError) == ImageDisplay
  {
  }

  /** An avatar instance. */
  class AvatarBox {
    var props: AvatarProps
    var hasLoadError: bool
    var onErrors: nat

    function State(): AvatarState
      reads this
    {
      AvatarState(hasLoadError, onErrors)
    }

    constructor (props: AvatarProps)
      ensures this.props == props && State() == Initial()
    {
      this.props := props;
      hasLoadError, onErrors := false, 0;
    }

    /** The image's `error` event. */
    method HandleError()
      modifies this`hasLoadError, this`onErrors
      ensures State() == AfterError(old(State()))
    {
      hasLoadError := true;
      onErrors := onErrors + 1;
    }

    /** The parent passes a `src`; the effect runs only when it changed. */
    method SetSrc(src: Option<string>)
      modifies this`props, this`hasLoadError
      ensures props == old(props).(src := src)
      ensures State() == if src != old(props.src) then AfterSrcChange(old(State())) else old(State())
    {
      var changed := src != props.src;
      props := props.(src := src);
      if changed {
        hasLoadError := false;
      }
    }

    function CurrentDisplay(): Display
      reads this
    {
      DisplayOf(props, hasLoadError)
    }
  }
}
