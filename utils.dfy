/** src/utils.ts: binding-value normalisation and the style write. */
module Utils {
  import opened Types
  import opened Dom

  /** `parseBinding`: a string is a selector, a function is a callback, a
      non-null object is the config itself, anything else is no config. */
  function ParseBinding(value: BindingValue): (config: Config)
    ensures value.StringValue? ==> config == Config(Some(value.text), None, None, None)
    ensures value.FunctionValue? ==> config == Config(None, Some(value.fn), None, None)
    ensures value.ObjectValue? ==> config == value.config
    ensures !value.StringValue? && !value.FunctionValue? && !value.ObjectValue? ==>
      config == EmptyConfig
  {
    match value
    case StringValue(s) => EmptyConfig.(selector := Some(s))
    case FunctionValue(f) => EmptyConfig.(callback := Some(f))
    case ObjectValue(c) => c
    case NullValue => EmptyConfig
    case UndefinedValue => EmptyConfig
    case OtherValue => EmptyConfig
  }

  /** A normalised config is an object, so normalising it again returns it. */
  lemma ParseBindingIdempotent(value: BindingValue)
    ensures ParseBinding(ObjectValue(ParseBinding(value))) == ParseBinding(value)
  {
  }

  /** A config comes from a string binding exactly when it holds a selector
      and no other key. */
  lemma SelectorOnlyFromString(value: BindingValue)
    requires !value.ObjectValue?
    ensures ParseBinding(value).selector.Some? <==> value.StringValue?
    ensures ParseBinding(value).callback.Some? <==> value.FunctionValue?
    ensures ParseBinding(value).offset.None? && ParseBinding(value).name.None?
  {
  }

  /** `setCssProperty`: writes one property of the element's inline style. */
  method SetCssProperty(el: Element, property: string, value: string)
    modifies el`style
    ensures el.style == old(el.style)[property := value]
    ensures el.style.Keys == old(el.style).Keys + {property}
    ensures forall k :: k in old(el.style) && k != property ==> el.style[k] == old(el.style)[k]
  {
    el.style := el.style[property := value];
  }
}
