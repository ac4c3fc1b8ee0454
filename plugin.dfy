/** src/plugin.ts: `VueTrackPlugin.install`, which registers the directive
    under a chosen name with plugin-wide defaults. */
module Plugin {
  import opened Types
  import opened Dom
  import opened Utils
  import Directive

  const DefaultName := "track-scroll"

  /** `options?.name || "track-scroll"` (line 13): a missing or empty name
      falls back to the default, so the name is never empty. */
  function DirectiveName(options: Option<Config>): (name: string)
    ensures name != ""
    ensures options.Some? && Truthy(options.value.name) ==> name == options.value.name.value
    ensures !(options.Some? && Truthy(options.value.name)) ==> name == DefaultName
  {
    if options.Some? && Truthy(options.value.name) then options.value.name.value else DefaultName
  }

  /** One key of `{ ...options, ...config }`: the usage-site value when the
      key is present there, the plugin's otherwise. */
  function Pick<T>(usage: Option<T>, default: Option<T>): (v: Option<T>)
    ensures usage.Some? ==> v == usage
    ensures usage.None? ==> v == default
  {
    if usage.Some? then usage else default
  }

  /** `{ ...options, ...config }` (line 19), key by key. */
  function Merge(options: Option<Config>, config: Config): (merged: Config)
    ensures config.selector.Some? ==> merged.selector == config.selector
    ensures config.callback.Some? ==> merged.callback == config.callback
    ensures config.offset.Some? ==> merged.offset == config.offset
    ensures config.name.Some? ==> merged.name == config.name
    ensures options.None? ==> merged == config
    ensures options.Some? && config.selector.None? ==> merged.selector == options.value.selector
    ensures options.Some? && config.callback.None? ==> merged.callback == options.value.callback
    ensures options.Some? && config.offset.None? ==> merged.offset == options.value.offset
    ensures options.Some? && config.name.None? ==> merged.name == options.value.name
  {
    var d := if options.Some? then options.value else EmptyConfig;
    Config(Pick(config.selector, d.selector), Pick(config.callback, d.callback),
           Pick(config.offset, d.offset), Pick(config.name, d.name))
  }

  /** Merging the same defaults twice changes nothing more. */
  lemma MergeIdempotent(options: Option<Config>, config: Config)
    ensures Merge(options, Merge(options, config)) == Merge(options, config)
  {
  }

  /** A string or function binding keeps the plugin's other keys, including
      the plugin's `name`. */
  lemma ShorthandBindingKeepsDefaults(options: Config, value: BindingValue)
    requires value.StringValue? || value.FunctionValue?
    ensures Merge(Some(options), ParseBinding(value)).offset == options.offset
    ensures Merge(Some(options), ParseBinding(value)).name == options.name
    ensures value.StringValue? ==>
      Merge(Some(options), ParseBinding(value)).callback == options.callback
    ensures value.FunctionValue? ==>
      Merge(Some(options), ParseBinding(value)).selector == options.selector
  {
  }

  /** The merged value is an object, so the directive's own normalisation
      hands it through unchanged: the directive runs with the merged config. */
  lemma DirectiveSeesMergedConfig(options: Option<Config>, value: BindingValue)
    ensures ParseBinding(ObjectValue(Merge(options, ParseBinding(value)))) == Merge(options, ParseBinding(value))
  {
  }

  /** The hooks a directive definition provides. */
  datatype MountedHook = TrackMounted | MergingMounted(options: Option<Config>)
  datatype UnmountHook = TrackBeforeUnmount
  datatype DirectiveDef = DirectiveDef(mounted: MountedHook, beforeUnmount: UnmountHook)

  /** `VueTrackDirective` as a definition. */
  const VueTrackDirective := DirectiveDef(TrackMounted, TrackBeforeUnmount)

  /** The application's table of global directives. */
  class App {
    var directives: map<string, DirectiveDef>

    constructor ()
      ensures directives == map[]
    {
      directives := map[];
    }

    /** `install` (lines 12-24): the directive's hooks with `mounted`
        replaced by the merging one; `beforeUnmount` stays the directive's. */
    method Install(options: Option<Config>)
      modifies this
      ensures directives == old(directives)[DirectiveName(options) := VueTrackDirective.(mounted := MergingMounted(options))]
      ensures directives[DirectiveName(options)].beforeUnmount == VueTrackDirective.beforeUnmount
    {
      directives := directives[DirectiveName(options) := VueTrackDirective.(mounted := MergingMounted(options))];
    }
  }

  /** The plugin's `mounted` (lines 15-22): overwrite the binding value with
      the merged config, then run the directive's `mounted` on it. */
  method MergingMount(options: Option<Config>, el: Element, binding: Directive.Binding,
                      registry: Registry, query: string -> Option<nat>, g: Geometry)
    returns (warned: bool, initial: Result<Option<Invocation>>)
    requires registry.Valid()
    modifies binding, el, registry
    ensures registry.Valid()
    ensures binding.value == ObjectValue(Merge(options, ParseBinding(old(binding.value))))
    ensures Directive.MountEffect(Merge(options, ParseBinding(old(binding.value))), query, g,
                                  old(registry.listeners), old(registry.nextHandler), old(el.style),
                                  el, registry, warned, initial)
  {
    var config := ParseBinding(binding.value);
    binding.value := ObjectValue(Merge(options, config));
    warned, initial := Directive.Mounted(el, binding, registry, query, g);
  }

  /** The binding value a `mounted` hook leaves for the directive: the plain
      hook leaves it as it is, the merging hook overwrites it with the merge. */
  function BindingAfterMount(hook: MountedHook, value: BindingValue): (v: BindingValue)
    ensures hook.TrackMounted? ==> v == value
    ensures hook.MergingMounted? ==> v.ObjectValue? && ParseBinding(v) == Merge(hook.options, ParseBinding(value))
  {
    match hook
    case TrackMounted => value
    case MergingMounted(options) => ObjectValue(Merge(options, ParseBinding(value)))
  }

  /** Running a definition's `mounted` hook. */
  method RunMounted(def: DirectiveDef, el: Element, binding: Directive.Binding,
                    registry: Registry, query: string -> Option<nat>, g: Geometry)
    returns (warned: bool, initial: Result<Option<Invocation>>)
    requires registry.Valid()
    modifies binding, el, registry
    ensures registry.Valid()
    ensures binding.value == BindingAfterMount(def.mounted, old(binding.value))
    ensures Directive.MountEffect(ParseBinding(BindingAfterMount(def.mounted, old(binding.value))), query, g,
                                  old(registry.listeners), old(registry.nextHandler), old(el.style),
                                  el, registry, warned, initial)
  {
    match def.mounted
    case TrackMounted =>
      warned, initial := Directive.Mounted(el, binding, registry, query, g);
    case MergingMounted(options) =>
      warned, initial := MergingMount(options, el, binding, registry, query, g);
  }

  /** Running a definition's `beforeUnmount` hook: there is only the
      directive's own. */
  method RunBeforeUnmount(def: DirectiveDef, el: Element, registry: Registry)
    requires registry.Valid()
    modifies registry`listeners
    ensures registry.Valid()
    ensures el.scrollContainer.Some? && el.scrollHandler.Some? ==>
      registry.listeners ==
        Removed(old(registry.listeners), Listener(el.scrollContainer.value, el.scrollHandler.value))
    ensures !(el.scrollContainer.Some? && el.scrollHandler.Some?) ==>
      registry.listeners == old(registry.listeners)
  {
    match def.beforeUnmount
    case TrackBeforeUnmount =>
      Directive.BeforeUnmount(el, registry);
  }
}
