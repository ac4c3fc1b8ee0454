/** src/directive.ts: the `VueTrackDirective` hooks. The directive keeps its
    state on the element itself: container, handler and callback. */
module Directive {
  import opened Types
  import opened Dom
  import opened Utils
  import opened Track
  import Composable

  /** The framework's binding object for one use of the directive. */
  class Binding {
    var value: BindingValue

    constructor (value: BindingValue)
      ensures this.value == value
    {
      this.value := value;
    }
  }

  /** The container chosen at mount (lines 33-35): the `querySelector` result
      for a non-empty selector (null when nothing matches), the window
      otherwise. `query` stands for `document.querySelector`. */
  function MountContainer(config: Config, query: string -> Option<nat>): (c: Option<Target>)
    ensures !Truthy(config.selector) ==> c == Some(Window)
    ensures Truthy(config.selector) ==> c != Some(Window)
    ensures Truthy(config.selector) && query(config.selector.value).Some? ==>
      c == Some(Node(query(config.selector.value).value))
    ensures c.None? <==> Truthy(config.selector) && query(config.selector.value).None?
  {
    if Truthy(config.selector) then
      match query(config.selector.value)
      case Some(id) => Some(Node(id))
      case None => None
    else Some(Window)
  }

  /** The directive's own copy of the recomputation (lines 48-67). Reading
      `innerHeight` of a null container throws; there is no window fallback. */
  function Frame(container: Option<Target>, config: Config, g: Geometry): (r: Result<Snapshot>)
    ensures r.Err? <==> container.None?
    ensures r.Ok? ==> r.value.position == Position(g.element.top, g.element.left)
  {
    match container
    case None => Err(NullContainer)
    case Some(c) =>
      var top, left := g.element.top, g.element.left;
      var width, height := g.element.width, g.element.height;
      var windowHeight := if c != Window then g.container.height else g.window.height;
      var windowWidth := if c != Window then g.container.width else g.window.width;
      var offset := OffsetValue(config.offset);
      var vertical := top + height + offset > 0 && top + offset < windowHeight;
      var horizontal := left + width + offset > 0 && left + offset < windowWidth;
      Ok(Snapshot(Position(top, left), Visibility(vertical, horizontal)))
  }

  /** The two copies agree: for a non-null container the directive publishes
      exactly what the composable would for the same container, config and
      geometry, so the CSS values and callback arguments agree too. */
  lemma CopiesAgree(container: Target, config: Config, g: Geometry)
    ensures Frame(Some(container), config, g) == Ok(Composable.Frame(config, container, g))
  {
  }

  /** What a frame leaves behind: on error nothing is written; otherwise the
      snapshot is in the style and the callback, if any, receives it. */
  predicate FrameEffect(f: Result<Snapshot>, callback: Option<Callback>,
                        before: map<string, string>, after: map<string, string>,
                        r: Result<Option<Invocation>>)
  {
    match f
    case Err(e) => r == Err(e) && after == before
    case Ok(s) => r == Ok(CallbackCall(callback, s)) && after == TrackedStyle(before, s)
  }

  /** The stored scroll handler, run for one frame (lines 46-81). */
  method HandleScroll(el: Element, g: Geometry) returns (r: Result<Option<Invocation>>)
    modifies el`style
    ensures FrameEffect(Frame(el.scrollContainer, el.handlerConfig, g), el.visibilityCallback,
                        old(el.style), el.style, r)
  {
    var container := el.scrollContainer;
    if container.None? {
      return Err(NullContainer);
    }
    var f := Frame(container, el.handlerConfig, g);
    var s := f.value;
    SetCssProperty(el, VisibleYProperty, Flag(s.visibility.vertical));
    SetCssProperty(el, VisibleXProperty, Flag(s.visibility.horizontal));
    SetCssProperty(el, YProperty, Decimal.Px(s.position.top));
    SetCssProperty(el, XProperty, Decimal.Px(s.position.left));
    if el.visibilityCallback.Some? {
      r := Ok(Some(Invocation(el.visibilityCallback.value, s.position, s.visibility)));
    } else {
      r := Ok(None);
    }
  }

  /** The state `mounted` leaves behind when it runs with `config`, given the
      listener table, the next handler id and the style it found: container,
      callback and captured config stored on the element; a fresh handler;
      a warning exactly when a selector matches nothing; one frame run; and a
      passive registration only on a non-null container. */
  ghost predicate MountEffect(config: Config, query: string -> Option<nat>, g: Geometry,
                              listeners0: map<Listener, bool>, next0: nat, style0: map<string, string>,
                              el: Element, registry: Registry,
                              warned: bool, initial: Result<Option<Invocation>>)
    reads el, registry
  {
    && el.handlerConfig == config
    && el.scrollContainer == MountContainer(config, query)
    && el.visibilityCallback == config.callback
    && el.scrollHandler == Some(next0)
    && registry.nextHandler == next0 + 1
    && (warned <==> Truthy(config.selector) && query(config.selector.value).None?)
    && registry.listeners ==
         (if el.scrollContainer.Some?
          then Added(listeners0, Listener(el.scrollContainer.value, next0), true)
          else listeners0)
    && FrameEffect(Frame(el.scrollContainer, config, g), config.callback, style0, el.style, initial)
  }

  /** `mounted` (lines 29-91): normalise the binding, store container and
      callback, warn when a selector matches nothing, create the handler, run
      it once, and register it, passively, only on a non-null container. */
  method Mounted(el: Element, binding: Binding, registry: Registry,
                 query: string -> Option<nat>, g: Geometry)
    returns (warned: bool, initial: Result<Option<Invocation>>)
    requires registry.Valid()
    modifies el, registry
    ensures registry.Valid()
    ensures MountEffect(ParseBinding(binding.value), query, g, old(registry.listeners),
                        old(registry.nextHandler), old(el.style), el, registry, warned, initial)
  {
    var config := ParseBinding(binding.value);
    el.scrollContainer := MountContainer(config, query);
    el.visibilityCallback := config.callback;
    warned := el.scrollContainer.None? && Truthy(config.selector);
    el.handlerConfig := config;
    var h := registry.NewHandler();
    el.scrollHandler := Some(h);
    initial := HandleScroll(el, g);
    if el.scrollContainer.Some? {
      registry.Add(el.scrollContainer.value, h, true);
    }
  }

  /** `beforeUnmount` (lines 92-97): unregister only when both the container
      and the handler are set. */
  method BeforeUnmount(el: Element, registry: Registry)
    requires registry.Valid()
    modifies registry`listeners
    ensures registry.Valid()
    ensures el.scrollContainer.Some? && el.scrollHandler.Some? ==>
      registry.listeners ==
        Removed(old(registry.listeners), Listener(el.scrollContainer.value, el.scrollHandler.value))
    ensures !(el.scrollContainer.Some? && el.scrollHandler.Some?) ==>
      registry.listeners == old(registry.listeners)
  {
    if el.scrollContainer.Some? && el.scrollHandler.Some? {
      registry.Remove(el.scrollContainer.value, el.scrollHandler.value);
    }
  }

  /** Mounting and then unmounting leaves the listener table exactly as it
      was, whatever the container turned out to be. */
  method MountThenUnmount(el: Element, binding: Binding, registry: Registry,
                          query: string -> Option<nat>, g: Geometry)
    requires registry.Valid()
    modifies el, registry
    ensures registry.Valid()
    ensures registry.listeners == old(registry.listeners)
  {
    var warned, initial := Mounted(el, binding, registry, query, g);
    ghost var h := el.scrollHandler.value;
    BeforeUnmount(el, registry);
    if el.scrollContainer.Some? {
      RemovedUndoesAdded(old(registry.listeners), Listener(el.scrollContainer.value, h), true);
    }
  }

  /** The directive has no `updated` hook: a new binding value assigned
      after mount leaves the stored handler running with the config and
      callback captured at mount. */
  method ScrollAfterRebind(el: Element, binding: Binding, newValue: BindingValue, g: Geometry)
    returns (r: Result<Option<Invocation>>)
    modifies binding, el`style
    ensures binding.value == newValue
    ensures FrameEffect(Frame(el.scrollContainer, old(el.handlerConfig), g), old(el.visibilityCallback),
                        old(el.style), el.style, r)
  {
    binding.value := newValue;
    r := HandleScroll(el, g);
  }
}
