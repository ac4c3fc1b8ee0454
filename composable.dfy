/** src/composable.ts: `useVueTrack`, one tracker per call, with its published
    state, its scroll handler and the registration of that handler. */
module Composable {
  import opened Types
  import opened Dom
  import opened Utils
  import opened Track

  /** The viewport the composable compares against: the window's inner size
      for the window, the container's box otherwise (src/composable.ts:52-61). */
  function ViewportOf(container: Target, g: Geometry): (vp: Viewport)
    ensures container.Window? ==> vp == g.window
    ensures container.Node? ==> vp.height == g.container.height && vp.width == g.container.width
  {
    if container != Window then Viewport(g.container.height, g.container.width) else g.window
  }

  /** The composable's copy of the recomputation (src/composable.ts:45-68). */
  function Frame(config: Config, container: Target, g: Geometry): (s: Snapshot)
    ensures s.position == Position(g.element.top, g.element.left)
  {
    var r := g.element;
    var vp := ViewportOf(container, g);
    var offset := OffsetValue(config.offset);
    Snapshot(Position(r.top, r.left),
             Visibility(AxisVisible(r.top, r.height, offset, vp.height),
                        AxisVisible(r.left, r.width, offset, vp.width)))
  }

  /** For a box and viewport of positive size, each published flag says
      whether the offset-shifted box shares a pixel with the viewport. */
  lemma FrameIsOverlap(config: Config, container: Target, g: Geometry)
    requires g.element.height > 0 && g.element.width > 0
    requires ViewportOf(container, g).height > 0 && ViewportOf(container, g).width > 0
    ensures var s, off, vp := Frame(config, container, g), OffsetValue(config.offset), ViewportOf(container, g);
      && (s.visibility.vertical <==>
            SharesPixel(g.element.top + off, g.element.top + g.element.height + off, vp.height))
      && (s.visibility.horizontal <==>
            SharesPixel(g.element.left + off, g.element.left + g.element.width + off, vp.width))
  {
    var off, vp := OffsetValue(config.offset), ViewportOf(container, g);
    AxisVisibleIsOverlap(g.element.top, g.element.height, off, vp.height);
    AxisVisibleIsOverlap(g.element.left, g.element.width, off, vp.width);
  }

  /** The published position ignores the offset, the container and the
      window: only the element's own box decides it. */
  lemma PositionIgnoresViewport(c1: Config, c2: Config, t1: Target, t2: Target, g1: Geometry, g2: Geometry)
    requires g1.element.top == g2.element.top && g1.element.left == g2.element.left
    ensures Frame(c1, t1, g1).position == Frame(c2, t2, g2).position
  {
  }

  /** A 50x50 box at (100, 200) in an 800x1200 window is visible on both
      axes and is written as "100px" / "200px" with flags "1". */
  lemma InViewExample(config: Config, containerBox: Rect)
    requires config.offset == Some(0)
    ensures var g := Geometry(Rect(100, 200, 50, 50), Viewport(800, 1200), containerBox);
      var s := Frame(config, Window, g);
      var style := TrackedStyle(map[], s);
      && s == Snapshot(Position(100, 200), Visibility(true, true))
      && style[YProperty] == "100px" && style[XProperty] == "200px"
      && style[VisibleYProperty] == "1" && style[VisibleXProperty] == "1"
  {
    assert Decimal.NatToDecimal(10) == "10";
    assert Decimal.NatToDecimal(100) == "100";
    assert Decimal.NatToDecimal(20) == "20";
    assert Decimal.NatToDecimal(200) == "200";
  }

  /** A box whose bottom edge is above the viewport is not vertically visible. */
  lemma AboveViewportExample(config: Config, g: Geometry)
    requires config.offset == Some(0) || config.offset == None
    requires g.element.top == -200 && g.element.height == 50 && g.window.height == 800
    ensures !Frame(config, Window, g).visibility.vertical
  {
  }

  /** The tracker a `useVueTrack` call creates. `config` and `element` are the
      current values of the config and element refs. Each container lookup
      by `getScrollContainer`, whose definition is not part of this model,
      is passed in as the target it returned at that moment. */
  class Tracker {
    var config: Config
    var element: Element?
    var position: Position
    var visibility: Visibility
    var container: Target
    /** Whether the component has unmounted; Vue then stops the config watch. */
    var unmounted: bool
    const handler: HandlerId
    const autoRegister: bool
    const registry: Registry

    /** The element, if any, as a frame. */
    function ElementFootprint(): set<Element>
      reads this
    {
      if element == null then {} else {element}
    }

    /** The handler is registered on no target but the current container. */
    ghost predicate Valid()
      reads this, registry
    {
      && registry.Valid()
      && handler < registry.nextHandler
      && forall l :: l in registry.listeners && l.handler == handler ==> l.target == container
    }

    /** Lines 33-37: published state starts at the origin and invisible; the
        container is what the lookup of the initial selector (`found`)
        returned during setup. */
    constructor (element: Element?, config: Config, autoRegister: bool, registry: Registry,
                 found: Target)
      requires registry.Valid()
      modifies registry`nextHandler
      ensures Valid()
      ensures this.element == element && this.config == config
      ensures this.autoRegister == autoRegister && this.registry == registry
      ensures position == Position(0, 0) && visibility == Visibility(false, false)
      ensures container == found
      ensures !unmounted
      ensures handler == old(registry.nextHandler) && registry.nextHandler == handler + 1
      ensures registry.listeners == old(registry.listeners)
    {
      var h := registry.NewHandler();
      this.element := element;
      this.config := config;
      this.autoRegister := autoRegister;
      this.registry := registry;
      position := Position(0, 0);
      visibility := Visibility(false, false);
      container := found;
      unmounted := false;
      handler := h;
    }

    /** The element ref receiving a new value. */
    method SetElement(e: Element?)
      modifies this`element
      ensures element == e
    {
      element := e;
    }

    /** One run of the scroll handler's frame (lines 42-82). With no element
        nothing happens; otherwise the snapshot is published to the state
        and the style, and the callback, if any, receives it. */
    method Recompute(g: Geometry) returns (call: Option<Invocation>)
      modifies this`position, this`visibility, ElementFootprint()`style
      ensures element == null ==>
        position == old(position) && visibility == old(visibility) && call == None
      ensures element != null ==>
        var s := Frame(config, container, g);
        && position == s.position && visibility == s.visibility
        && element.style == TrackedStyle(old(element.style), s)
        && call == CallbackCall(config.callback, s)
    {
      var el := element;
      if el == null {
        return None;
      }
      var s := Frame(config, container, g);
      position := s.position;
      visibility := s.visibility;
      SetCssProperty(el, VisibleYProperty, Flag(s.visibility.vertical));
      SetCssProperty(el, VisibleXProperty, Flag(s.visibility.horizontal));
      SetCssProperty(el, YProperty, Decimal.Px(s.position.top));
      SetCssProperty(el, XProperty, Decimal.Px(s.position.left));
      if config.callback.Some? {
        call := Some(Invocation(config.callback.value, position, visibility));
      } else {
        call := None;
      }
    }

    /** `addListener` (lines 87-90): recompute once, then register. */
    method AddListener(g: Geometry) returns (call: Option<Invocation>)
      requires Valid()
      modifies this`position, this`visibility, ElementFootprint()`style, registry`listeners
      ensures Valid()
      ensures registry.listeners == Added(old(registry.listeners), Listener(container, handler), false)
      ensures element == null ==>
        position == old(position) && visibility == old(visibility) && call == None
      ensures element != null ==>
        var s := Frame(config, container, g);
        && position == s.position && visibility == s.visibility
        && element.style == TrackedStyle(old(element.style), s)
        && call == CallbackCall(config.callback, s)
    {
      call := Recompute(g);
      registry.Add(container, handler, false);
    }

    /** `removeListener` (lines 92-94): afterwards the handler is registered
        nowhere. */
    method RemoveListener()
      requires Valid()
      modifies registry`listeners
      ensures Valid()
      ensures registry.listeners == Removed(old(registry.listeners), Listener(container, handler))
      ensures forall l :: l in registry.listeners ==> l.handler != handler
    {
      registry.Remove(container, handler);
    }

    /** A new config value, and the watch on it (lines 98-104): while the
        component is mounted, with auto-registration and a non-empty
        selector, the handler moves from the old container to `found`, what
        the lookup of the new selector returns when the watch fires;
        otherwise only the config changes. The watch is
        created in `setup`, so it stops when the component unmounts. */
    method SetConfig(newConfig: Config, found: Target)
      requires Valid()
      modifies this`config, this`container, registry`listeners
      ensures Valid()
      ensures config == newConfig
      ensures autoRegister && !unmounted && Truthy(newConfig.selector) ==>
        && container == found
        && registry.listeners ==
             Added(Removed(old(registry.listeners), Listener(old(container), handler)),
                   Listener(container, handler), false)
        && Listener(container, handler) in registry.listeners
        && forall l :: l in registry.listeners && l.handler == handler ==> l == Listener(container, handler)
      ensures !(autoRegister && !unmounted && Truthy(newConfig.selector)) ==>
        container == old(container) && registry.listeners == old(registry.listeners)
    {
      config := newConfig;
      if autoRegister && !unmounted && Truthy(newConfig.selector) {
        registry.Remove(container, handler);
        container := found;
        registry.Add(container, handler, false);
      }
    }

    /** `onMounted` (lines 107-109), installed only with auto-registration. */
    method Mounted()
      requires Valid()
      modifies registry`listeners
      ensures Valid()
      ensures registry.listeners ==
        if autoRegister then Added(old(registry.listeners), Listener(container, handler), false)
        else old(registry.listeners)
    {
      if autoRegister {
        registry.Add(container, handler, false);
      }
    }

    /** The component unmounting: Vue stops the config watch, and
        `onUnmounted` (lines 111-113), installed only with
        auto-registration, unregisters the handler. */
    method Unmounted()
      requires Valid()
      modifies this`unmounted, registry`listeners
      ensures Valid()
      ensures unmounted
      ensures registry.listeners ==
        if autoRegister then Removed(old(registry.listeners), Listener(container, handler))
        else old(registry.listeners)
      ensures autoRegister ==> forall l :: l in registry.listeners ==> l.handler != handler
    {
      unmounted := true;
      if autoRegister {
        registry.Remove(container, handler);
      }
    }
  }

  /** After an auto-registering tracker's component unmounts, a new config
      registers the handler nowhere, whatever its selector and whatever the
      lookup would find. */
  method ConfigAfterUnmount(t: Tracker, newConfig: Config, found: Target)
    requires t.Valid() && t.autoRegister
    modifies t`unmounted, t`config, t`container, t.registry`listeners
    ensures t.Valid()
    ensures t.config == newConfig
    ensures t.container == old(t.container)
    ensures forall l :: l in t.registry.listeners ==> l.handler != t.handler
  {
    t.Unmounted();
    t.SetConfig(newConfig, found);
  }

  /** With unchanged geometry and config a second recomputation publishes the
      same state and leaves the style as the first one left it. */
  method RecomputeTwice(t: Tracker, g: Geometry) returns (first: Option<Invocation>, second: Option<Invocation>)
    requires t.element != null
    modifies t`position, t`visibility, t.ElementFootprint()`style
    ensures first == second
    ensures t.position == Frame(t.config, t.container, g).position
    ensures t.visibility == Frame(t.config, t.container, g).visibility
    ensures t.element.style == TrackedStyle(old(t.element.style), Frame(t.config, t.container, g))
  {
    first := t.Recompute(g);
    second := t.Recompute(g);
    TrackedStyleIdempotent(old(t.element.style), Frame(t.config, t.container, g));
  }
}
