/** The part of the browser the tracker touches: scroll targets, the table of
    registered scroll listeners, and the tracked element. Nothing here is a
    file of the tracker; it is the host the tracker is written against. */
module Dom {
  import opened Types

  /** Identity of a scroll-handler closure. Each closure is a new function
      object, so ids are handed out fresh by the registry. */
  type HandlerId = nat

  /** Something scroll listeners can be attached to. */
  datatype Target = Window | Node(id: nat)

  /** A "scroll" listener registration, identified as the DOM identifies it. */
  datatype Listener = Listener(target: Target, handler: HandlerId)

  /** `addEventListener`: registering a pair that is already registered does
      nothing (its options stay those of the first registration). The value
      stored is the `passive` option. */
  function Added(m: map<Listener, bool>, l: Listener, passive: bool): (r: map<Listener, bool>)
    ensures r.Keys == m.Keys + {l}
    ensures forall k :: k in m ==> r[k] == m[k]
    ensures l !in m ==> r[l] == passive
  {
    if l in m then m else m[l := passive]
  }

  /** `removeEventListener`: drops the pair if present. */
  function Removed(m: map<Listener, bool>, l: Listener): (r: map<Listener, bool>)
    ensures r.Keys == m.Keys - {l}
    ensures forall k :: k in r ==> r[k] == m[k]
  {
    m - {l}
  }

  /** Removing a registration that was new undoes adding it. */
  lemma RemovedUndoesAdded(m: map<Listener, bool>, l: Listener, passive: bool)
    requires l !in m
    ensures Removed(Added(m, l, passive), l) == m
  {
    assert Removed(Added(m, l, passive), l).Keys == m.Keys;
  }

  /** The event-listener table of the whole page, over all targets. */
  class Registry {
    var listeners: map<Listener, bool>
    var nextHandler: nat

    /** Every registered handler was handed out by `NewHandler`. */
    ghost predicate Valid()
      reads this
    {
      forall l :: l in listeners ==> l.handler < nextHandler
    }

    constructor ()
      ensures Valid()
      ensures listeners == map[] && nextHandler == 0
    {
      listeners := map[];
      nextHandler := 0;
    }

    /** Creating a new handler closure. */
    method NewHandler() returns (h: HandlerId)
      requires Valid()
      modifies this`nextHandler
      ensures Valid()
      ensures h == old(nextHandler) && nextHandler == h + 1
      ensures forall l :: l in listeners ==> l.handler != h
    {
      h := nextHandler;
      nextHandler := nextHandler + 1;
    }

    method Add(target: Target, handler: HandlerId, passive: bool)
      requires Valid() && handler < nextHandler
      modifies this`listeners
      ensures Valid()
      ensures listeners == Added(old(listeners), Listener(target, handler), passive)
    {
      listeners := Added(listeners, Listener(target, handler), passive);
    }

    method Remove(target: Target, handler: HandlerId)
      requires Valid()
      modifies this`listeners
      ensures Valid()
      ensures listeners == Removed(old(listeners), Listener(target, handler))
    {
      listeners := Removed(listeners, Listener(target, handler));
    }
  }

  /** The tracked element: its inline style and the properties the directive
      stashes on it (src/utils.ts:7-9). `handlerConfig` is the config that the
      directive's handler closure captured at mount. */
  class Element {
    var style: map<string, string>
    var scrollContainer: Option<Target>
    var scrollHandler: Option<HandlerId>
    var visibilityCallback: Option<Callback>
    var handlerConfig: Config

    constructor ()
      ensures style == map[]
      ensures scrollContainer == None && scrollHandler == None && visibilityCallback == None
      ensures handlerConfig == EmptyConfig
    {
      style := map[];
      scrollContainer := None;
      scrollHandler := None;
      visibilityCallback := None;
      handlerConfig := EmptyConfig;
    }
  }
}
