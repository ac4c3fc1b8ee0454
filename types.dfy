/** Values exchanged by the tracker (src/types.ts), with the wrappers the model
    uses for JavaScript's optional keys and for errors thrown during a frame. */
module Types {

  /** An optional object key or a nullable reference. */
  datatype Option<+T> = None | Some(value: T)

  /** The one error a recomputation can throw: reading the viewport size of a
      scroll container that is null. */
  datatype Error = NullContainer

  datatype Result<+T> = Ok(value: T) | Err(error: Error)

  /** Offset of the element from the top-left of the viewport, in pixels. */
  datatype Position = Position(top: int, left: int)

  /** Whether the element overlaps the viewport, per axis. */
  datatype Visibility = Visibility(vertical: bool, horizontal: bool)

  /** A bounding box as `getBoundingClientRect` reports it. */
  datatype Rect = Rect(top: int, left: int, width: int, height: int)

  /** The extent an element is compared against. */
  datatype Viewport = Viewport(height: int, width: int)

  /** The geometry a frame reads: the tracked element's box, the window's
      inner size, and the scroll container's box (read only when the
      container is an element). */
  datatype Geometry = Geometry(element: Rect, window: Viewport, container: Rect)

  /** Identity of a user callback. User code is not run; calls are recorded. */
  datatype Callback = Callback(id: nat)

  /** The configuration record. Every key is optional and merged by presence.
      `name` is not a key of the tracker's config type; it is the plugin
      options' extra key, which the plugin's spread carries into the merged
      object and which the directive then ignores. */
  datatype Config = Config(
    selector: Option<string>,
    callback: Option<Callback>,
    offset: Option<int>,
    name: Option<string>)

  const EmptyConfig := Config(None, None, None, None)

  /** A directive binding value, tagged by its JavaScript `typeof` shape.
      `OtherValue` stands for numbers, booleans and other primitives. */
  datatype BindingValue =
    | StringValue(text: string)
    | FunctionValue(fn: Callback)
    | ObjectValue(config: Config)
    | NullValue
    | UndefinedValue
    | OtherValue

  /** One call of the user callback with the values it received. */
  datatype Invocation = Invocation(callback: Callback, position: Position, visibility: Visibility)

  /** JavaScript truthiness of an optional string: absent and "" are falsy. */
  predicate Truthy(s: Option<string>)
  {
    s.Some? && s.value != ""
  }
}
