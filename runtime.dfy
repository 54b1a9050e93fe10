/** The values and exceptions the turn pipeline passes around. */
module Runtime {
  import opened Wrappers

  /** The serialised non-eTag content of an object; the model keeps it opaque. */
  type Body = string

  /** How the JSON serialiser sees an object: an `IStoreItem` (it has an eTag the
      store stamps), another object (serialised to a JSON object), or a value that
      does not serialise to a JSON object at all (a string, a number). */
  datatype Kind = StoreItemObject | PlainObject | Primitive

  /** An object as the store, the turn services and the state component see it:
      its runtime type name, its kind, its body, and its `eTag` property (None when
      the property is null or absent). */
  datatype Value = Value(typeName: string, kind: Kind, body: Body, eTag: Option<string>)

  /** The runtime name of `object`, of which every value is an instance. */
  const ObjectTypeName: string := "System.Object"

  /** `v is T` for the type named t (subclassing apart from `object` is not modelled). */
  predicate IsInstance(v: Value, t: string) {
    t == ObjectTypeName || v.typeName == t
  }

  /** The exceptions the core throws or lets through. */
  datatype Exception =
    | Raised(text: string)                                   // `new Exception(text)` thrown by bot logic or an interceptor
    | ETagConflict(original: Option<string>, current: string) // MemoryStorage.Write on a stale eTag
    | NullReference                                          // a member access on a null stored record
    | ArgumentNull(paramName: string)                        // ArgumentNullException
    | DuplicateKey(key: string)                              // Dictionary.Add of a key already present
    | NotJsonObject                                          // JObject.FromObject of a non-object value
    | IndexOutOfRange                                        // indexing an empty array

  /** `ex.Message`. The conflict text is the store's own; the framework messages are
      representative. */
  function Message(e: Exception): string {
    match e
    case Raised(t) => t
    case ETagConflict(o, c) =>
      "Etag conflict.\r\n\r\nOriginal: " + (if o.Some? then o.value else "") + "\r\nCurrent: " + c
    case NullReference => "Object reference not set to an instance of an object."
    case ArgumentNull(p) => "Value cannot be null.\r\nParameter name: " + p
    case DuplicateKey(k) => "An item with the same key has already been added. Key: " + k
    case NotJsonObject => "Object serialized to a non-object token. JObject instance expected."
    case IndexOutOfRange => "Index was outside the bounds of the array."
  }

  /** How a call ended: normally, or by throwing. */
  datatype Outcome = Ok | Exn(error: Exception)
}
