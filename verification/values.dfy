/**
 * The Python values the field codec handles: the attribute value read from a
 * model instance on the server, and the JSON-ready data it produces and the
 * client consumes.
 */
module PyValues {
  import opened Wrappers
  import opened Decimal

  /** The fully qualified name of a Python class. */
  type TypeTag = string

  /**
   * A Python value as read from a model attribute.
   *  - `Opaque` is any other object (a date, a Decimal, a list, ...): it carries
   *    its class name, what `unicode()` renders it as, and its truth value.
   *  - `ModelInstance` is an instance of a Django model: its exact class, its
   *    primary key and what its `__unicode__` returns.
   */
  datatype Value =
    | NoneValue
    | Bool(b: bool)
    | Int(i: int)
    | Str(s: string)
    | Opaque(typeName: TypeTag, text: string, truthy: bool)
    | ModelInstance(model: TypeTag, pk: int, display: string)

  /** What the encoder hands to the JSON layer and the decoder receives. */
  datatype Data =
    | Plain(v: Value)
    | Dict(entries: map<string, Data>)

  /** Errors raised by the codec. */
  datatype Error =
    | KeyError(key: string)            // a missing dictionary key
    | AttributeError(name: string)     // a missing attribute
    | UnmappedType(typeName: TypeTag)  // `type(value)` absent from the model registry
    | NotSubscriptable                 // indexing a value that is not a dictionary
    | UrlNotText                       // a reference URL entry that is not a string

  /** Python truthiness (`if v:`), as distinct from `v is None`. */
  predicate Truthy(v: Value) {
    match v
    case NoneValue => false
    case Bool(b) => b
    case Int(i) => i != 0
    case Str(s) => s != ""
    case Opaque(_, _, t) => t
    case ModelInstance(_, _, _) => true
  }

  /** `type(v)`, by name. */
  function TypeName(v: Value): TypeTag {
    match v
    case NoneValue => "NoneType"
    case Bool(_) => "bool"
    case Int(_) => "int"
    case Str(_) => "unicode"
    case Opaque(t, _, _) => t
    case ModelInstance(m, _, _) => m
  }

  /** `unicode(v)`. */
  function Unicode(v: Value): string {
    match v
    case NoneValue => "None"
    case Bool(b) => if b then "True" else "False"
    case Int(i) => IntToText(i)
    case Str(s) => s
    case Opaque(_, text, _) => text
    case ModelInstance(_, _, display) => display
  }

  /** `d[key]` on the client: a missing key or a non-dictionary raises. */
  function Subscript(d: Data, key: string): Result<Data, Error> {
    match d
    case Dict(entries) => if key in entries then Success(entries[key]) else Failure(KeyError(key))
    case Plain(_) => Failure(NotSubscriptable)
  }

  /** The text of a URL entry of a reference, as `urljoin` expects it. */
  function UrlText(d: Data): Result<string, Error> {
    if d.Plain? && d.v.Str? then Success(d.v.s) else Failure(UrlNotText)
  }
}
