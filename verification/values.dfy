/** Values that travel between the HTTP gateway, the Celery workers and the
    document store: JSON payloads, MongoDB documents and the replies a task
    hands back to the result backend. */
module Values {

  /** A Python value as it arrives in a task's keyword arguments or as it is
      stored in a MongoDB document. `ObjectId` is the identifier MongoDB
      generates for a document inserted without an `_id`; `Opaque` stands for
      every value the worker code never inspects (floats, byte strings such as
      a pickled model, ...). Python's `None` is `Null`. */
  datatype Value =
    | Null
    | Bool(b: bool)
    | Int(i: int)
    | Str(s: string)
    | List(items: seq<Value>)
    | Object(fields: map<string, Value>)
    | ObjectId(n: nat)
    | Opaque(tag: nat)

  /** The `**kwargs` dictionary a task receives; also a MongoDB document. */
  type Kwargs = map<string, Value>
  type Doc = map<string, Value>

  /** The exceptions the modelled code can raise. `RegistryError` is whatever
      the model registry raises; the worker code only propagates it. */
  datatype Exception =
    | KeyError(key: string)
    | IndexError
    | DuplicateKeyError(id: Value)
    | ImmutableIdError(id: Value)
    | OverflowError
    | RegistryError(code: nat)

  /** How a Celery task ends: it returns a value or raises an exception. */
  datatype Reply = Return(value: Value) | Raise(error: Exception)
}
