/** Values exchanged with the database, the error kinds of the core, and
    the Option/Result wrappers the operations return. */
module Values {

  datatype Option<+T> = None | Some(value: T)

  /** The exceptions the core throws, one constructor per distinct cause. */
  datatype Error =
    /** `build()` on a builder whose table is unset or empty. */
    | TableNotSpecified
    /** `findById` on a model whose shared connection was never set. */
    | ConnectionNotInitialized
    /** The TypeError of calling `getClient()` on an unset connection. */
    | ClientUnavailable
    /** `loadRelation` with a name that is not in the registry. */
    | RelationNotDefined(relation: string, model: string)
    /** `loadRelation` on a descriptor whose type the switch does not handle. */
    | UnsupportedRelationType(relType: string)
    /** The TypeError of calling a method the query builder does not have. */
    | MissingBuilderMethod(name: string)
    /** Whatever the database driver reports; passed on unchanged. */
    | DriverError(message: string)

  datatype Result<+T> = Success(value: T) | Failure(error: Error) {
    predicate IsFailure() { Failure? }
    function PropagateFailure<U>(): Result<U> requires Failure? { Failure(error) }
    function Extract(): T requires Success? { value }
  }

  /** A query argument or a column value. `Undefined` is what JavaScript reads
      from an instance field that does not exist. */
  datatype Value =
    | VString(s: string)
    | VNumber(n: int)
    | VBool(b: bool)
    | VNull
    | VBytes(bytes: seq<bv8>)
    | Undefined

  /** One result row: column name to value. */
  type Row = map<string, Value>

  /** A rendered statement: its text and its positional parameters `$1..$n`. */
  datatype Query = Query(text: string, params: seq<Value>)

  /** The `message` of the error each kind stands for. */
  function Message(e: Error): string
  {
    match e
    case TableNotSpecified => "Table name must be specified with `from()`."
    case ConnectionNotInitialized => "Database connection is not initialized."
    case ClientUnavailable => "Cannot read properties of undefined (reading 'getClient')"
    case RelationNotDefined(rel, model) =>
      "Relation \"" + rel + "\" is not defined on model \"" + model + "\"."
    case UnsupportedRelationType(t) => "Unsupported relation type: " + t
    case MissingBuilderMethod(name) => name + " is not a function"
    case DriverError(msg) => msg
  }
}
