/**
 * The values that travel between the adapter, its callers and the object-storage SDK.
 *
 * A PHP array used as a request or a response is a finite map from option names to
 * values; a PHP list (such as the `Delete.Objects` list) keeps its order and is a
 * sequence. Key order inside PHP arrays is not modelled: requests are compared as maps.
 */
module Values {

  /** A PHP value as it can appear in a request option or an SDK result. */
  datatype Val =
    | Null
    | Bool(b: bool)
    | Int(i: int)
    | Str(s: string)
    | List(items: seq<Val>)
    | Dict(entries: map<string, Val>)
    | Resource(handle: nat)   // an open stream or other opaque handle (e.g. a body stream)

  /** Request options, and the merged request handed to the SDK. */
  type Params = map<string, Val>

  /** The data carried by an SDK result object (`\Aws\Result`). */
  type AwsResult = map<string, Val>

  /** What an SDK call does: return a value, or throw an exception carrying an error. */
  datatype Outcome<+T> = Success(value: T) | Failure(error: Val)

  datatype Option<+T> = None | Some(value: T)

  /** A fallible construction: the object, or the reason it was refused. */
  datatype Result<+T, +E> = Ok(value: T) | Err(error: E)

  /**
   * `$result->get($name)` on an SDK result, part of the SDK's own abstraction rather than
   * of the adapter: the stored value, or null when the result holds no such field.
   */
  function ResultGet(result: AwsResult, name: string): Val {
    if name in result then result[name] else Null
  }
}
