/** Shared vocabulary of the SDK model: optional (nullable) values, the
    exceptions the SDK raises or lets through, string dictionaries and bytes. */
module Common {

  /** A .NET reference that may be null. */
  datatype Option<+T> = None | Some(value: T) {
    /** The `x ?? fallback` operator. */
    function GetOr(fallback: T): T {
      if Some? then value else fallback
    }
  }

  /** The exceptions that cross the modelled code, one constructor per kind. */
  datatype Error =
    | ArgumentException(message: string)            // thrown by the attribute-driven builder
    | KeyNotFound(key: string)                      // a dictionary indexer on a missing key
    | FormatException(text: string)                 // int.Parse on a malformed string
    | OverflowException(text: string)               // int.Parse outside the 32-bit range
    | UnsupportedReturnType(methodName: string, returnType: string, typeName: string)
    | ServiceNotRegistered(typeName: string)        // GetRequiredService<T> with T unknown
    | ArgumentOutOfRange(value: int)                // a rejected parallelism bound or connect timeout

  /** A value that is either produced or thrown. */
  datatype Result<+R> = Success(value: R) | Failure(error: Error)

  /** `Dictionary<string, string>` / `IDictionary<string, string>`. */
  type Dict = map<string, string>

  newtype byte = b: int | 0 <= b < 256

  /** `DataflowBlockOptions.Unbounded`: the sentinel for "no parallelism bound". */
  const UNBOUNDED: int := -1

  /** An indexer that yields null for a missing key, as NATS message headers
      and `IConfiguration` do. A header `Dict` is the header indexer's view of
      the fixed names the model reads. The NATS indexer ignores case and joins
      repeated values with commas; the map holds, for each of those names,
      what that indexer returns for it. */
  function Lookup(d: Dict, key: string): (r: Option<string>)
    ensures r.Some? <==> key in d
    ensures r.Some? ==> r.value == d[key]
  {
    if key in d then Some(d[key]) else None
  }
}
