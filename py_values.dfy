/**
 * The Python values the instrumentation layer inspects. Only the distinctions
 * the code makes are kept: whether a value is a `str` (its text is then used
 * verbatim), `None`, or a coroutine object (which the synchronous wrapper
 * refuses). How `repr`, `str` and `json.dumps` render any other value is
 * library behaviour, so they are parameters of the model, bundled in `Library`.
 */
module PyValues {

  datatype Value =
    | Text(s: string)
    | NoneValue
    | Coroutine(id: nat)
    | Object(id: nat)

  /**
   * A raised Python exception. `str(error)` is `message`. `isException` says
   * whether its class derives from `Exception`, so that `except Exception`
   * catches it; it is false for the `BaseException`-only kinds such as
   * `asyncio.CancelledError` or `KeyboardInterrupt`.
   */
  datatype PyError = PyError(typeName: string, message: string, isException: bool)

  /** What a Python call did: returned a value or raised. */
  datatype Outcome<+T> = Returned(value: T) | Raised(error: PyError)

  /** The three ways `json.dumps(value)` can end. */
  datatype Dumped =
    | Dumps(json: string)
    | DumpsTypeError
    | DumpsRaises(error: PyError)

  /** `repr`, `str` and `json.dumps`, as the running interpreter defines them. */
  datatype Library = Library(repr: Value -> string, str: Value -> string, jsonDumps: Value -> Dumped)

  /** `str(v)` as an f-string field `{v}` shows it: a `str` is itself and `None` is `"None"`. */
  function Render(lib: Library, v: Value): (r: string)
    ensures v.Text? ==> r == v.s
    ensures v.NoneValue? ==> r == "None"
  {
    match v
    case Text(s) => s
    case NoneValue => "None"
    case _ => lib.str(v)
  }
}
