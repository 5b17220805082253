/** Go errors of the configuration packages. Every error the source builds is an
    `errors.Join` of a package-level sentinel, one line of detail text and,
    sometimes, the error it wraps; `Is` follows `errors.Is` through the wrapped
    errors. */
module ConfigErrors {
  import opened Wrappers
  import opened ConfigKeys

  datatype Sentinel =
    | InvalidConfigValue     // internal/config/context.go:32, "invalid config value type"
    | IllegalConfigState     // internal/config/context.go:33, "illegal config state"
    | UnavailableConfig      // internal/config/context.go:34, "config not found"
    | UnavailableConfigError // pkg/config/utils.go:27, "unavailable"
    | InvalidConfigTypeError // pkg/config/utils.go:28, "invalid-type"

  datatype Error = Joined(sentinel: Sentinel, detail: string, cause: Option<Error>)

  /** Go's `(value, error)` result pair; `err == None` is a nil error. */
  datatype Outcome<T> = Outcome(value: T, err: Option<Error>)

  /** `errors.Is(e, s)`. */
  predicate Is(e: Error, s: Sentinel)
  {
    e.sentinel == s || (match e.cause case Some(c) => Is(c, s) case None => false)
  }

  /** `newConfigPathError`: the detail line "key => <path>". */
  function PathDetail(path: string): (r: string)
    ensures r == "key => " + path
  {
    FormatOne("key => ", [], path);
    assert "key => " + Placeholder(0) == "key => " + Placeholder(0) + [];
    Format("key => " + Placeholder(0), [path])
  }

  /** The detail line of the two `newInvalidConfigError` constructors. */
  function InvalidTypeDetail(key: CtxKey, want: CtxVarType, got: string): string
  {
    Format(Placeholder(0) + " has invalid type; want: " + Placeholder(1) + ", got: " + Placeholder(2),
           [ToCtxKey(key), want, got])
  }
}
