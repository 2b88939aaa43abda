/**
 * Library parsers whose grammar is outside this model, supplied as total
 * functions so that every operation stays a pure function of its inputs.
 */
module Foreign {
  import opened Base
  import opened Values

  /** The scheme and host of a parsed URL (url.Parse). */
  datatype Url = Url(scheme: string, host: string)

  /**
   * floatSyntax: strconv.ParseFloat(s, 64) accepts `s`.
   * json:        encoding/json into `any`; None is a syntax error.
   * file:        os.ReadFile followed by the JSON decoding; None is a read or syntax error.
   * duration:    time.ParseDuration, in nanoseconds; None is a syntax error.
   * url:         url.Parse; None is a parse error.
   */
  datatype Parsers = Parsers(
    floatSyntax: string -> bool,
    json: string -> Option<Value>,
    file: string -> Option<Value>,
    duration: string -> Option<int>,
    url: string -> Option<Url>)

  /** Nanoseconds per unit, as in Go's `time` package. */
  const Millisecond: int := 1_000_000
  const Second: int := 1_000_000_000
}
