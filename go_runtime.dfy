/** The pieces of the Go standard library the core relies on: map lookup with a
    zero-value default, strconv's bool tokens and time's RFC 3339 layout. */
module GoMap {

  /** `m[k]` in Go: the value for `k`, or the zero string when `k` is absent. */
  function Lookup<K>(m: map<K, string>, k: K): string
  {
    if k in m then m[k] else ""
  }
}

module Strconv {
  import opened Wrappers

  /** The tokens strconv.ParseBool reads as true. */
  const TrueTokens: set<string> := {"1", "t", "T", "TRUE", "true", "True"}

  /** The tokens strconv.ParseBool reads as false. */
  const FalseTokens: set<string> := {"0", "f", "F", "FALSE", "false", "False"}

  /** strconv.ParseBool as a lookup table; every other string is an error. */
  const BoolTokens: map<string, bool> := map[
    "1" := true, "t" := true, "T" := true, "TRUE" := true, "true" := true, "True" := true,
    "0" := false, "f" := false, "F" := false, "FALSE" := false, "false" := false, "False" := false]

  /** strconv.ParseBool: true for its true tokens, false for its false tokens, and an
      error for anything else, the empty string included. */
  function ParseBool(s: string): (r: Option<bool>)
    ensures r == Some(true) <==> s in TrueTokens
    ensures r == Some(false) <==> s in FalseTokens
    ensures s == "" ==> r == None
  {
    if s in BoolTokens then Some(BoolTokens[s]) else None
  }

  /** strconv.FormatBool: writes one of two tokens, which ParseBool reads back to the
      same bool. */
  function FormatBool(b: bool): (text: string)
    ensures text == "true" || text == "false"
    ensures ParseBool(text) == Some(b)
  {
    if b then "true" else "false"
  }
}

module GoTime {
  import opened Wrappers

  /** The nanoseconds within a second. */
  type Nanos = n: int | 0 <= n < 1_000_000_000

  /** A time.Time reduced to what equality of parsed times observes: the instant, as
      whole seconds since the Unix epoch and the nanoseconds within that second, and
      the zone offset. */
  datatype Time = Time(unixSeconds: int, nanos: Nanos, zoneOffsetSeconds: int)

  /** Go's zero time.Time: January 1, year 1, 00:00:00 UTC. */
  const ZeroTime := Time(-62135596800, 0, 0)

  /** A text layout for time values, such as Go's time.RFC3339Nano (RFC 3339, section
      5.6, with up to nine fractional digits and trailing zeros trimmed). Both halves
      are left uninterpreted: the stream codec only relies on them through the
      hypotheses its lemmas state. */
  datatype Layout = Layout(format: Time -> string, parse: string -> Option<Time>)

  /** `s` is a string the layout writes itself: it parses, and formatting the parsed
      time gives `s` again. */
  ghost predicate Canonical(layout: Layout, s: string)
  {
    layout.parse(s).Some? && layout.format(layout.parse(s).value) == s
  }

  /** `t` survives a format/parse cycle through the layout. */
  ghost predicate RoundTrips(layout: Layout, t: Time)
  {
    layout.parse(layout.format(t)) == Some(t)
  }
}
