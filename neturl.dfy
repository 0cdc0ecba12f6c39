/**
  The part of Go's `net/url` the library relies on, at the level of a parsed URL:
  a query is a map from parameter name to its list of values (`url.Values`).
  URL string syntax, escaping and the sorted encoding of the query are not modelled.
*/
module NetUrl {

  type Values = map<string, seq<string>>

  /** `Values.Get`: the first value for the name, or "" when there is none. */
  function Get(v: Values, name: string): (s: string)
    ensures name in v && v[name] != [] ==> s == v[name][0]
    ensures name !in v || v[name] == [] ==> s == ""
  {
    if name in v && v[name] != [] then v[name][0] else ""
  }

  /** `Values.Set`: the name now has exactly the one value; other names keep theirs. */
  function Set(v: Values, name: string, value: string): (r: Values)
    ensures r.Keys == v.Keys + {name}
    ensures r[name] == [value]
    ensures forall n :: n in v && n != name ==> r[n] == v[n]
  {
    v[name := [value]]
  }

  /** What `URL.Query` yields: every name it lists has at least one value. */
  predicate WellFormedQuery(v: Values)
  {
    forall n :: n in v ==> v[n] != []
  }

  /** The fields of a `url.URL` the library reads or writes. */
  datatype Url = Url(scheme: string, host: string, path: string, query: Values)

  /** The outcome of `url.Parse`. */
  datatype ParsedUrl = Unparsable | Parsed(url: Url)
}
