/** The optional value the agents pass around (`None` or a value). */
module Optional {
  datatype Option<+T> = None | Some(value: T)
}

/** A JSON object whose values are strings, as the agents exchange vulnerability
    records and verification results, with the `dict.get` defaults they use. */
module Records {

  type Record = map<string, string>

  /** `r.get(key, default)`. */
  function Get(r: Record, key: string, default: string): (v: string)
    ensures key in r ==> v == r[key]
    ensures key !in r ==> v == default
  {
    if key in r then r[key] else default
  }

  /** `v.get("type", v.get("vulnerability", "Unknown"))`: the vulnerability's
      category, under either of the two keys the scanner may use. */
  function TypeField(v: Record): string
  {
    Get(v, "type", Get(v, "vulnerability", "Unknown"))
  }
}
