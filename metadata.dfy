/** The metadata a test run carries (doScenarioInput.Metadata,
    scenario.go:165-173): a JSON object decoded into Go's
    map[string]interface{}. A missing map and an empty one behave alike in
    every use, so both are the empty map here. */
module Metadata {
  import opened Wrappers

  /** One decoded metadata value: a string, a nested object whose values
      are kept in their printed (`%v`) form, or anything else. */
  datatype Meta =
    | Str(s: string)
    | Object(fields: map<string, string>)
    | Other

  /** The value under `k` when it is a string (Go's `md[k].(string)` with
      `ok == true`). */
  function StrField(md: map<string, Meta>, k: string): (r: Option<string>)
    ensures r.Some? <==> k in md && md[k].Str?
    ensures r.Some? ==> md[k] == Str(r.value)
  {
    if k in md && md[k].Str? then Some(md[k].s) else None
  }

  /** The value under `k` when it is a non-empty string. */
  function NonEmptyStr(md: map<string, Meta>, k: string): (r: Option<string>)
    ensures r.Some? <==> StrField(md, k).Some? && StrField(md, k).value != ""
    ensures r.Some? ==> r == StrField(md, k)
  {
    match StrField(md, k)
    case Some(v) => if v != "" then Some(v) else None
    case None => None
  }
}
