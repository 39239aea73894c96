/**
 * The few JavaScript value shapes the proxy inspects (request headers, body fields,
 * environment strings) and the truthiness rules behind its `a || b || c` chains.
 */
module Js {
  import opened Text

  /**
   * `Missing` is `undefined`/`null`; `StrList` is a header repeated into an array;
   * `OtherValue` is any other value, remembered only by its truthiness.
   */
  datatype Value = Missing | Str(s: string) | Flag(b: bool) | StrList(items: seq<string>) | OtherValue(truthy: bool)

  predicate Truthy(v: Value) {
    match v
    case Missing => false
    case Str(s) => s != ""
    case Flag(b) => b
    case StrList(_) => true
    case OtherValue(t) => t
  }

  /** `obj[key]` on a plain object. */
  function Get(obj: map<string, Value>, key: string): Value {
    if key in obj then obj[key] else Missing
  }

  /** `vs[0] || vs[1] || ...`: the first truthy operand, or the last operand when none is truthy. */
  function FirstTruthy(vs: seq<Value>): (r: Value)
    requires vs != []
    ensures r in vs
    ensures Truthy(r) ==> exists k :: 0 <= k < |vs| && vs[k] == r && forall j :: 0 <= j < k ==> !Truthy(vs[j])
    ensures !Truthy(r) ==> r == vs[|vs| - 1] && forall j :: 0 <= j < |vs| ==> !Truthy(vs[j])
  {
    if |vs| == 1 || Truthy(vs[0]) then vs[0]
    else
      var r := FirstTruthy(vs[1..]);
      assert Truthy(r) ==> exists k :: 0 <= k < |vs| && vs[k] == r && forall j :: 0 <= j < k ==> !Truthy(vs[j]) by {
        if Truthy(r) {
          var k :| 0 <= k < |vs[1..]| && vs[1..][k] == r && forall j :: 0 <= j < k ==> !Truthy(vs[1..][j]);
          assert vs[k + 1] == r;
          assert forall j :: 0 <= j < k + 1 ==> !Truthy(vs[j]) by {
            forall j | 0 <= j < k + 1 ensures !Truthy(vs[j]) {
              if j > 0 { assert vs[j] == vs[1..][j - 1]; }
            }
          }
        }
      }
      r
  }

  /** `typeof v === "string" && v.trim()`. */
  predicate NonBlankString(v: Value) {
    v.Str? && !Blank(v.s)
  }

  /** `String(v || "").trim().toLowerCase() === "true"` for an environment switch. */
  predicate EnvFlagTrue(env: string) {
    Lower(Trim(env)) == "true"
  }
}
