/**
 * The JavaScript value coercions the payment path relies on: `x || fallback`,
 * `x || null` and optional property access on a string-valued bag.
 * `undefined`, `null` and the empty string are the falsy strings; `0` is the
 * only falsy integer the provider can send.
 */
module Values {
  import opened Wrappers

  /** JavaScript truthiness of an optional string. */
  predicate Truthy(o: Option<string>) {
    o.Some? && o.value != ""
  }

  /** `o || fallback` on an optional string. */
  function OrElse(o: Option<string>, fallback: string): (r: string)
    ensures Truthy(o) ==> r == o.value
    ensures !Truthy(o) ==> r == fallback
  {
    if Truthy(o) then o.value else fallback
  }

  /** `o || null`: a falsy string becomes null, a truthy one passes through. */
  function OrNull(o: Option<string>): (r: Option<string>)
    ensures r.Some? <==> Truthy(o)
    ensures r.Some? ==> r == o && r.value != ""
  {
    if Truthy(o) then o else None
  }

  /** `n || 0` on an optional integer: `null` and `0` both give 0. */
  function OrZero(n: Option<int>): (r: int)
    ensures n.Some? ==> r == n.value
    ensures n.None? ==> r == 0
  {
    match n
    case Some(v) => v
    case None => 0
  }

  /** `bag?.[key]` on a string-valued metadata bag. */
  function Lookup(bag: map<string, string>, key: string): (r: Option<string>)
    ensures r.Some? <==> key in bag
    ensures r.Some? ==> r.value == bag[key]
  {
    if key in bag then Some(bag[key]) else None
  }
}
