/**
 * The one JavaScript coercion the storefront script leans on everywhere:
 * `parseInt(x) || d`. A parse is modelled by what it yields, `Some(n)` for an
 * integer and `None` for NaN; NaN and 0 are the falsy results that fall back
 * to the default.
 */
module JsCoercion {
  import opened Wrappers

  /** `parseInt(x) || d`, given `parsed` = `parseInt(x)`. */
  function OrDefault(parsed: Option<int>, d: int): (n: int)
    ensures parsed.Some? && parsed.value != 0 ==> n == parsed.value
    ensures parsed.None? || parsed.value == 0 ==> n == d
  {
    if parsed.Some? && parsed.value != 0 then parsed.value else d
  }

  /** With a non-zero default the result is never falsy, so writing it back
      into a field and reading it again with any default yields it unchanged. */
  lemma WrittenBackReadsSame(parsed: Option<int>, d: int, d': int)
    requires d != 0
    ensures OrDefault(parsed, d) != 0
    ensures OrDefault(Some(OrDefault(parsed, d)), d') == OrDefault(parsed, d)
  {
  }
}
