/** JavaScript values as the handlers and the client see them: optional properties,
    truthiness, `??`, `||`, and the `startsWith` / `includes` string checks. */
module JsValues {

  datatype Option<+T> = None | Some(value: T)

  datatype Result<+T, +E> = Ok(value: T) | Err(error: E)

  /** A property of a JavaScript object: missing, explicitly `null`, or holding a value. */
  datatype Field<+T> = Undefined | Null | Present(value: T)

  /** Truthiness of a string-valued property: missing, `null` and `""` are falsy. */
  predicate Truthy(f: Field<string>) {
    f.Present? && f.value != ""
  }

  /** Truthiness of a `string | null` value. */
  predicate TruthyOpt(o: Option<string>) {
    o.Some? && o.value != ""
  }

  /** Nullish coalescing with `null`: only a missing or null property becomes `null`; `""` is kept. */
  function OrNull<T>(f: Field<T>): Option<T> {
    if f.Present? then Some(f.value) else None
  }

  /** Logical-or defaulting on a string: every falsy value, `""` included, is replaced. */
  function OrElse(o: Option<string>, fallback: string): string {
    if TruthyOpt(o) then o.value else fallback
  }

  /** `??` and `||` differ exactly on the empty string. */
  lemma CoalesceKeepsEmptyString(f: Field<string>, fallback: string)
    requires fallback != ""
    ensures OrNull(f) == Some("") <==> (f.Present? && OrElse(OrNull(f), fallback) != f.value)
  {
  }

  /** `startsWith`: `p` is a prefix of `s`. */
  predicate StartsWith(s: string, p: string) {
    |p| <= |s| && s[..|p|] == p
  }

  /** `t` occurs in `s` starting at position `i`. */
  predicate OccursAt(s: string, t: string, i: int) {
    0 <= i && i + |t| <= |s| && s[i..i + |t|] == t
  }

  /** `includes`: `t` occurs in `s` at some position (the empty string occurs everywhere). */
  predicate Contains(s: string, t: string) {
    exists i :: 0 <= i <= |s| && OccursAt(s, t, i)
  }

  /** A string that starts with `t` contains it. */
  lemma StartsWithContains(s: string, t: string)
    requires StartsWith(s, t)
    ensures Contains(s, t)
  {
    assert OccursAt(s, t, 0);
  }

  /** A string that lacks one of `t`'s characters cannot contain `t`. */
  lemma AbsentCharNotContained(s: string, t: string, k: int)
    requires 0 <= k < |t| && t[k] !in s
    ensures !Contains(s, t)
  {
  }

  /** A string shorter than `t` cannot contain `t`. */
  lemma ShorterNotContained(s: string, t: string)
    requires |s| < |t|
    ensures !Contains(s, t)
  {
  }
}
