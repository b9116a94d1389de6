/** Optional JSON request fields, the JavaScript truthiness tests that the
    notification handlers apply to them, and the string predicates used to
    state properties of message texts. */
module JsValues {

  /** A field that may be absent from the JSON request body (or be null). */
  datatype Option<+T> = None | Some(value: T)

  /** `if (s)` on an optional string: present and not the empty string. */
  predicate StringTruthy(s: Option<string>)
  {
    s.Some? && s.value != ""
  }

  /** `s || ''` on an optional string. */
  function StringOrEmpty(s: Option<string>): (r: string)
    ensures StringTruthy(s) ==> r == s.value
    ensures !StringTruthy(s) ==> r == ""
  {
    if s.Some? then s.value else ""
  }

  /** `if (x)` on an optional number: present and not zero (NaN, the other
      falsy number, has no counterpart among the reals). */
  predicate NumberTruthy(x: Option<real>)
  {
    x.Some? && x.value != 0.0
  }

  /** `xs && xs.length > 0` on an optional array. */
  predicate NonEmptyList<T>(xs: Option<seq<T>>)
  {
    xs.Some? && |xs.value| > 0
  }

  /** `xs ?? []`: the rows of a query whose data may be null. */
  function ListOrEmpty<T>(xs: Option<seq<T>>): seq<T>
  {
    if xs.Some? then xs.value else []
  }

  /** `t` occurs in `s` starting at index `i`. */
  predicate OccursAt(s: string, t: string, i: int)
  {
    0 <= i <= |s| - |t| && s[i..i + |t|] == t
  }

  /** `s.includes(t)`: `t` occurs in `s` as a contiguous piece. */
  ghost predicate Contains(s: string, t: string)
  {
    exists i :: OccursAt(s, t, i)
  }

  /** `s.endsWith(t)`. */
  predicate EndsWith(s: string, t: string)
  {
    |t| <= |s| && s[|s| - |t|..] == t
  }

  /** The middle piece of a three-part concatenation occurs in it. */
  lemma ContainsMiddle(a: string, b: string, c: string)
    ensures Contains(a + b + c, b)
  {
    var s := a + b + c;
    assert s[|a|..|a| + |b|] == b;
    assert OccursAt(s, b, |a|);
  }
}
