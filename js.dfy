/** JavaScript value semantics the components rely on: optional values,
    truthiness of strings, `includes`, `trim` and `toLowerCase` (ASCII only). */
module Js {

  datatype Option<+T> = None | Some(value: T)

  /** A string is truthy in JavaScript exactly when it is present and non-empty. */
  predicate Truthy(o: Option<string>) {
    o.Some? && o.value != ""
  }

  /** `o || fallback` on an optional string. */
  function OrElse(o: Option<string>, fallback: string): (r: string)
    ensures r != "" <==> Truthy(o) || fallback != ""
  {
    if Truthy(o) then o.value else fallback
  }

  /** `t` occurs in `s` starting at index `i`. */
  predicate OccursAt(s: string, t: string, i: nat) {
    i + |t| <= |s| && s[i..i + |t|] == t
  }

  /** `s.includes(t)`: `t` occurs somewhere in `s`. */
  predicate Contains(s: string, t: string) {
    exists i: nat :: i <= |s| && OccursAt(s, t, i)
  }

  /** `o?.includes(t)` on an optional string: false when the string is absent. */
  predicate MaybeContains(o: Option<string>, t: string) {
    o.Some? && Contains(o.value, t)
  }

  /** The middle part of a concatenation occurs in it right after the first part. */
  lemma OccursInConcat(a: string, t: string, b: string)
    ensures OccursAt(a + t + b, t, |a|)
    ensures Contains(a + t + b, t)
  {
    assert (a + t + b)[|a|..|a| + |t|] == t;
    assert OccursAt(a + t + b, t, |a|);
  }

  /** Regrouping a five-part concatenation, kept generic so that long literals
      are never unfolded. */
  lemma Regroup(a: string, b: string, c: string, d: string, e: string)
    ensures a + b + c + d + e == a + b + (c + (d + e))
    ensures a + b + c + d + e == (a + b + c) + d + e
  {
  }

  /** `"${s}"` inside a template literal. */
  function Quoted(s: string): string {
    "\"" + s + "\""
  }

  /** Between the quotes of a quoted occurrence stands the original string. */
  lemma QuotedInner(s: string, t: string, i: nat)
    requires OccursAt(s, Quoted(t), i)
    ensures s[i + 1..i + 1 + |t|] == t
  {
    var q := Quoted(t);
    forall k | 0 <= k < |t|
      ensures s[i + 1 + k] == t[k]
    {
      assert s[i + 1 + k] == s[i..i + |q|][1 + k] == q[1 + k];
    }
  }

  /** ASCII white space as matched by `\s` and removed by `trim`. */
  predicate IsWhitespace(c: char) {
    c == ' ' || c == '\t' || c == '\n' || c == '\r' || c == '\U{B}' || c == '\U{C}'
  }

  /** `s.trim()` is empty exactly when every character of `s` is white space. */
  predicate IsBlank(s: string) {
    forall i :: 0 <= i < |s| ==> IsWhitespace(s[i])
  }

  predicate NoWhitespace(s: string) {
    forall i :: 0 <= i < |s| ==> !IsWhitespace(s[i])
  }

  function LowerChar(c: char): (r: char)
    ensures 'A' <= c <= 'Z' ==> r as int == c as int + 32
    ensures !('A' <= c <= 'Z') ==> r == c
    ensures IsWhitespace(r) <==> IsWhitespace(c)
  {
    if 'A' <= c <= 'Z' then (c as int + 32) as char else c
  }

  /** `s.toLowerCase()` restricted to ASCII letters. */
  function LowerStr(s: string): (r: string)
    ensures |r| == |s|
    ensures forall i :: 0 <= i < |s| ==> r[i] == LowerChar(s[i])
  {
    if s == [] then [] else [LowerChar(s[0])] + LowerStr(s[1..])
  }
}
