/**
 * The few pieces of JavaScript semantics the modelled code relies on:
 * truthiness of strings and the value of an `a || b || ...` chain,
 * `String.prototype.toLowerCase`, `String.prototype.includes`,
 * `Math.abs`, and `Array.prototype.slice(0, k)`.
 *
 * A string field that is absent, `null`, `undefined` or `""` is represented
 * by `""`: all of them are falsy, and the code only ever tests them for
 * truthiness.
 */
module Js {

  /** A string is truthy exactly when it is not empty. */
  predicate Truthy(s: string) {
    s != ""
  }

  /**
   * The value of `xs[0] || xs[1] || ... || xs[n-1]` over strings: the first
   * truthy operand, and a falsy value when every operand is falsy.
   */
  function FirstTruthy(xs: seq<string>): (r: string)
    ensures r == "" <==> forall i | 0 <= i < |xs| :: xs[i] == ""
    ensures r != "" ==> exists i | 0 <= i < |xs| :: xs[i] == r && forall j | 0 <= j < i :: xs[j] == ""
  {
    if xs == [] then ""
    else if xs[0] != "" then xs[0]
    else
      var r := FirstTruthy(xs[1..]);
      assert r != "" ==> exists i | 0 <= i < |xs[1..]| :: xs[1..][i] == r && forall j | 0 <= j < i :: xs[1..][j] == "";
      assert r != "" ==> exists i | 1 <= i < |xs| :: xs[i] == r && forall j | 0 <= j < i :: xs[j] == "" by {
        if r != "" {
          var i :| 0 <= i < |xs[1..]| && xs[1..][i] == r && forall j | 0 <= j < i :: xs[1..][j] == "";
          assert xs[i + 1] == r;
          assert forall j | 0 <= j < i + 1 :: xs[j] == "" by {
            forall j | 0 <= j < i + 1 ensures xs[j] == "" {
              if j > 0 { assert xs[j] == xs[1..][j - 1]; }
            }
          }
        }
      }
      r
  }

  /** `a || b || c || d` spelled out. */
  lemma FirstTruthyOfFour(a: string, b: string, c: string, d: string)
    ensures FirstTruthy([a, b, c, d]) ==
      if a != "" then a else if b != "" then b else if c != "" then c else d
  {
    var xs := [a, b, c, d];
    assert xs[1..] == [b, c, d] && xs[1..][1..] == [c, d] && xs[1..][1..][1..] == [d];
    assert [d][1..] == [];
    assert FirstTruthy([d]) == d;
    assert FirstTruthy([c, d]) == if c != "" then c else d;
    assert FirstTruthy([b, c, d]) == if b != "" then b else FirstTruthy([c, d]);
  }

  /** ASCII case mapping of one character; other characters are unchanged. */
  function LowerChar(c: char): char {
    if 'A' <= c <= 'Z' then (c as int - 'A' as int + 'a' as int) as char else c
  }

  /** `s.toLowerCase()`, restricted to the ASCII letters. */
  function ToLower(s: string): (r: string)
    ensures |r| == |s| && forall i | 0 <= i < |s| :: r[i] == LowerChar(s[i])
  {
    seq(|s|, i requires 0 <= i < |s| => LowerChar(s[i]))
  }

  /** `w` occurs in `s` starting at index `i`. */
  predicate OccursAt(s: string, w: string, i: nat) {
    i + |w| <= |s| && s[i..i + |w|] == w
  }

  /** `s.includes(w)`: `w` occurs in `s` as a contiguous substring. */
  predicate Includes(s: string, w: string) {
    exists i: nat | i <= |s| :: OccursAt(s, w, i)
  }

  function Abs(x: real): (r: real)
    ensures r >= 0.0 && (r == x || r == -x)
  {
    if x < 0.0 then -x else x
  }

  function Min(a: int, b: int): int {
    if a < b then a else b
  }

  /** `s.slice(0, k)` for `k >= 0`: the first `k` elements, or all of them. */
  function Take<T>(s: seq<T>, k: nat): (r: seq<T>)
    ensures |r| == Min(k, |s|) && r == s[..|r|]
  {
    if k < |s| then s[..k] else s
  }

  /** `s.filter(p)`: the elements satisfying `p`, each as often as in `s`, in order. */
  function Filter<T(!new)>(s: seq<T>, p: T -> bool): (r: seq<T>)
    ensures forall x :: multiset(r)[x] == if p(x) then multiset(s)[x] else 0
    ensures forall i | 0 <= i < |r| :: p(r[i])
  {
    if s == [] then []
    else
      assert s == [s[0]] + s[1..];
      (if p(s[0]) then [s[0]] else []) + Filter(s[1..], p)
  }
}
