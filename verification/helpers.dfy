/**
 The two small generic helpers of main.go: the conditional `If` used when
 logging a vanity change, and `strip`, which masks a token before it is logged.
 Go strings are byte strings; here each element of a `string` stands for one byte.
 */
module Helpers {

  /** Go's generic `If`: the first value when the condition holds, the second otherwise. */
  function If<T>(cond: bool, vtrue: T, vfalse: T): (r: T)
    ensures cond ==> r == vtrue
    ensures !cond ==> r == vfalse
  {
    if cond then vtrue else vfalse
  }

  /** `strings.Repeat` of a one-character string: `n` copies of `c`. */
  function Repeat(c: char, n: nat): (r: string)
    ensures |r| == n
    ensures forall i :: 0 <= i < n ==> r[i] == c
  {
    if n == 0 then [] else Repeat(c, n - 1) + [c]
  }

  /**
   Masks everything after the first `length` characters with 'x'. A negative
   length makes the Go slice expression panic, so `length` is a `nat`.
   */
  function Strip(content: string, length: nat): (r: string)
    ensures |r| == |content|
    ensures |content| < length ==> r == content
    ensures forall i :: 0 <= i < |content| && i < length ==> r[i] == content[i]
    ensures forall i :: length <= i < |content| ==> r[i] == 'x'
  {
    if |content| < length then content
    else content[..length] + Repeat('x', |content| - length)
  }

  /** The shape of `Strip` determines it: any string with that shape is the stripped one. */
  lemma StripUnique(content: string, length: nat, s: string)
    requires |s| == |content|
    requires forall i :: 0 <= i < |content| && i < length ==> s[i] == content[i]
    requires forall i :: length <= i < |content| ==> s[i] == 'x'
    ensures s == Strip(content, length)
  {
  }

  /** Stripping twice with the same length masks nothing more. */
  lemma StripIdempotent(content: string, length: nat)
    ensures Strip(Strip(content, length), length) == Strip(content, length)
  {
  }
}
