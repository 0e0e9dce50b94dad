/** The postal-code rule of the checkout form: a code shorter than five
    characters is refused, and the code sent to the gateway is
    `padStart(5, '0')`-ed. */
module Postal {

  import opened Wrappers

  const MinLength: nat := 5

  /** `postalCode` is present and `postalCode.toString().length >= 5`. */
  predicate PostalValid(code: Option<string>) {
    code.Some? && |code.value| >= MinLength
  }

  function Repeat(c: char, n: nat): (r: string)
    ensures |r| == n
    ensures forall i :: 0 <= i < n ==> r[i] == c
  {
    if n == 0 then [] else [c] + Repeat(c, n - 1)
  }

  /** `s.padStart(width, fill)` for a one-character fill. */
  function PadStart(s: string, width: nat, fill: char): (r: string)
    ensures |r| == if |s| >= width then |s| else width
    ensures r[|r| - |s|..] == s
    ensures forall i :: 0 <= i < |r| - |s| ==> r[i] == fill
    ensures |s| >= width ==> r == s
  {
    if |s| >= width then s else Repeat(fill, width - |s|) + s
  }

  /** A code that passed validation reaches the gateway unchanged. */
  lemma ValidCodeUnpadded(code: Option<string>)
    requires PostalValid(code)
    ensures PadStart(code.value, MinLength, '0') == code.value
  {
  }
}
