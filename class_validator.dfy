/**
 * The length rules of class-validator (`Length`, `MinLength`, `MaxLength`),
 * which count with validator.js `isLength`: a surrogate pair is one
 * character, and the variation selectors U+FE0E and U+FE0F are not counted.
 * Strings here are sequences of Unicode scalar values, so a character
 * outside the Basic Multilingual Plane is one element already; only the
 * two selectors need handling.
 */
module ClassValidator {

  /** VARIATION SELECTOR-15 and VARIATION SELECTOR-16. */
  predicate IsVariationSelector(c: char) {
    c == '\U{FE0E}' || c == '\U{FE0F}'
  }

  /** The length `isLength` compares against the bounds: `length` less the selectors. */
  function CountedLength(s: string): (n: nat)
    ensures n <= |s|
    ensures n == |s| <==> forall i :: 0 <= i < |s| ==> !IsVariationSelector(s[i])
  {
    if s == [] then 0
    else
      var rest := CountedLength(s[1..]);
      assert forall i :: 1 <= i < |s| ==> s[i] == s[1..][i - 1];
      (if IsVariationSelector(s[0]) then 0 else 1) + rest
  }

  /** `Length(min, max)`; `MinLength` and `MaxLength` are its two halves. */
  predicate LengthBetween(s: string, min: nat, max: nat) {
    min <= CountedLength(s) <= max
  }

  /** Without the two selectors the counted length is the number of characters. */
  lemma PlainLength(s: string, min: nat, max: nat)
    requires forall i :: 0 <= i < |s| ==> !IsVariationSelector(s[i])
    ensures LengthBetween(s, min, max) <==> min <= |s| <= max
  {
  }

  /** The count of a concatenation is the sum of the counts. */
  lemma {:induction false} CountedLengthAppend(a: string, b: string)
    ensures CountedLength(a + b) == CountedLength(a) + CountedLength(b)
  {
    if a != [] {
      assert (a + b)[1..] == a[1..] + b;
      CountedLengthAppend(a[1..], b);
    } else {
      assert a + b == b;
    }
  }

  /** `"abcdefg"` followed by U+FE0F counts seven, although it has eight characters. */
  lemma SelectorNotCounted()
    ensures |"abcdefg\U{FE0F}"| == 8
    ensures CountedLength("abcdefg\U{FE0F}") == 7
    ensures !LengthBetween("abcdefg\U{FE0F}", 8, 10)
  {
    var plain, selector := "abcdefg", "\U{FE0F}";
    assert forall i :: 0 <= i < |plain| ==> !IsVariationSelector(plain[i]);
    assert selector[1..] == [];
    CountedLengthAppend(plain, selector);
    assert plain + selector == "abcdefg\U{FE0F}";
  }
}
