/**
 * The identifiers a node assigns into. Every node instance has an
 * identifier base; output port `i` is written to `base + "_out" + i`
 * (the index in decimal), and the data bridge node's auxiliary statement is
 * written to `base + "_dummy"`.
 */
module AstIdentifiers {

  predicate IsDigit(c: char)
  {
    '0' <= c <= '9'
  }

  function DigitChar(d: nat): (c: char)
    requires d < 10
    ensures IsDigit(c)
  {
    "0123456789"[d]
  }

  /** The decimal text of `n`, as `int.ToString()` writes a non-negative value. */
  function NatToString(n: nat): (s: string)
    ensures |s| >= 1
    ensures forall k :: 0 <= k < |s| ==> IsDigit(s[k])
    ensures n < 10 <==> |s| == 1
  {
    if n < 10 then [DigitChar(n)] else NatToString(n / 10) + [DigitChar(n % 10)]
  }

  /** The identifier that output port `index` of a node is assigned to. */
  function OutId(base: string, index: nat): (id: string)
    ensures |id| > |base| + 4 && id[..|base| + 4] == base + "_out"
    ensures forall k :: |base| + 4 <= k < |id| ==> IsDigit(id[k])
  {
    base + "_out" + NatToString(index)
  }

  /** The auxiliary identifier of a node, bound to no output port. */
  function DummyId(base: string): (id: string)
    ensures |id| == |base| + 6 && id[..|base|] == base
    ensures !IsDigit(id[|id| - 1])
  {
    base + "_dummy"
  }

  lemma DigitCharInjective(d: nat, e: nat)
    requires d < 10 && e < 10
    ensures DigitChar(d) == DigitChar(e) ==> d == e
  {
  }

  /** Different indices have different decimal texts. */
  lemma {:induction false} NatToStringInjective(m: nat, n: nat)
    ensures NatToString(m) == NatToString(n) ==> m == n
  {
    if NatToString(m) == NatToString(n) {
      var s := NatToString(m);
      if m >= 10 {
        assert n >= 10;
        assert s[|s| - 1] == DigitChar(m % 10) == DigitChar(n % 10);
        DigitCharInjective(m % 10, n % 10);
        assert s[..|s| - 1] == NatToString(m / 10) == NatToString(n / 10);
        NatToStringInjective(m / 10, n / 10);
      } else {
        assert n < 10;
        DigitCharInjective(m, n);
      }
    }
  }

  /** The number of digits at the end of `s`. */
  function TrailingDigits(s: string): (n: nat)
    ensures n <= |s|
  {
    if s == [] || !IsDigit(s[|s| - 1]) then 0 else 1 + TrailingDigits(s[..|s| - 1])
  }

  lemma {:induction false} TrailingDigitsOfSuffix(prefix: string, digits: string)
    requires prefix != [] && !IsDigit(prefix[|prefix| - 1])
    requires forall k :: 0 <= k < |digits| ==> IsDigit(digits[k])
    ensures TrailingDigits(prefix + digits) == |digits|
  {
    if digits == [] {
      assert prefix + digits == prefix;
    } else {
      var s := prefix + digits;
      assert s[..|s| - 1] == prefix + digits[..|digits| - 1];
      TrailingDigitsOfSuffix(prefix, digits[..|digits| - 1]);
    }
  }

  /**
   * The output identifier determines both the base and the index: two node
   * instances with different bases never share an output identifier, and
   * the outputs of one node are pairwise distinct.
   */
  lemma OutIdInjective(base1: string, i1: nat, base2: string, i2: nat)
    ensures OutId(base1, i1) == OutId(base2, i2) ==> base1 == base2 && i1 == i2
  {
    var d1, d2 := NatToString(i1), NatToString(i2);
    var s := OutId(base1, i1);
    if s == OutId(base2, i2) {
      // "_out" ends in a letter, so the trailing digits of the identifier
      // are exactly its decimal text.
      TrailingDigitsOfSuffix(base1 + "_out", d1);
      TrailingDigitsOfSuffix(base2 + "_out", d2);
      assert d1 == s[|s| - |d1|..] == d2;
      NatToStringInjective(i1, i2);
      assert base1 == s[..|s| - |d1| - 4] == base2;
    }
  }

  /** The auxiliary identifier ends in a letter, an output identifier in a digit. */
  lemma DummyIdIsNotOutId(base: string, other: string, index: nat)
    ensures DummyId(base) != OutId(other, index)
  {
    var o := OutId(other, index);
    var d := NatToString(index);
    assert o[|o| - 1] == d[|d| - 1];
    assert DummyId(base)[|DummyId(base)| - 1] == 'y';
  }
}
