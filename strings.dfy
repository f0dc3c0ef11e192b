/** String helpers the prompts rely on: Python's substring test and the decimal form of a number. */
module Strings {

  /** `part in text` on Python strings: `part` occurs as a contiguous slice of `text`. */
  predicate Contains(text: string, part: string)
    decreases |text|
  {
    (|part| <= |text| && text[..|part|] == part) || (|text| > 0 && Contains(text[1..], part))
  }

  /** Reference definition of an occurrence: `part` starts at index `k` of `text`. */
  ghost predicate OccursAt(text: string, part: string, k: int)
  {
    0 <= k && k + |part| <= |text| && text[k..k + |part|] == part
  }

  /** The scanning test agrees with the existence of an occurrence, in both directions. */
  lemma {:induction false} ContainsIffOccurs(text: string, part: string)
    ensures Contains(text, part) <==> exists k :: OccursAt(text, part, k)
    decreases |text|
  {
    if |part| <= |text| && text[..|part|] == part {
      assert OccursAt(text, part, 0);
    } else if |text| > 0 {
      ContainsIffOccurs(text[1..], part);
      if Contains(text[1..], part) {
        var k :| OccursAt(text[1..], part, k);
        assert text[1..][k..k + |part|] == text[k + 1..k + 1 + |part|];
        assert OccursAt(text, part, k + 1);
      } else {
        forall k | OccursAt(text, part, k)
          ensures false
        {
          assert k != 0;
          assert text[1..][k - 1..k - 1 + |part|] == text[k..k + |part|];
          assert OccursAt(text[1..], part, k - 1);
        }
      }
    }
  }

  /** Whatever is placed between two strings occurs in the result. */
  lemma ContainsMiddle(before: string, part: string, after: string)
    ensures Contains(before + part + after, part)
  {
    var text := before + part + after;
    assert text[|before|..|before| + |part|] == part;
    assert OccursAt(text, part, |before|);
    ContainsIffOccurs(text, part);
  }

  /** A string occurs in itself, and an occurrence survives adding text on either side. */
  lemma ContainsGrows(a: string, b: string, part: string)
    ensures Contains(part, part)
    ensures Contains(a, part) ==> Contains(a + b, part)
    ensures Contains(b, part) ==> Contains(a + b, part)
  {
    ContainsMiddle("", part, "");
    assert "" + part + "" == part;
    ContainsIffOccurs(a, part);
    ContainsIffOccurs(b, part);
    ContainsIffOccurs(a + b, part);
    if Contains(a, part) {
      var k :| OccursAt(a, part, k);
      assert (a + b)[k..k + |part|] == a[k..k + |part|];
      assert OccursAt(a + b, part, k);
    }
    if Contains(b, part) {
      var k :| OccursAt(b, part, k);
      assert (a + b)[|a| + k..|a| + k + |part|] == b[k..k + |part|];
      assert OccursAt(a + b, part, |a| + k);
    }
  }

  /** Occurrence is transitive. */
  lemma ContainsTransitive(a: string, b: string, c: string)
    requires Contains(a, b) && Contains(b, c)
    ensures Contains(a, c)
  {
  }

  /** The pieces of a message, written one after another. */
  function Concat(pieces: seq<string>): (r: string)
    ensures pieces != [] ==> |pieces[0]| <= |r|
  {
    if pieces == [] then "" else pieces[0] + Concat(pieces[1..])
  }

  /** Each piece occurs in the written message. */
  lemma {:induction false} ConcatShowsPiece(pieces: seq<string>, i: nat)
    requires i < |pieces|
    ensures Contains(Concat(pieces), pieces[i])
    decreases i
  {
    if i == 0 {
      ContainsGrows(pieces[0], Concat(pieces[1..]), pieces[0]);
    } else {
      ConcatShowsPiece(pieces[1..], i - 1);
      ContainsGrows(pieces[0], Concat(pieces[1..]), pieces[i]);
    }
  }

  predicate IsDigit(c: char)
  {
    '0' <= c <= '9'
  }

  function DigitChar(d: nat): (c: char)
    requires d < 10
    ensures IsDigit(c)
    ensures c == '0' <==> d == 0
  {
    (48 + d) as char
  }

  function DigitValue(c: char): (d: nat)
    requires IsDigit(c)
    ensures d < 10
  {
    c as int - 48
  }

  /** Python's `str(n)` / `f"{n}"` for a non-negative integer: its decimal digits, no leading zero. */
  function Decimal(n: nat): (r: string)
    ensures |r| >= 1
    ensures forall i :: 0 <= i < |r| ==> IsDigit(r[i])
    ensures r[0] == '0' ==> n == 0
    decreases n
  {
    if n < 10 then [DigitChar(n)] else Decimal(n / 10) + [DigitChar(n % 10)]
  }

  /** Reads a string of digits back as a number (the inverse of Decimal). */
  function ParseDecimal(s: string): nat
    requires forall i :: 0 <= i < |s| ==> IsDigit(s[i])
    decreases |s|
  {
    if s == [] then 0 else ParseDecimal(s[..|s| - 1]) * 10 + DigitValue(s[|s| - 1])
  }

  lemma {:induction false} DecimalRoundTrip(n: nat)
    ensures ParseDecimal(Decimal(n)) == n
    decreases n
  {
    if n >= 10 {
      var prefix := Decimal(n / 10);
      var s := Decimal(n);
      assert s == prefix + [DigitChar(n % 10)];
      assert s[..|s| - 1] == prefix;
      DecimalRoundTrip(n / 10);
    }
  }

  /** Different numbers print differently. */
  lemma DecimalInjective(m: nat, n: nat)
    ensures Decimal(m) == Decimal(n) ==> m == n
  {
    DecimalRoundTrip(m);
    DecimalRoundTrip(n);
  }
}
