/**
 * The string built-ins the search filters rely on:
 * `String.prototype.toLowerCase` (abstracted to ASCII letters),
 * `String.prototype.includes`, and the decimal rendering of an integer
 * produced by `n + ""`.
 */
module Text {

  // ---------------------------------------------------------------------
  // Case folding
  // ---------------------------------------------------------------------

  predicate IsUpper(c: char) { 'A' <= c <= 'Z' }

  predicate IsLowerLetter(c: char) { 'a' <= c <= 'z' }

  /** `toLowerCase` on one character, restricted to the ASCII letters. */
  function Lower(c: char): (r: char)
    ensures !IsUpper(r)
    ensures r == c <==> !IsUpper(c)
    ensures IsUpper(c) ==> IsLowerLetter(r) && r as int - c as int == 'a' as int - 'A' as int
  {
    if IsUpper(c) then (c as int - 'A' as int + 'a' as int) as char else c
  }

  /** `toLowerCase` on a string: each character is folded on its own. */
  function LowerStr(s: string): (r: string)
    ensures |r| == |s|
    ensures forall i :: 0 <= i < |s| ==> r[i] == Lower(s[i])
  {
    seq(|s|, i requires 0 <= i < |s| => Lower(s[i]))
  }

  /** Lower-casing twice is lower-casing once. */
  lemma LowerStrIdempotent(s: string)
    ensures LowerStr(LowerStr(s)) == LowerStr(s)
  {
    var once := LowerStr(s);
    forall i | 0 <= i < |s|
      ensures LowerStr(once)[i] == once[i]
    {
      assert !IsUpper(once[i]);
    }
  }

  /** A string without upper-case letters is left as it is. */
  lemma LowerStrFixed(s: string)
    requires forall i :: 0 <= i < |s| ==> !IsUpper(s[i])
    ensures LowerStr(s) == s
  {
    forall i | 0 <= i < |s|
      ensures LowerStr(s)[i] == s[i]
    {
    }
  }

  lemma LowerStrAppend(a: string, b: string)
    ensures LowerStr(a + b) == LowerStr(a) + LowerStr(b)
  {
    forall i | 0 <= i < |a| + |b|
      ensures LowerStr(a + b)[i] == (LowerStr(a) + LowerStr(b))[i]
    {
      if i < |a| { assert (a + b)[i] == a[i]; } else { assert (a + b)[i] == b[i - |a|]; }
    }
  }

  /** The upper-case form of a lower-case letter. */
  function Upper(c: char): (r: char)
    requires IsLowerLetter(c)
    ensures IsUpper(r) && Lower(r) == c
  {
    (c as int - 'a' as int + 'A' as int) as char
  }

  /** `s` holds `c` in neither case. */
  predicate Lacks(s: string, c: char)
  {
    forall i | 0 <= i < |s| :: s[i] != c && (IsLowerLetter(c) ==> s[i] != Upper(c))
  }

  /** Lower-casing only produces `c` from `c` itself or from `Upper(c)`. */
  lemma LowerStrAbsent(s: string, c: char)
    requires Lacks(s, c)
    ensures c !in LowerStr(s)
  {
    forall i | 0 <= i < |s|
      ensures LowerStr(s)[i] != c
    {
    }
  }

  // ---------------------------------------------------------------------
  // Substring search
  // ---------------------------------------------------------------------

  /** `s.includes(q)`: `q` occurs in `s` as a contiguous block. */
  predicate Includes(s: string, q: string): (r: bool)
    ensures r ==> |q| <= |s|
    ensures |q| == |s| ==> (r <==> q == s)
  {
    q <= s || (s != [] && Includes(s[1..], q))
  }

  /** The block of `s` of length `|q|` that starts at `i` is `q`. */
  ghost predicate OccursAt(s: string, q: string, i: int)
  {
    0 <= i && i + |q| <= |s| && s[i..i + |q|] == q
  }

  /** The recursive search agrees with the positional definition, both ways. */
  lemma {:induction false} IncludesIff(s: string, q: string)
    ensures Includes(s, q) <==> exists i :: OccursAt(s, q, i)
  {
    if q <= s {
      assert s[0..|q|] == q;
      assert OccursAt(s, q, 0);
    } else if s == [] {
    } else {
      IncludesIff(s[1..], q);
      if Includes(s[1..], q) {
        var i :| OccursAt(s[1..], q, i);
        assert s[i + 1..i + 1 + |q|] == s[1..][i..i + |q|];
        assert OccursAt(s, q, i + 1);
      }
      if exists i :: OccursAt(s, q, i) {
        var i :| OccursAt(s, q, i);
        if i == 0 {
          assert false;
        }
        assert s[1..][i - 1..i - 1 + |q|] == s[i..i + |q|];
        assert OccursAt(s[1..], q, i - 1);
      }
    }
  }

  /** The empty query occurs everywhere. */
  lemma IncludesEmpty(s: string)
    ensures Includes(s, "")
  {
  }

  /** Every character of an occurring query is a character of the string. */
  lemma {:induction false} IncludesChars(s: string, q: string, c: char)
    requires Includes(s, q) && c in q
    ensures c in s
  {
    if q <= s {
      var j :| 0 <= j < |q| && q[j] == c;
      assert s[j] == c;
    } else {
      IncludesChars(s[1..], q, c);
    }
  }

  /**
   * When the first character of `q` does not appear in `a`, an occurrence of
   * `q` in `a + b` lies entirely inside `b`.
   */
  lemma {:induction false} IncludesSkip(a: string, b: string, q: string)
    requires q != [] && q[0] !in a
    requires Includes(a + b, q)
    ensures Includes(b, q)
  {
    if a == [] {
      assert a + b == b;
    } else {
      assert (a + b)[0] == a[0];
      assert !(q <= a + b);
      assert (a + b)[1..] == a[1..] + b;
      IncludesSkip(a[1..], b, q);
    }
  }

  /**
   * Case folding the query does not change a search in a string that holds
   * no letter: any occurrence then holds no letter either.
   */
  lemma CaseFoldIrrelevant(s: string, q: string)
    requires forall i :: 0 <= i < |s| ==> !IsUpper(s[i]) && !IsLowerLetter(s[i])
    ensures Includes(s, q) <==> Includes(s, LowerStr(q))
  {
    if Includes(s, q) {
      forall i | 0 <= i < |q| ensures !IsUpper(q[i]) {
        IncludesChars(s, q, q[i]);
      }
      LowerStrFixed(q);
    }
    if Includes(s, LowerStr(q)) {
      forall i | 0 <= i < |q| ensures !IsUpper(q[i]) {
        IncludesChars(s, LowerStr(q), LowerStr(q)[i]);
      }
      LowerStrFixed(q);
    }
  }

  // ---------------------------------------------------------------------
  // Decimal rendering of integers (`n + ""`)
  // ---------------------------------------------------------------------

  predicate IsDigit(c: char) { '0' <= c <= '9' }

  function DigitChar(d: nat): (c: char)
    requires d < 10
    ensures IsDigit(c) && c as int - '0' as int == d
  {
    ('0' as int + d) as char
  }

  /** The shortest decimal rendering of `n`: digits only, no leading zero. */
  function NatToDecimal(n: nat): (r: string)
    ensures |r| >= 1
    ensures forall i :: 0 <= i < |r| ==> IsDigit(r[i])
    ensures r[0] == '0' ==> n == 0
    decreases n
  {
    if n < 10 then [DigitChar(n)] else NatToDecimal(n / 10) + [DigitChar(n % 10)]
  }

  /** `n + ""` for an integer `n`: a minus sign before the magnitude when negative. */
  function IntToDecimal(n: int): (r: string)
    ensures r != [] && (r[0] == '-' <==> n < 0)
    ensures forall i :: 0 <= i < |r| ==> IsDigit(r[i]) || r[i] == '-'
  {
    if n < 0 then "-" + NatToDecimal(-n) else NatToDecimal(n)
  }

  function DigitValue(c: char): (d: nat)
    requires IsDigit(c)
    ensures d < 10 && DigitChar(d) == c
  {
    c as int - '0' as int
  }

  /** Reads back a string of digits, most significant first. */
  function DecimalValue(s: string): nat
    requires forall i :: 0 <= i < |s| ==> IsDigit(s[i])
  {
    if s == [] then 0
    else DecimalValue(s[..|s| - 1]) * 10 + DigitValue(s[|s| - 1])
  }

  /** Reads back a decimal rendering with an optional leading minus sign. */
  function ParseInt(s: string): int
    requires s != [] && forall i :: 0 <= i < |s| ==> IsDigit(s[i]) || (i == 0 && s[i] == '-')
  {
    var magnitude: int := if s[0] == '-' then DecimalValue(s[1..]) else DecimalValue(s);
    if s[0] == '-' then -magnitude else magnitude
  }

  lemma {:induction false} NatToDecimalRoundTrip(n: nat)
    ensures DecimalValue(NatToDecimal(n)) == n
    decreases n
  {
    if n >= 10 {
      var prefix := NatToDecimal(n / 10);
      var r := prefix + [DigitChar(n % 10)];
      assert r[..|r| - 1] == prefix;
      NatToDecimalRoundTrip(n / 10);
    }
  }

  /** Rendering an integer and reading it back gives the integer again. */
  lemma IntToDecimalRoundTrip(n: int)
    ensures ParseInt(IntToDecimal(n)) == n
  {
    if n < 0 {
      assert IntToDecimal(n)[1..] == NatToDecimal(-n);
      NatToDecimalRoundTrip(-n);
    } else {
      NatToDecimalRoundTrip(n);
    }
  }

  /** Distinct integers render to distinct strings. */
  lemma IntToDecimalInjective(m: int, n: int)
    requires IntToDecimal(m) == IntToDecimal(n)
    ensures m == n
  {
    IntToDecimalRoundTrip(m);
    IntToDecimalRoundTrip(n);
  }
}
