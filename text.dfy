/**
 * Text helpers shared by the client scripts and the server code: decimal
 * rendering of integers (JavaScript `toString`, PHP string interpolation),
 * PHP's `intval` on strings, PHP's `empty` on posted strings, the
 * thousands-separator regex of `formatNumber`, and the insurance key
 * (`name.toLowerCase().replace(/\s+/g, '_')`).
 */
module Text {

  predicate IsDigit(c: char) { '0' <= c <= '9' }

  predicate AllDigits(s: string) { forall i :: 0 <= i < |s| ==> IsDigit(s[i]) }

  function DigitChar(d: nat): (c: char)
    requires d < 10
    ensures IsDigit(c)
  {
    ('0' as int + d) as char
  }

  function DigitValue(c: char): (d: nat)
    requires IsDigit(c)
    ensures d < 10 && DigitChar(d) == c
  {
    c as int - '0' as int
  }

  /** Decimal rendering of a non-negative integer, without leading zeros. */
  function NatToString(n: nat): (s: string)
    ensures |s| >= 1 && AllDigits(s)
    ensures (s[0] == '0') <==> n == 0
    ensures n == 0 ==> s == "0"
    decreases n
  {
    if n < 10 then [DigitChar(n)] else NatToString(n / 10) + [DigitChar(n % 10)]
  }

  /** The number a string of decimal digits denotes. */
  function DigitsValue(s: string): nat
    requires AllDigits(s)
  {
    if s == [] then 0 else DigitsValue(s[..|s| - 1]) * 10 + DigitValue(s[|s| - 1])
  }

  /** Reading back a rendered natural number gives the number. */
  lemma {:induction false} NatToStringRoundTrip(n: nat)
    ensures DigitsValue(NatToString(n)) == n
    decreases n
  {
    var s := NatToString(n);
    if n >= 10 {
      NatToStringRoundTrip(n / 10);
      assert s[..|s| - 1] == NatToString(n / 10);
    }
  }

  /** Decimal rendering of an integer: a minus sign for negative values. */
  function IntToString(n: int): (s: string)
    ensures |s| >= 1
    ensures n < 0 <==> s[0] == '-'
    ensures n >= 0 ==> AllDigits(s)
  {
    if n < 0 then "-" + NatToString(-n) else NatToString(n)
  }

  /** The longest prefix of `s` made of decimal digits. */
  function LeadingDigits(s: string): (r: string)
    ensures |r| <= |s| && r == s[..|r|] && AllDigits(r)
    ensures |r| < |s| ==> !IsDigit(s[|r|])
  {
    if s == [] || !IsDigit(s[0]) then [] else [s[0]] + LeadingDigits(s[1..])
  }

  lemma {:induction false} LeadingDigitsOfDigits(s: string)
    requires AllDigits(s)
    ensures LeadingDigits(s) == s
  {
    if s != [] {
      LeadingDigitsOfDigits(s[1..]);
    }
  }

  /**
   * PHP's `intval` on a string (and, with money kept in whole units, its
   * `floatval`): an optional sign, then the leading digits; no digits give 0.
   */
  function IntVal(s: string): int
  {
    if |s| > 0 && s[0] == '-' then -(DigitsValue(LeadingDigits(s[1..])) as int)
    else if |s| > 0 && s[0] == '+' then DigitsValue(LeadingDigits(s[1..]))
    else DigitsValue(LeadingDigits(s))
  }

  /** `intval` undoes the decimal rendering, for every integer. */
  lemma {:induction false} IntValRoundTrip(n: int)
    ensures IntVal(IntToString(n)) == n
  {
    var digits := NatToString(if n < 0 then -n else n);
    LeadingDigitsOfDigits(digits);
    NatToStringRoundTrip(if n < 0 then -n else n);
    if n < 0 {
      assert IntToString(n)[1..] == digits;
    }
  }

  /** Two integers with the same rendering are equal. */
  lemma {:induction false} IntToStringInjective(a: int, b: int)
    requires IntToString(a) == IntToString(b)
    ensures a == b
  {
    IntValRoundTrip(a);
    IntValRoundTrip(b);
  }

  /** PHP's `empty` on a posted string: the empty string and "0". */
  predicate PhpEmpty(s: string) { s == "" || s == "0" }

  // ---------------------------------------------------------------------
  // Thousands separators

  /**
   * Commas before every full group of three characters counted from the
   * right, built from the right end.
   */
  function GroupThousands(s: string): (r: string)
    ensures |s| >= 1 ==> |r| == |s| + (|s| - 1) / 3
    ensures |s| <= 3 ==> r == s
    decreases |s|
  {
    if |s| <= 3 then s else GroupThousands(s[..|s| - 3]) + "," + s[|s| - 3..]
  }

  /**
   * What `replace(/\B(?=(\d{3})+(?!\d))/g, ',')` does to a string of digits,
   * read from the left: a position strictly inside the string (`\B` between
   * two digits) gets a comma exactly when the digits after it form a
   * positive multiple of three up to the end of the string.
   */
  function RegexGroup(s: string): (r: string)
  {
    if s == [] then []
    else [s[0]] + (if |s| - 1 > 0 && (|s| - 1) % 3 == 0 then "," else "") + RegexGroup(s[1..])
  }

  lemma {:induction false} RegexGroupShort(s: string)
    requires |s| <= 3
    ensures RegexGroup(s) == s
  {
    if s != [] {
      RegexGroupShort(s[1..]);
    }
  }

  /** Adding whole groups of three keeps the position within a group. */
  lemma {:induction false} ModThreeShift(a: nat, k: nat)
    ensures (a + 3 * k) % 3 == a % 3
  {
    if k > 0 {
      ModThreeShift(a, k - 1);
      assert a + 3 * k == (a + 3 * (k - 1)) + 3;
    }
  }

  /** Splitting off a tail whose length is a positive multiple of three puts a comma at the seam. */
  lemma {:induction false} RegexGroupSplit(p: string, q: string)
    requires |p| > 0 && |q| > 0 && |q| % 3 == 0
    ensures RegexGroup(p + q) == RegexGroup(p) + "," + RegexGroup(q)
  {
    var s := p + q;
    assert s[0] == p[0] && s[1..] == p[1..] + q;
    var k := |q| / 3;
    assert |q| == 3 * k;
    if |p| == 1 {
      assert s[1..] == q && |s| - 1 == 3 * k;
      assert RegexGroup(s) == [s[0]] + "," + RegexGroup(q);
      assert RegexGroup(p) == [p[0]] + RegexGroup(p[1..]) && p[1..] == [];
    } else {
      RegexGroupSplit(p[1..], q);
      var m := if |p| - 1 > 0 && (|p| - 1) % 3 == 0 then "," else "";
      ModThreeShift(|p| - 1, k);
      var head, rest, tail := [p[0]] + m, RegexGroup(p[1..]), RegexGroup(q);
      assert RegexGroup(s) == head + RegexGroup(p[1..] + q);
      assert RegexGroup(p) == head + rest;
      assert head + (rest + "," + tail) == (head + rest) + "," + tail;
    }
  }

  /** The right-to-left grouping is exactly what the regex produces. */
  lemma {:induction false} GroupThousandsIsRegex(s: string)
    ensures GroupThousands(s) == RegexGroup(s)
    decreases |s|
  {
    if |s| <= 3 {
      RegexGroupShort(s);
    } else {
      var p, q := s[..|s| - 3], s[|s| - 3..];
      assert s == p + q;
      GroupThousandsIsRegex(p);
      RegexGroupShort(q);
      RegexGroupSplit(p, q);
    }
  }

  /** The string with every comma deleted. */
  function RemoveCommas(s: string): (r: string)
    ensures |r| <= |s|
    ensures forall i :: 0 <= i < |r| ==> r[i] != ','
  {
    if s == [] then [] else (if s[0] == ',' then [] else [s[0]]) + RemoveCommas(s[1..])
  }

  lemma {:induction false} RemoveCommasAppend(a: string, b: string)
    ensures RemoveCommas(a + b) == RemoveCommas(a) + RemoveCommas(b)
  {
    if a != [] {
      assert (a + b)[0] == a[0] && (a + b)[1..] == a[1..] + b;
      RemoveCommasAppend(a[1..], b);
      calc {
        RemoveCommas(a + b);
        (if a[0] == ',' then [] else [a[0]]) + RemoveCommas(a[1..] + b);
        (if a[0] == ',' then [] else [a[0]]) + (RemoveCommas(a[1..]) + RemoveCommas(b));
      }
    } else {
      assert a + b == b;
    }
  }

  lemma {:induction false} RemoveCommasNone(s: string)
    requires forall i :: 0 <= i < |s| ==> s[i] != ','
    ensures RemoveCommas(s) == s
  {
    if s != [] {
      RemoveCommasNone(s[1..]);
    }
  }

  /** Deleting the separators gives back the grouped string. */
  lemma {:induction false} RemoveCommasGroup(s: string)
    requires forall i :: 0 <= i < |s| ==> s[i] != ','
    ensures RemoveCommas(GroupThousands(s)) == s
    decreases |s|
  {
    if |s| <= 3 {
      RemoveCommasNone(s);
    } else {
      var p, q := s[..|s| - 3], s[|s| - 3..];
      RemoveCommasGroup(p);
      RemoveCommasNone(q);
      RemoveCommasAppend(GroupThousands(p) + ",", q);
      RemoveCommasAppend(GroupThousands(p), ",");
      assert s == p + q;
    }
  }

  /**
   * `formatNumber(n)` and the separator regex of `updateTotalPrice`: the
   * rendering of `n` with a comma before every full group of three digits.
   * For a negative number `\B` does not match between the sign and the
   * first digit, so only the digits are grouped.
   */
  function FormatNumber(n: int): (r: string)
  {
    if n < 0 then "-" + GroupThousands(NatToString(-n)) else GroupThousands(NatToString(n))
  }

  /** Deleting the commas of a formatted number gives its plain rendering. */
  lemma {:induction false} FormatNumberRoundTrip(n: int)
    ensures RemoveCommas(FormatNumber(n)) == IntToString(n)
  {
    var digits := NatToString(if n < 0 then -n else n);
    RemoveCommasGroup(digits);
    if n < 0 {
      RemoveCommasAppend("-", GroupThousands(digits));
    }
  }

  /** The formatted number, read from the left, is what the regex produces. */
  lemma {:induction false} FormatNumberIsRegex(n: nat)
    ensures FormatNumber(n) == RegexGroup(IntToString(n))
  {
    GroupThousandsIsRegex(NatToString(n));
  }

  /** The total text both page scripts write in `updateTotalPrice`: "AED " and the total with thousands separators. */
  function TotalText(total: int): string
  {
    "AED " + FormatNumber(total)
  }

  /** The total text reads back as the total: "AED " and its digits once the separators are removed. */
  lemma {:induction false} TotalTextRoundTrip(total: int)
    ensures |TotalText(total)| >= 4 && TotalText(total)[..4] == "AED "
    ensures RemoveCommas(TotalText(total)[4..]) == IntToString(total)
    ensures IntVal(RemoveCommas(TotalText(total)[4..])) == total
  {
    var t := TotalText(total);
    assert t[4..] == FormatNumber(total);
    FormatNumberRoundTrip(total);
    IntValRoundTrip(total);
  }

  /** The total text of 1795, the price both scripts fall back to and start from: "AED 1,795". */
  lemma {:induction false} FallbackTotalText()
    ensures TotalText(1795) == "AED 1,795"
  {
    assert NatToString(1795) == "1795" by {
      assert NatToString(1) == "1";
      assert NatToString(17) == "17";
      assert NatToString(179) == "179";
    }
    assert GroupThousands("1795") == GroupThousands("1") + "," + "795";
  }

  // ---------------------------------------------------------------------
  // Insurance keys

  /**
   * The white-space class `\s` of JavaScript regular expressions: the
   * ASCII white space, the line terminators U+2028 and U+2029, the byte
   * order mark U+FEFF and the space separators (U+00A0, U+1680,
   * U+2000-U+200A, U+202F, U+205F, U+3000).
   */
  predicate IsSpace(c: char)
  {
    || c == ' ' || c == '\t' || c == '\n' || c == '\r' || c == '\U{0B}' || c == '\U{0C}'
    || c == '\U{A0}' || c == '\U{1680}' || ('\U{2000}' <= c <= '\U{200A}')
    || c == '\U{2028}' || c == '\U{2029}' || c == '\U{202F}' || c == '\U{205F}'
    || c == '\U{3000}' || c == '\U{FEFF}'
  }

  predicate NoSpace(s: string) { forall i :: 0 <= i < |s| ==> !IsSpace(s[i]) }

  /**
   * `toLowerCase` on the capitals of ASCII and Latin-1 (U+00C0-U+00DE
   * except the multiplication sign U+00D7); other characters are kept.
   */
  function LowerChar(c: char): (d: char)
    ensures IsSpace(d) <==> IsSpace(c)
  {
    if 'A' <= c <= 'Z' || ('\U{C0}' <= c <= '\U{DE}' && c != '\U{D7}') then (c as int + 32) as char else c
  }

  function Lower(s: string): (r: string)
    ensures |r| == |s| && forall i :: 0 <= i < |s| ==> r[i] == LowerChar(s[i])
  {
    if s == [] then [] else [LowerChar(s[0])] + Lower(s[1..])
  }

  /** The string after its leading run of white space. */
  function DropSpaces(s: string): (r: string)
    ensures |r| <= |s| && r == s[|s| - |r|..]
    ensures r == [] || !IsSpace(r[0])
  {
    if s != [] && IsSpace(s[0]) then DropSpaces(s[1..]) else s
  }

  /** `replace(/\s+/g, '_')`: every maximal run of white space becomes one underscore. */
  function Underscore(s: string): (r: string)
    ensures NoSpace(r)
    ensures |r| <= |s|
    decreases |s|
  {
    if s == [] then []
    else if IsSpace(s[0]) then "_" + Underscore(DropSpaces(s))
    else [s[0]] + Underscore(s[1..])
  }

  lemma {:induction false} UnderscoreNoSpace(s: string)
    requires NoSpace(s)
    ensures Underscore(s) == s
  {
    if s != [] {
      UnderscoreNoSpace(s[1..]);
    }
  }

  /**
   * The key of an insurance option (assets/js/subscription-form.js, lines
   * 78 and 298): its `id` when that is a non-empty string, otherwise the
   * name lower-cased with white-space runs turned into underscores.
   */
  function InsuranceValue(id: string, name: string): (r: string)
    ensures id != "" ==> r == id
    ensures id == "" ==> NoSpace(r) && |r| <= |name|
  {
    if id != "" then id else Underscore(Lower(name))
  }

  lemma {:induction false} LowerIdempotent(s: string)
    ensures Lower(Lower(s)) == Lower(s)
  {
  }

  lemma {:induction false} LowerAppend(a: string, b: string)
    ensures Lower(a + b) == Lower(a) + Lower(b)
  {
    assert forall i :: 0 <= i < |a + b| ==> Lower(a + b)[i] == (Lower(a) + Lower(b))[i];
  }

  lemma {:induction false} LowerUnderscore(s: string)
    ensures Lower(Underscore(s)) == Underscore(Lower(s))
    decreases |s|
  {
    if s != [] {
      var ls := Lower(s);
      assert ls[0] == LowerChar(s[0]) && ls[1..] == Lower(s[1..]);
      if IsSpace(s[0]) {
        LowerDropSpaces(s);
        LowerUnderscore(DropSpaces(s));
        LowerAppend("_", Underscore(DropSpaces(s)));
        assert Lower("_") == "_";
      } else {
        LowerUnderscore(s[1..]);
        LowerAppend([s[0]], Underscore(s[1..]));
        assert Underscore(ls) == [ls[0]] + Underscore(ls[1..]);
      }
    }
  }

  lemma {:induction false} LowerDropSpaces(s: string)
    ensures Lower(DropSpaces(s)) == DropSpaces(Lower(s))
  {
    if s != [] && IsSpace(s[0]) {
      assert Lower(s)[1..] == Lower(s[1..]);
      LowerDropSpaces(s[1..]);
    }
  }

  /** A derived key is its own key: turning a key into a key again changes nothing. */
  lemma {:induction false} InsuranceValueIdempotent(name: string)
    ensures InsuranceValue("", InsuranceValue("", name)) == InsuranceValue("", name)
  {
    var k := Underscore(Lower(name));
    LowerUnderscore(Lower(name));
    LowerIdempotent(name);
    UnderscoreNoSpace(k);
  }
}
