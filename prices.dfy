/** Prices are free text on the menu ("2,500 Ks", "၂၅၀၀ ကျပ်"); totals are
    computed from them with `parse_price` and shown with `format_price`. */
module Prices {

  // ---------------------------------------------------------------------------
  // Digits of the two scripts the menu is written in
  // ---------------------------------------------------------------------------

  predicate IsAsciiDigit(c: char) { '0' <= c <= '9' }

  /** U+1040 MYANMAR DIGIT ZERO .. U+1049 MYANMAR DIGIT NINE */
  predicate IsMyanmarDigit(c: char) { '\U{1040}' <= c <= '\U{1049}' }

  /** `str.isdigit` on the model's alphabet. */
  predicate IsDigit(c: char) { IsAsciiDigit(c) || IsMyanmarDigit(c) }

  function DigitValue(c: char): (d: nat)
    requires IsDigit(c)
    ensures d < 10
  {
    if IsAsciiDigit(c) then c as int - '0' as int else c as int - 0x1040
  }

  function AsciiDigit(d: nat): (c: char)
    requires d < 10
    ensures IsAsciiDigit(c) && DigitValue(c) == d
  {
    ('0' as int + d) as char
  }

  const MyanmarDigits: string := "\U{1040}\U{1041}\U{1042}\U{1043}\U{1044}\U{1045}\U{1046}\U{1047}\U{1048}\U{1049}"
  const EnglishDigits: string := "0123456789"

  lemma DigitTables(k: nat)
    requires k < 10
    ensures |MyanmarDigits| == |EnglishDigits| == 10
    ensures MyanmarDigits[k] as int == 0x1040 + k
    ensures EnglishDigits[k] == AsciiDigit(k)
  {
  }

  // ---------------------------------------------------------------------------
  // Transliteration: the loop of `result.replace(m, e)` over the digit pairs
  // ---------------------------------------------------------------------------

  /** `s.replace(m, e)` for single characters. */
  function Replace(s: string, m: char, e: char): (r: string)
    ensures |r| == |s|
    ensures forall i :: 0 <= i < |s| ==> r[i] == (if s[i] == m then e else s[i])
  {
    if s == [] then [] else [if s[0] == m then e else s[0]] + Replace(s[1..], m, e)
  }

  /** The replacement loop from pair `k` on; `ReplaceFrom(s, 0)` is the whole loop. */
  function ReplaceFrom(s: string, k: nat): string
    requires k <= 10
    decreases 10 - k
  {
    if k == 10 then s
    else ReplaceFrom(Replace(s, MyanmarDigits[k], EnglishDigits[k]), k + 1)
  }

  function Transliterate(s: string): string { ReplaceFrom(s, 0) }

  /** The character-by-character meaning of the replacement loop. */
  function ToAscii(c: char): (a: char)
    ensures IsDigit(a) == IsDigit(c)
    ensures IsDigit(c) ==> IsAsciiDigit(a) && DigitValue(a) == DigitValue(c)
  {
    if IsMyanmarDigit(c) then AsciiDigit(c as int - 0x1040) else c
  }

  lemma {:induction false} ReplaceFromAt(s: string, k: nat)
    requires k <= 10
    ensures |ReplaceFrom(s, k)| == |s|
    ensures forall i :: 0 <= i < |s| ==>
      ReplaceFrom(s, k)[i] == (if IsMyanmarDigit(s[i]) && s[i] as int - 0x1040 >= k then ToAscii(s[i]) else s[i])
    decreases 10 - k
  {
    if k < 10 {
      DigitTables(k);
      var m, e := MyanmarDigits[k], EnglishDigits[k];
      var s' := Replace(s, m, e);
      ReplaceFromAt(s', k + 1);
      forall i | 0 <= i < |s|
        ensures ReplaceFrom(s, k)[i] == (if IsMyanmarDigit(s[i]) && s[i] as int - 0x1040 >= k then ToAscii(s[i]) else s[i])
      {
        if s[i] == m {
          assert s'[i] == e && !IsMyanmarDigit(e);
        } else {
          assert s'[i] == s[i];
        }
      }
    }
  }

  /** Every Myanmar digit becomes the ASCII digit of the same value; nothing else changes. */
  lemma TransliterateAt(s: string)
    ensures |Transliterate(s)| == |s|
    ensures forall i :: 0 <= i < |s| ==> Transliterate(s)[i] == ToAscii(s[i])
  {
    ReplaceFromAt(s, 0);
  }

  // ---------------------------------------------------------------------------
  // Digit subsequences and their base-10 value
  // ---------------------------------------------------------------------------

  /** `''.join(filter(str.isdigit, s))` */
  function KeepDigits(s: string): (r: string)
    ensures forall i :: 0 <= i < |r| ==> IsDigit(r[i])
  {
    if s == [] then []
    else (if IsDigit(s[0]) then [s[0]] else []) + KeepDigits(s[1..])
  }

  /** The values of the digit characters of `s`, in order. */
  function Digits(s: string): seq<nat>
  {
    if s == [] then []
    else (if IsDigit(s[0]) then [DigitValue(s[0])] else []) + Digits(s[1..])
  }

  /** The base-10 number written by the digit values `ds`, most significant first. */
  function Value(ds: seq<nat>): nat
  {
    if ds == [] then 0 else Value(ds[..|ds| - 1]) * 10 + ds[|ds| - 1]
  }

  lemma {:induction false} DigitsConcat(a: string, b: string)
    ensures Digits(a + b) == Digits(a) + Digits(b)
  {
    if a == [] {
      assert a + b == b;
    } else {
      assert (a + b)[1..] == a[1..] + b;
      DigitsConcat(a[1..], b);
    }
  }

  lemma {:induction false} DigitsOfKeepDigits(s: string)
    ensures Digits(KeepDigits(s)) == Digits(s)
    ensures KeepDigits(s) == [] <==> Digits(s) == []
  {
    if s != [] {
      DigitsOfKeepDigits(s[1..]);
      DigitsConcat(if IsDigit(s[0]) then [s[0]] else [], KeepDigits(s[1..]));
    }
  }

  lemma {:induction false} DigitsOfTransliterate(s: string)
    ensures Digits(Transliterate(s)) == Digits(s)
  {
    TransliterateAt(s);
    DigitsOfMapped(s, Transliterate(s));
  }

  lemma {:induction false} DigitsOfMapped(s: string, t: string)
    requires |t| == |s| && forall i :: 0 <= i < |s| ==> t[i] == ToAscii(s[i])
    ensures Digits(t) == Digits(s)
  {
    if s != [] {
      DigitsOfMapped(s[1..], t[1..]);
    }
  }

  // ---------------------------------------------------------------------------
  // parse_price
  // ---------------------------------------------------------------------------

  /** Transliterate, keep the digits, read them as a decimal number; 0 when
      `int('')` would raise. The result type makes it total and non-negative. */
  function ParsePrice(s: string): nat
  {
    var t := KeepDigits(Transliterate(s));
    if t == [] then 0 else Value(Digits(t))
  }

  /** The parsed price is the base-10 value of the string's digit subsequence,
      each Myanmar digit counting as the ASCII digit of the same value; with no
      digit at all it is 0. */
  lemma ParsePriceIsDigitValue(s: string)
    ensures ParsePrice(s) == Value(Digits(s))
    ensures Digits(s) == [] ==> ParsePrice(s) == 0
  {
    var t := Transliterate(s);
    DigitsOfKeepDigits(t);
    DigitsOfTransliterate(s);
  }

  /** Writing a price in Myanmar or in ASCII digits gives the same number. */
  lemma ParsePriceScriptBlind(s: string, t: string)
    requires |t| == |s| && forall i :: 0 <= i < |s| ==> t[i] == ToAscii(s[i])
    ensures ParsePrice(t) == ParsePrice(s)
  {
    ParsePriceIsDigitValue(s);
    ParsePriceIsDigitValue(t);
    DigitsOfMapped(s, t);
  }

  // ---------------------------------------------------------------------------
  // str(n) and format_price
  // ---------------------------------------------------------------------------

  /** `str(n)` for a non-negative integer: canonical decimal digits. */
  function Decimal(n: nat): (r: string)
    ensures |r| >= 1
    ensures forall i :: 0 <= i < |r| ==> IsAsciiDigit(r[i])
    ensures r[0] == '0' ==> n == 0
    ensures Value(Digits(r)) == n
  {
    if n < 10 then [AsciiDigit(n)]
    else
      var r := Decimal(n / 10) + [AsciiDigit(n % 10)];
      DigitsConcat(Decimal(n / 10), [AsciiDigit(n % 10)]);
      assert Digits(r)[..|Digits(r)| - 1] == Digits(Decimal(n / 10));
      r
  }

  /** Insert a comma before every group of three digits, counting from the right. */
  function Grouped(ds: string): string
  {
    if |ds| <= 3 then ds else Grouped(ds[..|ds| - 3]) + "," + ds[|ds| - 3..]
  }

  /** `f"{n:,}"` */
  function FormatPrice(n: int): string
  {
    if n < 0 then "-" + Grouped(Decimal(-n)) else Grouped(Decimal(n))
  }

  /** In a grouped run of digits, position `i` holds a comma exactly when it
      sits a multiple of four places from the end, every other position is a
      digit, and dropping the commas gives back the digits. */
  lemma GroupedShape(ds: string)
    requires |ds| >= 1 && forall i :: 0 <= i < |ds| ==> IsAsciiDigit(ds[i])
    ensures var r := Grouped(ds);
      && (forall i :: 0 <= i < |r| ==> (r[i] == ',' <==> (|r| - i) % 4 == 0))
      && (forall i :: 0 <= i < |r| && r[i] != ',' ==> IsAsciiDigit(r[i]))
      && KeepDigits(r) == ds
  {
    GroupedCommas(ds);
    KeepDigitsOfGrouped(ds);
  }

  lemma {:induction false} GroupedCommas(ds: string)
    requires |ds| >= 1 && forall i :: 0 <= i < |ds| ==> IsAsciiDigit(ds[i])
    ensures var r := Grouped(ds);
      && |r| % 4 != 0
      && (forall i :: 0 <= i < |r| ==> (r[i] == ',' <==> (|r| - i) % 4 == 0))
      && (forall i :: 0 <= i < |r| && r[i] != ',' ==> IsAsciiDigit(r[i]))
  {
    var r := Grouped(ds);
    if |ds| > 3 {
      var head, tail := ds[..|ds| - 3], ds[|ds| - 3..];
      GroupedCommas(head);
      var g := Grouped(head);
      assert r == g + "," + tail;
      assert |r| == |g| + 4;
      ModShift(|g|);
      forall i | 0 <= i < |r|
        ensures r[i] == ',' <==> (|r| - i) % 4 == 0
        ensures r[i] != ',' ==> IsAsciiDigit(r[i])
      {
        if i < |g| {
          assert r[i] == g[i];
          ModShift(|g| - i);
        } else if i > |g| {
          assert r[i] == tail[i - |g| - 1];
        }
      }
    }
  }

  lemma {:induction false} KeepDigitsOfGrouped(ds: string)
    requires forall i :: 0 <= i < |ds| ==> IsAsciiDigit(ds[i])
    ensures KeepDigits(Grouped(ds)) == ds
  {
    if |ds| <= 3 {
      KeepDigitsOfDigits(ds);
    } else {
      var head, tail := ds[..|ds| - 3], ds[|ds| - 3..];
      KeepDigitsOfGrouped(head);
      KeepDigitsOfDigits(tail);
      KeepDigitsAroundComma(Grouped(head), tail);
      assert head + tail == ds;
    }
  }

  lemma KeepDigitsAroundComma(a: string, b: string)
    ensures KeepDigits(a + "," + b) == KeepDigits(a) + KeepDigits(b)
  {
    KeepDigitsConcat(a, "," + b);
    assert ("," + b)[1..] == b;
    assert a + "," + b == a + ("," + b);
  }

  lemma ModShift(x: int)
    ensures (x + 4) % 4 == x % 4
  {
  }

  lemma {:induction false} KeepDigitsConcat(a: string, b: string)
    ensures KeepDigits(a + b) == KeepDigits(a) + KeepDigits(b)
  {
    if a == [] {
      assert a + b == b;
    } else {
      assert (a + b)[1..] == a[1..] + b;
      KeepDigitsConcat(a[1..], b);
    }
  }

  lemma {:induction false} KeepDigitsOfDigits(ds: string)
    requires forall i :: 0 <= i < |ds| ==> IsDigit(ds[i])
    ensures KeepDigits(ds) == ds
  {
    if ds != [] {
      KeepDigitsOfDigits(ds[1..]);
    }
  }

  /** `format_price(n)` for a non-negative `n`: commas every three digits from
      the right, and the digits between them spell `str(n)`. */
  lemma FormatPriceShape(n: nat)
    ensures var r := FormatPrice(n);
      && (forall i :: 0 <= i < |r| ==> (r[i] == ',' <==> (|r| - i) % 4 == 0))
      && (forall i :: 0 <= i < |r| && r[i] != ',' ==> IsAsciiDigit(r[i]))
      && KeepDigits(r) == Decimal(n)
  {
    GroupedShape(Decimal(n));
  }

  /** Parsing a formatted price gives the number back; a negative number comes
      back without its sign, since '-' is not a digit. */
  lemma ParseFormatRoundTrip(n: int)
    ensures ParsePrice(FormatPrice(n)) == if n < 0 then -n else n
  {
    var m: nat := if n < 0 then -n else n;
    var g := Grouped(Decimal(m));
    GroupedShape(Decimal(m));
    ParsePriceIsDigitValue(FormatPrice(n));
    DigitsOfKeepDigits(g);
    if n < 0 {
      DigitsConcat("-", g);
      assert Digits(FormatPrice(n)) == Digits(g);
    }
    assert Digits(g) == Digits(Decimal(m));
  }

  /** `parse_price(str(n)) == n`: a price written as plain digits reads back as its value. */
  lemma ParseDecimalRoundTrip(n: nat)
    ensures ParsePrice(Decimal(n)) == n
  {
    ParsePriceIsDigitValue(Decimal(n));
  }
}
