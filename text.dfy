/**
 Character-level helpers the broker relies on from the Java runtime, restricted
 to ASCII: `String.toUpperCase`/`toLowerCase`, decimal rendering of an `int`
 (`Integer.toString`, `%d`) and `String.getBytes()`.
 */
module Text {

  /** A byte as Java's `byte[]` holds it, taken unsigned. */
  newtype uint8 = x: int | 0 <= x < 256

  predicate IsAscii(s: string) {
    forall i :: 0 <= i < |s| ==> s[i] as int < 128
  }

  function UpperChar(c: char): char {
    if 'a' <= c <= 'z' then (c as int - 32) as char else c
  }

  function LowerChar(c: char): char {
    if 'A' <= c <= 'Z' then (c as int + 32) as char else c
  }

  /** `String.toUpperCase()` on ASCII text: only `a`..`z` change. */
  function ToUpper(s: string): (r: string)
    ensures |r| == |s|
    ensures forall i :: 0 <= i < |s| ==> r[i] == UpperChar(s[i])
  {
    if s == [] then [] else [UpperChar(s[0])] + ToUpper(s[1..])
  }

  /** `String.toLowerCase()` on ASCII text: only `A`..`Z` change. */
  function ToLower(s: string): (r: string)
    ensures |r| == |s|
    ensures forall i :: 0 <= i < |s| ==> r[i] == LowerChar(s[i])
  {
    if s == [] then [] else [LowerChar(s[0])] + ToLower(s[1..])
  }

  /** Upper-casing is determined character by character. */
  lemma UpperIs(s: string, u: string)
    requires |s| == |u|
    requires forall i :: 0 <= i < |s| ==> UpperChar(s[i]) == u[i]
    ensures ToUpper(s) == u
  {
  }

  predicate IsUpperWord(s: string) {
    forall i :: 0 <= i < |s| ==> 'A' <= s[i] <= 'Z'
  }

  /** Lower-casing an upper-case word and upper-casing it again gives the word back. */
  lemma UpperOfLower(s: string)
    requires IsUpperWord(s)
    ensures ToUpper(ToLower(s)) == s
    ensures forall i :: 0 <= i < |s| ==> 'a' <= ToLower(s)[i] <= 'z'
  {
    var l := ToLower(s);
    forall i | 0 <= i < |s|
      ensures 'a' <= l[i] <= 'z' && UpperChar(l[i]) == s[i]
    {
      LowerThenUpper(s[i]);
    }
    UpperIs(l, s);
  }

  /** An upper-case letter lower-cases to a lower-case letter that upper-cases back. */
  lemma LowerThenUpper(c: char)
    requires 'A' <= c <= 'Z'
    ensures 'a' <= LowerChar(c) <= 'z' && UpperChar(LowerChar(c)) == c
  {
  }

  /** Two strings that agree after upper-casing are upper-cased alike, character by character. */
  lemma UpperIgnoresCase(a: string, b: string)
    requires |a| == |b|
    requires forall i :: 0 <= i < |a| ==> UpperChar(a[i]) == UpperChar(b[i])
    ensures ToUpper(a) == ToUpper(b)
  {
  }

  function DigitChar(d: int): (c: char)
    requires 0 <= d < 10
    ensures '0' <= c <= '9'
  {
    ('0' as int + d) as char
  }

  predicate IsDigits(s: string) {
    forall i :: 0 <= i < |s| ==> '0' <= s[i] <= '9'
  }

  /** Decimal rendering of a non-negative `int`, as `Integer.toString` and `%d` give it. */
  function Decimal(n: nat): (s: string)
    ensures |s| > 0 && IsDigits(s)
    ensures |s| > 1 ==> s[0] != '0'
  {
    if n < 10 then [DigitChar(n)] else Decimal(n / 10) + [DigitChar(n % 10)]
  }

  /** The value of a string of decimal digits, most significant first. */
  function ParseDecimal(s: string): nat
    requires IsDigits(s)
  {
    if s == [] then 0 else 10 * ParseDecimal(s[..|s| - 1]) + (s[|s| - 1] as int - '0' as int)
  }

  /** Reading back a rendered number gives the number. */
  lemma {:induction false} ParseDecimalOfDecimal(n: nat)
    ensures ParseDecimal(Decimal(n)) == n
  {
    if n >= 10 {
      var s := Decimal(n / 10) + [DigitChar(n % 10)];
      assert s[..|s| - 1] == Decimal(n / 10);
      ParseDecimalOfDecimal(n / 10);
    }
  }

  /** Rendering is injective: different numbers never print alike. */
  lemma DecimalInjective(m: nat, n: nat)
    requires Decimal(m) == Decimal(n)
    ensures m == n
  {
    ParseDecimalOfDecimal(m);
    ParseDecimalOfDecimal(n);
  }

  /**
   `String.getBytes()` under an ASCII default charset: a character outside ASCII
   cannot be encoded and becomes the replacement byte `?`.
   */
  function AsciiBytes(s: string): (b: seq<uint8>)
    ensures |b| == |s|
    ensures forall i :: 0 <= i < |s| ==> b[i] < 128
    ensures forall i :: 0 <= i < |s| && s[i] as int < 128 ==> b[i] as int == s[i] as int
  {
    if s == [] then []
    else [if s[0] as int < 128 then s[0] as int as uint8 else '?' as int as uint8] + AsciiBytes(s[1..])
  }

  /** The text an ASCII decoder reads from bytes below 128. */
  function AsciiText(b: seq<uint8>): (s: string)
    requires forall i :: 0 <= i < |b| ==> b[i] < 128
    ensures |s| == |b|
  {
    if b == [] then [] else [b[0] as int as char] + AsciiText(b[1..])
  }

  /** Encoding ASCII text to bytes and decoding it again gives the text back. */
  lemma {:induction false} AsciiRoundTrip(s: string)
    requires IsAscii(s)
    ensures AsciiText(AsciiBytes(s)) == s
  {
    if s != [] {
      AsciiRoundTrip(s[1..]);
    }
  }

  lemma {:induction false} AsciiBytesAppend(a: string, b: string)
    ensures AsciiBytes(a + b) == AsciiBytes(a) + AsciiBytes(b)
  {
    if a == [] {
      assert a + b == b;
    } else {
      assert (a + b)[0] == a[0];
      assert (a + b)[1..] == a[1..] + b;
      AsciiBytesAppend(a[1..], b);
    }
  }
}
