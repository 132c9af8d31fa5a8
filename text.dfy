/** Text helpers shared by the pipeline stages: case-insensitive comparison,
    decoding of stream bytes, concatenation of log pieces and decimal rendering. */
module Text {

  /** One octet of a stream. */
  newtype byte = x: int | 0 <= x < 256

  // ---------------------------------------------------------------------------
  // Case-insensitive comparison
  // ---------------------------------------------------------------------------

  /** Case folding of one character (ASCII letters only). */
  function Fold(c: char): char
  {
    if 'A' <= c <= 'Z' then (c as int + 32) as char else c
  }

  /** `needle` occurs in `hay` at offset `i`, ignoring case. */
  predicate MatchesAt(hay: string, needle: string, i: nat)
    requires i + |needle| <= |hay|
  {
    forall j :: 0 <= j < |needle| ==> Fold(hay[i + j]) == Fold(needle[j])
  }

  /** `string.Equals(b, ...IgnoreCase)`. */
  predicate EqualsIgnoreCase(a: string, b: string)
  {
    |a| == |b| && MatchesAt(a, b, 0)
  }

  /** Equality ignoring case is transitive. */
  lemma EqualsIgnoreCaseTransitive(a: string, b: string, c: string)
    requires EqualsIgnoreCase(a, b) && EqualsIgnoreCase(b, c)
    ensures EqualsIgnoreCase(a, c)
  {
  }

  /** `string.StartsWith(prefix, ...IgnoreCase)`. */
  predicate StartsWithIgnoreCase(s: string, prefix: string)
  {
    |prefix| <= |s| && MatchesAt(s, prefix, 0)
  }

  /** `string.Contains(needle, ...IgnoreCase)`: a left-to-right search for an
      offset where `needle` matches. The empty needle occurs in every string. */
  function ContainsIgnoreCase(hay: string, needle: string): (r: bool)
    ensures r <==> exists i: nat :: i + |needle| <= |hay| && MatchesAt(hay, needle, i)
    decreases |hay|
  {
    if |hay| < |needle| then false
    else if MatchesAt(hay, needle, 0) then true
    else
      MatchShift(hay, needle);
      ContainsIgnoreCase(hay[1..], needle)
  }

  /** When `needle` does not match at offset 0, it occurs in `hay` exactly when
      it occurs in the tail of `hay`. */
  lemma MatchShift(hay: string, needle: string)
    requires |needle| <= |hay| && !MatchesAt(hay, needle, 0)
    ensures (exists i: nat :: i + |needle| <= |hay| && MatchesAt(hay, needle, i))
        <==> (exists i: nat :: i + |needle| <= |hay| - 1 && MatchesAt(hay[1..], needle, i))
  {
    forall i: nat | i + |needle| <= |hay| - 1
      ensures MatchesAt(hay[1..], needle, i) <==> MatchesAt(hay, needle, i + 1)
    {
      forall k | i <= k < i + |needle|
        ensures hay[1..][k] == hay[k + 1]
      {
      }
    }
    if i: nat :| i + |needle| <= |hay| && MatchesAt(hay, needle, i) {
      assert i != 0;
      assert MatchesAt(hay[1..], needle, i - 1);
    }
  }

  // ---------------------------------------------------------------------------
  // Decoding
  // ---------------------------------------------------------------------------

  /** Bytes below 128: the characters they encode are the same in UTF-8 and
      in the one-byte stand-in below. */
  predicate IsAscii(bytes: seq<byte>)
  {
    forall i :: 0 <= i < |bytes| ==> bytes[i] < 128
  }

  /** The text a `StreamReader` reads from `bytes`. Each byte stands for the
      character with the same code; for ASCII bytes this is what UTF-8
      decoding gives, one character per byte. */
  function Decode(bytes: seq<byte>): (text: string)
    ensures IsAscii(bytes) ==> |text| == |bytes|
    ensures IsAscii(bytes) ==> forall i :: 0 <= i < |bytes| ==> text[i] as int == bytes[i] as int
  {
    seq(|bytes|, i requires 0 <= i < |bytes| => bytes[i] as int as char)
  }

  // ---------------------------------------------------------------------------
  // Concatenation of pieces (the behaviour of repeated `StringBuilder.Append`)
  // ---------------------------------------------------------------------------

  /** The text built by appending `parts` in order to an empty builder. */
  function Concat(parts: seq<string>): string
  {
    if parts == [] then "" else Concat(parts[..|parts| - 1]) + parts[|parts| - 1]
  }

  /** Where `parts[k]` starts in `Concat(parts)`. */
  function Offset(parts: seq<string>, k: nat): nat
    requires k <= |parts|
  {
    |Concat(parts[..k])|
  }

  /** Appending one more part moves the offset past that part. */
  lemma {:induction false} OffsetStep(parts: seq<string>, k: nat)
    requires k < |parts|
    ensures Offset(parts, k + 1) == Offset(parts, k) + |parts[k]|
    ensures Concat(parts[..k + 1]) == Concat(parts[..k]) + parts[k]
  {
    assert parts[..k + 1][..k] == parts[..k];
  }

  /** Offsets never decrease along the parts. */
  lemma {:induction false} OffsetMonotone(parts: seq<string>, i: nat, j: nat)
    requires i <= j <= |parts|
    ensures Offset(parts, i) <= Offset(parts, j)
    decreases j - i
  {
    if i < j {
      OffsetStep(parts, i);
      OffsetMonotone(parts, i + 1, j);
    }
  }

  /** Every prefix of the parts builds a prefix of the whole text. */
  lemma {:induction false} ConcatPrefix(parts: seq<string>, k: nat)
    requires k <= |parts|
    ensures Offset(parts, k) <= |Concat(parts)|
    ensures Concat(parts)[..Offset(parts, k)] == Concat(parts[..k])
    decreases |parts| - k
  {
    if k == |parts| {
      assert parts[..k] == parts;
    } else {
      ConcatPrefix(parts, k + 1);
      OffsetStep(parts, k);
      var whole, longer := Concat(parts), Concat(parts[..k + 1]);
      assert whole[..|longer|] == longer;
      assert whole[..Offset(parts, k)] == longer[..Offset(parts, k)];
    }
  }

  /** Each part can be read back from the built text at its offset. */
  lemma {:induction false} ConcatSlice(parts: seq<string>, k: nat)
    requires k < |parts|
    ensures Offset(parts, k) + |parts[k]| <= |Concat(parts)|
    ensures Concat(parts)[Offset(parts, k)..Offset(parts, k) + |parts[k]|] == parts[k]
  {
    ConcatPrefix(parts, k + 1);
    OffsetStep(parts, k);
    var whole, upTo := Concat(parts), Concat(parts[..k + 1]);
    assert whole[Offset(parts, k)..Offset(parts, k) + |parts[k]|]
        == upTo[Offset(parts, k)..];
  }

  // ---------------------------------------------------------------------------
  // Decimal rendering (`int.ToString()`)
  // ---------------------------------------------------------------------------

  function DigitChar(d: nat): char
    requires d < 10
  {
    ('0' as int + d) as char
  }

  predicate IsDigit(c: char)
  {
    '0' <= c <= '9'
  }

  function DigitValue(c: char): nat
    requires IsDigit(c)
  {
    c as int - '0' as int
  }

  /** A non-empty run of decimal digits. */
  predicate IsDigits(s: string)
  {
    |s| > 0 && forall i :: 0 <= i < |s| ==> IsDigit(s[i])
  }

  /** A decimal integer: digits, optionally after a minus sign. */
  predicate IsInteger(s: string)
  {
    IsDigits(s) || (|s| > 1 && s[0] == '-' && IsDigits(s[1..]))
  }

  /** The decimal digits of `n`, most significant first, without leading zeros. */
  function NatToString(n: nat): string
    decreases n
  {
    if n < 10 then [DigitChar(n)] else NatToString(n / 10) + [DigitChar(n % 10)]
  }

  /** `n.ToString()`: a minus sign before the digits of a negative number. */
  function IntToString(n: int): string
  {
    if n < 0 then "-" + NatToString(-n) else NatToString(n)
  }

  /** The value of a string of decimal digits. */
  function ParseNat(s: string): nat
    requires forall i :: 0 <= i < |s| ==> IsDigit(s[i])
  {
    if s == [] then 0 else ParseNat(s[..|s| - 1]) * 10 + DigitValue(s[|s| - 1])
  }

  /** The value of a decimal integer. */
  function ParseInt(s: string): int
    requires IsInteger(s)
  {
    if IsDigits(s) then ParseNat(s) else -(ParseNat(s[1..]) as int)
  }

  /** Parsing the decimal rendering of a natural number gives it back. */
  lemma {:induction false} NatToStringRoundTrip(n: nat)
    ensures IsDigits(NatToString(n))
    ensures ParseNat(NatToString(n)) == n
    decreases n
  {
    if n >= 10 {
      NatToStringRoundTrip(n / 10);
      var s := NatToString(n);
      assert s[..|s| - 1] == NatToString(n / 10);
    }
  }

  /** The rendering of a status code is a decimal integer that reads back as
      the same number. */
  lemma IntToStringRoundTrip(n: int)
    ensures IsInteger(IntToString(n))
    ensures ParseInt(IntToString(n)) == n
  {
    if n < 0 {
      NatToStringRoundTrip(-n);
      assert IntToString(n)[1..] == NatToString(-n);
      assert !IsDigit(IntToString(n)[0]);
    } else {
      NatToStringRoundTrip(n);
    }
  }
}
