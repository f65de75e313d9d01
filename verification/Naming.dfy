/**
 The keys and titles both generators make out of a running number, and why no two
 numbers share one.
 */
module Naming {
  import opened Common

  const KEY_ALPHABET := "23456789ABCDEFGHIJKLMNPQRSTUVWXYZ"

  /** What both validators match a key against. */
  predicate ValidKey(key: string) {
    |key| == 8 && forall i :: 0 <= i < 8 ==> key[i] in KEY_ALPHABET
  }

  function Digit(d: nat): (c: char)
    requires d < 10
  {
    "0123456789"[d]
  }

  function Decimal(n: nat): (s: string)
    ensures s != ""
  {
    if n < 10 then [Digit(n)] else Decimal(n / 10) + [Digit(n % 10)]
  }

  /** The number a string of digits stands for. */
  function DecimalValue(digits: string): Option<nat>
    decreases |digits|
  {
    if digits == "" then Some(0)
    else
      var last := digits[|digits| - 1];
      match DecimalValue(digits[..|digits| - 1])
      case Some(n) => if '0' <= last <= '9' then Some(10 * n + (last as int - '0' as int)) else None
      case None => None
  }

  lemma {:induction false} DecimalReadsBack(n: nat)
    ensures DecimalValue(Decimal(n)) == Some(n)
  {
    var s := Decimal(n);
    if n < 10 {
      assert s[..0] == "";
    } else {
      DecimalReadsBack(n / 10);
      assert s[..|s| - 1] == Decimal(n / 10);
    }
  }

  /** At least `width` digits, filled up with zeros in front. */
  function Padded(n: nat, width: nat): (s: string)
    ensures |s| >= width
    decreases width
  {
    if width <= 1 then Decimal(n) else Padded(n / 10, width - 1) + [Digit(n % 10)]
  }

  /** Keys use neither of the digits that are mistaken for letters. */
  function Letter(c: char): char {
    if c == '0' then 'A' else if c == '1' then 'B' else c
  }

  function Translated(s: string): (t: string)
    ensures |t| == |s|
  {
    seq(|s|, i requires 0 <= i < |s| => Letter(s[i]))
  }

  function NumberedKey(prefix: string, n: nat): string {
    prefix + Translated(Padded(n, 5))
  }

  function Signed(n: int): string {
    if n < 0 then "-" + Decimal(-n) else Decimal(n)
  }

  // -------------------------------------------------------------- uniqueness

  lemma DigitsDiffer(a: nat, b: nat)
    requires a < 10 && b < 10 && Letter(Digit(a)) == Letter(Digit(b))
    ensures a == b
  {
  }

  lemma {:induction false} DecimalInjective(m: nat, n: nat)
    requires Decimal(m) == Decimal(n)
    ensures m == n
    decreases m
  {
    var s, t := Decimal(m), Decimal(n);
    assert s[|s| - 1] == Digit(m % 10) && t[|t| - 1] == Digit(n % 10);
    DigitsDiffer(m % 10, n % 10);
    assert (|s| == 1 <==> m < 10) && (|t| == 1 <==> n < 10);
    if m >= 10 {
      assert s[..|s| - 1] == Decimal(m / 10) && t[..|t| - 1] == Decimal(n / 10);
      DecimalInjective(m / 10, n / 10);
    }
  }

  function Power10(k: nat): (p: nat)
    ensures p >= 1
  {
    if k == 0 then 1 else 10 * Power10(k - 1)
  }

  lemma {:induction false} PaddedLength(n: nat, width: nat)
    requires width >= 1 && n < Power10(width)
    ensures |Padded(n, width)| == width
    ensures forall i :: 0 <= i < width ==> '0' <= Padded(n, width)[i] <= '9'
    decreases width
  {
    if width > 1 {
      PaddedLength(n / 10, width - 1);
    }
  }

  lemma PaddedSplits(n: nat, width: nat)
    requires width > 1 && n < Power10(width)
    ensures n / 10 < Power10(width - 1)
    ensures |Padded(n / 10, width - 1)| == width - 1 && |Padded(n, width)| == width
    ensures Translated(Padded(n, width))[..width - 1] == Translated(Padded(n / 10, width - 1))
    ensures Translated(Padded(n, width))[width - 1] == Letter(Digit(n % 10))
  {
    PaddedLength(n / 10, width - 1);
  }

  lemma {:induction false} TranslatedInjective(m: nat, n: nat, width: nat)
    requires width >= 1 && m < Power10(width) && n < Power10(width)
    requires Translated(Padded(m, width)) == Translated(Padded(n, width))
    ensures m == n
    decreases width
  {
    if width == 1 {
      assert Power10(1) == 10;
      assert Translated(Padded(m, 1))[0] == Letter(Digit(m)) && Translated(Padded(n, 1))[0] == Letter(Digit(n));
      DigitsDiffer(m, n);
    } else {
      hide Padded, Translated, Letter, Digit, Power10;
      PaddedSplits(m, width);
      PaddedSplits(n, width);
      DigitsDiffer(m % 10, n % 10);
      TranslatedInjective(m / 10, n / 10, width - 1);
    }
  }

  lemma FiveDigits()
    ensures Power10(5) == 100000
  {
  }

  /** A three-letter prefix and a number of at most five digits make a valid key. */
  lemma NumberedKeyValid(prefix: string, n: nat)
    requires |prefix| == 3 && (forall i :: 0 <= i < 3 ==> prefix[i] in KEY_ALPHABET) && n <= 99999
    ensures ValidKey(NumberedKey(prefix, n))
  {
    FiveDigits();
    PaddedLength(n, 5);
    var key, digits := NumberedKey(prefix, n), Padded(n, 5);
    forall i | 0 <= i < 8 ensures key[i] in KEY_ALPHABET {
      if i >= 3 {
        assert key[i] == Letter(digits[i - 3]);
        LetterAllowed(digits[i - 3]);
      }
    }
  }

  lemma LetterAllowed(c: char)
    requires '0' <= c <= '9'
    ensures Letter(c) in KEY_ALPHABET
  {
  }

  lemma {:induction false} PaddedLonger(n: nat, width: nat)
    requires width >= 1 && n >= Power10(width)
    ensures |Padded(n, width)| > width
    decreases width
  {
    if width == 1 {
      assert Power10(1) == 10;
    } else {
      PaddedLonger(n / 10, width - 1);
    }
  }

  /** A sixth digit makes the key too long. */
  lemma NumberedKeyTooLong(prefix: string, n: nat)
    requires |prefix| == 3 && n > 99999
    ensures !ValidKey(NumberedKey(prefix, n))
  {
  }

  lemma NumberedKeysDiffer(prefix: string, m: nat, n: nat)
    requires m <= 99999 && n <= 99999 && NumberedKey(prefix, m) == NumberedKey(prefix, n)
    ensures m == n
  {
    FiveDigits();
    assert NumberedKey(prefix, m)[|prefix|..] == Translated(Padded(m, 5));
    assert NumberedKey(prefix, n)[|prefix|..] == Translated(Padded(n, 5));
    TranslatedInjective(m, n, 5);
  }

  /** A number between a fixed beginning and a fixed end can be read back. */
  lemma NumberedTextsDiffer(start: string, m: nat, n: nat, end: string)
    requires start + Decimal(m) + end == start + Decimal(n) + end
    ensures m == n
  {
    var s, t := start + Decimal(m) + end, start + Decimal(n) + end;
    assert |Decimal(m)| == |Decimal(n)|;
    assert s[|start|..|start| + |Decimal(m)|] == Decimal(m);
    assert t[|start|..|start| + |Decimal(n)|] == Decimal(n);
    DecimalInjective(m, n);
  }
}
