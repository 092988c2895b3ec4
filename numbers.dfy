/**
 * Unsigned integer fields (`u8` for `pct`, `u32` for `begin`, `end` and
 * `count`). Text is parsed the way Rust's `FromStr` parses an unsigned
 * integer — an optional `+`, then one or more ASCII decimal digits (leading
 * zeros allowed), with a value no larger than the type's maximum, read from the
 * left so that the first bad digit or overflow decides the error — and written
 * back the way `Display` writes it: plain decimal digits, no sign, no leading zero.
 */
module Numbers {
  import opened Wrappers
  import opened Errors

  const U8_MAX: nat := 0xFF
  const U32_MAX: nat := 0xFFFF_FFFF

  /** Rust's `u8`. */
  type U8 = n: nat | n <= U8_MAX

  /** Rust's `u32`. */
  type U32 = n: nat | n <= U32_MAX

  predicate IsDigit(c: char) { '0' <= c <= '9' }

  predicate AllDigits(s: string) { forall i :: 0 <= i < |s| ==> IsDigit(s[i]) }

  function DigitValue(c: char): (d: nat)
    requires IsDigit(c)
    ensures d < 10
  {
    c as int - '0' as int
  }

  function DigitChar(d: nat): (c: char)
    requires d < 10
    ensures IsDigit(c) && DigitValue(c) == d
  {
    ('0' as int + d) as char
  }

  /** The value of a string of decimal digits, most significant first. */
  function DigitsValue(ds: string): nat
    requires AllDigits(ds)
  {
    if ds == [] then 0 else 10 * DigitsValue(ds[..|ds| - 1]) + DigitValue(ds[|ds| - 1])
  }

  /** The digits of a literal once an optional leading `+` is dropped. */
  function Magnitude(s: string): (m: string)
    ensures |m| <= |s|
  {
    if |s| > 0 && s[0] == '+' then s[1..] else s
  }

  /** The grammar `FromStr` accepts for an unsigned integer, regardless of its width. */
  predicate IsUnsignedLiteral(s: string)
  {
    |Magnitude(s)| > 0 && AllDigits(Magnitude(s))
  }

  /** The run of digits that starts a text, up to its first non-digit. */
  function LeadingDigits(m: string): (d: string)
    ensures d <= m && AllDigits(d)
    ensures |d| < |m| ==> !IsDigit(m[|d|])
    ensures AllDigits(m) ==> d == m
  {
    if m == [] || !IsDigit(m[0]) then [] else [m[0]] + LeadingDigits(m[1..])
  }

  /**
   * Parses `s` as an unsigned integer no larger than `max`. Digits are read
   * from the left and the first failure wins, so a text whose leading digits
   * already exceed `max` is `OutOfRange` even when a non-digit follows; any
   * other text outside the grammar is an `InvalidInteger`.
   */
  function ParseUnsigned(s: string, max: nat): (r: Decoded<nat>)
    ensures r.Ok? ==> IsUnsignedLiteral(s) && r.value == DigitsValue(Magnitude(s)) <= max
    ensures DigitsValue(LeadingDigits(Magnitude(s))) > max ==> r == Err(OutOfRange(s))
    ensures !IsUnsignedLiteral(s) && DigitsValue(LeadingDigits(Magnitude(s))) <= max ==> r == Err(InvalidInteger(s))
    ensures IsUnsignedLiteral(s) && DigitsValue(Magnitude(s)) <= max ==> r == Ok(DigitsValue(Magnitude(s)))
  {
    var m := Magnitude(s);
    var lead := LeadingDigits(m);
    if DigitsValue(lead) > max then Err(OutOfRange(s))
    else if |m| == 0 || lead != m then Err(InvalidInteger(s))
    else Ok(DigitsValue(m))
  }

  /** `u8::from_str`. */
  function ParseU8(s: string): (r: Decoded<U8>)
    ensures DigitsValue(LeadingDigits(Magnitude(s))) > U8_MAX ==> r == Err(OutOfRange(s))
    ensures !IsUnsignedLiteral(s) && DigitsValue(LeadingDigits(Magnitude(s))) <= U8_MAX ==> r == Err(InvalidInteger(s))
    ensures IsUnsignedLiteral(s) && DigitsValue(Magnitude(s)) <= U8_MAX ==> r == Ok(DigitsValue(Magnitude(s)))
  {
    var n :- ParseUnsigned(s, U8_MAX);
    Ok(n)
  }

  /** `u32::from_str`. */
  function ParseU32(s: string): (r: Decoded<U32>)
    ensures DigitsValue(LeadingDigits(Magnitude(s))) > U32_MAX ==> r == Err(OutOfRange(s))
    ensures !IsUnsignedLiteral(s) && DigitsValue(LeadingDigits(Magnitude(s))) <= U32_MAX ==> r == Err(InvalidInteger(s))
    ensures IsUnsignedLiteral(s) && DigitsValue(Magnitude(s)) <= U32_MAX ==> r == Ok(DigitsValue(Magnitude(s)))
  {
    var n :- ParseUnsigned(s, U32_MAX);
    Ok(n)
  }

  /**
   * The loop of Rust's `from_str_radix` over the digits after the sign: each
   * character must be a digit, the running value is multiplied by ten and the
   * digit added, and the scan stops at the first character that is not a digit
   * or that takes the value past `max`.
   */
  function ScanDigits(s: string, ds: string, acc: nat, max: nat): Decoded<nat>
  {
    if ds == [] then Ok(acc)
    else if !IsDigit(ds[0]) then Err(InvalidInteger(s))
    else if 10 * acc + DigitValue(ds[0]) > max then Err(OutOfRange(s))
    else ScanDigits(s, ds[1..], 10 * acc + DigitValue(ds[0]), max)
  }

  /** `from_str_radix` in base ten: an empty text or a lone sign is malformed, otherwise the digits are scanned. */
  function ScanUnsigned(s: string, max: nat): Decoded<nat>
  {
    if Magnitude(s) == [] then Err(InvalidInteger(s)) else ScanDigits(s, Magnitude(s), 0, max)
  }

  /** A prefix of a digit string has no larger value than the whole. */
  lemma {:induction false} PrefixValueIsSmaller(d: string, k: nat)
    requires AllDigits(d) && k <= |d|
    ensures DigitsValue(d[..k]) <= DigitsValue(d)
    decreases |d| - k
  {
    if k < |d| {
      var init := d[..|d| - 1];
      assert init[..k] == d[..k];
      PrefixValueIsSmaller(init, k);
    } else {
      assert d[..k] == d;
    }
  }

  /**
   * Scanning on from the `i`-th character of the leading digits `lead` of `m`,
   * with the value of the first `i` of them, overflows exactly when all of
   * `lead` does, and otherwise stops at the end of `lead`.
   */
  lemma {:induction false} ScanDigitsFrom(s: string, m: string, lead: string, i: nat, max: nat)
    requires lead <= m && AllDigits(lead) && (|lead| < |m| ==> !IsDigit(m[|lead|]))
    requires i <= |lead| && DigitsValue(lead[..i]) <= max
    ensures ScanDigits(s, m[i..], DigitsValue(lead[..i]), max)
      == if DigitsValue(lead) > max then Err(OutOfRange(s))
         else if lead != m then Err(InvalidInteger(s))
         else Ok(DigitsValue(m))
    decreases |m| - i
  {
    var acc := DigitsValue(lead[..i]);
    if i == |lead| {
      assert lead[..i] == lead;
      if i == |m| {
        assert lead == m && m[i..] == [];
      } else {
        assert m[i..][0] == m[i];
      }
    } else {
      assert m[i..][0] == lead[i];
      assert lead[..i + 1][..i] == lead[..i];
      assert DigitsValue(lead[..i + 1]) == 10 * acc + DigitValue(lead[i]);
      assert m[i..][1..] == m[i + 1..];
      if 10 * acc + DigitValue(lead[i]) > max {
        PrefixValueIsSmaller(lead, i + 1);
      } else {
        ScanDigitsFrom(s, m, lead, i + 1, max);
      }
    }
  }

  /** The closed form agrees with Rust's digit-by-digit scan on every text and every bound. */
  lemma ParseUnsignedIsDigitScan(s: string, max: nat)
    ensures ParseUnsigned(s, max) == ScanUnsigned(s, max)
  {
    var m := Magnitude(s);
    if m != [] {
      var lead := LeadingDigits(m);
      assert lead[..0] == [];
      assert m[0..] == m;
      ScanDigitsFrom(s, m, lead, 0, max);
    }
  }

  /** `Display` of an unsigned integer: its shortest decimal representation. */
  function ShowNat(n: nat): (s: string)
    ensures |s| > 0 && AllDigits(s) && DigitsValue(s) == n
    ensures s[0] == '0' ==> s == "0"
    decreases n
  {
    if n < 10 then [DigitChar(n)] else ShowNat(n / 10) + [DigitChar(n % 10)]
  }

  /**
   * Parsing what `Display` wrote gives the number back when it fits the
   * field, and `OutOfRange` otherwise: a field decodes exactly the values of
   * its width.
   */
  lemma ParseShow(n: nat, max: nat)
    ensures ParseUnsigned(ShowNat(n), max) == if n <= max then Ok(n) else Err(OutOfRange(ShowNat(n)))
  {
    var s := ShowNat(n);
    assert s[0] != '+';
    assert Magnitude(s) == s;
  }

  lemma U8Bound(n: nat)
    ensures ParseU8(ShowNat(n)).Ok? <==> n <= U8_MAX
    ensures n <= U8_MAX ==> ParseU8(ShowNat(n)) == Ok(n)
  {
    ParseShow(n, U8_MAX);
  }

  lemma U32Bound(n: nat)
    ensures ParseU32(ShowNat(n)).Ok? <==> n <= U32_MAX
    ensures n <= U32_MAX ==> ParseU32(ShowNat(n)) == Ok(n)
  {
    ParseShow(n, U32_MAX);
  }

  /** `pct` accepts 0 and 255 and rejects 256. */
  lemma PctBoundaries()
    ensures ParseU8("0") == Ok(0) && ParseU8("255") == Ok(255) && ParseU8("256") == Err(OutOfRange("256"))
  {
    assert ShowNat(0) == "0";
    U8Bound(0);
    assert ShowNat(255) == "255";
    U8Bound(255);
    assert ShowNat(256) == "256";
    ParseShow(256, U8_MAX);
  }

  /** A leading `+` and leading zeros are accepted. */
  lemma SignAndZerosAccepted()
    ensures ParseU8("+100") == Ok(100) && ParseU8("007") == Ok(7)
  {
    assert ShowNat(100) == "100";
    assert Magnitude("+100") == "100";
    U8Bound(100);
    assert Magnitude("007") == "007" && AllDigits("007");
    assert "007"[..2] == "00" && "00"[..1] == "0" && "0"[..0] == "";
    assert DigitsValue("007") == 7;
  }

  /** An empty text, a bare `+`, a `-` sign and a non-digit are rejected as malformed. */
  lemma MalformedRejected()
    ensures ParseU8("") == Err(InvalidInteger("")) && ParseU8("+") == Err(InvalidInteger("+"))
    ensures ParseU8("-0") == Err(InvalidInteger("-0")) && ParseU8("1e2") == Err(InvalidInteger("1e2"))
  {
    assert Magnitude("+") == "";
    assert !IsDigit("-0"[0]) && !IsDigit("1e2"[1]);
  }

  /** The leading digits of digits followed by a non-digit are those digits. */
  lemma {:induction false} LeadingDigitsBeforeNonDigit(d: string, rest: string)
    requires AllDigits(d) && rest != [] && !IsDigit(rest[0])
    ensures LeadingDigits(d + rest) == d
    decreases |d|
  {
    if d != [] {
      assert (d + rest)[1..] == d[1..] + rest;
      LeadingDigitsBeforeNonDigit(d[1..], rest);
    }
  }

  /** An overflow in the leading digits is reported before a later bad character. */
  lemma OverflowBeforeBadCharacter()
    ensures ParseU8("256x") == Err(OutOfRange("256x"))
    ensures ParseU32("4294967296-") == Err(OutOfRange("4294967296-"))
  {
    assert ShowNat(256) == "256";
    assert Magnitude("256x") == "256" + "x";
    LeadingDigitsBeforeNonDigit("256", "x");
    ShowU32Max();
    assert Magnitude("4294967296-") == ShowNat(4294967296) + "-";
    LeadingDigitsBeforeNonDigit(ShowNat(4294967296), "-");
  }

  /** A bad character after leading digits that fit is malformed. */
  lemma BadCharacterWithinRange()
    ensures ParseU8("25x") == Err(InvalidInteger("25x"))
  {
    assert ShowNat(25) == "25";
    assert Magnitude("25x") == "25" + "x";
    LeadingDigitsBeforeNonDigit("25", "x");
  }

  lemma ShowU32Max()
    ensures ShowNat(4294967295) == "4294967295" && ShowNat(4294967296) == "4294967296"
  {
    assert ShowNat(42) == "42";
    assert ShowNat(4294) == "4294";
    assert ShowNat(429496) == "429496";
    assert ShowNat(42949672) == "42949672";
    assert ShowNat(429496729) == "429496729";
  }

  /** `begin`, `end` and `count` accept 4294967295 and reject 4294967296. */
  lemma U32Boundaries()
    ensures ParseU32("4294967295") == Ok(4294967295) && ParseU32("4294967296") == Err(OutOfRange("4294967296"))
  {
    ShowU32Max();
    U32Bound(4294967295);
    ParseShow(4294967296, U32_MAX);
  }
}
