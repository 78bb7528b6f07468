/** Port-name handling done by openPort: the decimal conversion QString::toInt
    applies to the text after "COM", and the rewrite of "COM<N>" with N > 9
    into the Windows device namespace. */
module PortName {

  const Int32Min: int := -0x8000_0000
  const Int32Max: int := 0x7fff_ffff

  /** The prefix openPort puts in front of "COM<N>" names with N > 9: \\.\ */
  const DevicePrefix: string := "\\\\.\\"

  predicate IsDigit(c: char) { '0' <= c <= '9' }

  /** ASCII whitespace: space, tab, line feed, vertical tab, form feed, carriage return. */
  predicate IsSpace(c: char) { c == ' ' || '\t' <= c <= '\r' }

  predicate IsSign(c: char) { c == '-' || c == '+' }

  predicate AllDigits(s: string) { forall i :: 0 <= i < |s| ==> IsDigit(s[i]) }

  /** s without its leading whitespace. */
  function TrimStart(s: string): (r: string)
    ensures |r| <= |s| && r == s[|s| - |r|..]
    ensures forall i :: 0 <= i < |s| - |r| ==> IsSpace(s[i])
    ensures r == [] || !IsSpace(r[0])
  {
    if s != [] && IsSpace(s[0]) then TrimStart(s[1..]) else s
  }

  /** s without its trailing whitespace. */
  function TrimEnd(s: string): (r: string)
    ensures |r| <= |s| && r == s[..|r|]
    ensures forall i :: |r| <= i < |s| ==> IsSpace(s[i])
    ensures r == [] || !IsSpace(r[|r| - 1])
  {
    if s != [] && IsSpace(s[|s| - 1]) then TrimEnd(s[..|s| - 1]) else s
  }

  function Trimmed(s: string): string { TrimEnd(TrimStart(s)) }

  /** The value of a string of decimal digits, most significant first. */
  function DigitsValue(s: string): nat
    requires AllDigits(s)
  {
    if s == [] then 0 else DigitsValue(s[..|s| - 1]) * 10 + (s[|s| - 1] as int - '0' as int)
  }

  function InInt32OrZero(v: int): int
  {
    if Int32Min <= v <= Int32Max then v else 0
  }

  /** QString::toInt with base 10: surrounding whitespace is ignored, an
      optional sign is followed by one or more decimal digits, and a text of
      any other form, or a value outside the 32-bit int range, converts to 0. */
  function ToInt(s: string): (r: int)
    ensures Int32Min <= r <= Int32Max
    ensures r != 0 ==> Trimmed(s) != [] && (IsDigit(Trimmed(s)[0]) || IsSign(Trimmed(s)[0]))
  {
    var t := Trimmed(s);
    if |t| >= 2 && t[0] == '-' && AllDigits(t[1..]) then InInt32OrZero(-(DigitsValue(t[1..]) as int))
    else if |t| >= 2 && t[0] == '+' && AllDigits(t[1..]) then InInt32OrZero(DigitsValue(t[1..]))
    else if |t| >= 1 && AllDigits(t) then InInt32OrZero(DigitsValue(t))
    else 0
  }

  function DigitChar(d: nat): (c: char)
    requires d < 10
    ensures IsDigit(c) && c as int - '0' as int == d
  {
    ('0' as int + d) as char
  }

  /** The decimal notation of n without sign or leading zeros: the reference
      against which ToInt is checked. */
  function DecimalString(n: nat): (s: string)
    ensures |s| >= 1 && AllDigits(s)
    ensures n >= 10 ==> s[0] != '0'
  {
    if n < 10 then [DigitChar(n)] else DecimalString(n / 10) + [DigitChar(n % 10)]
  }

  predicate StartsWithCom(name: string) { |name| >= 3 && name[..3] == "COM" }

  /** The name openPort computes for the device: "COM" followed by text whose
      integer value exceeds 9 gets the \\.\ prefix; every other name is kept.
      The comparison with "COM" is case-sensitive. */
  function NormalizedPortName(name: string): (r: string)
    ensures r == name || r == DevicePrefix + name
    ensures r != name <==> StartsWithCom(name) && ToInt(name[3..]) > 9
  {
    if StartsWithCom(name) && ToInt(name[3..]) > 9 then DevicePrefix + name else name
  }

  /** Reading back the decimal notation of n gives n. */
  lemma {:induction false} DigitsValueOfDecimal(n: nat)
    ensures DigitsValue(DecimalString(n)) == n
  {
    var s := DecimalString(n);
    if n >= 10 {
      assert s[..|s| - 1] == DecimalString(n / 10);
      DigitsValueOfDecimal(n / 10);
    }
  }

  /** A string without surrounding whitespace is its own trimmed form. */
  lemma TrimmedUnpadded(s: string)
    requires s != [] && !IsSpace(s[0]) && !IsSpace(s[|s| - 1])
    ensures Trimmed(s) == s
  {
    assert TrimStart(s) == s;
  }

  /** ToInt inverts DecimalString on the non-negative int range. */
  lemma ToIntOfDecimal(n: nat)
    requires n <= Int32Max
    ensures ToInt(DecimalString(n)) == n
  {
    var s := DecimalString(n);
    TrimmedUnpadded(s);
    DigitsValueOfDecimal(n);
  }

  /** A text whose first character is neither whitespace, a sign nor a digit
      converts to 0, whatever follows it. */
  lemma ToIntOfNonNumeric(s: string)
    requires s != [] && !IsSpace(s[0]) && !IsSign(s[0]) && !IsDigit(s[0])
    ensures ToInt(s) == 0
  {
    assert TrimStart(s) == s;
    var t := Trimmed(s);
    assert |t| >= 1 && t[0] == s[0];
    assert !AllDigits(t);
  }

  /** A decimal value above the int range converts to 0. */
  lemma ToIntOfLargeDecimal(n: nat)
    requires n > Int32Max
    ensures ToInt(DecimalString(n)) == 0
  {
    var s := DecimalString(n);
    TrimmedUnpadded(s);
    DigitsValueOfDecimal(n);
  }

  /** A minus sign before the decimal notation of n gives -n, down to the int minimum. */
  lemma ToIntOfNegDecimal(n: nat)
    requires n <= -Int32Min
    ensures ToInt("-" + DecimalString(n)) == -(n as int)
  {
    var s := "-" + DecimalString(n);
    TrimmedUnpadded(s);
    assert s[1..] == DecimalString(n);
    DigitsValueOfDecimal(n);
  }

  /** A minus sign before the decimal notation of a value below the int range gives 0. */
  lemma ToIntOfLargeNegDecimal(n: nat)
    requires n > -Int32Min
    ensures ToInt("-" + DecimalString(n)) == 0
  {
    var s := "-" + DecimalString(n);
    TrimmedUnpadded(s);
    assert s[1..] == DecimalString(n);
    DigitsValueOfDecimal(n);
  }

  /** An explicit plus sign before the decimal notation of n gives n. */
  lemma ToIntOfPlusDecimal(n: nat)
    requires n <= Int32Max
    ensures ToInt("+" + DecimalString(n)) == n
  {
    var s := "+" + DecimalString(n);
    TrimmedUnpadded(s);
    assert s[1..] == DecimalString(n);
    DigitsValueOfDecimal(n);
  }

  /** A leading zero does not change the value of a string of digits. */
  lemma {:induction false} DigitsValueLeadingZero(d: string)
    requires AllDigits(d)
    ensures AllDigits("0" + d) && DigitsValue("0" + d) == DigitsValue(d)
  {
    var z := "0" + d;
    assert AllDigits(z) by {
      forall i | 0 <= i < |z| ensures IsDigit(z[i]) {
        if i > 0 { assert z[i] == d[i - 1]; }
      }
    }
    if d != [] {
      assert z[..|z| - 1] == "0" + d[..|d| - 1];
      assert z[|z| - 1] == d[|d| - 1];
      DigitsValueLeadingZero(d[..|d| - 1]);
    }
  }

  /** A zero in front of the decimal notation of n still reads as n, as in "012". */
  lemma ToIntOfLeadingZero(n: nat)
    requires n <= Int32Max
    ensures ToInt("0" + DecimalString(n)) == n
  {
    var s := "0" + DecimalString(n);
    assert s[|s| - 1] == DecimalString(n)[|DecimalString(n)| - 1];
    TrimmedUnpadded(s);
    DigitsValueLeadingZero(DecimalString(n));
    DigitsValueOfDecimal(n);
  }

  predicate AllSpaces(s: string) { forall i :: 0 <= i < |s| ==> IsSpace(s[i]) }

  /** Leading whitespace is dropped by TrimStart whatever follows it. */
  lemma {:induction false} TrimStartSpaces(pre: string, s: string)
    requires AllSpaces(pre)
    ensures TrimStart(pre + s) == TrimStart(s)
  {
    if pre != [] {
      assert (pre + s)[1..] == pre[1..] + s;
      TrimStartSpaces(pre[1..], s);
    } else {
      assert pre + s == s;
    }
  }

  /** Trailing whitespace is dropped by TrimEnd whatever precedes it. */
  lemma {:induction false} TrimEndSpaces(s: string, post: string)
    requires AllSpaces(post)
    ensures TrimEnd(s + post) == TrimEnd(s)
  {
    if post != [] {
      assert (s + post)[..|s + post| - 1] == s + post[..|post| - 1];
      TrimEndSpaces(s, post[..|post| - 1]);
    } else {
      assert s + post == s;
    }
  }

  /** Trimming whitespace around an unpadded text gives that text back. */
  lemma TrimmedPadded(pre: string, s: string, post: string)
    requires AllSpaces(pre) && AllSpaces(post)
    requires s != [] && !IsSpace(s[0]) && !IsSpace(s[|s| - 1])
    ensures Trimmed(pre + s + post) == s
  {
    assert pre + s + post == pre + (s + post);
    TrimStartSpaces(pre, s + post);
    assert TrimStart(s + post) == s + post;
    TrimEndSpaces(s, post);
  }

  /** Texts with the same trimmed form have the same value. */
  lemma SameTrimmed(a: string, b: string)
    requires Trimmed(a) == Trimmed(b)
    ensures ToInt(a) == ToInt(b)
  {
  }

  /** Whitespace around a text does not change its value, as in " 12 ". */
  lemma ToIntOfPadded(pre: string, s: string, post: string)
    requires AllSpaces(pre) && AllSpaces(post)
    requires s != [] && !IsSpace(s[0]) && !IsSpace(s[|s| - 1])
    ensures ToInt(pre + s + post) == ToInt(s)
  {
    TrimmedPadded(pre, s, post);
    TrimmedUnpadded(s);
    SameTrimmed(pre + s + post, s);
  }

  /** Digits followed by a character that is not a digit convert to 0, as in
      "12x" or "1 2", unless that character is trailing whitespace. */
  lemma ToIntOfDigitsThenOther(d: string, c: char, rest: string)
    requires d != [] && AllDigits(d) && !IsDigit(c)
    requires !IsSpace(c) || (rest != [] && !IsSpace(rest[|rest| - 1]))
    ensures ToInt(d + [c] + rest) == 0
  {
    var s := d + [c] + rest;
    assert s[0] == d[0] && s[|d|] == c;
    assert TrimStart(s) == s;
    var t := TrimEnd(s);
    if !IsSpace(c) {
      assert |t| > |d|;
    } else {
      assert s[|s| - 1] == rest[|rest| - 1];
      assert t == s;
    }
    assert t[0] == d[0] && t[|d|] == c;
    assert !AllDigits(t) && !AllDigits(t[1..]);
  }

  lemma ToIntOfTrailingLetter()
    ensures ToInt("12x") == 0
  {
    assert "12" + ['x'] + "" == "12x";
    ToIntOfDigitsThenOther("12", 'x', "");
  }

  lemma ToIntOfInnerSpace()
    ensures ToInt("1 2") == 0
  {
    assert "1" + [' '] + "2" == "1 2";
    ToIntOfDigitsThenOther("1", ' ', "2");
  }

  /** "COM" followed by a number beyond the int range is kept: toInt reports 0. */
  lemma ComLargeNumberUnchanged(n: nat)
    requires n > Int32Max
    ensures var name := "COM" + DecimalString(n); NormalizedPortName(name) == name
  {
    var name := "COM" + DecimalString(n);
    assert name[3..] == DecimalString(n);
    ToIntOfLargeDecimal(n);
  }

  /** "COM" followed by the decimal notation of n is rewritten exactly when n > 9. */
  lemma ComNumberNormalization(n: nat)
    requires n <= Int32Max
    ensures var name := "COM" + DecimalString(n);
      NormalizedPortName(name) == if n > 9 then DevicePrefix + name else name
  {
    var name := "COM" + DecimalString(n);
    assert name[..3] == "COM" && name[3..] == DecimalString(n);
    ToIntOfDecimal(n);
  }

  /** Whitespace after "COM" or after the number, or a leading zero, does not
      stop the rewrite: "COM 12" and "COM012" are rewritten like "COM12". */
  lemma ComPaddedNumberNormalization(pre: string, n: nat, post: string)
    requires AllSpaces(pre) && AllSpaces(post) && n <= Int32Max
    ensures var name := "COM" + (pre + DecimalString(n) + post);
      NormalizedPortName(name) == if n > 9 then DevicePrefix + name else name
  {
    var d := DecimalString(n);
    ToIntOfPadded(pre, d, post);
    ToIntOfDecimal(n);
    ComSuffix(pre + d + post, n);
  }

  lemma ComLeadingZeroNormalization(n: nat)
    requires n <= Int32Max
    ensures var name := "COM" + ("0" + DecimalString(n));
      NormalizedPortName(name) == if n > 9 then DevicePrefix + name else name
  {
    ToIntOfLeadingZero(n);
    ComSuffix("0" + DecimalString(n), n);
  }

  /** The rewrite of "COM" + rest depends only on the value of rest. */
  lemma ComSuffix(rest: string, v: int)
    requires ToInt(rest) == v
    ensures NormalizedPortName("COM" + rest) == if v > 9 then DevicePrefix + ("COM" + rest) else "COM" + rest
  {
    assert ("COM" + rest)[..3] == "COM" && ("COM" + rest)[3..] == rest;
  }

  /** "COM" followed by a non-numeric text such as "x" is kept. */
  lemma ComNonNumericUnchanged(rest: string)
    requires rest != [] && !IsSpace(rest[0]) && !IsSign(rest[0]) && !IsDigit(rest[0])
    ensures NormalizedPortName("COM" + rest) == "COM" + rest
  {
    assert ("COM" + rest)[3..] == rest;
    ToIntOfNonNumeric(rest);
  }

  // The three lemmas below take the literal name as a parameter pinned by
  // their precondition, so that the verifier reasons about DecimalString
  // instead of unfolding the literal character by character.
  lemma Com10Rewritten(name: string)
    requires name == "COM10"
    ensures NormalizedPortName(name) == DevicePrefix + name
  {
    assert DecimalString(1) == "1" && DecimalString(10) == "10";
    assert name == "COM" + DecimalString(10);
    ComNumberNormalization(10);
  }

  lemma Com12Rewritten(name: string)
    requires name == "COM12"
    ensures NormalizedPortName(name) == DevicePrefix + name
  {
    assert DecimalString(1) == "1" && DecimalString(12) == "12";
    assert name == "COM" + DecimalString(12);
    ComNumberNormalization(12);
  }

  lemma Com3Unchanged(name: string)
    requires name == "COM3"
    ensures NormalizedPortName(name) == name
  {
    assert DecimalString(3) == "3";
    assert name == "COM" + DecimalString(3);
    ComNumberNormalization(3);
  }

  lemma ComXUnchanged()
    ensures NormalizedPortName("COMx") == "COMx"
  {
    ComNonNumericUnchanged("x");
  }

  /** Only the upper-case prefix is recognised. */
  lemma LowerCaseComUnchanged()
    ensures NormalizedPortName("com12") == "com12"
  {
    assert "com12"[..3][0] == 'c';
  }
}
