/** Decimal integers as the standard library of the source's language prints and parses them. */
module Decimal {
  import opened Basics

  predicate IsDigit(c: char)
  {
    '0' <= c <= '9'
  }

  predicate AllDigits(s: string)
  {
    forall i :: 0 <= i < |s| ==> IsDigit(s[i])
  }

  /** The number that a run of digits denotes. */
  function Value(s: string): nat
    requires AllDigits(s)
  {
    if s == [] then 0
    else 10 * Value(s[..|s| - 1]) + (s[|s| - 1] as int - '0' as int)
  }

  function Print(n: nat): (s: string)
    ensures s != [] && AllDigits(s)
  {
    var last := [('0' as int + n % 10) as char];
    if n < 10 then last else Print(n / 10) + last
  }

  function PrintSigned(i: int): string
  {
    if i < 0 then "-" + Print(-i) else Print(i)
  }

  /** `str::parse` for an unsigned type whose largest value is `max`. */
  function ParseUnsigned(s: string, max: nat): Option<nat>
  {
    ParseMagnitude(if s != [] && s[0] == '+' then s[1..] else s, max)
  }

  /** `str::parse` for a two's complement type whose least value is `-bound`. */
  function ParseSigned(s: string, bound: nat): Option<int>
    requires bound > 0
  {
    if s != [] && s[0] == '-' then
      match ParseMagnitude(s[1..], bound)
      case None => None
      case Some(n) => Some(0 - n)
    else
      match ParseUnsigned(s, bound - 1)
      case None => None
      case Some(n) => Some(n)
  }

  function ParseMagnitude(s: string, max: nat): Option<nat>
  {
    if s == [] || !AllDigits(s) || Value(s) > max then None else Some(Value(s))
  }

  /** Positional notation: one more digit, from '0' for 0 to '9' for 9, makes ten times the number plus that digit. */
  lemma ValueAppend(s: string, digit: nat)
    requires AllDigits(s) && digit <= 9
    ensures var t := s + ["0123456789"[digit]]; AllDigits(t) && Value(t) == 10 * Value(s) + digit
  {
    assert (s + ["0123456789"[digit]])[..|s|] == s;
  }

  /** What is read as an unsigned number, exactly: digits, with or without a plus sign, of a value that fits. */
  lemma UnsignedIff(s: string, max: nat, n: nat)
    ensures ParseUnsigned(s, max) == Some(n) <==>
            exists digits :: digits != [] && AllDigits(digits) && Value(digits) == n && n <= max && (s == digits || s == "+" + digits)
  {
    if ParseUnsigned(s, max) == Some(n) {
      var digits := if s[0] == '+' then s[1..] else s;
      assert AllDigits(digits) && (s == digits || s == "+" + digits);
    }
    if digits :| digits != [] && AllDigits(digits) && Value(digits) == n && n <= max && (s == digits || s == "+" + digits) {
      assert IsDigit(digits[0]);
      assert s == "+" + digits ==> s[1..] == digits;
    }
  }

  /** What is read as a signed number, exactly: besides that, digits after a minus sign, down to the least value. */
  lemma SignedIff(s: string, bound: nat, i: int)
    requires bound > 0
    ensures ParseSigned(s, bound) == Some(i) <==>
            exists digits :: digits != [] && AllDigits(digits) && Signed(s, digits, bound, i)
  {
    if ParseSigned(s, bound) == Some(i) {
      var digits := if s[0] == '+' || s[0] == '-' then s[1..] else s;
      assert s == digits || s == "+" + digits || s == "-" + digits;
      assert AllDigits(digits) && Signed(s, digits, bound, i);
    }
    if digits :| digits != [] && AllDigits(digits) && Signed(s, digits, bound, i) {
      assert IsDigit(digits[0]);
      assert s == "+" + digits || s == "-" + digits ==> s[1..] == digits;
    }
  }

  /** `s` is the digits with the sign of `i`, or with none or a plus sign when it is not negative. */
  ghost predicate Signed(s: string, digits: string, bound: nat, i: int)
    requires AllDigits(digits)
  {
    || ((s == digits || s == "+" + digits) && i == Value(digits) && i < bound)
    || (s == "-" + digits && i == 0 - Value(digits) && Value(digits) <= bound)
  }

  /** A digit run without leading zeros. */
  predicate CanonicalDigits(s: string)
  {
    s == "0" || (s != [] && s[0] != '0')
  }

  /** The one spelling that printing produces: no plus sign, no leading zero, no negative zero. */
  predicate CanonicalSigned(s: string)
  {
    if s != [] && s[0] == '-' then |s| > 1 && s[1] != '0' else CanonicalDigits(s) && s[0] != '+'
  }

  lemma {:induction false} ValueOfPrint(n: nat)
    ensures Value(Print(n)) == n
    ensures CanonicalDigits(Print(n))
  {
    if n >= 10 {
      ValueOfPrint(n / 10);
      var s := Print(n);
      assert s[..|s| - 1] == Print(n / 10);
      assert Value("0") == 0;
    }
  }

  /** A digit run that starts with a non-zero digit denotes a positive number. */
  lemma {:induction false} LeadingDigitCounts(s: string)
    requires s != [] && AllDigits(s) && s[0] != '0'
    ensures Value(s) > 0
  {
    if |s| > 1 {
      LeadingDigitCounts(s[..|s| - 1]);
    }
  }

  lemma {:induction false} PrintOfValue(s: string)
    requires s != [] && AllDigits(s) && CanonicalDigits(s)
    ensures Print(Value(s)) == s
  {
    var front := s[..|s| - 1];
    if front != [] {
      LeadingDigitCounts(front);
      PrintOfValue(front);
      assert s == front + [s[|s| - 1]];
    }
  }

  /** A printed integer is spelled the one canonical way. */
  lemma PrintSignedIsCanonical(i: int)
    ensures CanonicalSigned(PrintSigned(i))
  {
    ValueOfPrint(if i < 0 then -i else i);
    if i < 0 {
      assert PrintSigned(i)[1..] == Print(-i);
      assert Value("0") == 0;
    } else {
      assert IsDigit(Print(i)[0]);
    }
  }

  /** Printing undoes parsing on exactly the canonical spellings. */
  lemma PrintUndoesParse(s: string, bound: nat)
    requires bound > 0 && ParseSigned(s, bound).Some?
    ensures PrintSigned(ParseSigned(s, bound).value) == s <==> CanonicalSigned(s)
  {
    if s[0] == '-' {
      ValueOfPrint(Value(s[1..]));
      if CanonicalSigned(s) {
        LeadingDigitCounts(s[1..]);
        PrintOfValue(s[1..]);
      } else {
        assert Value("0") == 0;
        assert s[1..][0] == '0';
      }
    } else if s[0] == '+' {
      assert !IsDigit(s[0]);
    } else {
      ValueOfPrint(Value(s));
      if CanonicalDigits(s) {
        PrintOfValue(s);
      }
    }
  }

  /** Parsing undoes printing on the whole range, its least value included. */
  lemma ParseUndoesPrint(i: int, bound: nat)
    requires bound > 0 && 0 - bound <= i < bound
    ensures ParseSigned(PrintSigned(i), bound) == Some(i)
  {
    if i < 0 {
      ValueOfPrint(-i);
      assert PrintSigned(i)[1..] == Print(-i);
    } else {
      ValueOfPrint(i);
      assert IsDigit(Print(i)[0]);
    }
  }

  lemma ParseUnsignedUndoesPrint(n: nat, max: nat)
    ensures ParseUnsigned(Print(n), max) == if n <= max then Some(n) else None
  {
    ValueOfPrint(n);
    assert IsDigit(Print(n)[0]);
  }
}
