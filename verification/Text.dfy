/**
 * Decimal integers as text, and the order on strings: `Itoa` stands for strconv.Itoa and FormatInt,
 * `ParseInt` for Atoi and ParseInt, with their optional sign, leading zeros and 64-bit range. What
 * was formatted parses back to itself, and a formatted integer has no characters but digits and a
 * sign, so separators put next to one can be found again. `Less` is the byte order in which Go and
 * the sorted listings compare strings.
 */
module Text {
  import opened Base

  function DigitChar(d: nat): char
    requires d < 10
  {
    "0123456789"[d]
  }

  predicate IsDigit(c: char) { '0' <= c <= '9' }

  function DigitValue(c: char): nat
    requires IsDigit(c)
  {
    c as int - '0' as int
  }

  function Digits(n: nat): string
  {
    if n < 10 then [DigitChar(n)] else Digits(n / 10) + [DigitChar(n % 10)]
  }

  function Itoa(n: int): string
  {
    if n < 0 then "-" + Digits(-n) else Digits(n)
  }

  predicate AllDigits(s: string)
  {
    forall i :: 0 <= i < |s| ==> IsDigit(s[i])
  }

  function Value(s: string): int
    requires AllDigits(s)
  {
    if s == "" then 0 else 10 * Value(s[..|s| - 1]) + DigitValue(s[|s| - 1])
  }

  /** ParseInt(s, 10, 64): an optional sign, at least one digit, and a 64-bit value. */
  function ParseInt(s: string): (r: Option<int>)
    ensures r.Some? ==> MIN_INT64 <= r.value <= MAX_INT64
  {
    if s == "" then None else
    var body := if s[0] == '-' || s[0] == '+' then s[1..] else s;
    if body == "" || !AllDigits(body) then None else
    var v: int := if s[0] == '-' then -Value(body) else Value(body);
    if MIN_INT64 <= v <= MAX_INT64 then Some(v) else None
  }

  lemma {:induction false} DigitsSpell(n: nat)
    ensures Digits(n) != "" && AllDigits(Digits(n)) && Value(Digits(n)) == n
  {
    if n < 10 {
      assert Digits(n) == [DigitChar(n)];
      assert Digits(n)[..0] == "";
    } else {
      DigitsSpell(n / 10);
      var s := Digits(n);
      assert s[..|s| - 1] == Digits(n / 10);
    }
  }

  lemma SignedDigits(n: int)
    ensures Itoa(n) != "" && (Itoa(n)[0] == '-' <==> n < 0) && Itoa(n)[0] != '+'
    ensures var body := if n < 0 then Itoa(n)[1..] else Itoa(n);
            body != "" && AllDigits(body) && Value(body) == if n < 0 then -n else n
  {
    DigitsSpell(if n < 0 then -n else n);
    if n < 0 {
      assert Itoa(n)[1..] == Digits(-n);
    } else {
      assert IsDigit(Digits(n)[0]);
    }
  }

  /** What FormatInt writes, ParseInt reads back, for every 64-bit value. */
  lemma ParseFormatted(n: int)
    requires MIN_INT64 <= n <= MAX_INT64
    ensures ParseInt(Itoa(n)) == Some(n)
  {
    SignedDigits(n);
  }

  /** Formatted integers contain only digits and a leading minus sign. */
  lemma {:induction false} FormattedHasNo(n: int, c: char)
    requires !IsDigit(c) && c != '-'
    ensures c !in Itoa(n)
  {
    DigitsSpell(if n < 0 then -n else n);
  }

  // ---------- the byte order on strings ----------

  predicate Less(a: string, b: string)
  {
    if b == "" then false
    else if a == "" then true
    else a[0] < b[0] || (a[0] == b[0] && Less(a[1..], b[1..]))
  }

  lemma {:induction false} LessTransitive(a: string, b: string, c: string)
    requires Less(a, b) && Less(b, c)
    ensures Less(a, c)
  {
    if a != "" && a[0] == b[0] && b[0] == c[0] {
      LessTransitive(a[1..], b[1..], c[1..]);
    }
  }

  lemma {:induction false} LessIrreflexive(a: string)
    ensures !Less(a, a)
  {
    if a != "" {
      LessIrreflexive(a[1..]);
    }
  }

  lemma {:induction false} LessTotal(a: string, b: string)
    ensures a == b || Less(a, b) || Less(b, a)
  {
    if a != "" && b != "" && a[0] == b[0] {
      LessTotal(a[1..], b[1..]);
      assert a == [a[0]] + a[1..] && b == [b[0]] + b[1..];
    }
  }
}
