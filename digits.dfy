/**
  The decimal conversions both client versions use: the leading-digit
  backup-id parser of askLs(command) and makeRestoreRequest, and inttostr.
 */
module Digits {
  import opened Basics

  predicate IsDigit(c: char) {
    '0' <= c <= '9'
  }

  predicate AllDigits(s: string) {
    forall k :: 0 <= k < |s| ==> IsDigit(s[k])
  }

  function DigitValue(c: char): (d: nat)
    requires IsDigit(c)
    ensures d < 10
  {
    c as int - '0' as int
  }

  function DigitChar(d: nat): (c: char)
    requires d < 10
    ensures IsDigit(c) && DigitValue(c) == d
  {
    ('0' as int + d) as char
  }

  /** The length of the longest run of '0'..'9' at the start of s. */
  function DigitRun(s: string): (n: nat)
    ensures n <= |s|
    ensures AllDigits(s[..n])
    ensures n < |s| ==> !IsDigit(s[n])
  {
    if s == [] || !IsDigit(s[0]) then 0 else 1 + DigitRun(s[1..])
  }

  /** The value of a string of decimal digits, most significant first. */
  function DecimalValue(ds: string): nat
    requires AllDigits(ds)
  {
    if ds == [] then 0 else 10 * DecimalValue(ds[..|ds| - 1]) + DigitValue(ds[|ds| - 1])
  }

  /** The backup id the source reads from a command: the leading digits' value, wrapped to 64 bits. */
  function ParsedBackupId(command: string): uint64 {
    DecimalValue(command[..DigitRun(command)]) % Uint64Modulus
  }

  /** One step of `backupId = 10 * backupId + digit` in uint64 arithmetic keeps the value mod 2^64. */
  lemma ModStep(x: int, d: int)
    ensures (10 * (x % Uint64Modulus) + d) % Uint64Modulus == (10 * x + d) % Uint64Modulus
  {
    var m := Uint64Modulus;
    var q := x / m;
    assert x == q * m + x % m;
    assert 10 * x + d == (10 * (x % m) + d) + (10 * q) * m;
    ShiftByMultiple(10 * (x % m) + d, 10 * q);
  }

  lemma ShiftByMultiple(a: int, k: int)
    ensures (a + k * Uint64Modulus) % Uint64Modulus == a % Uint64Modulus
  {
  }

  /**
    The digit-accumulating loop of askLs(command) and makeRestoreRequest:
    it stops at the first non-digit, and i is where it stopped.
   */
  method ScanBackupId(command: string) returns (backupId: uint64, i: nat)
    ensures i == DigitRun(command)
    ensures backupId == ParsedBackupId(command)
  {
    backupId, i := 0, 0;
    while i < |command|
      invariant i <= |command|
      invariant AllDigits(command[..i])
      invariant backupId == DecimalValue(command[..i]) % Uint64Modulus
    {
      if IsDigit(command[i]) {
        var d := DigitValue(command[i]);
        assert command[..i + 1][..i] == command[..i];
        ModStep(DecimalValue(command[..i]), d);
        backupId := (10 * backupId + d) % Uint64Modulus;
        i := i + 1;
      } else {
        break;
      }
    }
  }

  /** The canonical decimal text of n: "0" for zero, no leading zero otherwise. */
  function Decimal(n: nat): (s: string)
    ensures |s| >= 1 && AllDigits(s)
    ensures s[0] == '0' <==> n == 0
    decreases n
  {
    if n < 10 then [DigitChar(n)] else Decimal(n / 10) + [DigitChar(n % 10)]
  }

  /** inttostr: prepends the last digit while dividing number by ten. */
  method IntToStr(number: uint64) returns (s: string)
    ensures s == Decimal(number)
  {
    if number == 0 {
      return "0";
    }
    var x: nat := number;
    s := "";
    while x > 0
      invariant x > 0 ==> Decimal(number) == Decimal(x) + s
      invariant x == 0 ==> Decimal(number) == s
      decreases x
    {
      s := [DigitChar(x % 10)] + s;
      x := x / 10;
    }
  }

  /** Reading the digits of Decimal(n) gives n back. */
  lemma {:induction false} DecimalValueOfDecimal(n: nat)
    ensures DecimalValue(Decimal(n)) == n
    decreases n
  {
    var s := Decimal(n);
    if n >= 10 {
      assert s[..|s| - 1] == Decimal(n / 10);
      DecimalValueOfDecimal(n / 10);
    }
  }

  /**
    Parsing the text inttostr produces, followed by anything that does not
    start with a digit, gives the number back.
   */
  lemma ParseDecimal(n: uint64, rest: string)
    requires rest == [] || !IsDigit(rest[0])
    ensures DigitRun(Decimal(n) + rest) == |Decimal(n)|
    ensures ParsedBackupId(Decimal(n) + rest) == n
  {
    var s := Decimal(n) + rest;
    assert s[..|Decimal(n)|] == Decimal(n);
    DecimalValueOfDecimal(n);
  }

  /** Distinct numbers have distinct decimal texts. */
  lemma DecimalInjective(m: nat, n: nat)
    requires Decimal(m) == Decimal(n)
    ensures m == n
  {
    DecimalValueOfDecimal(m);
    DecimalValueOfDecimal(n);
  }
}
