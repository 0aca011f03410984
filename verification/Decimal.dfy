/** strconv.Itoa and strconv.Atoi for Go's 64-bit int. */
module Decimal {
  import opened Wrappers

  const MIN_INT := -0x8000_0000_0000_0000
  const MAX_INT := 0x7fff_ffff_ffff_ffff

  /** Go's int on the platforms the program is built for. */
  type Int64 = n: int | MIN_INT <= n <= MAX_INT

  predicate IsDigit(c: char) {
    '0' <= c <= '9'
  }

  function Digits(n: nat): (s: string)
    ensures s != "" && forall c | c in s :: IsDigit(c)
  {
    if n < 10 then [('0' as int + n) as char] else Digits(n / 10) + [('0' as int + n % 10) as char]
  }

  function Itoa(n: Int64): (s: string)
    ensures s != ""
  {
    if n < 0 then "-" + Digits(0 - n as int) else Digits(n)
  }

  function Number(s: string): nat
    requires forall c | c in s :: IsDigit(c)
  {
    if s == "" then 0
    else
      assert IsDigit(s[|s| - 1]);
      Number(s[..|s| - 1]) * 10 + (s[|s| - 1] as int - '0' as int)
  }

  /** An optional sign, then at least one digit, and a value that fits. */
  function Atoi(s: string): Option<Int64> {
    var negative := s != "" && s[0] == '-';
    var digits := if s != "" && (s[0] == '-' || s[0] == '+') then s[1..] else s;
    if digits == "" || exists c :: c in digits && !IsDigit(c) then None
    else
      var n: int := if negative then -(Number(digits) as int) else Number(digits);
      if MIN_INT <= n <= MAX_INT then Some(n) else None
  }

  lemma {:induction false} NumberOfDigits(n: nat)
    ensures Number(Digits(n)) == n
  {
    if n < 10 {
      assert Number([('0' as int + n) as char]) == Number("") * 10 + n;
    } else {
      NumberOfDigits(n / 10);
      assert Digits(n)[..|Digits(n)| - 1] == Digits(n / 10);
    }
  }

  lemma AtoiOfItoa(n: Int64)
    ensures Atoi(Itoa(n)) == Some(n)
  {
    if n < 0 {
      NumberOfDigits(0 - n as int);
      assert Itoa(n)[1..] == Digits(0 - n as int);
    } else {
      NumberOfDigits(n);
      assert Digits(n)[0] in Digits(n);
    }
  }

  /** Instances: decimal digits, the most significant first, an optional sign,
      and nothing else. */
  lemma PrintedInstances()
    ensures Itoa(907) == "907" && Itoa(-12) == "-12" && Itoa(0) == "0"
  {
    assert Digits(907) == Digits(90) + "7" == Digits(9) + "0" + "7" == "907";
    assert Digits(12) == Digits(1) + "2" == "12";
  }

  lemma ReadInstances()
    ensures Atoi("907") == Some(907) && Atoi("-12") == Some(-12) && Atoi("+7") == Some(7)
  {
    PrintedInstances();
    AtoiOfItoa(907);
    AtoiOfItoa(-12);
    NumberOfDigits(7);
    assert Digits(7) == "7" && "+7"[1..] == "7";
    hide Itoa;
  }

  lemma RefusedInstances()
    ensures Atoi("") == None && Atoi("-") == None && Atoi("1 2") == None && Atoi("0x1") == None
  {
    assert "1 2"[1] in "1 2" && !IsDigit("1 2"[1]);
    assert "0x1"[1] in "0x1" && !IsDigit("0x1"[1]);
    assert "-"[1..] == "";
    hide Number;
  }

  /** A number that does not fit is not read. */
  lemma {:induction false} TooLarge(n: nat)
    requires n > MAX_INT
    ensures Atoi(Digits(n)) == None
  {
    NumberOfDigits(n);
    assert Digits(n)[0] in Digits(n);
  }
}
