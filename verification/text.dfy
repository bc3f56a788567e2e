/** Options, string helpers and the decimal rendering of integers. */
module Text {

  datatype Option<+T> = None | Some(value: T)

  /** strings.TrimPrefix: the prefix goes if it is there. */
  function TrimPrefix(s: string, prefix: string): string {
    if prefix <= s then s[|prefix|..] else s
  }

  predicate IsDigit(c: char) {
    '0' <= c <= '9'
  }

  function DigitChar(d: nat): (c: char)
    requires d < 10
    ensures IsDigit(c)
  {
    '0' + d as char
  }

  function DigitValue(c: char): (d: nat)
    requires IsDigit(c)
    ensures d < 10 && DigitChar(d) == c
  {
    (c - '0') as nat
  }

  function Digits(n: nat): (s: string)
    ensures s != ""
  {
    if n < 10 then [DigitChar(n)] else Digits(n / 10) + [DigitChar(n % 10)]
  }

  /** strconv.Itoa. */
  function Itoa(n: int): string {
    if n < 0 then "-" + Digits(-n) else Digits(n)
  }

  /** The number that a sequence of digits stands for. */
  function DigitsValue(s: string): Option<nat> {
    if s == "" then Some(0)
    else
      var last := s[|s| - 1];
      match DigitsValue(s[..|s| - 1])
      case None => None
      case Some(n) => if IsDigit(last) then Some(10 * n + DigitValue(last)) else None
  }

  /** strconv.Atoi in base ten: an optional sign and at least one digit. */
  function Atoi(s: string): Option<int> {
    var digits := if "-" <= s || "+" <= s then s[1..] else s;
    if digits == "" then None
    else
      match DigitsValue(digits)
      case None => None
      case Some(n) =>
        var value: int := n;
        Some(if "-" <= s then -value else value)
  }

  lemma {:induction false} DigitsAreDigits(n: nat)
    ensures forall c <- Digits(n) :: IsDigit(c)
  {
    if n >= 10 {
      DigitsAreDigits(n / 10);
    }
  }

  lemma {:induction false} DigitsRoundTrip(n: nat)
    ensures DigitsValue(Digits(n)) == Some(n)
  {
    var s := Digits(n);
    if n < 10 {
      assert s[..0] == "";
    } else {
      assert s[..|s| - 1] == Digits(n / 10) && s[|s| - 1] == DigitChar(n % 10);
      DigitsRoundTrip(n / 10);
    }
  }

  /** The decimal rendering of an integer parses back to it. */
  lemma {:induction false} AtoiItoa(n: int)
    ensures Atoi(Itoa(n)) == Some(n)
  {
    var m: nat := if n < 0 then -n else n;
    var d := Digits(m);
    DigitsRoundTrip(m);
    DigitsAreDigits(m);
    assert IsDigit(d[0]);
    assert ("-" + d)[1..] == d;
  }

  lemma ItoaInjective(m: int, n: int)
    requires Itoa(m) == Itoa(n)
    ensures m == n
  {
    AtoiItoa(m);
    AtoiItoa(n);
  }
}
