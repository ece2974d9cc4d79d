/** Decimal printing (`%d`) and parsing (`strconv.Atoi`, `strconv.ParseBool`), as used to
    write IDs and ports into annotations, names and arguments and to read them back. */
module Decimal {
  import opened Wrappers

  function DigitChar(d: nat): char
    requires d < 10
  {
    "0123456789"[d]
  }

  predicate IsDigit(c: char) {
    '0' <= c <= '9'
  }

  function DigitValue(c: char): (d: nat)
    requires IsDigit(c)
    ensures d < 10
  {
    c as int - '0' as int
  }

  function Digits(n: nat): (s: string)
    ensures forall c | c in s :: IsDigit(c)
  {
    if n < 10 then [DigitChar(n)] else Digits(n / 10) + [DigitChar(n % 10)]
  }

  /** `fmt.Sprintf("%d", n)` */
  function Format(n: int): string {
    if n < 0 then "-" + Digits(-n) else Digits(n)
  }

  function ParseDigits(s: string): Option<nat> {
    if s == [] || !IsDigit(s[|s| - 1]) then None
    else if |s| == 1 then Some(DigitValue(s[0]))
    else match ParseDigits(s[..|s| - 1])
      case None => None
      case Some(high) => Some(10 * high + DigitValue(s[|s| - 1]))
  }

  /** `strconv.Atoi`: an optional sign, at least one digit, and a value that fits in 64 bits. */
  function Atoi(s: string): (r: Option<int>)
    ensures r.Some? ==> IsInt(r.value)
  {
    if s == [] then None
    else
      var unsigned := if s[0] == '-' || s[0] == '+' then s[1..] else s;
      match ParseDigits(unsigned)
      case None => None
      case Some(magnitude) =>
        var n: int := if s[0] == '-' then -(magnitude as int) else magnitude;
        if IsInt(n) then Some(n) else None
  }

  /** `strconv.ParseBool` */
  function ParseBool(s: string): Option<bool> {
    if s in {"1", "t", "T", "true", "TRUE", "True"} then Some(true)
    else if s in {"0", "f", "F", "false", "FALSE", "False"} then Some(false)
    else None
  }

  lemma DigitRoundTrip(d: nat)
    requires d < 10
    ensures IsDigit(DigitChar(d)) && DigitValue(DigitChar(d)) == d
  {
  }

  lemma {:induction false} DigitsRoundTrip(n: nat)
    ensures Digits(n) != [] && IsDigit(Digits(n)[0])
    ensures ParseDigits(Digits(n)) == Some(n)
  {
    hide DigitChar, DigitValue, IsDigit;
    DigitRoundTrip(n % 10);
    if n >= 10 {
      DigitsRoundTrip(n / 10);
      assert Digits(n)[..|Digits(n)| - 1] == Digits(n / 10);
    }
  }

  /** Parsing a printed integer gives it back, with a plus sign as well, unless it does not fit in 64 bits. */
  lemma ParsesPrinted(n: int)
    ensures Atoi(Format(n)) == if IsInt(n) then Some(n) else None
    ensures n >= 0 ==> Atoi("+" + Format(n)) == Atoi(Format(n))
  {
    hide Digits, ParseDigits;
    if n < 0 {
      DigitsRoundTrip(-n);
      assert Format(n)[1..] == Digits(-n);
    } else {
      DigitsRoundTrip(n);
      assert ("+" + Format(n))[1..] == Format(n);
    }
  }

  lemma RoundTrip(n: int)
    requires IsInt(n)
    ensures Atoi(Format(n)) == Some(n)
  {
    ParsesPrinted(n);
  }

  lemma FormatIsInjective(m: int, n: int)
    ensures Format(m) == Format(n) <==> m == n
  {
    hide Digits, ParseDigits;
    var (a, b) := (if m < 0 then -m else m, if n < 0 then -n else n);
    DigitsRoundTrip(a);
    DigitsRoundTrip(b);
    assert m < 0 ==> Format(m)[0] == '-' && Format(m)[1..] == Digits(a);
    assert n < 0 ==> Format(n)[0] == '-' && Format(n)[1..] == Digits(b);
  }

  /** Numbered names with one prefix are equal only if their numbers are. */
  lemma NumberedNamesDistinct(prefix: string, m: int, n: int)
    ensures prefix + Format(m) == prefix + Format(n) <==> m == n
  {
    hide Format;
    assert (prefix + Format(m))[|prefix|..] == Format(m);
    assert (prefix + Format(n))[|prefix|..] == Format(n);
    FormatIsInjective(m, n);
  }
}
