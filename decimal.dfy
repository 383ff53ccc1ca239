/** Decimal formatting of integers, as Go's `fmt` verb `%d` writes a signed
    `int`, and the matching parser that reads such text back. */
module Decimal {
  import opened Results
  import opened Text

  /** Go's `int` on a 64-bit platform. */
  newtype int64 = x: int | -0x8000_0000_0000_0000 <= x < 0x8000_0000_0000_0000

  const Minus: byte := '-'

  predicate IsDigit(b: byte) {
    '0' <= b <= '9'
  }

  /** The decimal digits of `n`, most significant first, without leading zeros. */
  function Digits(n: nat): (r: Bytes)
    ensures |r| > 0
    ensures forall i :: 0 <= i < |r| ==> IsDigit(r[i])
    ensures n > 0 ==> r[0] != '0'
    decreases n
  {
    if n < 10 then [('0' as int + n) as byte]
    else Digits(n / 10) + [('0' as int + n % 10) as byte]
  }

  /** `%d`: an optional minus sign followed by the digits of the magnitude. */
  function Format(n: int): (r: Bytes)
    ensures |r| > 0
    ensures forall i :: 0 <= i < |r| ==> IsDigit(r[i]) || (i == 0 && r[i] == Minus)
    ensures (r[0] == Minus) <==> n < 0
    ensures n < 0 ==> |r| > 1
    ensures n == 0 ==> r == "0"
    ensures n != 0 ==> r[if n < 0 then 1 else 0] != '0'
  {
    if n < 0 then [Minus] + Digits(-n) else Digits(n)
  }

  /** The value of a non-empty run of decimal digits. */
  function ParseDigits(t: Bytes): (r: Option<nat>)
    ensures r.Some? <==> |t| > 0 && forall i :: 0 <= i < |t| ==> IsDigit(t[i])
    decreases |t|
  {
    if t == [] || !IsDigit(t[|t| - 1]) then None
    else if |t| == 1 then Some(t[0] as int - '0' as int)
    else match ParseDigits(t[..|t| - 1])
      case None => None
      case Some(m) => Some(m * 10 + (t[|t| - 1] as int - '0' as int))
  }

  /** Reads decimal text with an optional leading minus sign. */
  function Parse(t: Bytes): (r: Option<int>)
    ensures r.Some? ==> |t| > 0
  {
    if |t| > 0 && t[0] == Minus then
      match ParseDigits(t[1..])
      case None => None
      case Some(m) => Some(-(m as int))
    else
      match ParseDigits(t)
      case None => None
      case Some(m) => Some(m as int)
  }

  lemma {:induction false} ParseDigitsOfDigits(n: nat)
    ensures ParseDigits(Digits(n)) == Some(n)
    decreases n
  {
    if n >= 10 {
      var t := Digits(n);
      assert t[..|t| - 1] == Digits(n / 10);
      ParseDigitsOfDigits(n / 10);
    }
  }

  /** Formatting loses nothing: the text `%d` writes reads back as the same number. */
  lemma ParseOfFormat(n: int)
    ensures Parse(Format(n)) == Some(n)
  {
    if n < 0 {
      assert Format(n)[1..] == Digits(-n);
      ParseDigitsOfDigits(-n);
    } else {
      ParseDigitsOfDigits(n);
    }
  }

  /** The two values the client actually sends. */
  lemma FormatOfPagingConstants()
    ensures Format(0) == "0"
    ensures Format(30) == "30"
  {
  }
}
