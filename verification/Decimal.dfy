/** The decimal reader of dccex/protocol/validations.go, over the word arithmetic of the
    64-bit parser it calls, and the decimal rendering that "%d" produces. */
module Decimal {
  import opened Results

  const WORD: int := 0x1_0000_0000_0000_0000
  const HALF_WORD: int := 0x8000_0000_0000_0000
  /** The least word whose tenfold does not fit a word. */
  const CUTOFF: int := 1844674407370955162

  type Int64 = n: int | -HALF_WORD <= n < HALF_WORD

  predicate IsDigit(c: char) {
    '0' <= c <= '9'
  }

  predicate AllDigits(s: string) {
    forall k | 0 <= k < |s| :: IsDigit(s[k])
  }

  function DigitOf(c: char): nat
    requires IsDigit(c)
  {
    c as int - '0' as int
  }

  /** The number whose decimal notation is that of n followed by the digits s. */
  function Extend(n: nat, s: string): nat
    requires AllDigits(s)
    decreases |s|
  {
    if s == "" then n else Extend(10 * n + DigitOf(s[0]), s[1..])
  }

  function Magnitude(s: string): string {
    if s != "" && s[0] == '-' then s[1..] else s
  }

  predicate IsNumeral(s: string) {
    Magnitude(s) != "" && AllDigits(Magnitude(s))
  }

  /** The number a numeral denotes, whatever its size. */
  function Value(s: string): int
    requires IsNumeral(s)
  {
    if s[0] == '-' then 0 - Extend(0, s[1..]) else Extend(0, s)
  }

  // ------------------------------------------------- the parser's word arithmetic

  /** Unsigned parsing with wrap-around: None is a range error. */
  function ParseWord(n: nat, s: string): Option<nat>
    requires n < WORD && AllDigits(s)
    decreases |s|
  {
    if s == "" then Some(n)
    else if n >= CUTOFF then None
    else
      var shifted := n * 10 % WORD;
      var next := (shifted + DigitOf(s[0])) % WORD;
      if next < shifted then None else ParseWord(next, s[1..])
  }

  function ParseInt64(s: string): Option<Int64>
    requires IsNumeral(s)
  {
    match ParseWord(0, Magnitude(s))
    case None => None
    case Some(word) =>
      if s[0] == '-' then if word > HALF_WORD then None else Some(0 - word)
      else if word >= HALF_WORD then None else Some(word)
  }

  function Number(s: string, lo: Int64, hi: Int64): Result<Int64> {
    if !IsNumeral(s) then Err(Malformed)
    else
      match ParseInt64(s)
      case None => Err(OutOfRange)
      case Some(n) => if n < lo || n > hi then Err(OutOfRange) else Ok(n)
  }

  lemma {:induction false} ExtendGrows(n: nat, s: string)
    requires AllDigits(s)
    ensures Extend(n, s) >= n
    decreases |s|
  {
    if s != "" {
      ExtendGrows(10 * n + DigitOf(s[0]), s[1..]);
    }
  }

  lemma WordStep(n: nat, d: nat)
    requires n < CUTOFF && d < 10
    ensures n * 10 % WORD == n * 10
    ensures (n * 10 + d) % WORD < n * 10 <==> n * 10 + d >= WORD
    ensures n * 10 + d < WORD ==> (n * 10 + d) % WORD == n * 10 + d
  {
  }

  lemma {:induction false} ParseWordIsExact(n: nat, s: string)
    requires n < WORD && AllDigits(s)
    ensures ParseWord(n, s) == if Extend(n, s) < WORD then Some(Extend(n, s)) else None
    decreases |s|
  {
    if s != "" {
      var d := DigitOf(s[0]);
      ExtendGrows(10 * n + d, s[1..]);
      if n < CUTOFF {
        WordStep(n, d);
        if 10 * n + d < WORD {
          ParseWordIsExact(10 * n + d, s[1..]);
        }
      }
    }
  }

  /** Acceptance is exact: no numeral outside the bounds is accepted through overflow, none
      inside them is refused, and the value is the numeral's. */
  lemma NumberIsExact(s: string, lo: Int64, hi: Int64)
    ensures forall n: Int64 :: Number(s, lo, hi) == Ok(n) <==> IsNumeral(s) && Value(s) == n && lo <= n <= hi
    ensures Number(s, lo, hi) == Err(Malformed) <==> !IsNumeral(s)
  {
    if IsNumeral(s) {
      ParseWordIsExact(0, Magnitude(s));
    }
  }

  // ---------------------------------------------------------------- rendering

  function Digits(n: nat): string {
    if n < 10 then ['0' + n as char] else Digits(n / 10) + ['0' + (n % 10) as char]
  }

  function Render(n: int): string {
    if n < 0 then "-" + Digits(-n) else Digits(n)
  }

  lemma {:induction false} ExtendSnoc(n: nat, s: string, c: char)
    requires AllDigits(s) && IsDigit(c)
    ensures AllDigits(s + [c]) && Extend(n, s + [c]) == 10 * Extend(n, s) + DigitOf(c)
    decreases |s|
  {
    if s != "" {
      assert (s + [c])[1..] == s[1..] + [c];
      ExtendSnoc(10 * n + DigitOf(s[0]), s[1..], c);
    } else {
      assert (s + [c])[1..] == "";
    }
  }

  lemma {:induction false} DigitsDenote(n: nat)
    ensures Digits(n) != "" && AllDigits(Digits(n)) && Extend(0, Digits(n)) == n
    ensures n < 100_000 ==> |Digits(n)| <= 5
    ensures n < 10_000 ==> |Digits(n)| <= 4
    ensures n < 1_000 ==> |Digits(n)| <= 3
    ensures n < 100 ==> |Digits(n)| <= 2
  {
    var c := '0' + (n % 10) as char;
    if n < 10 {
      assert Digits(n)[1..] == "";
    } else {
      DigitsDenote(n / 10);
      ExtendSnoc(0, Digits(n / 10), c);
    }
  }

  /** Reading what "%d" prints gives the number back. */
  lemma RenderDenotes(n: int)
    ensures IsNumeral(Render(n)) && Value(Render(n)) == n
    ensures -100_000 < n < 100_000 ==> |Render(n)| <= 6
  {
    DigitsDenote(if n < 0 then -n else n);
    if n >= 0 {
      assert IsDigit(Digits(n)[0]);
    }
  }

  lemma NumberReadsRender(n: Int64, lo: Int64, hi: Int64)
    ensures Number(Render(n), lo, hi) == if lo <= n <= hi then Ok(n) else Err(OutOfRange)
  {
    RenderDenotes(n);
    NumberIsExact(Render(n), lo, hi);
  }
}
