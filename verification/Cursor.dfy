/** Resume cursors as text: the decimal ids on `id:` lines, and how a reconnecting request's
    Last-Event-ID header or `since` parameter is read back. */
module Cursor {
  import opened Wrappers

  /** The largest int64. */
  const MAX_INT64: int := 0x7FFF_FFFF_FFFF_FFFF

  predicate IsDigit(c: char) { '0' <= c <= '9' }

  function Digit(n: nat): char
    requires n < 10
  {
    '0' + n as char
  }

  /** strconv.FormatInt in base ten, of a non-negative number. */
  function FormatInt(n: nat): string {
    if n < 10 then [Digit(n)] else FormatInt(n / 10) + [Digit(n % 10)]
  }

  function ParseDigits(s: string): Option<nat> {
    if s == "" then Some(0)
    else
      var c := s[|s| - 1];
      match ParseDigits(s[..|s| - 1])
      case Some(n) => if IsDigit(c) then Some(10 * n + (c as int - '0' as int)) else None
      case None => None
  }

  function Signed(negative: bool, n: int): Option<int> {
    if negative then (if n <= MAX_INT64 + 1 then Some(-n) else None)
    else if n <= MAX_INT64 then Some(n) else None
  }

  /** strconv.ParseInt(s, 10, 64): an optional sign, at least one digit, and the int64 range. */
  function ParseInt(s: string): Option<int> {
    if s == "" then None
    else
      var signed := s[0] == '+' || s[0] == '-';
      var digits := if signed then s[1..] else s;
      if digits == "" then None
      else
        match ParseDigits(digits)
        case None => None
        case Some(n) => Signed(s[0] == '-', n)
  }

  function NonNegative(n: int, message: string): Result<nat, string> {
    if n >= 0 then Ok(n as nat) else Err(message)
  }

  /** resolveLastSeq: the header wins over the query parameter; an absent one is empty. */
  function ResolveLastSeq(header: string, since: string): Result<nat, string> {
    if header != "" then
      match ParseInt(header)
      case Some(n) => NonNegative(n, "Last-Event-ID must be a non-negative integer")
      case None => Err("Last-Event-ID must be a non-negative integer")
    else if since != "" then
      match ParseInt(since)
      case Some(n) => NonNegative(n, "since must be a non-negative integer")
      case None => Err("since must be a non-negative integer")
    else Ok(0)
  }

  lemma {:induction false} FormatParses(n: nat)
    ensures ParseDigits(FormatInt(n)) == Some(n)
    ensures FormatInt(n) != "" && forall c | c in FormatInt(n) :: IsDigit(c)
  {
    if n >= 10 {
      FormatParses(n / 10);
      var init := FormatInt(n / 10);
      assert FormatInt(n)[..|init|] == init;
    } else {
      assert FormatInt(n)[..0] == "";
    }
  }

  /** The id written for a row, sent back as the header or as `since`, resumes after that row. */
  lemma {:induction false} CursorRoundTrip(id: nat, since: string)
    requires id <= MAX_INT64
    ensures ResolveLastSeq(FormatInt(id), since) == Ok(id)
    ensures ResolveLastSeq("", FormatInt(id)) == Ok(id)
  {
    FormatParses(id);
    assert IsDigit(FormatInt(id)[0]);
  }

  // ---------------------------------------------------------------- which texts are cursors

  predicate AllDigits(s: string) {
    forall i | 0 <= i < |s| :: IsDigit(s[i])
  }

  function Pow10(n: nat): nat {
    if n == 0 then 1 else 10 * Pow10(n - 1)
  }

  function DigitValue(c: char): nat {
    if IsDigit(c) then c as int - '0' as int else 0
  }

  /** The number digits stand for: each digit times its power of ten. */
  function Value(digits: string): nat {
    if digits == "" then 0 else DigitValue(digits[0]) * Pow10(|digits| - 1) + Value(digits[1..])
  }

  lemma {:induction false} Shift(d: nat, p: nat)
    ensures d * (10 * p) == 10 * (d * p)
  {
  }

  lemma {:induction false} ValueSnoc(digits: string, c: char)
    ensures Value(digits + [c]) == 10 * Value(digits) + DigitValue(c)
  {
    if digits == "" {
      assert digits + [c] == [c];
    } else {
      ValueSnoc(digits[1..], c);
      assert (digits + [c])[1..] == digits[1..] + [c];
      assert Pow10(|digits|) == 10 * Pow10(|digits| - 1);
      Shift(DigitValue(digits[0]), Pow10(|digits| - 1));
      hide Pow10, DigitValue;
    }
  }

  lemma {:induction false} ParsesDigits(s: string)
    ensures ParseDigits(s) == if AllDigits(s) then Some(Value(s)) else None
  {
    if s != "" {
      var init, c := s[..|s| - 1], s[|s| - 1];
      assert s == init + [c];
      ParsesDigits(init);
      ValueSnoc(init, c);
      assert AllDigits(s) <==> AllDigits(init) && IsDigit(c);
    }
  }

  /** The text after an optional sign. */
  function Unsigned(s: string): string {
    if s != "" && (s[0] == '+' || s[0] == '-') then s[1..] else s
  }

  /** An optional sign and at least one digit. */
  predicate IsNumeral(s: string) {
    Unsigned(s) != "" && AllDigits(Unsigned(s))
  }

  function NumeralValue(s: string): int {
    var n: int := Value(Unsigned(s));
    if s != "" && s[0] == '-' then -n else n
  }

  /** ParseInt accepts exactly the numerals whose value fits an int64, and returns that value. */
  lemma {:induction false} ParseIntIff(s: string)
    ensures ParseInt(s) ==
      if IsNumeral(s) && -MAX_INT64 - 1 <= NumeralValue(s) <= MAX_INT64 then Some(NumeralValue(s)) else None
  {
    ParsesDigits(Unsigned(s));
  }

  /** A request is refused exactly when the text it gives, header first, is not a numeral between
      zero and the largest int64; otherwise its cursor is that number, or zero without any text. */
  lemma {:induction false} RefusedIff(header: string, since: string)
    ensures
      var text := if header != "" then header else since;
      var r := ResolveLastSeq(header, since);
      && (r.Err? <==> text != "" && !(IsNumeral(text) && 0 <= NumeralValue(text) <= MAX_INT64))
      && (r.Ok? ==> r.value == if text == "" then 0 else NumeralValue(text))
  {
    ParseIntIff(header);
    ParseIntIff(since);
    hide ParseInt;
  }
}
