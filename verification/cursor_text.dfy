/** The textual export cursor of src/db/mod.rs: `{micros}:{id}`, printed and parsed back. */
module CursorText {
  import opened Schema

  const I64_MIN: int := -0x8000_0000_0000_0000
  const I64_MAX: int := 0x7FFF_FFFF_FFFF_FFFF

  datatype Cursor = Cursor(micros: int, id: string)

  predicate IsDigit(c: char) {
    '0' <= c <= '9'
  }

  function Digit(d: int): char
    requires 0 <= d < 10
  {
    '0' + d as char
  }

  function DigitValue(c: char): int
    requires IsDigit(c)
  {
    c as int - '0' as int
  }

  /** Decimal digits without leading zeros. */
  function Digits(n: nat): string {
    if n < 10 then [Digit(n)] else Digits(n / 10) + [Digit(n % 10)]
  }

  function PrintInt(n: int): string {
    if n < 0 then "-" + Digits(-n) else Digits(n)
  }

  predicate AllDigits(s: string) {
    forall c | c in s :: IsDigit(c)
  }

  function DigitsValue(s: string): int
    requires AllDigits(s)
  {
    if s == [] then 0 else DigitsValue(s[..|s| - 1]) * 10 + DigitValue(s[|s| - 1])
  }

  /** `str::parse::<i64>`: an optional sign, at least one digit, and a value in range. */
  function ParseI64(s: string): Option<int> {
    var negative := s != [] && s[0] == '-';
    var digits := if s != [] && (s[0] == '-' || s[0] == '+') then s[1..] else s;
    if digits == [] || !AllDigits(digits) then
      None
    else
      var value := if negative then -DigitsValue(digits) else DigitsValue(digits);
      if I64_MIN <= value <= I64_MAX then Some(value) else None
  }

  /** Where the last colon is, or the length when there is none. */
  function LastColon(s: string): (i: nat)
    ensures i <= |s|
    ensures i < |s| ==> s[i] == ':' && forall j | i < j < |s| :: s[j] != ':'
    ensures i == |s| ==> ':' !in s
  {
    if s == [] then 0
    else if s[|s| - 1] == ':' then |s| - 1
    else
      var i := LastColon(s[..|s| - 1]);
      if i < |s| - 1 then i else |s|
  }

  function Print(c: Cursor): string {
    PrintInt(c.micros) + ":" + c.id
  }

  /** `rsplit_once(':')`, a number before it and a non-empty id after it. */
  function Parse(s: string): Option<Cursor> {
    var i := LastColon(s);
    if i == |s| then None
    else
      var micros := ParseI64(s[..i]);
      if micros.None? || s[i + 1..] == [] then None else Some(Cursor(micros.value, s[i + 1..]))
  }

  lemma {:induction false} DigitsRoundTrip(n: nat)
    ensures Digits(n) != [] && AllDigits(Digits(n)) && DigitsValue(Digits(n)) == n
  {
    if n >= 10 {
      DigitsRoundTrip(n / 10);
      var s := Digits(n);
      assert s[..|s| - 1] == Digits(n / 10);
    }
  }

  lemma IntRoundTrip(n: int)
    requires I64_MIN <= n <= I64_MAX
    ensures ParseI64(PrintInt(n)) == Some(n)
  {
    var m: nat := if n < 0 then -n else n;
    DigitsRoundTrip(m);
    hide Digits, DigitsValue;
    var digits := Digits(m);
    assert digits[0] in digits && IsDigit(digits[0]);
    assert ("-" + digits)[0] == '-' && ("-" + digits)[1..] == digits;
  }

  /** A number holds no colon, so text with one does not parse. */
  lemma ColonIsNoNumber(s: string)
    requires ':' in s
    ensures ParseI64(s).None?
  {
    var i :| 0 <= i < |s| && s[i] == ':';
    if s[0] == '-' || s[0] == '+' {
      assert s[1..][i - 1] == ':';
    }
    assert !IsDigit(':') && s[i] in s;
  }

  /** A last colon is where `LastColon` says. */
  lemma LastColonIs(s: string, k: nat)
    requires k < |s| && s[k] == ':' && forall j | k < j < |s| :: s[j] != ':'
    ensures LastColon(s) == k
  {
    assert s[k] in s;
  }

  lemma PlainIdParses(micros: string, id: string, n: int)
    requires ParseI64(micros) == Some(n) && id != [] && ':' !in id
    ensures Parse(micros + ":" + id) == Some(Cursor(n, id))
  {
    hide ParseI64, LastColon;
    var s := micros + ":" + id;
    assert s[|micros|] == ':' && s[..|micros|] == micros && s[|micros| + 1..] == id;
    forall j | |micros| < j < |s|
      ensures s[j] != ':'
    {
      assert s[j] == id[j - |micros| - 1];
    }
    LastColonIs(s, |micros|);
  }

  lemma OtherIdIsRefused(micros: string, id: string)
    requires id == [] || ':' in id
    ensures Parse(micros + ":" + id) == None
  {
    hide ParseI64;
    var s := micros + ":" + id;
    assert s[|micros|] == ':' && s[|micros| + 1..] == id;
    var i := LastColon(s);
    assert s[|micros|] in s;
    if id != [] {
      var k :| 0 <= k < |id| && id[k] == ':';
      assert s[|micros| + 1 + k] == ':';
      assert s[..i][|micros|] == ':';
      ColonIsNoNumber(s[..i]);
    }
  }

  /** The printed cursor parses back to the same pair exactly when the id is not empty and holds
    * no colon; otherwise it is refused. */
  lemma CursorRoundTrip(c: Cursor)
    requires I64_MIN <= c.micros <= I64_MAX
    ensures Parse(Print(c)) == if c.id != [] && ':' !in c.id then Some(c) else None
  {
    hide Parse, PrintInt, ParseI64;
    IntRoundTrip(c.micros);
    if c.id != [] && ':' !in c.id {
      PlainIdParses(PrintInt(c.micros), c.id, c.micros);
    } else {
      OtherIdIsRefused(PrintInt(c.micros), c.id);
    }
  }
}
