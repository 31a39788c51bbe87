/** The text forms the gateway's route reader accepts: UUIDs, decimals and a few identifiers. */
module ReadText {
  import opened Options

  predicate Digit(c: char) { '0' <= c <= '9' }

  predicate AllDigits(s: string) { forall k :: 0 <= k < |s| ==> Digit(s[k]) }

  // -------------------------------------------------------------------- integers

  predicate Space(c: char) { c == ' ' || '\t' <= c <= '\r' || '\U{1C}' <= c <= '\U{1F}' }

  function StripLeft(s: string): string {
    if s != "" && Space(s[0]) then StripLeft(s[1..]) else s
  }

  function StripRight(s: string): string {
    if s != "" && Space(s[|s| - 1]) then StripRight(s[..|s| - 1]) else s
  }

  /** Digits in groups joined by single underscores. */
  function Digits(s: string): Option<nat> {
    if s == "" || !Digit(s[|s| - 1]) then None
    else
      var d := s[|s| - 1] as int - '0' as int;
      var rest := s[..|s| - 1];
      if rest == "" then Some(d)
      else
        var head := Digits(if rest[|rest| - 1] == '_' then rest[..|rest| - 1] else rest);
        if head == None then None else Some(head.value * 10 + d)
  }

  /** How many digits Python converts; leading zeros count. */
  const MAX_DIGITS := 4300

  function DigitCount(s: string): nat {
    if s == "" then 0 else (if Digit(s[0]) then 1 else 0) + DigitCount(s[1..])
  }

  function BoundedDigits(s: string): Option<nat> {
    if DigitCount(s) > MAX_DIGITS then None else Digits(s)
  }

  /** Python's `int` on ASCII text. */
  function ParseInt(s: string): Option<int> {
    var t := StripRight(StripLeft(s));
    if t != "" && (t[0] == '-' || t[0] == '+') then
      var n := BoundedDigits(t[1..]);
      if n == None then None else Some(if t[0] == '-' then 0 - n.value else n.value)
    else
      var n := BoundedDigits(t);
      if n == None then None else Some(n.value)
  }

  function DigitChar(d: nat): char
    requires d < 10
  {
    ('0' as int + d) as char
  }

  function Decimal(n: nat): (s: string)
    ensures s != "" && AllDigits(s) && (s[0] == '0' ==> n == 0 && s == "0")
  {
    if n < 10 then [DigitChar(n)] else Decimal(n / 10) + [DigitChar(n % 10)]
  }

  lemma {:induction false} DigitsDecimal(n: nat)
    ensures Digits(Decimal(n)) == Some(n)
  {
    var s := Decimal(n);
    if n >= 10 {
      DigitsDecimal(n / 10);
      assert s[..|s| - 1] == Decimal(n / 10);
    }
  }

  /** `0` or a number without leading zeros. */
  predicate CanonicalDecimal(s: string) {
    s == "0" || (s != "" && '1' <= s[0] <= '9' && AllDigits(s))
  }

  lemma {:induction false} DecimalIsCanonical(n: nat)
    ensures AllDigits(Decimal(n)) && (n > 0 ==> '1' <= Decimal(n)[0] <= '9')
    ensures CanonicalDecimal(Decimal(n))
  {
    if n >= 10 { DecimalIsCanonical(n / 10); }
  }

  lemma {:induction false} AllDigitsCount(s: string)
    requires AllDigits(s)
    ensures DigitCount(s) == |s|
  {
    if s != "" { AllDigitsCount(s[1..]); }
  }

  lemma ShortDecimal(n: nat)
    requires n <= 100_000
    ensures |Decimal(n)| <= 6
  {
    assert |Decimal(n / 10_000)| <= 2;
    assert |Decimal(n / 1000)| <= 3;
    assert |Decimal(n / 100)| <= 4;
    assert |Decimal(n / 10)| <= 5;
  }

  /** Reading a printed number gives it back as long as Python converts that many digits, and it is
      printed without leading zeros. */
  lemma ParsePrinted(n: nat)
    ensures CanonicalDecimal(Decimal(n))
    ensures ParseInt(Decimal(n)) == if |Decimal(n)| <= MAX_DIGITS then Some(n) else None
  {
    AllDigitsCount(Decimal(n));
    var s := Decimal(n);
    assert Digit(s[0]) && Digit(s[|s| - 1]);
    DigitsDecimal(n);
    DecimalIsCanonical(n);
  }

  // ----------------------------------------------------------------------- UUIDs

  function Lower(s: string): (r: string)
    ensures |r| == |s|
    ensures forall k :: 0 <= k < |s| ==> r[k] == if 'A' <= s[k] <= 'Z' then (s[k] as int + 32) as char else s[k]
  {
    if s == "" then ""
    else [if 'A' <= s[0] <= 'Z' then (s[0] as int + 32) as char else s[0]] + Lower(s[1..])
  }

  predicate LowerHex(c: char) { Digit(c) || 'a' <= c <= 'f' }

  /** The text form of section 4 of RFC 9562, in lower case. */
  predicate CanonicalUuid(s: string) {
    |s| == 36 && forall k :: 0 <= k < 36 ==>
      if k == 8 || k == 13 || k == 18 || k == 23 then s[k] == '-' else LowerHex(s[k])
  }

  lemma LowerOfLower(s: string)
    ensures Lower(Lower(s)) == Lower(s)
  {
    assert forall k :: 0 <= k < |s| ==> Lower(Lower(s))[k] == Lower(s)[k];
  }

  // ----------------------------------------------------------------- identifiers

  predicate SessionKey(s: string) { |s| == 64 && forall k :: 0 <= k < 64 ==> LowerHex(s[k]) }

  /** A positive decimal of at most `most` digits. */
  predicate PositiveDecimal(s: string, most: nat) {
    1 <= |s| <= most && '1' <= s[0] <= '9' && AllDigits(s)
  }

  predicate ProjectId(s: string) {
    PositiveDecimal(s, 19) && Digits(s).Some? && Digits(s).value < 0x8000_0000_0000_0000
  }

  predicate KeyChar(c: char) { 'A' <= c <= 'Z' || Digit(c) || c == '_' }

  predicate IssueKey(s: string, dash: nat)
    requires dash < |s|
  {
    && s[dash] == '-' && 1 <= dash <= 32 && 'A' <= s[0] <= 'Z'
    && (forall k :: 0 <= k < dash ==> KeyChar(s[k]))
    && PositiveDecimal(s[dash + 1..], 20)
  }

  predicate IssueId(s: string) {
    PositiveDecimal(s, 20) || exists dash :: 0 <= dash < |s| && IssueKey(s, dash)
  }

  predicate Cursor(s: string) {
    1 <= |s| <= 8192 && forall k :: 0 <= k < |s| ==>
      Digit(s[k]) || 'A' <= s[k] <= 'Z' || 'a' <= s[k] <= 'z' || s[k] == '_' || s[k] == '-'
  }
}
