/** The "0x"-prefixed hexadecimal quantities of the Ethereum JSON-RPC API:
    convertHexToNum and convertNumToHex of client.go. */
module Hex {
  import opened Results

  const InvalidLength: string := "invalid hex length"
  const InvalidPrefix: string := "invalid hex"

  /** A digit that big.Int.SetString accepts in base 16 (either case). */
  predicate IsHexDigit(c: char) {
    '0' <= c <= '9' || 'a' <= c <= 'f' || 'A' <= c <= 'F'
  }

  predicate IsLowerHexDigit(c: char) {
    '0' <= c <= '9' || 'a' <= c <= 'f'
  }

  predicate AllHexDigits(s: string) {
    forall i | 0 <= i < |s| :: IsHexDigit(s[i])
  }

  predicate AllLowerHexDigits(s: string) {
    forall i | 0 <= i < |s| :: IsLowerHexDigit(s[i])
  }

  function DigitValue(c: char): (d: nat)
    requires IsHexDigit(c)
    ensures d < 16
  {
    if '0' <= c <= '9' then c as int - '0' as int
    else if 'a' <= c <= 'f' then c as int - 'a' as int + 10
    else c as int - 'A' as int + 10
  }

  function LowerDigit(d: nat): (c: char)
    requires d < 16
    ensures IsLowerHexDigit(c) && DigitValue(c) == d
    ensures c == '0' <==> d == 0
  {
    "0123456789abcdef"[d]
  }

  /** The base-16 value of a string of hex digits, most significant first. */
  function HexValue(s: string): nat
    requires AllHexDigits(s)
  {
    if s == [] then 0 else HexValue(s[..|s| - 1]) * 16 + DigitValue(s[|s| - 1])
  }

  /** The number of bytes of `c` in UTF-8. */
  function Utf8Width(c: char): (w: nat)
    ensures 1 <= w <= 4
    ensures w == 1 <==> c as int < 0x80
  {
    if c as int < 0x80 then 1
    else if c as int < 0x800 then 2
    else if c as int < 0x1_0000 then 3
    else 4
  }

  /** Go's `len(s)`: the length of the UTF-8 encoding of `s`, which is the
      number of characters only when they are all ASCII. */
  function ByteLength(s: string): (n: nat)
    ensures n >= |s|
  {
    if s == [] then 0 else Utf8Width(s[0]) + ByteLength(s[1..])
  }

  /** The error convertHexToNum reports for `s`, if any: an encoding of at
      most two bytes, or one whose first two bytes are not exactly "0x".
      Since '0' and 'x' are one byte each, the first two bytes are "0x"
      exactly when the first two characters are, and then a third
      character makes the encoding longer than two bytes. */
  function CheckHex(s: string): (e: Option<string>)
    ensures e.None? <==> |s| > 2 && s[0] == '0' && s[1] == 'x'
  {
    if |s| > 2 && s[..2] == "0x" then None
    else if ByteLength(s) <= 2 then Some(InvalidLength)
    else Some(InvalidPrefix)
  }

  /** What big.Int.SetString accepts in base 16: an optional sign followed
      by at least one hex digit. */
  predicate SignedHexDigits(d: string) {
    if |d| > 0 && (d[0] == '+' || d[0] == '-') then |d| > 1 && AllHexDigits(d[1..])
    else |d| > 0 && AllHexDigits(d)
  }

  /** The value SetString gives such digits. */
  function SignedHexValue(d: string): int
    requires SignedHexDigits(d)
  {
    if d[0] == '-' then -(HexValue(d[1..]) as int)
    else if d[0] == '+' then HexValue(d[1..])
    else HexValue(d)
  }

  /** The digits after an accepted prefix are ones SetString parses. */
  predicate WellFormedDigits(s: string) {
    CheckHex(s).None? ==> SignedHexDigits(s[2..])
  }

  /** convertHexToNum: rejects by byte length, then by prefix, and otherwise
      yields the signed base-16 value of what follows "0x". */
  function ConvertHexToNum(s: string): (r: Result<int>)
    requires WellFormedDigits(s)
    ensures r.Err? <==> |s| <= 2 || s[0] != '0' || s[1] != 'x'
    ensures ByteLength(s) <= 2 ==> r == Err(InvalidLength)
    ensures ByteLength(s) > 2 && !(|s| >= 2 && s[..2] == "0x") ==> r == Err(InvalidPrefix)
    ensures r.Ok? ==> r.value == SignedHexValue(s[2..])
    ensures r.Ok? && AllHexDigits(s[2..]) ==> r.value == HexValue(s[2..])
    ensures r.Ok? && r.value < 0 ==> s[2] == '-'
  {
    match CheckHex(s)
    case Some(e) => Err(e)
    case None => Ok(SignedHexValue(s[2..]))
  }

  /** The "%x" formatting of a natural number: lower-case digits, no leading
      zero except for the single digit of 0. */
  function HexDigits(n: nat): (s: string)
    ensures |s| >= 1 && AllLowerHexDigits(s) && AllHexDigits(s)
    ensures s[0] == '0' <==> n == 0
    ensures n == 0 ==> s == "0"
  {
    if n < 16 then [LowerDigit(n)] else HexDigits(n / 16) + [LowerDigit(n % 16)]
  }

  /** convertNumToHex for n >= 0. */
  function ConvertNumToHex(n: nat): (s: string)
    ensures |s| > 2 && s[..2] == "0x"
    ensures AllLowerHexDigits(s[2..])
    ensures s[2] == '0' <==> n == 0
    ensures n == 0 ==> s == "0x0"
  {
    "0x" + HexDigits(n)
  }

  /** A canonical quantity: the digits "%x" produces, lower case and without
      a leading zero. */
  predicate Canonical(digits: string) {
    |digits| >= 1 && AllLowerHexDigits(digits) && (digits[0] == '0' ==> digits == "0")
  }

  lemma {:induction false} HexValueOfHexDigits(n: nat)
    ensures HexValue(HexDigits(n)) == n
  {
    if n >= 16 {
      var p := HexDigits(n / 16);
      var s := p + [LowerDigit(n % 16)];
      assert s[..|s| - 1] == p;
      HexValueOfHexDigits(n / 16);
    }
  }

  lemma DivModSixteen(q: nat, d: nat)
    requires d < 16
    ensures (q * 16 + d) / 16 == q && (q * 16 + d) % 16 == d
  {
  }

  lemma {:induction false} LeadingDigitPositive(s: string)
    requires |s| >= 1 && AllHexDigits(s) && s[0] != '0'
    ensures HexValue(s) > 0
  {
    if |s| > 1 {
      LeadingDigitPositive(s[..|s| - 1]);
    }
  }

  lemma LowerDigitOfDigitValue(c: char)
    requires IsLowerHexDigit(c)
    ensures IsHexDigit(c) && LowerDigit(DigitValue(c)) == c
  {
  }

  lemma {:induction false} HexDigitsOfHexValue(s: string)
    requires Canonical(s)
    ensures AllHexDigits(s) && HexDigits(HexValue(s)) == s
  {
    assert AllHexDigits(s);
    var last := s[|s| - 1];
    LowerDigitOfDigitValue(last);
    var d := DigitValue(last);
    if |s| == 1 {
      assert s == [last];
      assert HexValue(s) == d;
    } else {
      var p := s[..|s| - 1];
      assert p[0] == s[0] != '0';
      assert Canonical(p);
      LeadingDigitPositive(p);
      HexDigitsOfHexValue(p);
      var q := HexValue(p);
      assert HexValue(s) == q * 16 + d;
      DivModSixteen(q, d);
      assert HexDigits(q * 16 + d) == HexDigits(q) + [LowerDigit(d)];
      assert s == p + [last];
    }
  }

  /** Round trip: every natural number printed by convertNumToHex is parsed
      back to itself by convertHexToNum. */
  lemma NumToHexToNum(n: nat)
    ensures WellFormedDigits(ConvertNumToHex(n))
    ensures ConvertHexToNum(ConvertNumToHex(n)) == Ok(n)
  {
    var s := ConvertNumToHex(n);
    assert s[2..] == HexDigits(n);
    HexValueOfHexDigits(n);
  }

  /** Round trip the other way: a canonical quantity parsed by
      convertHexToNum is printed back to the same string. */
  lemma HexToNumToHex(s: string)
    requires |s| > 2 && s[..2] == "0x" && Canonical(s[2..])
    ensures WellFormedDigits(s) && ConvertHexToNum(s).Ok?
    ensures ConvertNumToHex(ConvertHexToNum(s).value) == s
  {
    HexDigitsOfHexValue(s[2..]);
    assert s[2..][0] == s[2];
    assert s == "0x" + s[2..];
  }

  /** SetString takes a sign after the prefix, so a signed quantity is
      accepted; and lengths are counted in bytes, so a two-character string
      with a non-ASCII character fails the prefix check, not the length
      check, while one such character alone fails the length check. */
  lemma SignsAndBytes()
    ensures ConvertHexToNum("0x-1a") == Ok(-26)
    ensures ConvertHexToNum("0x+1a") == Ok(26)
    ensures CheckHex("\U{e9}") == Some(InvalidLength)
    ensures CheckHex("\U{e9}a") == Some(InvalidPrefix)
  {
    assert "1a"[..1] == "1";
    assert HexValue("1a") == 26;
    assert "0x-1a"[2..] == "-1a" && "-1a"[1..] == "1a";
    assert SignedHexValue("-1a") == -26;
    assert "0x+1a"[2..] == "+1a" && "+1a"[1..] == "1a";
  }
}
