/**
 Byte strings and decimal numbers, as both programs use them.
 A byte is a `char`; a stream, a buffer and the contents of a file are `string`s.
 */
module Text {

  datatype Option<+T> = None | Some(value: T)

  const UINT64_MAX: nat := 0xFFFF_FFFF_FFFF_FFFF
  const UINT16_MAX: nat := 0xFFFF

  function Min(a: nat, b: nat): nat {
    if a < b then a else b
  }

  /** The index of the first `c` in `s`; `|s|` plays the part of `std::string::npos`. */
  function Find(s: string, c: char): (n: nat)
    ensures n <= |s|
    ensures c !in s[..n]
    ensures n < |s| ==> s[n] == c
  {
    if s == "" || s[0] == c then 0 else 1 + Find(s[1..], c)
  }

  lemma FindIs(s: string, c: char, n: nat)
    requires n < |s| && s[n] == c && c !in s[..n]
    ensures Find(s, c) == n
  {
  }

  /** Later bytes do not move the first occurrence. */
  lemma FindInPrefix(s: string, t: string, c: char)
    requires s <= t && c in s
    ensures Find(s, c) < |s| && Find(t, c) == Find(s, c)
  {
    FindAbsent(s, c);
    assert t[..Find(s, c)] == s[..Find(s, c)];
    FindIs(t, c, Find(s, c));
  }

  lemma FindAbsent(s: string, c: char)
    ensures c in s <==> Find(s, c) < |s|
  {
    var n := Find(s, c);
    if n == |s| {
      assert s[..n] == s;
    }
  }

  // ---------------------------------------------------------------------------
  // Decimal numbers

  predicate IsDigit(c: char) {
    '0' <= c <= '9'
  }

  predicate AllDigits(s: string) {
    forall i | 0 <= i < |s| :: IsDigit(s[i])
  }

  function Digit(c: char): (d: nat)
    requires IsDigit(c)
    ensures d < 10
  {
    c as int - '0' as int
  }

  /** The number that a string of digits denotes. */
  function Value(s: string): nat
    requires AllDigits(s)
  {
    if s == "" then 0 else Value(s[..|s| - 1]) * 10 + Digit(s[|s| - 1])
  }

  /** `std::to_string` */
  function ToDecimal(n: nat): (s: string)
    ensures s != "" && AllDigits(s)
    ensures Value(s) == n
  {
    var d := [(n % 10 + '0' as int) as char];
    if n < 10 then d else
      var high := ToDecimal(n / 10);
      assert (high + d)[..|high + d| - 1] == high;
      high + d
  }

  /** What parsing a decimal 64-bit number must give: the value of a nonempty digit string that fits. */
  function Uint64Of(text: string): Option<nat> {
    if text != "" && AllDigits(text) && Value(text) <= UINT64_MAX then Some(Value(text)) else None
  }

  lemma {:induction false} ValueGrows(s: string, k: nat)
    requires AllDigits(s) && k <= |s|
    ensures Value(s[..k]) <= Value(s)
  {
    if k < |s| {
      ValueGrows(s[..|s| - 1], k);
      assert s[..|s| - 1][..k] == s[..k];
    } else {
      assert s[..k] == s;
    }
  }

  /** `parse_uint64`, with its overflow test before each multiplication. */
  method ParseUint64(text: string) returns (ok: bool, value: nat)
    ensures ok == Uint64Of(text).Some?
    ensures ok ==> Some(value) == Uint64Of(text)
    ensures value <= UINT64_MAX
  {
    value := 0;
    if text == "" {
      return false, 0;
    }
    for i := 0 to |text|
      invariant AllDigits(text[..i])
      invariant value == Value(text[..i]) <= UINT64_MAX
    {
      if text[i] < '0' || text[i] > '9' {
        return false, value;
      }
      var digit := Digit(text[i]);
      assert text[..i + 1][..i] == text[..i];
      assert Value(text[..i + 1]) == value * 10 + digit;
      if value > (UINT64_MAX - digit) / 10 {
        assert value * 10 + digit > UINT64_MAX;
        if AllDigits(text) {
          ValueGrows(text, i + 1);
        }
        return false, value;
      }
      value := value * 10 + digit;
    }
    assert text[..|text|] == text;
    ok := true;
  }

  /** The server's `parse_port`, which gives up as soon as the running value passes 65535. */
  method ParsePort(text: string) returns (ok: bool, port: nat)
    ensures ok == (Uint64Of(text).Some? && Uint64Of(text).value <= 65535)
    ensures ok ==> Some(port) == Uint64Of(text)
  {
    port := 0;
    if text == "" {
      return false, 0;
    }
    var value := 0;
    for i := 0 to |text|
      invariant AllDigits(text[..i])
      invariant value == Value(text[..i]) <= UINT16_MAX
    {
      if text[i] < '0' || text[i] > '9' {
        return false, 0;
      }
      var digit := Digit(text[i]);
      assert text[..i + 1][..i] == text[..i];
      if value > (UINT64_MAX - digit) / 10 {
        assert false;
      }
      value := value * 10 + digit;
      assert value == Value(text[..i + 1]);
      if value > UINT16_MAX {
        if AllDigits(text) {
          ValueGrows(text, i + 1);
        }
        return false, 0;
      }
    }
    assert text[..|text|] == text;
    return true, value;
  }

  /** The client's `parse_port`, which also refuses port 0. */
  method ParseClientPort(text: string) returns (ok: bool, port: nat)
    ensures ok == (Uint64Of(text).Some? && 1 <= Uint64Of(text).value <= 65535)
    ensures ok ==> Some(port) == Uint64Of(text)
  {
    ok, port := ParseUint64(text);
    ok := ok && port != 0 && port <= UINT16_MAX;
  }

  /** Parsing inverts printing, on exactly the numbers that fit. */
  lemma PrintedNumberParses(n: nat)
    ensures Uint64Of(ToDecimal(n)) == if n <= UINT64_MAX then Some(n) else None
  {
  }

  lemma DecimalInjective(a: nat, b: nat)
    requires ToDecimal(a) == ToDecimal(b)
    ensures a == b
  {
    assert Value(ToDecimal(a)) == a;
  }

  function Pow10(k: nat): nat {
    if k == 0 then 1 else 10 * Pow10(k - 1)
  }

  lemma {:induction false} DecimalLength(n: nat, k: nat)
    requires 0 < k && n < Pow10(k)
    ensures |ToDecimal(n)| <= k
  {
    if n >= 10 {
      assert k > 1;
      DecimalLength(n / 10, k - 1);
    }
  }
}
