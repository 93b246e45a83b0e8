/** Decimal size fields: std::from_chars over the whole text, against printing (src/transfer/quic_transfer.cpp). */
module Decimals {
  import opened ByteStrings

  const MAX_U64 := TWO_POW_64 - 1

  predicate IsDigit(c: byte) { '0' <= c <= '9' }

  function DigitValue(c: byte): (d: nat)
    requires IsDigit(c)
    ensures d < 10 && DigitChar(d) == c
  {
    c as int - '0' as int
  }

  function DigitChar(d: nat): (c: byte)
    requires d < 10
    ensures IsDigit(c) && c as int - '0' as int == d
  {
    ('0' as int + d) as char
  }

  predicate AllDigits(text: Bytes) { forall i :: 0 <= i < |text| ==> IsDigit(text[i]) }

  /** The number written by the first n characters. */
  function NumberValue(text: Bytes, n: nat): nat
    requires n <= |text| && AllDigits(text)
  {
    if n == 0 then 0 else NumberValue(text, n - 1) * 10 + DigitValue(text[n - 1])
  }

  /** Accepts exactly the non-empty digit strings, leading zeros included, whose value fits in 64 bits. */
  function ParsedU64(text: Bytes): Option<u64> {
    if text != [] && AllDigits(text) && NumberValue(text, |text|) < TWO_POW_64
    then Some(NumberValue(text, |text|)) else None
  }

  lemma {:induction false} ValueMonotone(text: Bytes, m: nat, n: nat)
    requires m <= n <= |text| && AllDigits(text)
    ensures NumberValue(text, m) <= NumberValue(text, n)
    decreases n
  {
    if m < n {
      ValueMonotone(text, m, n - 1);
    }
  }

  /** No intermediate result leaves 64 bits: `value` has type u64 and overflow is detected before it happens. */
  method ParseFullU64(text: Bytes) returns (parsed: Option<u64>)
    ensures parsed == ParsedU64(text)
  {
    if text == [] {
      return None;
    }
    var value: u64 := 0;
    for i := 0 to |text|
      invariant forall k :: 0 <= k < i ==> IsDigit(text[k])
      invariant AllDigits(text) ==> value == NumberValue(text, i)
    {
      if !IsDigit(text[i]) {
        return None;
      }
      var digit: u64 := DigitValue(text[i]);
      if value > (MAX_U64 - digit) / 10 {
        if AllDigits(text) {
          ValueMonotone(text, i + 1, |text|);
        }
        return None;
      }
      value := value * 10 + digit;
    }
    return Some(value);
  }

  /** What `oss << size` prints. */
  function Printed(n: nat): (text: Bytes)
    ensures text != [] && AllDigits(text)
  {
    if n < 10 then [DigitChar(n)] else Printed(n / 10) + [DigitChar(n % 10)]
  }

  lemma {:induction false} PrintedValue(n: nat)
    ensures NumberValue(Printed(n), |Printed(n)|) == n
  {
    if n >= 10 {
      var front := Printed(n / 10);
      PrintedValue(n / 10);
      ValuePrefix(Printed(n), front, |front|);
    }
  }

  lemma {:induction false} ValuePrefix(text: Bytes, front: Bytes, n: nat)
    requires AllDigits(text) && AllDigits(front) && front <= text && n <= |front|
    ensures NumberValue(text, n) == NumberValue(front, n)
  {
    if n > 0 {
      ValuePrefix(text, front, n - 1);
    }
  }

  /** Parsing inverts printing for every u64 and for nothing larger. */
  lemma {:induction false} ParsedPrinted(n: nat)
    ensures ParsedU64(Printed(n)) == if n < TWO_POW_64 then Some(n) else None
  {
    PrintedValue(n);
  }

  /** Printing inverts parsing exactly when the text has no redundant leading zero. */
  lemma {:induction false} PrintedParsed(text: Bytes)
    requires ParsedU64(text).Some?
    ensures Printed(ParsedU64(text).value) == text <==> (|text| == 1 || text[0] != '0')
  {
    if |text| == 1 || text[0] != '0' {
      PrintedPrefix(text, |text|);
      assert text[..|text|] == text;
    } else {
      PrintedNoLeadingZero(ParsedU64(text).value);
    }
  }

  lemma {:induction false} PrintedPrefix(text: Bytes, n: nat)
    requires AllDigits(text) && 0 < n <= |text| && (n == 1 || text[0] != '0')
    ensures Printed(NumberValue(text, n)) == text[..n]
    ensures text[0] != '0' ==> NumberValue(text, n) > 0
  {
    if n == 1 {
      assert NumberValue(text, 1) == DigitValue(text[0]);
      assert text[..1] == [text[0]];
    } else {
      PrintedPrefix(text, n - 1);
      var v, d := NumberValue(text, n - 1), DigitValue(text[n - 1]);
      assert (v * 10 + d) / 10 == v && (v * 10 + d) % 10 == d;
      assert text[..n] == text[..n - 1] + [text[n - 1]];
    }
  }

  lemma {:induction false} PrintedNoLeadingZero(n: nat)
    ensures |Printed(n)| == 1 || Printed(n)[0] != '0'
    ensures n > 0 ==> Printed(n)[0] != '0'
  {
    if n >= 10 {
      PrintedNoLeadingZero(n / 10);
    }
  }
}
