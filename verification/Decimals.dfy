/** Words and decimal numbers as text, as the streams of the C++ library print and read them. */
module Decimals {
  import opened Wrappers

  /** What an extraction skips: the white space of the C locale. */
  predicate Space(c: char) { c == ' ' || '\t' <= c <= '\r' }

  predicate Solid(w: string) { w != "" && forall i :: 0 <= i < |w| ==> !Space(w[i]) }

  function DigitChar(d: nat): char
    requires d < 10
  {
    ['0', '1', '2', '3', '4', '5', '6', '7', '8', '9'][d]
  }

  function Dec(n: nat): (s: string)
    ensures Solid(s)
    ensures |s| <= 2 <==> n < 100
    ensures |s| == 1 <==> n < 10
    ensures forall i :: 0 <= i < |s| ==> '0' <= s[i] <= '9'
  {
    if n < 10 then [DigitChar(n)] else Dec(n / 10) + [DigitChar(n % 10)]
  }

  function Text(i: int): (s: string)
    ensures Solid(s)
  {
    if i < 0 then "-" + Dec(-i) else Dec(i)
  }

  function DigitValue(c: char): nat {
    if c == '1' then 1 else if c == '2' then 2 else if c == '3' then 3 else if c == '4' then 4
    else if c == '5' then 5 else if c == '6' then 6 else if c == '7' then 7 else if c == '8' then 8
    else if c == '9' then 9 else 0
  }

  function Value(s: string): nat {
    if s == "" then 0 else 10 * Value(s[..|s| - 1]) + DigitValue(s[|s| - 1])
  }

  predicate Digits(s: string) { s != "" && forall i :: 0 <= i < |s| ==> '0' <= s[i] <= '9' }

  /** What a number extraction makes of a word. */
  function Number(w: string): Option<int> {
    if w != "" && w[0] == '-' && Digits(w[1..]) then Some(0 - Value(w[1..]))
    else if Digits(w) then Some(Value(w))
    else None
  }

  lemma {:induction false} ValueOfDec(n: nat)
    ensures Value(Dec(n)) == n
  {
    if n >= 10 {
      ValueOfDec(n / 10);
      var s := Dec(n);
      assert s[..|s| - 1] == Dec(n / 10);
    }
  }

  lemma NumberOfMinus(d: string)
    requires Digits(d)
    ensures Number("-" + d) == Some(0 - Value(d))
  {
    assert ("-" + d)[1..] == d;
  }

  lemma NumberOfText(i: int)
    ensures Number(Text(i)) == Some(i)
  {
    var n: nat := if i < 0 then -i else i;
    ValueOfDec(n);
    NumberOfMinus(Dec(n));
  }
}
