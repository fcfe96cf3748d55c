/**
 Record identifiers as the add actions make them: the current time in
 milliseconds, written out in decimal (`Date.now().toString()`). Two adds that
 read the same millisecond therefore receive the same id, and only then.
 */
module TimeIds {
  import opened Types

  predicate IsDigit(c: char) {
    '0' <= c <= '9'
  }

  predicate AllDigits(s: string) {
    forall i :: 0 <= i < |s| ==> IsDigit(s[i])
  }

  function DigitChar(d: nat): (c: char)
    requires d < 10
    ensures IsDigit(c)
  {
    (48 + d) as char
  }

  function DigitValue(c: char): (d: nat)
    requires IsDigit(c)
    ensures d < 10 && DigitChar(d) == c
  {
    (c as int - 48) as nat
  }

  /** The decimal digits of `n`, most significant first, without leading zeros. */
  function Digits(n: nat): (s: string)
    ensures |s| >= 1
    ensures AllDigits(s)
    ensures |s| > 1 ==> s[0] != '0'
    decreases n
  {
    if n < 10 then [DigitChar(n)] else Digits(n / 10) + [DigitChar(n % 10)]
  }

  /** Reads a string of decimal digits back as a number. */
  function ParseDigits(s: string): nat
    requires AllDigits(s)
  {
    if |s| == 0 then 0 else ParseDigits(s[..|s| - 1]) * 10 + DigitValue(s[|s| - 1])
  }

  lemma {:induction false} ParseDigitsInverts(n: nat)
    ensures ParseDigits(Digits(n)) == n
    decreases n
  {
    if n >= 10 {
      var s := Digits(n);
      assert s[..|s| - 1] == Digits(n / 10);
      ParseDigitsInverts(n / 10);
    }
  }

  /** Reads an id made by `TimeId` back as the time value it was made from. */
  function ParseTimeId(s: Id): Option<Timestamp> {
    if |s| > 0 && s[0] == '-' && AllDigits(s[1..]) then Some(-(ParseDigits(s[1..]) as int))
    else if AllDigits(s) then Some(ParseDigits(s))
    else None
  }

  /** `Number.prototype.toString` on an integral time value. */
  function TimeId(ms: Timestamp): (r: Id)
    ensures ParseTimeId(r) == Some(ms)
  {
    if ms < 0 then
      var s := "-" + Digits(-ms);
      assert s[1..] == Digits(-ms);
      ParseDigitsInverts(-ms);
      s
    else
      ParseDigitsInverts(ms);
      Digits(ms)
  }

  /** Ids made at two clock readings collide exactly when the readings are equal. */
  lemma TimeIdCollidesIffSameMillisecond(a: Timestamp, b: Timestamp)
    ensures TimeId(a) == TimeId(b) <==> a == b
  {
    assert ParseTimeId(TimeId(a)) == Some(a);
    assert ParseTimeId(TimeId(b)) == Some(b);
  }
}
