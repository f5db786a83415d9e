/** Types the other modules share. */
module Basics {
  datatype Option<+T> = None | Some(value: T)

  newtype byte = i: int | 0 <= i < 256

  type Bytes = seq<byte>

  function Join(parts: seq<Bytes>): Bytes {
    if parts == [] then [] else parts[0] + Join(parts[1..])
  }

  lemma {:induction false} JoinAppend(a: seq<Bytes>, b: seq<Bytes>)
    ensures Join(a + b) == Join(a) + Join(b)
    decreases |a|
  {
    if a == [] {
      assert a + b == b;
    } else {
      assert (a + b)[0] == a[0] && (a + b)[1..] == a[1..] + b;
      JoinAppend(a[1..], b);
    }
  }

  lemma JoinOne(part: Bytes)
    ensures Join([part]) == part
  {
  }

  /** The white-space characters of Unicode. */
  predicate IsSpaceChar(c: char) {
    || '\U{0009}' <= c <= '\U{000D}' || c == ' ' || c == '\U{0085}' || c == '\U{00A0}' || c == '\U{1680}'
    || '\U{2000}' <= c <= '\U{200A}' || c == '\U{2028}' || c == '\U{2029}' || c == '\U{202F}' || c == '\U{205F}' || c == '\U{3000}'
  }

  /** A string without the white space around it. */
  function TrimSpace(s: string): string {
    if s != "" && IsSpaceChar(s[0]) then TrimSpace(s[1..])
    else if s != "" && IsSpaceChar(s[|s| - 1]) then TrimSpace(s[..|s| - 1])
    else s
  }

  lemma {:induction false} TrimSpaceTwice(s: string)
    ensures TrimSpace(TrimSpace(s)) == TrimSpace(s)
    decreases |s|
  {
    if s != "" && IsSpaceChar(s[0]) {
      TrimSpaceTwice(s[1..]);
    } else if s != "" && IsSpaceChar(s[|s| - 1]) {
      TrimSpaceTwice(s[..|s| - 1]);
    }
  }

  function Ascii(s: string): Bytes
    requires forall i | 0 <= i < |s| :: s[i] as int < 256
  {
    seq(|s|, i requires 0 <= i < |s| => s[i] as int as byte)
  }

  /** Decimal digits, as the standard library prints a number that is not negative. */
  function Decimal(n: nat): (s: string)
    ensures |s| > 0 && forall i | 0 <= i < |s| :: '0' <= s[i] <= '9'
  {
    if n < 10 then [DIGITS[n]] else Decimal(n / 10) + [DIGITS[n % 10]]
  }

  const DIGITS := "0123456789"

  lemma {:induction false} DecimalInjective(a: nat, b: nat)
    requires Decimal(a) == Decimal(b)
    ensures a == b
    decreases a
  {
    DigitsDistinct();
    var s := Decimal(a);
    var t := s[..|s| - 1];
    assert s[|s| - 1] == DIGITS[a % 10] == DIGITS[b % 10];
    if a >= 10 && b >= 10 {
      assert t == Decimal(a / 10) == Decimal(b / 10);
      DecimalInjective(a / 10, b / 10);
    }
  }

  lemma DigitsDistinct()
    ensures forall i, j | 0 <= i < 10 && 0 <= j < 10 && DIGITS[i] == DIGITS[j] :: i == j
  {
  }
}
