/** The few string operations whose details matter to a result. */
module Text {

  /** The characters `str.strip` removes. */
  predicate Blank(c: char) {
    || '\t' <= c <= '\r' || '\U{1C}' <= c <= ' ' || c == '\U{85}' || c == '\U{A0}' || c == '\U{1680}'
    || '\U{2000}' <= c <= '\U{200A}' || c == '\U{2028}' || c == '\U{2029}' || c == '\U{202F}'
    || c == '\U{205F}' || c == '\U{3000}'
  }

  function StripLeft(s: string): string {
    if s != [] && Blank(s[0]) then StripLeft(s[1..]) else s
  }

  function StripRight(s: string): string {
    if s != [] && Blank(s[|s| - 1]) then StripRight(s[..|s| - 1]) else s
  }

  function Strip(s: string): string {
    StripRight(StripLeft(s))
  }

  /** Python's `a or b` on strings. */
  function OrElse(a: string, b: string): string {
    if a != "" then a else b
  }

  function Digit(d: nat): (c: char)
    requires d < 10
  {
    ['0', '1', '2', '3', '4', '5', '6', '7', '8', '9'][d]
  }

  /** Decimal notation. */
  function Decimal(n: nat): (s: string)
    ensures |s| > 0
  {
    if n < 10 then [Digit(n)] else Decimal(n / 10) + [Digit(n % 10)]
  }

  lemma {:induction false} DecimalInjective(a: nat, b: nat)
    requires Decimal(a) == Decimal(b)
    ensures a == b
    decreases a
  {
    var s, t := Decimal(a), Decimal(b);
    assert s[|s| - 1] == t[|t| - 1];
    if a >= 10 && b >= 10 {
      assert s[..|s| - 1] == Decimal(a / 10) && t[..|t| - 1] == Decimal(b / 10);
      DecimalInjective(a / 10, b / 10);
    }
  }

  lemma {:induction false} StripLeftStarts(s: string)
    ensures StripLeft(s) != "" ==> !Blank(StripLeft(s)[0])
  {
    if s != [] && Blank(s[0]) {
      StripLeftStarts(s[1..]);
    }
  }

  lemma {:induction false} StripRightEnds(s: string)
    ensures StripRight(s) <= s
    ensures StripRight(s) != "" ==> !Blank(StripRight(s)[|StripRight(s)| - 1])
  {
    if s != [] && Blank(s[|s| - 1]) {
      StripRightEnds(s[..|s| - 1]);
    }
  }

  lemma StripTwice(s: string)
    ensures Strip(Strip(s)) == Strip(s)
  {
    StripLeftStarts(s);
    StripRightEnds(StripLeft(s));
  }

  lemma DecimalWidth(n: nat)
    requires n < 100
    ensures |Decimal(n)| <= 2
  {
    assert n >= 10 ==> |Decimal(n / 10)| == 1;
  }

  lemma {:induction false} StripLeftDrops(s: string) returns (a: nat)
    ensures a <= |s| && StripLeft(s) == s[a..]
    ensures forall k :: 0 <= k < a ==> Blank(s[k])
  {
    a := 0;
    if s != [] && Blank(s[0]) {
      var b := StripLeftDrops(s[1..]);
      a := b + 1;
      assert forall k :: 0 < k < a ==> s[k] == s[1..][k - 1];
    }
  }

  lemma {:induction false} StripRightDrops(s: string)
    ensures StripRight(s) <= s
    ensures forall k :: |StripRight(s)| <= k < |s| ==> Blank(s[k])
  {
    if s != [] && Blank(s[|s| - 1]) {
      StripRightDrops(s[..|s| - 1]);
    }
  }

  /** Stripping leaves the part of a text between its blank ends, and neither end of that part is blank. */
  lemma StripIs(s: string) returns (a: nat, b: nat)
    ensures a <= b <= |s| && Strip(s) == s[a..b]
    ensures forall k :: 0 <= k < a || b <= k < |s| ==> Blank(s[k])
    ensures a < b ==> !Blank(s[a]) && !Blank(s[b - 1])
  {
    a := StripLeftDrops(s);
    var t := StripLeft(s);
    StripLeftStarts(s);
    StripRightDrops(t);
    StripRightEnds(t);
    b := a + |StripRight(t)|;
    forall k | b <= k < |s| ensures Blank(s[k]) {
      assert s[k] == t[k - a];
    }
  }
}
