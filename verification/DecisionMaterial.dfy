/** The text that a decision identity is derived from: length-prefixed parts, so that arbitrary
    opaque identifiers stay unambiguous. */
module DecisionMaterial {

  function Digit(d: nat): char
    requires d < 10
  {
    "0123456789"[d]
  }

  /** Decimal notation without leading zeros. */
  function Decimal(n: nat): string {
    if n < 10 then [Digit(n)] else Decimal(n / 10) + [Digit(n % 10)]
  }

  function Str(n: int): string {
    if n < 0 then "-" + Decimal(-n) else Decimal(n)
  }

  function Prefixed(part: string): string {
    Decimal(|part|) + ":" + part
  }

  /** The concatenation of all parts, each behind its length. */
  function Material(parts: seq<string>): string {
    if parts == [] then "" else Prefixed(parts[0]) + Material(parts[1..])
  }

  /** The value of a decimal notation. */
  function Number(digits: string): nat {
    if digits == "" then 0
    else
      var last := digits[|digits| - 1];
      10 * Number(digits[..|digits| - 1]) + (if '0' <= last <= '9' then (last - '0') as nat else 0)
  }

  lemma {:induction false} DecimalRoundTrip(n: nat)
    ensures Number(Decimal(n)) == n
    ensures Decimal(n) != "" && forall k :: 0 <= k < |Decimal(n)| ==> Decimal(n)[k] != ':'
  {
    assert forall d: nat :: d < 10 ==> '0' <= Digit(d) <= '9' && (Digit(d) - '0') as nat == d;
    if n < 10 {
      assert Decimal(n)[..0] == "";
    } else {
      DecimalRoundTrip(n / 10);
      var front := Decimal(n / 10);
      assert Decimal(n) == front + [Digit(n % 10)];
      assert Decimal(n)[..|front|] == front;
    }
  }

  /** A length prefix ends at its colon, whatever follows. */
  lemma {:induction false} PrefixLength(m: nat, n: nat, x: string, y: string)
    requires Decimal(m) + ":" + x == Decimal(n) + ":" + y
    ensures m == n && x == y
  {
    var a, b := Decimal(m) + ":" + x, Decimal(n) + ":" + y;
    DecimalRoundTrip(m);
    DecimalRoundTrip(n);
    var i, j := |Decimal(m)|, |Decimal(n)|;
    assert a[i] == ':' && b[j] == ':';
    assert a[..i] == Decimal(m) && b[..j] == Decimal(n);
    assert forall k :: 0 <= k < i ==> a[k] == Decimal(m)[k];
    assert forall k :: 0 <= k < j ==> b[k] == Decimal(n)[k];
    assert i == j;
    assert a[i + 1..] == x && b[j + 1..] == y;
  }

  /** Different lists of parts never share their material: not lists of different lengths, and not
      parts that contain digits and colons themselves. */
  lemma {:induction false} MaterialIsUnambiguous(xs: seq<string>, ys: seq<string>)
    requires Material(xs) == Material(ys)
    ensures xs == ys
    decreases |xs|
  {
    hide Decimal;
    if xs == [] || ys == [] {
      EmptyMaterial(xs);
      EmptyMaterial(ys);
    } else {
      var x, y := xs[0], ys[0];
      var restX, restY := Material(xs[1..]), Material(ys[1..]);
      assert Material(xs) == Decimal(|x|) + ":" + (x + restX);
      assert Material(ys) == Decimal(|y|) + ":" + (y + restY);
      PrefixLength(|x|, |y|, x + restX, y + restY);
      assert (x + restX)[..|x|] == x && (y + restY)[..|y|] == y;
      assert (x + restX)[|x|..] == restX && (y + restY)[|y|..] == restY;
      MaterialIsUnambiguous(xs[1..], ys[1..]);
      assert xs == [x] + xs[1..] && ys == [y] + ys[1..];
    }
  }

  lemma {:induction false} EmptyMaterial(xs: seq<string>)
    ensures Material(xs) == "" <==> xs == []
  {
  }

  lemma {:induction false} StrIsUnambiguous(m: int, n: int)
    requires Str(m) == Str(n)
    ensures m == n
  {
    DecimalRoundTrip(if m < 0 then -m else m);
    DecimalRoundTrip(if n < 0 then -n else n);
    NoMinus(if m < 0 then -m else m);
    NoMinus(if n < 0 then -n else n);
    if m < 0 && n < 0 {
      assert Str(m)[1..] == Decimal(-m) && Str(n)[1..] == Decimal(-n);
    }
    assert m < 0 ==> Str(m)[0] == '-';
    assert n < 0 ==> Str(n)[0] == '-';
  }

  lemma {:induction false} NoMinus(n: nat)
    ensures Decimal(n) != "" && Decimal(n)[0] != '-'
  {
    assert forall d: nat :: d < 10 ==> Digit(d) != '-';
    if n >= 10 {
      NoMinus(n / 10);
    }
  }
}
