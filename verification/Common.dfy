/** Shared vocabulary: options, the outcome of an external call, int64 arithmetic and ASCII text. */
module Common {

  datatype Option<+T> = None | Some(value: T)

  /** What an external call (SQL transaction or broker request) did, and what its caller was told:
      it took effect and was acknowledged, it did not take effect and failed,
      or it took effect although the caller saw an error. */
  datatype Outcome = Done | NotDone | DoneButError {
    predicate TookEffect() { !NotDone? }
    predicate Acked() { Done? }
  }

  const TWO_63: int := 0x8000_0000_0000_0000
  const TWO_64: int := 0x1_0000_0000_0000_0000
  const MAX_INT64: int := TWO_63 - 1
  const MIN_INT64: int := -TWO_63

  predicate IsInt64(x: int) { MIN_INT64 <= x <= MAX_INT64 }

  /** Go's int64 arithmetic wraps around silently. */
  function Wrap64(x: int): (w: int)
    ensures IsInt64(w)
  {
    (x + TWO_63) % TWO_64 - TWO_63
  }

  /** The wrapped value differs from the true one by a multiple of 2^64. */
  lemma WrapMeaning(x: int)
    ensures exists k :: x == Wrap64(x) + k * TWO_64
  {
    assert x == Wrap64(x) + ((x + TWO_63) / TWO_64) * TWO_64;
  }

  lemma WrapIdentity(x: int)
    requires IsInt64(x)
    ensures Wrap64(x) == x
  {
  }

  /** Wrapping after every addition is the same as wrapping once at the end. */
  lemma WrapAdd(x: int, y: int)
    ensures Wrap64(Wrap64(x) + y) == Wrap64(x + y)
  {
  }

  function Min(a: int, b: int): (m: int) { if a <= b then a else b }

  lemma MulMono(a: int, b: int, m: int)
    requires a <= b && m >= 0
    ensures a * m <= b * m
  {
  }

  lemma {:induction false} FreshId(used: set<nat>) returns (id: nat)
    ensures id !in used && forall x :: x in used ==> x < id
  {
    if used == {} {
      id := 0;
    } else {
      var x :| x in used;
      id := FreshId(used - {x});
      if x >= id { id := x + 1; }
      assert used == (used - {x}) + {x};
    }
  }

  predicate IsSpace(c: char) { c in {' ', '\t', '\n', '\r', '\U{000B}', '\U{000C}'} }

  predicate IsUpperLetter(c: char) { 'A' <= c <= 'Z' }

  predicate IsLowerLetter(c: char) { 'a' <= c <= 'z' }

  function TrimLeft(s: string): (r: string)
    ensures |r| <= |s|
    ensures r != [] ==> !IsSpace(r[0])
  {
    if s != [] && IsSpace(s[0]) then TrimLeft(s[1..]) else s
  }

  function TrimRight(s: string): (r: string)
    ensures |r| <= |s|
    ensures r != [] ==> r[0] == s[0] && !IsSpace(r[|r| - 1])
  {
    if s != [] && IsSpace(s[|s| - 1]) then TrimRight(s[..|s| - 1]) else s
  }

  function Trim(s: string): (r: string)
    ensures |r| <= |s|
    ensures r != [] ==> !IsSpace(r[0]) && !IsSpace(r[|r| - 1])
  {
    TrimRight(TrimLeft(s))
  }

  predicate AllSpace(s: string) { forall i :: 0 <= i < |s| ==> IsSpace(s[i]) }

  lemma {:induction false} TrimLeftDrops(s: string)
    ensures AllSpace(s[..|s| - |TrimLeft(s)|]) && s == s[..|s| - |TrimLeft(s)|] + TrimLeft(s)
  {
    if s != [] && IsSpace(s[0]) { TrimLeftDrops(s[1..]); }
  }

  lemma {:induction false} TrimRightDrops(s: string)
    ensures TrimRight(s) <= s && AllSpace(s[|TrimRight(s)|..])
  {
    if s != [] && IsSpace(s[|s| - 1]) { TrimRightDrops(s[..|s| - 1]); }
  }

  predicate OnlySpaces(s: string) { forall i :: 0 <= i < |s| ==> s[i] in " \t\n\U{000B}\U{000C}\r" }

  lemma AllSpaceExactly(s: string)
    ensures AllSpace(s) <==> OnlySpaces(s)
  {
    forall c: char ensures IsSpace(c) <==> c in " \t\n\U{000B}\U{000C}\r" {}
  }

  predicate Surrounds(a: string, b: string, inner: string, s: string) {
    OnlySpaces(a) && OnlySpaces(b) && s == a + inner + b
  }

  /** Trimming removes spaces at both ends, all of them, and nothing else. */
  lemma TrimDrops(s: string)
    ensures exists a, b :: Surrounds(a, b, Trim(s), s)
    ensures Trim(s) != "" ==> !OnlySpaces(Trim(s)[..1]) && !OnlySpaces(Trim(s)[|Trim(s)| - 1..])
  {
    TrimLeftDrops(s);
    TrimRightDrops(TrimLeft(s));
    var a := s[..|s| - |TrimLeft(s)|];
    var b := TrimLeft(s)[|Trim(s)|..];
    AllSpaceExactly(a);
    AllSpaceExactly(b);
    assert s == a + Trim(s) + b;
    assert Surrounds(a, b, Trim(s), s);
    if Trim(s) != "" { TrimEnds(s); }
  }

  lemma TrimEnds(s: string)
    requires Trim(s) != ""
    ensures !OnlySpaces(Trim(s)[..1]) && !OnlySpaces(Trim(s)[|Trim(s)| - 1..])
  {
    var t := Trim(s);
    AllSpaceExactly(t[..1]);
    AllSpaceExactly(t[|t| - 1..]);
    assert t[..1][0] == t[0] && t[|t| - 1..][0] == t[|t| - 1];
  }

  function Upper(s: string): (r: string)
    ensures |r| == |s|
    ensures forall i :: 0 <= i < |s| ==>
      if 'a' <= s[i] <= 'z' then r[i] as int == s[i] as int - 32 else r[i] == s[i]
  {
    seq(|s|, i requires 0 <= i < |s| => UpperChar(s[i]))
  }

  function UpperChar(c: char): (u: char) {
    if IsLowerLetter(c) then (c as int - 'a' as int + 'A' as int) as char else c
  }

  /** `isCurrency`: exactly three upper-case letters. */
  predicate IsCurrency(c: string) {
    |c| == 3 && forall i :: 0 <= i < 3 ==> IsUpperLetter(c[i])
  }

  function NormalCurrency(raw: string): (currency: string) { Upper(Trim(raw)) }

  /** Both services normalise the currency; the second time is the identity on accepted codes. */
  lemma NormalCurrencyStable(c: string)
    requires IsCurrency(c)
    ensures NormalCurrency(c) == c
  {
  }
}
