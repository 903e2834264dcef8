/** The payment service's pure rules: validation, the status machine and the request hash. */
module PaymentRules {
  import opened Common
  import opened Messages

  datatype CreateRequest = CreateRequest(amount: int, currency: string, description: string, reference: string)

  function Normalise(r: CreateRequest): (normal: CreateRequest) {
    CreateRequest(r.amount, NormalCurrency(r.currency), Trim(r.description), Trim(r.reference))
  }

  /** `validateCreatePayment`, on a normalised request and a trimmed key. */
  predicate ValidCreate(r: CreateRequest, key: string) {
    && r.amount > 0
    && IsCurrency(r.currency)
    && |r.description| <= 500
    && |r.reference| <= 120
    && |key| <= 120
  }

  predicate CanTransition(from: PaymentStatus, to: PaymentStatus) {
    from == Pending && (to == Succeeded || to == Failed)
  }

  predicate Terminal(s: PaymentStatus) { s != Pending }

  // ----- the request hash: SHA-256 is taken as injective, so the hash is represented by its preimage

  const NUL: char := '\0'

  function Digit(d: nat): (c: char)
    requires d < 10
  {
    ('0' as int + d) as char
  }

  function Digits(n: nat): (s: string)
    ensures |s| >= 1
    ensures forall i :: 0 <= i < |s| ==> '0' <= s[i] <= '9'
  {
    if n < 10 then [Digit(n)] else Digits(n / 10) + [Digit(n % 10)]
  }

  /** `strconv.FormatInt(n, 10)`. */
  function FormatInt(n: int): (s: string) {
    if n < 0 then ['-'] + Digits(-n) else Digits(n)
  }

  function Join(parts: seq<string>): (s: string) {
    if parts == [] then ""
    else if |parts| == 1 then parts[0]
    else parts[0] + [NUL] + Join(parts[1..])
  }

  function Fields(r: CreateRequest): (parts: seq<string>) {
    [FormatInt(r.amount), r.currency, r.description, r.reference]
  }

  function RequestHash(r: CreateRequest): (hash: string) { Join(Fields(r)) }

  predicate NulFree(s: string) { NUL !in s }

  /** A text column cannot hold the NUL character, so every stored request satisfies this. */
  predicate Storable(r: CreateRequest) {
    NulFree(r.currency) && NulFree(r.description) && NulFree(r.reference)
  }

  function CountNul(s: string): (n: nat) {
    if s == "" then 0 else (if s[0] == NUL then 1 else 0) + CountNul(s[1..])
  }

  lemma {:induction false} CountNulAppend(a: string, b: string)
    ensures CountNul(a + b) == CountNul(a) + CountNul(b)
  {
    if a == "" {
      assert a + b == b;
    } else {
      CountNulAppend(a[1..], b);
      assert (a + b)[1..] == a[1..] + b;
    }
  }

  lemma {:induction false} CountNulZero(s: string)
    ensures CountNul(s) == 0 <==> NulFree(s)
  {
    if s != "" {
      CountNulZero(s[1..]);
      assert s == [s[0]] + s[1..];
    }
  }

  function SumNul(parts: seq<string>): (n: nat) {
    if parts == [] then 0 else CountNul(parts[0]) + SumNul(parts[1..])
  }

  /** A joined text has its separators plus the NULs of its parts. */
  lemma {:induction false} CountNulJoin(parts: seq<string>)
    requires parts != []
    ensures CountNul(Join(parts)) == |parts| - 1 + SumNul(parts)
  {
    if |parts| == 1 {
      assert parts[1..] == [];
    } else {
      CountNulJoin(parts[1..]);
      CountNulAppend(parts[0] + [NUL], Join(parts[1..]));
      CountNulAppend(parts[0], [NUL]);
      assert CountNul([NUL]) == 1 + CountNul([NUL][1..]);
    }
  }

  lemma {:induction false} SumNulZero(parts: seq<string>)
    ensures SumNul(parts) == 0 <==> forall i :: 0 <= i < |parts| ==> NulFree(parts[i])
  {
    if parts != [] {
      CountNulZero(parts[0]);
      SumNulZero(parts[1..]);
      if SumNul(parts) == 0 {
        forall i | 0 <= i < |parts| ensures NulFree(parts[i]) {
          if i > 0 { assert parts[i] == parts[1..][i - 1]; }
        }
      } else if CountNul(parts[0]) == 0 {
        var i :| 0 <= i < |parts[1..]| && !NulFree(parts[1..][i]);
        assert parts[i + 1] == parts[1..][i];
      }
    }
  }

  lemma FirstNul(a: string, x: string, k: nat)
    requires NulFree(a) && k < |a| + 1 + |x|
    ensures (a + [NUL] + x)[k] == NUL && NUL !in (a + [NUL] + x)[..k] ==> k == |a|
    ensures k == |a| ==> (a + [NUL] + x)[k] == NUL && NUL !in (a + [NUL] + x)[..k]
  {
    var s := a + [NUL] + x;
    assert s[|a|] == NUL && s[..|a|] == a;
    assert k > |a| ==> s[..k][|a|] == NUL;
    assert k < |a| ==> s[k] == a[k];
  }

  /** NUL-free heads of equal joined texts agree, and so do the tails. */
  lemma SplitUnique(a: string, b: string, x: string, y: string)
    requires NulFree(a) && NulFree(b) && a + [NUL] + x == b + [NUL] + y
    ensures a == b && x == y
  {
    var s := a + [NUL] + x;
    assert |s| == |a| + 1 + |x| == |b| + 1 + |y|;
    FirstNul(a, x, |a|);
    FirstNul(b, y, |a|);
    assert a == s[..|a|] && b == s[..|b|];
    assert x == s[|a| + 1..] && y == s[|b| + 1..];
  }

  lemma {:induction false} JoinInjective(p: seq<string>, q: seq<string>)
    requires |p| == |q| && Join(p) == Join(q)
    requires forall i :: 0 <= i < |p| ==> NulFree(p[i]) && NulFree(q[i])
    ensures p == q
  {
    if |p| == 1 {
      assert p == [p[0]] && q == [q[0]];
    } else if |p| > 1 {
      SplitUnique(p[0], q[0], Join(p[1..]), Join(q[1..]));
      JoinInjective(p[1..], q[1..]);
      assert p == [p[0]] + p[1..] && q == [q[0]] + q[1..];
    }
  }

  lemma {:induction false} DigitsInjective(m: nat, n: nat)
    requires Digits(m) == Digits(n)
    ensures m == n
  {
    var s := Digits(m);
    assert m < 10 <==> |s| == 1;
    assert n < 10 <==> |s| == 1;
    assert s[|s| - 1] == Digit(m % 10) == Digit(n % 10);
    if m >= 10 {
      assert s[..|s| - 1] == Digits(m / 10) && s[..|s| - 1] == Digits(n / 10);
      DigitsInjective(m / 10, n / 10);
    }
  }

  lemma FormatSign(n: int)
    ensures FormatInt(n)[0] == '-' <==> n < 0
    ensures n < 0 ==> FormatInt(n)[1..] == Digits(-n)
  {
  }

  lemma FormatIntInjective(m: int, n: int)
    requires FormatInt(m) == FormatInt(n)
    ensures m == n
  {
    FormatSign(m);
    FormatSign(n);
    if m < 0 {
      DigitsInjective(-m, -n);
    } else {
      DigitsInjective(m, n);
    }
  }

  /** The number a text of digits denotes. */
  function Value(s: string): (n: int) {
    if s == "" then 0 else Value(s[..|s| - 1]) * 10 + (s[|s| - 1] as int - '0' as int)
  }

  lemma {:induction false} DigitsAreDecimal(n: nat)
    ensures Value(Digits(n)) == n && (n > 0 ==> Digits(n)[0] != '0')
  {
    if n >= 10 {
      DigitsAreDecimal(n / 10);
      assert Digits(n)[..|Digits(n)| - 1] == Digits(n / 10);
    } else {
      assert Digits(n)[..0] == "";
    }
  }

  /** The text is the number in decimal, with a minus sign and without leading zeros. */
  lemma FormatIntIsDecimal(n: int)
    ensures if n < 0 then FormatInt(n)[0] == '-' && Value(FormatInt(n)[1..]) == -n && FormatInt(n)[1] != '0'
            else Value(FormatInt(n)) == n && (n > 0 ==> FormatInt(n)[0] != '0')
  {
    FormatSign(n);
    DigitsAreDecimal(if n < 0 then -n else n);
  }

  /** The preimage is decisive: a stored request and any request, even one with NULs inside
      its fields, have the same preimage exactly when they agree on all four fields. */
  lemma HashDecides(stored: CreateRequest, other: CreateRequest)
    requires Storable(stored)
    ensures RequestHash(stored) == RequestHash(other) <==> stored == other
  {
    if RequestHash(stored) == RequestHash(other) {
      var p, q := Fields(stored), Fields(other);
      CountNulJoin(p);
      CountNulJoin(q);
      SumNulZero(p);
      SumNulZero(q);
      JoinInjective(p, q);
      assert p[0] == q[0] && p[1] == q[1] && p[2] == q[2] && p[3] == q[3];
      FormatIntInjective(stored.amount, other.amount);
    }
  }

  lemma HashText(r: CreateRequest)
    ensures RequestHash(r) ==
            FormatInt(r.amount) + [NUL] + (r.currency + [NUL] + (r.description + [NUL] + r.reference))
  {
    var f := Fields(r);
    assert f[1..] == [r.currency, r.description, r.reference];
    assert f[1..][1..] == [r.description, r.reference];
    assert f[1..][1..][1..] == [r.reference];
    assert Join(f[1..][1..]) == r.description + [NUL] + r.reference;
    assert Join(f[1..]) == r.currency + [NUL] + Join(f[1..][1..]);
  }

  lemma SplitAtNul(s: string) returns (a: string, b: string)
    requires !NulFree(s)
    ensures s == a + [NUL] + b
  {
    var i :| 0 <= i < |s| && s[i] == NUL;
    a, b := s[..i], s[i + 1..];
  }

  /** The tail of a field that holds a NUL can as well stand in the neighbouring field. */
  lemma HashTwin(r: CreateRequest) returns (twin: CreateRequest)
    requires !Storable(r)
    ensures twin != r && RequestHash(twin) == RequestHash(r)
  {
    HashText(r);
    if !NulFree(r.currency) {
      var a, b := SplitAtNul(r.currency);
      twin := CreateRequest(r.amount, a, b + [NUL] + r.description, r.reference);
      HashText(twin);
      assert r.currency + [NUL] + (r.description + [NUL] + r.reference) ==
             a + [NUL] + (twin.description + [NUL] + r.reference);
    } else if !NulFree(r.description) {
      var a, b := SplitAtNul(r.description);
      twin := CreateRequest(r.amount, r.currency, a, b + [NUL] + r.reference);
      HashText(twin);
      assert r.description + [NUL] + r.reference == a + [NUL] + twin.reference;
    } else {
      var a, b := SplitAtNul(r.reference);
      twin := CreateRequest(r.amount, r.currency, r.description + [NUL] + a, b);
      HashText(twin);
      assert r.description + [NUL] + r.reference == twin.description + [NUL] + b;
    }
  }

  /** The preimage of a request decides it exactly when no field holds a NUL: otherwise another request shares it. */
  lemma HashDecidesExactly(r: CreateRequest)
    ensures (forall other :: RequestHash(r) == RequestHash(other) ==> r == other) <==> Storable(r)
  {
    if Storable(r) {
      forall other ensures RequestHash(r) == RequestHash(other) ==> r == other { HashDecides(r, other); }
    } else {
      var twin := HashTwin(r);
    }
  }

  /** For example, in these two requests. */
  lemma NulNeeded()
    ensures var a := CreateRequest(1, "USD", "x\0", "y"); var b := CreateRequest(1, "USD", "x", "\0y");
      a != b && RequestHash(a) == RequestHash(b)
  {
  }
}
