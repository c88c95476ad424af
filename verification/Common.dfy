/** Types shared by every component of the model. */
module Common {

  datatype Option<+T> = None | Some(value: T)

  /** A byte string. A byte is a character; text is restricted to ASCII. */
  type Bytes = string

  /** The bytes of a sequence of chunks, in order. */
  function Flatten(chunks: seq<Bytes>): Bytes {
    if chunks == [] then "" else chunks[0] + Flatten(chunks[1..])
  }

  /** One more element of a sequence. */
  lemma Grow<T>(s: seq<T>, i: nat)
    requires i < |s|
    ensures s[..i] + [s[i]] == s[..i + 1]
  {
  }

  lemma AllOf<T>(s: seq<T>)
    ensures s[..|s|] == s
  {
  }

  lemma FlattenAppend(front: seq<Bytes>, last: Bytes)
    ensures Flatten(front + [last]) == Flatten(front) + last
  {
    if front == [] {
      assert [last][1..] == [];
    } else {
      assert (front + [last])[1..] == front[1..] + [last];
      FlattenAppend(front[1..], last);
    }
  }

  /** Decimal digits, as `to_string` writes them. */
  function Digits(n: nat): (r: Bytes)
    ensures r != "" && forall i | 0 <= i < |r| :: '0' <= r[i] <= '9'
  {
    if n < 10 then [('0' as int + n) as char] else Digits(n / 10) + Digits(n % 10)
  }

  // ---------------------------------------------------------------- remainders

  lemma MultipleBound(m: int, d: int)
    requires d > 0
    ensures m >= 1 ==> m * d >= d
    ensures m <= -1 ==> m * d <= -d
  {
    if m >= 1 {
      assert m * d == (m - 1) * d + d && (m - 1) * d >= 0;
    } else if m <= -1 {
      assert m * d == (m + 1) * d - d && (m + 1) * d <= 0;
    }
  }

  lemma Remainder(n: int, q: int, r: int, d: int)
    requires 0 <= r < d && n == q * d + r
    ensures n % d == r
  {
    var gap := n / d - q;
    assert n == n / d * d + n % d;
    assert gap * d == n / d * d - q * d;
    MultipleBound(gap, d);
  }

  lemma SmallRemainder(n: nat, d: nat)
    requires n < d
    ensures n % d == n
  {
    Remainder(n, 0, n, d);
  }

  lemma NextRemainder(n: nat, d: nat)
    requires d > 0
    ensures (n + 1) % d == if n % d + 1 == d then 0 else n % d + 1
  {
    var q, r := n / d, n % d;
    assert n == q * d + r;
    if r + 1 == d {
      assert (q + 1) * d == q * d + d;
      Remainder(n + 1, q + 1, 0, d);
    } else {
      Remainder(n + 1, q, r + 1, d);
    }
  }

  lemma RemainderGap(a: nat, b: nat, d: nat, qa: int, ra: int, qb: int, rb: int)
    requires a == qa * d + ra && b == qb * d + rb && 0 <= ra < d && 0 <= rb < d
    ensures (b - a) % d == if ra <= rb then rb - ra else rb - ra + d
  {
    assert (qb - qa) * d == qb * d - qa * d;
    if ra <= rb {
      Remainder(b - a, qb - qa, rb - ra, d);
    } else {
      assert (qb - qa - 1) * d == (qb - qa) * d - d;
      Remainder(b - a, qb - qa - 1, rb - ra + d, d);
    }
  }

  lemma EqualRemainders(a: nat, b: nat, d: nat)
    requires a <= b && d > 0
    ensures a % d == b % d <==> (b - a) % d == 0
  {
    assert a == a / d * d + a % d && b == b / d * d + b % d;
    RemainderGap(a, b, d, a / d, a % d, b / d, b % d);
  }
}
