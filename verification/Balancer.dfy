/** Choosing an upstream (load_balancer.rs), for configurations that pass validation (crates/core, config.rs). */
module Balancer {
  import opened Common

  datatype BalancePolicy = RoundRobin | WeightedRoundRobin

  datatype UpstreamEndpoint = UpstreamEndpoint(url: Bytes, weight: nat)

  datatype UpstreamGroup = UpstreamGroup(policy: BalancePolicy, servers: seq<UpstreamEndpoint>)

  datatype Action =
    | Proxy(
        upstream: Option<Bytes>,
        upstreamGroup: Option<Bytes>,
        upstreams: seq<UpstreamEndpoint>,
        policy: BalancePolicy)
    | NotProxied

  datatype BalanceError = NotProxy | MissingUpstream | AmbiguousUpstream | InvalidWeight | UnknownGroup(name: Bytes)

  /** `Panics` stands for the division by a zero total. */
  datatype Selection = Selected(url: Bytes) | Refused(error: BalanceError) | Panics

  const U64: nat := 0x1_0000_0000_0000_0000
  const U32_MAX: nat := 0xFFFF_FFFF

  // ---------------------------------------------------------------- weights

  /** The sum of the weights of the first endpoints. */
  function Total(endpoints: seq<UpstreamEndpoint>): nat {
    if endpoints == [] then 0 else Total(endpoints[..|endpoints| - 1]) + endpoints[|endpoints| - 1].weight
  }

  lemma {:induction false} TotalPrefix(endpoints: seq<UpstreamEndpoint>, i: nat, j: nat)
    requires i <= j <= |endpoints|
    ensures Total(endpoints[..i]) <= Total(endpoints[..j])
    decreases j
  {
    if i < j {
      assert endpoints[..j][..j - 1] == endpoints[..j - 1];
      TotalPrefix(endpoints, i, j - 1);
    }
  }

  /** The endpoint whose share of the positions `0 .. Total` contains `position`. */
  ghost predicate Owns(endpoints: seq<UpstreamEndpoint>, i: nat, position: nat) {
    i < |endpoints| && Total(endpoints[..i]) <= position < Total(endpoints[..i + 1])
  }

  lemma OwnerIsUnique(endpoints: seq<UpstreamEndpoint>, i: nat, j: nat, position: nat)
    requires Owns(endpoints, i, position) && Owns(endpoints, j, position)
    ensures i == j
  {
    if i < j {
      TotalPrefix(endpoints, i + 1, j);
    } else if j < i {
      TotalPrefix(endpoints, j + 1, i);
    }
  }

  /** The remainder, by subtraction. */
  ghost function Reduce(n: nat, d: nat): (r: nat)
    requires d > 0
    ensures r < d
  {
    if n < d then n else Reduce(n - d, d)
  }

  lemma {:induction false} ReduceIsRemainder(n: nat, d: nat)
    requires d > 0
    ensures Reduce(n, d) == n % d
  {
    if n < d {
      SmallRemainder(n, d);
    } else {
      ReduceIsRemainder(n - d, d);
      EqualRemainders(n - d, n, d);
    }
  }

  lemma ReduceRepeats(n: nat, d: nat)
    requires d > 0
    ensures Reduce(n + d, d) == Reduce(n, d)
  {
  }

  /** A pool to choose from: the weights are all one if the policy ignores them. */
  datatype Pool = Pool(key: Bytes, policy: BalancePolicy, endpoints: seq<UpstreamEndpoint>)

  ghost function Shares(policy: BalancePolicy, endpoints: seq<UpstreamEndpoint>): (shares: seq<UpstreamEndpoint>)
    ensures |shares| == |endpoints|
  {
    if policy.RoundRobin? then seq(|endpoints|, i requires 0 <= i < |endpoints| => endpoints[i].(weight := 1))
      else endpoints
  }

  ghost predicate Chosen(policy: BalancePolicy, endpoints: seq<UpstreamEndpoint>, cursor: nat, i: nat) {
    && Total(Shares(policy, endpoints)) > 0
    && Owns(Shares(policy, endpoints), i, Reduce(cursor, Total(Shares(policy, endpoints))))
  }

  lemma {:induction false} UnitShares(endpoints: seq<UpstreamEndpoint>, i: nat)
    requires i <= |endpoints|
    ensures Total(Shares(RoundRobin, endpoints)[..i]) == i
  {
    if i > 0 {
      var shares := Shares(RoundRobin, endpoints);
      assert shares[..i][..i - 1] == shares[..i - 1];
      UnitShares(endpoints, i - 1);
    }
  }

  lemma RoundRobinIsUnitShares(endpoints: seq<UpstreamEndpoint>, cursor: nat)
    requires endpoints != []
    ensures Chosen(RoundRobin, endpoints, cursor, cursor % |endpoints|)
  {
    var shares, i := Shares(RoundRobin, endpoints), cursor % |endpoints|;
    assert shares[..|endpoints|] == shares;
    UnitShares(endpoints, |endpoints|);
    UnitShares(endpoints, i);
    UnitShares(endpoints, i + 1);
    ReduceIsRemainder(cursor, |endpoints|);
  }

  // ---------------------------------------------------------------- the keys of pools

  function PolicyName(policy: BalancePolicy): Bytes {
    match policy
    case RoundRobin => "RoundRobin"
    case WeightedRoundRobin => "WeightedRoundRobin"
  }

  function Segments(endpoints: seq<UpstreamEndpoint>): Bytes {
    if endpoints == [] then ""
    else Segments(endpoints[..|endpoints| - 1]) + Segment(endpoints[|endpoints| - 1])
  }

  function Mark(weight: nat): Bytes { "#" + Digits(weight) + "|" }

  function Segment(endpoint: UpstreamEndpoint): Bytes { endpoint.url + Mark(endpoint.weight) }

  function NamedKey(name: Bytes): Bytes { "named:" + name }

  function InlineKey(policy: BalancePolicy, endpoints: seq<UpstreamEndpoint>): Bytes {
    PolicyName(policy) + ":" + Segments(endpoints)
  }

  method GroupKey(policy: BalancePolicy, endpoints: seq<UpstreamEndpoint>) returns (key: Bytes)
    ensures key == InlineKey(policy, endpoints)
  {
    key := PolicyName(policy) + ":";
    for i := 0 to |endpoints|
      invariant key == InlineKey(policy, endpoints[..i])
    {
      assert endpoints[..i + 1][..i] == endpoints[..i];
      AppendSegment(PolicyName(policy) + ":", endpoints[..i + 1]);
      key := key + endpoints[i].url;
      key := key + "#";
      key := key + Digits(endpoints[i].weight);
      key := key + "|";
    }
    assert endpoints[..|endpoints|] == endpoints;
  }

  lemma AppendSegment(start: Bytes, endpoints: seq<UpstreamEndpoint>)
    requires endpoints != []
    ensures var last := endpoints[|endpoints| - 1];
            start + Segments(endpoints) ==
            start + Segments(endpoints[..|endpoints| - 1]) + last.url + "#" + Digits(last.weight) + "|"
  {
    var last, before := endpoints[|endpoints| - 1], Segments(endpoints[..|endpoints| - 1]);
    AppendAll(start, before, last.url, "#", Digits(last.weight), "|");
  }

  lemma AppendAll(start: Bytes, before: Bytes, a: Bytes, b: Bytes, c: Bytes, d: Bytes)
    ensures start + (before + (a + (b + c + d))) == start + before + a + b + c + d
  {
  }

  lemma {:induction false} DigitsAreInjective(a: nat, b: nat)
    requires Digits(a) == Digits(b)
    ensures a == b
  {
    if a >= 10 && b >= 10 {
      var da, db := Digits(a), Digits(b);
      assert da == Digits(a / 10) + Digits(a % 10) && db == Digits(b / 10) + Digits(b % 10);
      assert |Digits(a % 10)| == 1 && |Digits(b % 10)| == 1;
      assert da[..|da| - 1] == Digits(a / 10) && db[..|db| - 1] == Digits(b / 10);
      DigitsAreInjective(a / 10, b / 10);
    }
  }

  /** The last `#` of a segment ends the URL, as digits contain none. */
  lemma SplitAtHash(u: Bytes, v: Bytes, d: Bytes, e: Bytes)
    requires u + "#" + d == v + "#" + e
    requires (forall i | 0 <= i < |d| :: d[i] != '#') && (forall i | 0 <= i < |e| :: e[i] != '#')
    ensures u == v && d == e
  {
    var s := u + "#" + d;
    assert s[|u|] == '#' && s[|v|] == '#';
    assert forall i | |u| < i < |s| :: s[i] == d[i - |u| - 1];
    assert forall i | |v| < i < |s| :: s[i] == e[i - |v| - 1];
    assert |u| == |v|;
    assert s[..|u|] == u && s[..|v|] == v && s[|u| + 1..] == d && s[|v| + 1..] == e;
  }

  lemma SegmentsEnd(a: seq<UpstreamEndpoint>)
    ensures a != [] ==> Segments(a) != "" && Segments(a)[|Segments(a)| - 1] == '|'
  {
  }

  /** A URL that reads like an endpoint with its weight, followed by another URL. */
  predicate SplitsAs(u: Bytes, x: Bytes, n: nat, y: Bytes) { u == x + Mark(n) + y }

  ghost predicate Splittable(u: Bytes) { exists x, n, y :: 1 <= n <= U32_MAX && SplitsAs(u, x, n, y) }

  ghost predicate Unsplittable(endpoints: seq<UpstreamEndpoint>) {
    forall i | 0 <= i < |endpoints| :: !Splittable(endpoints[i].url)
  }

  /** A string that ends with a mark, cut after a bar: the rest ends with that whole mark. */
  lemma RestEndsWithMark(front: Bytes, n: nat, shorter: Bytes, rest: Bytes)
    requires shorter + rest == front + Mark(n) && rest != ""
    requires shorter == "" || shorter[|shorter| - 1] == '|'
    ensures |shorter| <= |front| && rest == front[|shorter|..] + Mark(n)
  {
    var whole := shorter + rest;
    assert shorter != "" ==> whole[|shorter| - 1] == '|';
    assert forall i | |front| <= i < |whole| - 1 :: whole[i] == Mark(n)[i - |front|] && whole[i] != '|';
    assert rest == whole[|shorter|..];
  }

  /** Where one pool's last URL begins earlier than the other's, it can be split. */
  lemma LongerUrlSplits(longer: seq<UpstreamEndpoint>, shorter: Bytes, u: Bytes, v: Bytes)
    requires Decoded(longer) && |shorter| < |Segments(longer)| && shorter + u == Segments(longer) + v
    requires shorter == "" || shorter[|shorter| - 1] == '|'
    ensures Splittable(u)
  {
    var keys, last := Segments(longer), longer[|longer| - 1];
    var front, rest := Segments(longer[..|longer| - 1]) + last.url, keys[|shorter|..];
    assert keys == front + Mark(last.weight);
    CutFront(shorter, u, keys, v);
    RestEndsWithMark(front, last.weight, shorter, rest);
    assert SplitsAs(u, front[|shorter|..], last.weight, v);
  }

  lemma CutFront(a: Bytes, u: Bytes, b: Bytes, v: Bytes)
    requires a + u == b + v && |a| <= |b|
    ensures a + b[|a|..] == b && u == b[|a|..] + v
  {
    assert a == (a + u)[..|a|] == b[..|a|];
    assert u == (a + u)[|a|..] == b[|a|..] + v;
  }

  lemma DropMark(front: Bytes, m: nat, other: Bytes, n: nat)
    requires front + Mark(m) == other + Mark(n)
    ensures front == other && m == n
  {
    var s := front + Mark(m);
    assert s[..|s| - 1] == front + "#" + Digits(m) && s[..|s| - 1] == other + "#" + Digits(n);
    SplitAtHash(front, other, Digits(m), Digits(n));
    DigitsAreInjective(m, n);
  }

  /** What is left of a key without its last weight. */
  lemma DropLastWeight(a: seq<UpstreamEndpoint>, b: seq<UpstreamEndpoint>)
    requires a != [] && b != [] && Segments(a) == Segments(b)
    ensures Segments(a[..|a| - 1]) + a[|a| - 1].url == Segments(b[..|b| - 1]) + b[|b| - 1].url
    ensures a[|a| - 1].weight == b[|b| - 1].weight
  {
    var fa, fb, x, y := Segments(a[..|a| - 1]), Segments(b[..|b| - 1]), a[|a| - 1], b[|b| - 1];
    Regroup(fa, x.url, Mark(x.weight));
    Regroup(fb, y.url, Mark(y.weight));
    DropMark(fa + x.url, x.weight, fb + y.url, y.weight);
  }

  lemma Regroup(a: Bytes, b: Bytes, c: Bytes)
    ensures a + (b + c) == (a + b) + c
  {
  }

  /** Endpoints whose URLs cannot be split are written in one way only. */
  lemma {:induction false} SegmentsAreInjective(a: seq<UpstreamEndpoint>, b: seq<UpstreamEndpoint>)
    requires Decoded(a) && Decoded(b) && Unsplittable(a) && Unsplittable(b) && Segments(a) == Segments(b)
    ensures a == b
  {
    SegmentsEnd(a);
    SegmentsEnd(b);
    if a != [] && b != [] {
      var fa, fb, x, y := a[..|a| - 1], b[..|b| - 1], a[|a| - 1], b[|b| - 1];
      DropLastWeight(a, b);
      SegmentsEnd(fa);
      SegmentsEnd(fb);
      if |Segments(fa)| < |Segments(fb)| {
        LongerUrlSplits(fb, Segments(fa), x.url, y.url);
      } else if |Segments(fb)| < |Segments(fa)| {
        LongerUrlSplits(fa, Segments(fb), y.url, x.url);
      } else {
        SameFront(Segments(fa), Segments(fb), x.url, y.url);
        SegmentsAreInjective(fa, fb);
        assert a == fa + [x] && b == fb + [y];
      }
    }
  }

  lemma SameFront(a: Bytes, b: Bytes, u: Bytes, v: Bytes)
    requires a + u == b + v && |a| == |b|
    ensures a == b && u == v
  {
    assert (a + u)[..|a|] == a && (b + v)[..|b|] == b && (a + u)[|a|..] == u && (b + v)[|b|..] == v;
  }

  lemma KeysOfSegments(
      p: BalancePolicy, a: seq<UpstreamEndpoint>, q: BalancePolicy, b: seq<UpstreamEndpoint>)
    ensures InlineKey(p, a) == InlineKey(q, b) <==> p == q && Segments(a) == Segments(b)
  {
    if InlineKey(p, a) == InlineKey(q, b) {
      assert InlineKey(p, a)[0] == PolicyName(p)[0] && InlineKey(q, b)[0] == PolicyName(q)[0];
      var skip := |PolicyName(p)| + 1;
      assert InlineKey(p, a)[skip..] == Segments(a) && InlineKey(q, b)[skip..] == Segments(b);
    }
  }

  /** Pools whose URLs cannot be split, and groups by name, share a cursor only if they are the same pool. */
  lemma KeysAreDistinct(
      p: BalancePolicy, a: seq<UpstreamEndpoint>, q: BalancePolicy, b: seq<UpstreamEndpoint>, m: Bytes, n: Bytes)
    ensures Decoded(a) && Decoded(b) && Unsplittable(a) && Unsplittable(b) ==>
              (InlineKey(p, a) == InlineKey(q, b) <==> p == q && a == b)
    ensures InlineKey(p, a) != NamedKey(n)
    ensures NamedKey(m) == NamedKey(n) <==> m == n
  {
    assert InlineKey(p, a)[0] != 'n' && NamedKey(n)[0] == 'n';
    assert NamedKey(m)[6..] == m && NamedKey(n)[6..] == n;
    KeysOfSegments(p, a, q, b);
    if Decoded(a) && Decoded(b) && Unsplittable(a) && Unsplittable(b) && Segments(a) == Segments(b) {
      SegmentsAreInjective(a, b);
    }
  }

  /** The pool with its last two endpoints written as one. */
  function Merged(a: seq<UpstreamEndpoint>): seq<UpstreamEndpoint>
    requires |a| >= 2
  {
    var x, y := a[|a| - 2], a[|a| - 1];
    a[..|a| - 2] + [UpstreamEndpoint(x.url + Mark(x.weight) + y.url, y.weight)]
  }

  /** It has the same key, and is as valid. */
  lemma MergedIsWrittenAlike(a: seq<UpstreamEndpoint>)
    requires |a| >= 2
    ensures Segments(Merged(a)) == Segments(a)
    ensures ValidPool(a) ==> ValidPool(Merged(a))
  {
    var front, x, y, m := a[..|a| - 2], a[|a| - 2], a[|a| - 1], Merged(a);
    assert a[..|a| - 1][..|a| - 2] == front && m[..|m| - 1] == front;
    MergedSegment(Segments(front), x.url + Mark(x.weight), y.url, Mark(y.weight));
    if ValidPool(a) {
      EndKeepsVisible(x.url + Mark(x.weight), y.url);
      MergedEndpoints(front, a, m);
    }
  }

  lemma MergedSegment(front: Bytes, first: Bytes, url: Bytes, mark: Bytes)
    ensures front + ((first + url) + mark) == (front + first) + (url + mark)
  {
  }

  lemma MergedEndpoints(front: seq<UpstreamEndpoint>, a: seq<UpstreamEndpoint>, m: seq<UpstreamEndpoint>)
    requires ValidPool(a) && |a| == |front| + 2 && |m| == |front| + 1 && front == a[..|front|] == m[..|front|]
    requires m[|front|].weight == a[|front| + 1].weight && !IsBlank(m[|front|].url)
    ensures ValidPool(m)
  {
    assert a[..|a| - 1][..|front|] == front;
    assert Total(a) == Total(front) + a[|front|].weight + a[|front| + 1].weight;
    forall i | 0 <= i < |front| ensures m[i] == a[i] {
      assert front[i] == a[i] && front[i] == m[i];
    }
  }

  lemma EndKeepsVisible(front: Bytes, end: Bytes)
    requires !IsBlank(end)
    ensures !IsBlank(front + end)
  {
    var i :| 0 <= i < |end| && !IsWhitespace(end[i]);
    assert (front + end)[|front| + i] == end[i];
  }

  /** The URL can be split into two that a configuration may name. */
  ghost predicate SplitsInTwo(u: Bytes) {
    exists x, n, y :: 1 <= n <= U32_MAX && !IsBlank(x) && !IsBlank(y) && SplitsAs(u, x, n, y)
  }

  /** A pool that some configuration may have. */
  predicate ValidPool(a: seq<UpstreamEndpoint>) { a != [] && ValidEndpoints(a) && Decoded(a) }

  ghost predicate SharesKey(p: BalancePolicy, a: seq<UpstreamEndpoint>, q: BalancePolicy, b: seq<UpstreamEndpoint>) {
    ValidPool(b) && (p != q || a != b) && InlineKey(p, a) == InlineKey(q, b)
  }

  /** Exactly when a valid pool shares its cursor with a different valid one: it has two endpoints or more, or its only
      URL can be split into two. */
  lemma WhenKeysCollide(p: BalancePolicy, a: seq<UpstreamEndpoint>)
    requires ValidPool(a)
    ensures (exists q, b :: SharesKey(p, a, q, b)) <==> |a| >= 2 || SplitsInTwo(a[0].url)
  {
    if |a| >= 2 {
      MergedIsWrittenAlike(a);
      assert SharesKey(p, a, p, Merged(a));
    } else {
      if SplitsInTwo(a[0].url) {
        SplitPoolCollides(p, a);
      }
      forall q, b | SharesKey(p, a, q, b) ensures SplitsInTwo(a[0].url) {
        KeysOfSegments(p, a, q, b);
        SinglePoolSplits(a, b);
      }
    }
  }

  lemma SplitPoolCollides(p: BalancePolicy, a: seq<UpstreamEndpoint>)
    requires ValidPool(a) && |a| == 1 && SplitsInTwo(a[0].url)
    ensures exists q, b :: SharesKey(p, a, q, b)
  {
    var x, n, y :| 1 <= n <= U32_MAX && !IsBlank(x) && !IsBlank(y) && SplitsAs(a[0].url, x, n, y);
    var b := [UpstreamEndpoint(x, n), UpstreamEndpoint(y, a[0].weight)];
    MergedIsWrittenAlike(b);
    assert Merged(b) == a;
    assert b[..1] == [b[0]] && b[..1][..0] == [];
    assert Total(b[..1]) == n && Total(b) == n + a[0].weight;
    assert SharesKey(p, a, p, b);
  }

  lemma {:induction false} FirstSegment(b: seq<UpstreamEndpoint>)
    requires b != []
    ensures Segments(b) == Segment(b[0]) + Segments(b[1..])
  {
    var f := b[..|b| - 1];
    if f == [] {
      assert b == [b[0]] && b[1..] == [];
    } else {
      FirstSegment(f);
      assert b[1..][..|b| - 2] == f[1..] && b[1..] != [];
      assert Segments(b[1..]) == Segments(f[1..]) + Segment(b[|b| - 1]);
    }
  }

  lemma SinglePoolSplits(a: seq<UpstreamEndpoint>, b: seq<UpstreamEndpoint>)
    requires |a| == 1 && ValidPool(b) && a != b && Segments(a) == Segments(b)
    ensures SplitsInTwo(a[0].url)
  {
    if |b| == 1 {
      OneEndpoint(a, b);
    } else {
      DropLastWeight(a, b);
      NothingBefore(a);
      SplitsAtFirst(a[0].url, b);
    }
  }

  lemma NothingBefore(a: seq<UpstreamEndpoint>)
    requires |a| == 1
    ensures Segments(a[..|a| - 1]) + a[|a| - 1].url == a[0].url
  {
    assert a[..0] == [];
  }

  lemma OneEndpoint(a: seq<UpstreamEndpoint>, b: seq<UpstreamEndpoint>)
    requires |a| == |b| == 1 && Segments(a) == Segments(b)
    ensures a == b
  {
    DropLastWeight(a, b);
    NothingBefore(a);
    NothingBefore(b);
  }

  lemma SplitsAtFirst(u: Bytes, b: seq<UpstreamEndpoint>)
    requires ValidPool(b) && |b| >= 2 && u == Segments(b[..|b| - 1]) + b[|b| - 1].url
    ensures SplitsInTwo(u)
  {
    var front, last, first := b[..|b| - 1], b[|b| - 1].url, b[0];
    var middle := Segments(front[1..]);
    FirstSegment(front);
    assert front[0] == first && !IsBlank(last);
    EndKeepsVisible(middle, last);
    Regroup(Segment(first), middle, last);
    assert SplitsAs(u, first.url, first.weight, middle + last);
  }

  /** And it happens in configurations that pass validation: two different pools with one key. */
  lemma BarsCollide()
    ensures var a := [UpstreamEndpoint("x#1|y", 1)];
            var b := [UpstreamEndpoint("x", 1), UpstreamEndpoint("y", 1)];
            && a != b && InlineKey(RoundRobin, a) == InlineKey(RoundRobin, b)
            && ValidAction(map[], Proxy(None, None, a, RoundRobin))
            && ValidAction(map[], Proxy(None, None, b, RoundRobin))
  {
    var a := [UpstreamEndpoint("x#1|y", 1)];
    var b := [UpstreamEndpoint("x", 1), UpstreamEndpoint("y", 1)];
    assert Digits(1) == "1";
    assert b[..1] == [UpstreamEndpoint("x", 1)] && b[..1][..0] == [] && a[..0] == [];
    assert Segments(b[..1]) == Segment(b[0]);
    assert Segments(a) == Segment(a[0]) && Segments(b) == Segment(b[0]) + Segment(b[1]);
    assert Total(b[..1]) == 1 && Total(a) == 1 && Total(b) == 2;
    assert !IsWhitespace(a[0].url[0]) && !IsWhitespace(b[0].url[0]) && !IsWhitespace(b[1].url[0]);
  }

  // ---------------------------------------------------------------- fairness over a window of cursor values

  ghost function OwnerAt(endpoints: seq<UpstreamEndpoint>, position: nat): (i: nat)
    requires position < Total(endpoints)
    ensures Owns(endpoints, i, position)
  {
    var last := |endpoints| - 1;
    assert endpoints[..last + 1] == endpoints;
    if position >= Total(endpoints[..last]) then last
    else
      var i := OwnerAt(endpoints[..last], position);
      assert endpoints[..last][..i] == endpoints[..i] && endpoints[..last][..i + 1] == endpoints[..i + 1];
      i
  }

  /** The endpoints chosen at `n` consecutive cursor values, if `owner` says which is chosen at each. */
  ghost function Window(owner: nat -> nat, cursor: nat, n: nat): (w: seq<nat>)
    ensures |w| == n
  {
    if n == 0 then [] else Window(owner, cursor, n - 1) + [owner(cursor + n - 1)]
  }

  ghost function Times(w: seq<nat>, i: nat): nat { multiset(w)[i] }

  lemma TimesAppend(w: seq<nat>, x: nat, i: nat)
    ensures Times(w + [x], i) == Times(w, i) + if x == i then 1 else 0
    ensures Times([x] + w, i) == Times(w, i) + if x == i then 1 else 0
  {
  }

  /** How many of the positions below `n` lie between two bounds. */
  function Overlap(n: nat, from: nat, to: nat): nat {
    if n == 0 then 0 else Overlap(n - 1, from, to) + if from <= n - 1 < to then 1 else 0
  }

  lemma {:induction false} FullOverlap(n: nat, from: nat, to: nat)
    requires from <= to
    ensures Overlap(n, from, to) == if n <= from then 0 else if n >= to then to - from else n - from
  {
    if n > 0 {
      FullOverlap(n - 1, from, to);
    }
  }

  /** Endpoint `i` is chosen at the positions between two bounds. */
  ghost predicate Shared(owner: nat -> nat, total: nat, i: nat, from: nat, to: nat) {
    forall p: nat | p < total :: owner(p) == i <==> from <= p < to
  }

  ghost predicate RepeatsAt(owner: nat -> nat, total: nat, cursor: nat) { owner(cursor + total) == owner(cursor) }

  ghost predicate Periodic(owner: nat -> nat, total: nat) { forall cursor: nat :: RepeatsAt(owner, total, cursor) }

  /** From the start, each endpoint is chosen as often as its share has come up. */
  lemma {:induction false} FirstWindow(owner: nat -> nat, total: nat, n: nat, i: nat, from: nat, to: nat)
    requires n <= total && Shared(owner, total, i, from, to)
    ensures Times(Window(owner, 0, n), i) == Overlap(n, from, to)
  {
    if n > 0 {
      FirstWindow(owner, total, n - 1, i, from, to);
      TimesAppend(Window(owner, 0, n - 1), owner(n - 1), i);
    }
  }

  lemma {:induction false} WindowFront(owner: nat -> nat, cursor: nat, n: nat)
    ensures Window(owner, cursor, n + 1) == [owner(cursor)] + Window(owner, cursor + 1, n)
  {
    if n > 0 {
      WindowFront(owner, cursor, n - 1);
    }
  }

  /** Moving a window as long as the total along by one loses and gains the same endpoint. */
  lemma SlideWindow(owner: nat -> nat, cursor: nat, total: nat, i: nat)
    requires RepeatsAt(owner, total, cursor)
    ensures Times(Window(owner, cursor + 1, total), i) == Times(Window(owner, cursor, total), i)
  {
    WindowFront(owner, cursor, total);
    TimesAppend(Window(owner, cursor + 1, total), owner(cursor), i);
    TimesAppend(Window(owner, cursor, total), owner(cursor), i);
  }

  ghost function TimesFrom(owner: nat -> nat, total: nat, i: nat, cursor: nat): nat {
    Times(Window(owner, cursor, total), i)
  }

  lemma SlideOnce(owner: nat -> nat, total: nat, i: nat, cursor: nat)
    requires Periodic(owner, total)
    ensures TimesFrom(owner, total, i, cursor + 1) == TimesFrom(owner, total, i, cursor)
  {
    assert RepeatsAt(owner, total, cursor);
    SlideWindow(owner, cursor, total, i);
  }

  /** A window as long as the total may start anywhere. */
  lemma {:induction false} SameWindow(owner: nat -> nat, total: nat, i: nat, cursor: nat)
    requires Periodic(owner, total)
    ensures TimesFrom(owner, total, i, cursor) == TimesFrom(owner, total, i, 0)
  {
    if cursor > 0 {
      SameWindow(owner, total, i, cursor - 1);
      SlideOnce(owner, total, i, cursor - 1);
    }
  }

  lemma AnyWindow(owner: nat -> nat, total: nat, cursor: nat, i: nat, from: nat, to: nat)
    requires from <= to <= total && Shared(owner, total, i, from, to) && Periodic(owner, total)
    ensures Times(Window(owner, cursor, total), i) == to - from
  {
    SameWindow(owner, total, i, cursor);
    FirstWindow(owner, total, total, i, from, to);
    FullOverlap(total, from, to);
  }

  ghost function OwnerFor(shares: seq<UpstreamEndpoint>, total: nat, cursor: nat): nat
    requires 0 < total == Total(shares)
  {
    OwnerAt(shares, Reduce(cursor, total))
  }

  /** The weights as bounds: where each endpoint is chosen, over and over. */
  lemma SharesAreBounds(shares: seq<UpstreamEndpoint>, total: nat, owner: nat -> nat, i: nat)
    requires 0 < total == Total(shares) && i < |shares|
    requires forall cursor: nat :: owner(cursor) == OwnerFor(shares, total, cursor)
    ensures Shared(owner, total, i, Total(shares[..i]), Total(shares[..i + 1])) && Periodic(owner, total)
    ensures Total(shares[..i]) + shares[i].weight == Total(shares[..i + 1]) <= total
  {
    forall p: nat | p < total ensures owner(p) == i <==> Total(shares[..i]) <= p < Total(shares[..i + 1]) {
      OwnerOfPosition(shares, total, p, i);
    }
    forall cursor: nat ensures RepeatsAt(owner, total, cursor) {
      OwnerRepeats(shares, total, cursor);
    }
    assert shares[..i + 1][..i] == shares[..i] && shares[..|shares|] == shares;
    TotalPrefix(shares, i + 1, |shares|);
  }

  lemma OwnerRepeats(shares: seq<UpstreamEndpoint>, total: nat, cursor: nat)
    requires 0 < total == Total(shares)
    ensures OwnerFor(shares, total, cursor + total) == OwnerFor(shares, total, cursor)
  {
    ReduceRepeats(cursor, total);
  }

  lemma OwnerOfPosition(shares: seq<UpstreamEndpoint>, total: nat, position: nat, i: nat)
    requires position < total == Total(shares) && i < |shares|
    ensures OwnerFor(shares, total, position) == i <==> Total(shares[..i]) <= position < Total(shares[..i + 1])
  {
    if Owns(shares, i, position) {
      OwnerIsUnique(shares, i, OwnerAt(shares, position), position);
    }
  }

  // ---------------------------------------------------------------- validation

  predicate IsWhitespace(c: char) { c == ' ' || 9 as char <= c <= 13 as char }

  predicate IsBlank(s: Bytes) { forall i | 0 <= i < |s| :: IsWhitespace(s[i]) }

  /** What decoding a configuration guarantees of each endpoint. */
  predicate Decoded(endpoints: seq<UpstreamEndpoint>) {
    forall i | 0 <= i < |endpoints| :: 1 <= endpoints[i].weight <= U32_MAX
  }

  predicate ValidEndpoints(endpoints: seq<UpstreamEndpoint>) {
    && (forall i | 0 <= i < |endpoints| :: !IsBlank(endpoints[i].url))
    && Total(endpoints) < U64
  }

  predicate ValidGroups(groups: map<Bytes, UpstreamGroup>) {
    forall name | name in groups ::
      !IsBlank(name) && groups[name].servers != [] && ValidEndpoints(groups[name].servers)
        && Decoded(groups[name].servers)
  }

  function Configured(action: Action): nat
    requires action.Proxy?
  {
    (if action.upstream.Some? then 1 else 0) + (if action.upstreamGroup.Some? then 1 else 0)
      + (if action.upstreams != [] then 1 else 0)
  }

  predicate ValidAction(groups: map<Bytes, UpstreamGroup>, action: Action) {
    action.Proxy? ==>
      && Configured(action) == 1
      && (action.upstream.Some? ==> !IsBlank(action.upstream.value))
      && ValidEndpoints(action.upstreams) && Decoded(action.upstreams)
      && (action.upstreamGroup.Some? ==> action.upstreamGroup.value in groups)
  }

  // ---------------------------------------------------------------- selecting

  datatype Target = Direct(url: Bytes) | From(pool: Pool) | Nowhere(error: BalanceError)

  function TargetOf(groups: map<Bytes, UpstreamGroup>, action: Action): Target {
    if action.NotProxied? then Nowhere(NotProxy)
    else if Configured(action) > 1 then Nowhere(AmbiguousUpstream)
    else if action.upstream.Some? then Direct(action.upstream.value)
    else if action.upstreamGroup.Some? then
      var name := action.upstreamGroup.value;
      if name !in groups then Nowhere(UnknownGroup(name))
      else if groups[name].servers == [] then Nowhere(MissingUpstream)
      else From(Pool(NamedKey(name), groups[name].policy, groups[name].servers))
    else if action.upstreams == [] then Nowhere(MissingUpstream)
    else From(Pool(InlineKey(action.policy, action.upstreams), action.policy, action.upstreams))
  }

  function CursorAt(cursors: map<Bytes, nat>, key: Bytes): nat { if key in cursors then cursors[key] else 0 }

  function WrappingNext(cursor: nat): nat { if cursor + 1 == U64 then 0 else cursor + 1 }

  predicate CanSelect(pool: Pool) { pool.policy.RoundRobin? || 0 < Total(pool.endpoints) < U64 }

  /** What a selection does to the cursors: those of other pools stay. */
  ghost predicate Advances(before: map<Bytes, nat>, after: map<Bytes, nat>, pool: Pool) {
    && CursorAt(after, pool.key) == WrappingNext(CursorAt(before, pool.key))
    && forall key | key != pool.key :: CursorAt(after, key) == CursorAt(before, key)
  }

  class UpstreamBalancer {
    const groups: map<Bytes, UpstreamGroup>
    var cursors: map<Bytes, nat>

    constructor (groups: map<Bytes, UpstreamGroup>)
      ensures this.groups == groups && cursors == map[]
    {
      this.groups := groups;
      cursors := map[];
    }

    method Select(action: Action) returns (s: Selection, ghost i: nat)
      requires CursorsOk(cursors)
      modifies this`cursors
      ensures CursorsOk(cursors)
      ensures s.Selected? ==> Serves(groups, action, i, s)
      ensures TargetOf(groups, action).Direct? ==>
        s == Selected(TargetOf(groups, action).url) && cursors == old(cursors)
      ensures TargetOf(groups, action).Nowhere? ==>
        s == Refused(TargetOf(groups, action).error) && cursors == old(cursors)
      ensures TargetOf(groups, action).From? ==>
                var pool := TargetOf(groups, action).pool;
                if CanSelect(pool)
                then
                  && Chosen(pool.policy, pool.endpoints, CursorAt(old(cursors), pool.key), i)
                  && s == Selected(pool.endpoints[i].url) && Advances(old(cursors), cursors, pool)
                else s == if Total(pool.endpoints) == 0 then Panics else Refused(InvalidWeight)
    {
      i := 0;
      if action.NotProxied? {
        return Refused(NotProxy), 0;
      }
      if Configured(action) > 1 {
        return Refused(AmbiguousUpstream), 0;
      }
      if action.upstream.Some? {
        return Selected(action.upstream.value), 0;
      }
      var key, policy, upstreams;
      if action.upstreamGroup.Some? {
        var name := action.upstreamGroup.value;
        if name !in groups {
          return Refused(UnknownGroup(name)), 0;
        }
        key, policy, upstreams := NamedKey(name), groups[name].policy, groups[name].servers;
      } else {
        key := GroupKey(action.policy, action.upstreams);
        policy, upstreams := action.policy, action.upstreams;
      }
      if upstreams == [] {
        return Refused(MissingUpstream), 0;
      }
      s, i := SelectFrom(Pool(key, policy, upstreams));
    }

    method SelectFrom(pool: Pool) returns (s: Selection, ghost i: nat)
      requires pool.endpoints != [] && CursorsOk(cursors)
      modifies this`cursors
      ensures CursorsOk(cursors)
      ensures if CanSelect(pool)
              then
                && Chosen(pool.policy, pool.endpoints, CursorAt(old(cursors), pool.key), i)
                && s == Selected(pool.endpoints[i].url) && Advances(old(cursors), cursors, pool)
              else s == if Total(pool.endpoints) == 0 then Panics else Refused(InvalidWeight)
    {
      i := 0;
      var cursor := CursorAt(cursors, pool.key);
      cursors := cursors[pool.key := cursor];
      var selected;
      if pool.policy.RoundRobin? {
        selected := cursor % |pool.endpoints|;
        RoundRobinIsUnitShares(pool.endpoints, cursor);
      } else {
        var total := CheckedTotal(pool.endpoints);
        if total == None {
          return Refused(InvalidWeight), 0;
        }
        if total.value == 0 {
          return Panics, 0;
        }
        ReduceIsRemainder(cursor, total.value);
        selected := FindOwner(pool.endpoints, cursor % total.value);
      }
      i := selected;
      cursors := cursors[pool.key := WrappingNext(cursor)];
      s := Selected(pool.endpoints[selected].url);
    }
  }

  method CheckedTotal(endpoints: seq<UpstreamEndpoint>) returns (total: Option<nat>)
    ensures total == if Total(endpoints) < U64 then Some(Total(endpoints)) else None
  {
    var sum := 0;
    for k := 0 to |endpoints|
      invariant sum == Total(endpoints[..k]) < U64
    {
      assert endpoints[..k + 1][..k] == endpoints[..k];
      sum := sum + endpoints[k].weight;
      if sum >= U64 {
        TotalPrefix(endpoints, k + 1, |endpoints|);
        assert endpoints[..|endpoints|] == endpoints;
        return None;
      }
    }
    assert endpoints[..|endpoints|] == endpoints;
    total := Some(sum);
  }

  method FindOwner(endpoints: seq<UpstreamEndpoint>, position: nat) returns (i: nat)
    requires position < Total(endpoints)
    ensures Owns(endpoints, i, position)
  {
    var boundary := 0;
    i := 0;
    assert endpoints[..|endpoints|] == endpoints;
    while true
      invariant i <= |endpoints| && boundary == Total(endpoints[..i]) <= position
      decreases |endpoints| - i
    {
      assert i < |endpoints|;
      assert endpoints[..i + 1][..i] == endpoints[..i];
      boundary := boundary + endpoints[i].weight;
      if position < boundary {
        return;
      }
      i := i + 1;
    }
  }

  // ---------------------------------------------------------------- what a valid configuration gives

  lemma SharesArePositive(pool: Pool)
    requires pool.endpoints != [] && Decoded(pool.endpoints)
    ensures Total(Shares(pool.policy, pool.endpoints)) > 0
  {
    var shares := Shares(pool.policy, pool.endpoints);
    assert shares[|shares| - 1].weight > 0;
  }

  /** Selecting never fails and never panics. */
  lemma ValidNeverFails(groups: map<Bytes, UpstreamGroup>, action: Action)
    requires ValidGroups(groups) && action.Proxy? && ValidAction(groups, action)
    ensures !TargetOf(groups, action).Nowhere?
    ensures TargetOf(groups, action).From? ==>
      CanSelect(TargetOf(groups, action).pool) && TargetOf(groups, action).pool.endpoints != []
  {
    if TargetOf(groups, action).From? {
      var pool := TargetOf(groups, action).pool;
      SharesArePositive(pool.(policy := WeightedRoundRobin));
    }
  }

  /** One selection: where it led, and which endpoint of a pool it chose. */
  datatype Pick = Pick(target: Target, index: nat)

  /** A run of selections on any pools, in any order. */
  ghost predicate IsRun(states: seq<map<Bytes, nat>>, picks: seq<Pick>) {
    && |states| == |picks| + 1
    && forall k | 0 <= k < |picks| :: IsStep(states[k], states[k + 1], picks[k])
  }

  ghost predicate IsStep(before: map<Bytes, nat>, after: map<Bytes, nat>, pick: Pick) {
    match pick.target
    case From(pool) => Chosen(pool.policy, pool.endpoints, CursorAt(before, pool.key), pick.index)
      && Advances(before, after, pool)
    case _ => after == before
  }

  predicate Draws(pick: Pick, key: Bytes) { pick.target.From? && pick.target.pool.key == key }

  /** The endpoints that a run chose from one pool, in order. */
  ghost function PickedFrom(picks: seq<Pick>, key: Bytes): seq<nat> {
    if picks == [] then []
    else
      var rest, last := PickedFrom(picks[..|picks| - 1], key), picks[|picks| - 1];
      if Draws(last, key) then rest + [last.index] else rest
  }

  /** No other pool shares this one's cursor. */
  ghost predicate KeyedApart(picks: seq<Pick>, pool: Pool) {
    forall k | 0 <= k < |picks| && Draws(picks[k], pool.key) :: picks[k].target.pool == pool
  }

  lemma RunFront(states: seq<map<Bytes, nat>>, picks: seq<Pick>)
    requires IsRun(states, picks) && picks != []
    ensures IsRun(states[..|picks|], picks[..|picks| - 1])
    ensures IsStep(states[|picks| - 1], states[|picks|], picks[|picks| - 1])
  {
    var front, before := picks[..|picks| - 1], states[..|picks|];
    forall k | 0 <= k < |front| ensures IsStep(before[k], before[k + 1], front[k]) {
      assert IsStep(states[k], states[k + 1], picks[k]);
    }
  }

  /** `owner` says which endpoint of a pool is chosen at each cursor value. */
  ghost predicate Chooses(pool: Pool, owner: nat -> nat) {
    forall cursor: nat, i: nat | Chosen(pool.policy, pool.endpoints, cursor, i) :: i == owner(cursor)
  }

  /** One selection, seen from one pool. */
  lemma OnePick(before: map<Bytes, nat>, after: map<Bytes, nat>, pick: Pick, pool: Pool, owner: nat -> nat)
    requires IsStep(before, after, pick) && Chooses(pool, owner)
    requires Draws(pick, pool.key) ==> pick.target.pool == pool
    ensures if Draws(pick, pool.key)
            then
              && pick.index == owner(CursorAt(before, pool.key))
              && (CursorAt(before, pool.key) + 1 < U64 ==> CursorAt(after, pool.key) == CursorAt(before, pool.key) + 1)
            else CursorAt(after, pool.key) == CursorAt(before, pool.key)
  {
  }

  /** The choices from one pool are those at consecutive cursor values, whatever else is selected in between. */
  lemma {:induction false} PicksAreAWindow(
      states: seq<map<Bytes, nat>>, picks: seq<Pick>, pool: Pool, owner: nat -> nat)
    requires IsRun(states, picks) && KeyedApart(picks, pool) && Chooses(pool, owner)
    requires CursorAt(states[0], pool.key) + |PickedFrom(picks, pool.key)| <= U64
    ensures var chosen, cursor := PickedFrom(picks, pool.key), CursorAt(states[0], pool.key);
            && chosen == Window(owner, cursor, |chosen|)
            && (cursor + |chosen| < U64 ==> CursorAt(states[|picks|], pool.key) == cursor + |chosen|)
  {
    if picks != [] {
      RunFront(states, picks);
      PicksAreAWindow(states[..|picks|], picks[..|picks| - 1], pool, owner);
      OnePick(states[|picks| - 1], states[|picks|], picks[|picks| - 1], pool, owner);
    }
  }

  /** Its pool shares a cursor with no other of its kind. */
  ghost predicate KeyedAlone(action: Action) {
    action.Proxy? ==> Unsplittable(action.upstreams) && Decoded(action.upstreams)
  }

  lemma SameKeySamePool(groups: map<Bytes, UpstreamGroup>, a: Action, b: Action)
    requires TargetOf(groups, a).From? && TargetOf(groups, b).From? && KeyedAlone(a) && KeyedAlone(b)
    requires TargetOf(groups, a).pool.key == TargetOf(groups, b).pool.key
    ensures TargetOf(groups, a).pool == TargetOf(groups, b).pool
  {
    var m := if a.upstreamGroup.Some? then a.upstreamGroup.value else "";
    var n := if b.upstreamGroup.Some? then b.upstreamGroup.value else "";
    KeysAreDistinct(a.policy, a.upstreams, b.policy, b.upstreams, m, n);
    KeysAreDistinct(b.policy, b.upstreams, a.policy, a.upstreams, n, m);
  }

  /** The selections of a run are those that some actions lead to. */
  ghost predicate Leads(groups: map<Bytes, UpstreamGroup>, actions: seq<Action>, picks: seq<Pick>) {
    && |actions| == |picks|
    && forall k | 0 <= k < |picks| :: picks[k].target == TargetOf(groups, actions[k]) && KeyedAlone(actions[k])
  }

  /** Weighted fairness: however selections on other pools are interleaved, any stretch of a run that selects from a
      pool as often as its shares add up to chooses each endpoint exactly as often as its share says, as long as the
      64-bit cursor does not wrap on the way. */
  lemma WeightedFairness(
      groups: map<Bytes, UpstreamGroup>, states: seq<map<Bytes, nat>>, actions: seq<Action>, picks: seq<Pick>,
      action: Action, i: nat)
    requires ValidGroups(groups) && ValidAction(groups, action) && KeyedAlone(action)
    requires TargetOf(groups, action).From? && i < |TargetOf(groups, action).pool.endpoints|
    requires IsRun(states, picks) && Leads(groups, actions, picks)
    requires var pool := TargetOf(groups, action).pool;
             var total := Total(Shares(pool.policy, pool.endpoints));
             |PickedFrom(picks, pool.key)| == total && CursorAt(states[0], pool.key) + total <= U64
    ensures var pool := TargetOf(groups, action).pool;
            Times(PickedFrom(picks, pool.key), i) == if pool.policy.RoundRobin? then 1 else pool.endpoints[i].weight
  {
    var pool := TargetOf(groups, action).pool;
    forall k | 0 <= k < |picks| && Draws(picks[k], pool.key) ensures picks[k].target.pool == pool {
      SameKeySamePool(groups, actions[k], action);
    }
    PoolIsFair(states, picks, pool, i);
  }

  lemma PoolIsFair(states: seq<map<Bytes, nat>>, picks: seq<Pick>, pool: Pool, i: nat)
    requires pool.endpoints != [] && Decoded(pool.endpoints) && i < |pool.endpoints|
    requires IsRun(states, picks) && KeyedApart(picks, pool)
    requires var total := Total(Shares(pool.policy, pool.endpoints));
             |PickedFrom(picks, pool.key)| == total && CursorAt(states[0], pool.key) + total <= U64
    ensures Times(PickedFrom(picks, pool.key), i) == if pool.policy.RoundRobin? then 1 else pool.endpoints[i].weight
  {
    var shares := Shares(pool.policy, pool.endpoints);
    var total := Total(shares);
    SharesArePositive(pool);
    var owner := OwnerFunction(shares, total);
    PoolChooses(pool, total, owner);
    PicksAreAWindow(states, picks, pool, owner);
    WindowIsFair(shares, total, owner, CursorAt(states[0], pool.key), i);
  }

  ghost function OwnerFunction(shares: seq<UpstreamEndpoint>, total: nat): (owner: nat -> nat)
    requires 0 < total == Total(shares)
    ensures forall cursor: nat :: owner(cursor) == OwnerFor(shares, total, cursor)
  {
    (cursor: nat) => OwnerFor(shares, total, cursor)
  }

  lemma PoolChooses(pool: Pool, total: nat, owner: nat -> nat)
    requires 0 < total == Total(Shares(pool.policy, pool.endpoints))
    requires forall cursor: nat :: owner(cursor) == OwnerFor(Shares(pool.policy, pool.endpoints), total, cursor)
    ensures Chooses(pool, owner)
  {
    forall cursor: nat, j: nat | Chosen(pool.policy, pool.endpoints, cursor, j) ensures j == owner(cursor) {
      OwnerIsUnique(Shares(pool.policy, pool.endpoints), j, owner(cursor), Reduce(cursor, total));
    }
  }

  lemma WindowIsFair(shares: seq<UpstreamEndpoint>, total: nat, owner: nat -> nat, cursor: nat, i: nat)
    requires 0 < total == Total(shares) && i < |shares|
    requires forall c: nat :: owner(c) == OwnerFor(shares, total, c)
    ensures Times(Window(owner, cursor, total), i) == shares[i].weight
  {
    SharesAreBounds(shares, total, owner, i);
    AnyWindow(owner, total, cursor, i, Total(shares[..i]), Total(shares[..i + 1]));
  }

  lemma RunGrows(states: seq<map<Bytes, nat>>, picks: seq<Pick>, after: map<Bytes, nat>, pick: Pick)
    requires IsRun(states, picks) && IsStep(states[|picks|], after, pick)
    ensures IsRun(states + [after], picks + [pick])
  {
    var longer, more := states + [after], picks + [pick];
    forall k | 0 <= k < |more| ensures IsStep(longer[k], longer[k + 1], more[k]) {
      if k < |picks| {
        assert IsStep(states[k], states[k + 1], picks[k]);
      }
    }
  }

  lemma LeadsGrows(groups: map<Bytes, UpstreamGroup>, actions: seq<Action>, picks: seq<Pick>, i: nat)
    requires |picks| < |actions| && Leads(groups, actions[..|picks|], picks) && KeyedAlone(actions[|picks|])
    ensures var k := |picks|;
            Leads(groups, actions[..k + 1], picks + [Pick(TargetOf(groups, actions[k]), i)])
  {
  }

  /** What a selection returns, as the configuration has it: the action's own upstream, or the URL of the chosen server
      of the group it names, or of the endpoint of its own list. */
  ghost predicate Serves(groups: map<Bytes, UpstreamGroup>, action: Action, i: nat, s: Selection) {
    action.Proxy? &&
    match (action.upstream, action.upstreamGroup)
    case (Some(url), _) => s == Selected(url)
    case (None, Some(name)) =>
      name in groups && i < |groups[name].servers| && s == Selected(groups[name].servers[i].url)
    case (None, None) => i < |action.upstreams| && s == Selected(action.upstreams[i].url)
  }

  ghost predicate AllServed(
      groups: map<Bytes, UpstreamGroup>, actions: seq<Action>, picks: seq<Pick>, results: seq<Selection>)
  {
    && |results| == |picks| <= |actions|
    && forall k | 0 <= k < |picks| :: Serves(groups, actions[k], picks[k].index, results[k])
  }

  predicate AllSelected(results: seq<Selection>) { forall k | 0 <= k < |results| :: results[k].Selected? }

  predicate CursorsOk(cursors: map<Bytes, nat>) { forall key | key in cursors :: cursors[key] < U64 }

  /** Every sequence of selections that the balancer serves is such a run. */
  method SelectAll(balancer: UpstreamBalancer, actions: seq<Action>)
    returns (results: seq<Selection>, ghost states: seq<map<Bytes, nat>>, ghost picks: seq<Pick>)
    requires CursorsOk(balancer.cursors) && ValidGroups(balancer.groups)
    requires forall k | 0 <= k < |actions| ::
               ValidAction(balancer.groups, actions[k]) && actions[k].Proxy? && KeyedAlone(actions[k])
    modifies balancer`cursors
    ensures states != [] && states[0] == old(balancer.cursors) && IsRun(states, picks)
      && Leads(balancer.groups, actions, picks)
    ensures |results| == |actions| && AllSelected(results) && AllServed(balancer.groups, actions, picks, results)
  {
    results, states, picks := [], [balancer.cursors], [];
    for k := 0 to |actions|
      invariant CursorsOk(balancer.cursors) && |results| == |picks| == k && AllSelected(results)
      invariant IsRun(states, picks) && states[0] == old(balancer.cursors) && states[k] == balancer.cursors
      invariant Leads(balancer.groups, actions[..k], picks)
      invariant AllServed(balancer.groups, actions, picks, results)
    {
      ValidNeverFails(balancer.groups, actions[k]);
      var s, i := balancer.Select(actions[k]);
      ghost var pick := Pick(TargetOf(balancer.groups, actions[k]), i);
      RunGrows(states, picks, balancer.cursors, pick);
      LeadsGrows(balancer.groups, actions, picks, i);
      results, picks, states := results + [s], picks + [pick], states + [balancer.cursors];
    }
    assert actions[..|actions|] == actions;
  }
}
