/** What the upstream half of proxy.rs promises, said without its own functions: which target a client's request has
    upstream, which of its fields survive the hop (section 7.6.1 of RFC 9110), and which URLs are accepted. */
module Forwarding {
  import opened Common
  import opened Http
  import opened Upstream

  // ---------------------------------------------------------------- the target

  /** The target that an upstream with this base path gets: the path, slashes at its end removed, and then the client's
      target; that alone if there is no path. */
  ghost predicate IsTargetFor(basePath: Bytes, target: Bytes, sent: Bytes) {
    if basePath == "" then sent == target
    else
      exists path ::
        && sent == path + target && path <= basePath
        && (path == "" || path[|path| - 1] != '/')
        && forall i | |path| <= i < |basePath| :: basePath[i] == '/'
  }

  lemma TargetMeaning(upstream: Upstream, target: Bytes)
    ensures IsTargetFor(upstream.basePath, target, ForwardTarget(upstream, target))
  {
    if upstream.basePath != "" {
      var path := TrimEnd((c: char) => c == '/', upstream.basePath);
      assert ForwardTarget(upstream, target) == path + target;
    }
  }

  /** There is only one such target. */
  lemma TargetIsUnique(basePath: Bytes, target: Bytes, a: Bytes, b: Bytes)
    requires IsTargetFor(basePath, target, a) && IsTargetFor(basePath, target, b)
    ensures a == b
  {
    if basePath != "" {
      var p :| a == p + target && p <= basePath && (p == "" || p[|p| - 1] != '/')
        && forall i | |p| <= i < |basePath| :: basePath[i] == '/';
      var q :| b == q + target && q <= basePath && (q == "" || q[|q| - 1] != '/')
        && forall i | |q| <= i < |basePath| :: basePath[i] == '/';
      NotLonger(basePath, p, q);
      NotLonger(basePath, q, p);
      assert p == basePath[..|p|] && q == basePath[..|q|];
    }
  }

  lemma NotLonger(basePath: Bytes, p: Bytes, q: Bytes)
    requires p <= basePath && q <= basePath && (q == "" || q[|q| - 1] != '/')
    requires forall i | |p| <= i < |basePath| :: basePath[i] == '/'
    ensures |q| <= |p|
  {
    if |p| < |q| {
      assert false;
    }
  }

  // ---------------------------------------------------------------- the fields

  /** The text between two commas, or between a comma and an end, of a field. */
  ghost predicate IsListed(value: Bytes, part: Bytes) {
    exists before, after :: ListedAt(value, part, before, after)
  }

  ghost predicate ListedAt(value: Bytes, part: Bytes, before: Bytes, after: Bytes) {
    && value == before + part + after && ',' !in part
    && (before == "" || before[|before| - 1] == ',') && (after == "" || after[0] == ',')
  }

  /** The text without the whitespace around it. */
  ghost predicate IsTrimOf(part: Bytes, core: Bytes) {
    exists left, right :: TrimsAt(part, core, left, right)
  }

  ghost predicate TrimsAt(part: Bytes, core: Bytes, left: Bytes, right: Bytes) {
    && part == left + core + right && All(IsTrimmed, left) && All(IsTrimmed, right)
    && (core != "" ==> !IsTrimmed(core[0]) && !IsTrimmed(core[|core| - 1]))
  }

  /** A Connection field names a header: one of its parts, trimmed and in lower case. */
  ghost predicate Names(value: Bytes, name: Bytes) {
    exists part, core :: IsListed(value, part) && IsTrimOf(part, core) && LowerAll(core) == name
  }

  lemma {:induction false} PartsAreListed(value: Bytes, part: Bytes)
    ensures part in SplitOn(',', value) ==> IsListed(value, part)
    decreases |value|
  {
    match Find(",", value, 0) {
      case None =>
        NoComma(value);
        assert ListedAt(value, value, "", "");
      case Some(i) =>
        CommaAt(value, i);
        PartsAreListed(value[i + 1..], part);
        FirstIsListed(value, i);
        if IsListed(value[i + 1..], part) {
          LaterIsListed(value, part, i);
        }
    }
  }

  lemma FirstIsListed(value: Bytes, i: nat)
    requires i < |value| && value[i] == ',' && ',' !in value[..i]
    ensures IsListed(value, value[..i])
  {
    assert value == "" + value[..i] + value[i..];
    assert ListedAt(value, value[..i], "", value[i..]);
  }

  lemma LaterIsListed(value: Bytes, part: Bytes, i: nat)
    requires i < |value| && value[i] == ',' && IsListed(value[i + 1..], part)
    ensures IsListed(value, part)
  {
    var before, after :| ListedAt(value[i + 1..], part, before, after);
    assert value == value[..i + 1] + value[i + 1..];
    assert value == value[..i + 1] + before + part + after;
    assert ListedAt(value, part, value[..i + 1] + before, after);
  }

  lemma OccursChar(c: char, s: Bytes, k: nat)
    ensures OccursAt([c], s, k) <==> k < |s| && s[k] == c
  {
    if k < |s| {
      assert s[k..k + 1] == [s[k]];
    }
  }

  lemma FindChar(c: char, s: Bytes)
    ensures match Find([c], s, 0)
            case None => c !in s
            case Some(i) => i < |s| && s[i] == c && c !in s[..i]
  {
    forall k: nat ensures OccursAt([c], s, k) <==> k < |s| && s[k] == c {
      OccursChar(c, s, k);
    }
  }

  lemma NoComma(value: Bytes)
    requires Find(",", value, 0) == None
    ensures ',' !in value
  {
    FindChar(',', value);
  }

  lemma CommaAt(value: Bytes, i: nat)
    requires Find(",", value, 0) == Some(i)
    ensures i < |value| && value[i] == ',' && ',' !in value[..i]
  {
    FindChar(',', value);
  }

  lemma {:induction false} ListedAreParts(value: Bytes, part: Bytes, before: Bytes, after: Bytes)
    requires ListedAt(value, part, before, after)
    ensures part in SplitOn(',', value)
    decreases |value|
  {
    match Find(",", value, 0) {
      case None =>
        NoComma(value);
        NothingAround(value, part, before, after);
      case Some(i) =>
        CommaAt(value, i);
        if before == "" {
          FirstPart(value, part, after, i);
        } else {
          assert value[|before| - 1] == ',' && i < |before|;
          assert before == value[..|before|];
          LaterPart(value, part, before, after, i);
          ListedAreParts(value[i + 1..], part, before[i + 1..], after);
        }
    }
  }

  lemma NothingAround(value: Bytes, part: Bytes, before: Bytes, after: Bytes)
    requires ListedAt(value, part, before, after) && ',' !in value
    ensures part == value
  {
    assert forall c | c in before + part + after :: c != ',';
    assert before == "" && after == "";
  }

  lemma FirstPart(value: Bytes, part: Bytes, after: Bytes, i: nat)
    requires value == part + after && ',' !in part && (after == "" || after[0] == ',')
    requires i < |value| && value[i] == ',' && ',' !in value[..i]
    ensures part == value[..i]
  {
    assert i >= |part|;
    assert forall k | 0 <= k < i :: value[k] != ',' by {
      assert forall k | 0 <= k < i :: value[k] == value[..i][k];
    }
    assert value[|part|] == after[0] == ',';
  }

  lemma LaterPart(value: Bytes, part: Bytes, before: Bytes, after: Bytes, i: nat)
    requires ListedAt(value, part, before, after) && i < |before|
    ensures ListedAt(value[i + 1..], part, before[i + 1..], after)
  {
    assert value[i + 1..] == before[i + 1..] + part + after;
  }

  lemma TrimIsTrimOf(part: Bytes)
    ensures IsTrimOf(part, Trim(IsTrimmed, part))
  {
    var n := Span(IsTrimmed, part);
    TrimEndParts(part[n..]);
    TrimParts(part, n, TrimEnd(IsTrimmed, part[n..]));
  }

  lemma TrimParts(part: Bytes, n: nat, core: Bytes)
    requires n <= |part| && All(IsTrimmed, part[..n]) && (n < |part| ==> !IsTrimmed(part[n]))
    requires |core| <= |part[n..]| && part[n..] == core + part[n..][|core|..] && All(IsTrimmed, part[n..][|core|..])
    requires core != "" ==> !IsTrimmed(core[|core| - 1])
    ensures IsTrimOf(part, core)
  {
    var left, right := part[..n], part[n..][|core|..];
    assert part == left + part[n..];
    assert part == left + core + right;
    assert core != "" ==> core[0] == part[n..][0] == part[n];
    assert TrimsAt(part, core, left, right);
  }

  lemma TrimEndParts(s: Bytes)
    ensures var core := TrimEnd(IsTrimmed, s);
            s == core + s[|core|..] && All(IsTrimmed, s[|core|..])
  {
  }

  lemma TrimOfIsTrim(part: Bytes, core: Bytes)
    requires IsTrimOf(part, core)
    ensures Trim(IsTrimmed, part) == core
  {
    var left, right :| TrimsAt(part, core, left, right);
    if core == "" {
      AllConcat(IsTrimmed, left, right);
      assert part == left + right == (left + right) + "";
      SpanAll(IsTrimmed, left + right, "");
      assert TrimStart(IsTrimmed, part) == "";
    } else {
      assert part == left + (core + right);
      SpanAll(IsTrimmed, left, core + right);
      assert TrimStart(IsTrimmed, part) == core + right;
      TrimEndAll(core, right);
    }
  }

  lemma {:induction false} TrimEndAll(core: Bytes, right: Bytes)
    requires core != "" && !IsTrimmed(core[|core| - 1]) && All(IsTrimmed, right)
    ensures TrimEnd(IsTrimmed, core + right) == core
    decreases |right|
  {
    var s := core + right;
    if right == "" {
      assert s == core;
    } else {
      assert s[|s| - 1] == right[|right| - 1];
      assert s[..|s| - 1] == core + right[..|right| - 1];
      TrimEndAll(core, right[..|right| - 1]);
    }
  }

  lemma NominatedByMeaning(value: Bytes, name: Bytes)
    ensures name in NominatedBy(value) <==> Names(value, name)
  {
    if name in NominatedBy(value) {
      var part :| part in SplitOn(',', value) && LowerAll(Trim(IsTrimmed, part)) == name;
      PartsAreListed(value, part);
      TrimIsTrimOf(part);
    }
    if Names(value, name) {
      var part, core :| IsListed(value, part) && IsTrimOf(part, core) && LowerAll(core) == name;
      var before, after :| ListedAt(value, part, before, after);
      ListedAreParts(value, part, before, after);
      TrimOfIsTrim(part, core);
    }
  }

  /** One of the client's Connection fields names a header. */
  ghost predicate NamedByClient(headers: seq<Header>, name: Bytes) {
    exists i :: 0 <= i < |headers| && headers[i].name == "connection" && Names(headers[i].value, name)
  }

  lemma {:induction false} NominatedMeaning(headers: seq<Header>, name: Bytes)
    ensures name in Nominated(headers) <==> NamedByClient(headers, name)
  {
    if headers != [] {
      var rest := headers[1..];
      NominatedMeaning(rest, name);
      NominatedByMeaning(headers[0].value, name);
      if NamedByClient(rest, name) {
        var i :| 0 <= i < |rest| && rest[i].name == "connection" && Names(rest[i].value, name);
        assert headers[i + 1] == rest[i];
      }
      if NamedByClient(headers, name) {
        var i :| 0 <= i < |headers| && headers[i].name == "connection" && Names(headers[i].value, name);
        assert i > 0 ==> rest[i - 1] == headers[i];
      }
    }
  }

  /** A field of the client's that is meant for the upstream too. */
  ghost predicate Survives(headers: seq<Header>, i: nat)
    requires i < |headers|
  {
    var name := headers[i].name;
    && name != "host" && name != "connection" && name != "proxy-connection" && name != "keep-alive"
    && name != "transfer-encoding" && name != "upgrade"
    && !NamedByClient(headers, name)
  }

  /** The fields at these positions, in order. */
  function At(headers: seq<Header>, positions: seq<nat>): seq<Header>
    requires forall j | 0 <= j < |positions| :: positions[j] < |headers|
  {
    seq(|positions|, j requires 0 <= j < |positions| => headers[positions[j]])
  }

  ghost predicate Increasing(positions: seq<nat>, bound: nat) {
    && (forall j | 0 <= j < |positions| :: positions[j] < bound)
    && (forall j, k | 0 <= j < k < |positions| :: positions[j] < positions[k])
  }

  /** What is kept of the first `n` fields. */
  ghost predicate KeptAt(headers: seq<Header>, nominated: set<Bytes>, n: nat, positions: seq<nat>) {
    && n <= |headers| && Increasing(positions, n)
    && Kept(headers, nominated) == At(headers, positions) + Kept(headers[n..], nominated)
    && forall i | 0 <= i < n :: i in positions <==> !Dropped(headers[i], nominated)
  }

  lemma KeepsOneMore(headers: seq<Header>, nominated: set<Bytes>, n: nat, positions: seq<nat>) returns (more: seq<nat>)
    requires n < |headers| && KeptAt(headers, nominated, n, positions)
    ensures KeptAt(headers, nominated, n + 1, more)
  {
    assert headers[n..][0] == headers[n] && headers[n..][1..] == headers[n + 1..];
    var kept, rest := At(headers, positions), Kept(headers[n + 1..], nominated);
    if Dropped(headers[n], nominated) {
      more := positions;
      assert Kept(headers[n..], nominated) == [] + rest == rest;
    } else {
      more := positions + [n];
      assert At(headers, more) == kept + [headers[n]];
      assert kept + ([headers[n]] + rest) == kept + [headers[n]] + rest;
    }
  }

  lemma {:induction false} KeptPositions(headers: seq<Header>, nominated: set<Bytes>, n: nat)
    returns (positions: seq<nat>)
    requires n <= |headers|
    ensures KeptAt(headers, nominated, n, positions)
  {
    if n == 0 {
      positions := [];
      assert headers[0..] == headers && [] + Kept(headers, nominated) == Kept(headers, nominated);
    } else {
      var fewer := KeptPositions(headers, nominated, n - 1);
      positions := KeepsOneMore(headers, nominated, n - 1, fewer);
    }
  }

  lemma DroppedMeaning(headers: seq<Header>, i: nat)
    requires i < |headers|
    ensures Dropped(headers[i], Nominated(headers)) <==> !Survives(headers, i)
  {
    NominatedMeaning(headers, headers[i].name);
  }

  /** The client's fields that survive, by their positions. */
  lemma SurvivingFields(headers: seq<Header>) returns (positions: seq<nat>)
    ensures Increasing(positions, |headers|) && Kept(headers, Nominated(headers)) == At(headers, positions)
    ensures forall i | 0 <= i < |headers| :: i in positions <==> Survives(headers, i)
  {
    positions := KeptPositions(headers, Nominated(headers), |headers|);
    assert At(headers, positions) + [] == At(headers, positions);
    forall i | 0 <= i < |headers| ensures i in positions <==> Survives(headers, i) {
      DroppedMeaning(headers, i);
    }
  }

  /** What an upstream reads of a forwarded request: the client's method; the target for its base path; the upstream's
      own host; then exactly the client's fields that are not for this hop, unchanged and in order; and a connection
      that is to be closed. What is left is the body. */
  lemma ForwardedMeaning(upstream: Upstream, request: RequestHead, body: Bytes) returns (positions: seq<nat>)
    requires WellFormed(request) && CleanUpstream(upstream)
    requires ForwardedHeadSize(upstream, request) <= MAX_REQUEST_HEAD_SIZE
    ensures Increasing(positions, |request.headers|)
    ensures forall i | 0 <= i < |request.headers| :: i in positions <==> Survives(request.headers, i)
    ensures var printed := Print(upstream, request, body);
            var parsed := ParseHead(printed);
            && parsed.Complete? && printed[parsed.consumed..] == body
            && parsed.request.verb == request.verb && parsed.request.version == Http11
            && IsTargetFor(upstream.basePath, request.target, parsed.request.target)
            && parsed.request.headers ==
               [Header("host", Trim(IsBlank, upstream.authority))] + At(request.headers, positions)
               + [Header("connection", "close")]
  {
    PrintThenParse(upstream, request, body);
    TargetMeaning(upstream, request.target);
    positions := SurvivingFields(request.headers);
  }

  // ---------------------------------------------------------------- URLs

  /** The authority and the path of a URL. */
  predicate Splits(authority: Bytes, basePath: Bytes) {
    '/' !in authority && (basePath == "" || basePath[0] == '/')
  }

  /** An authority that is taken as it is, or with port 80: a host, with or without a port, or one in brackets that are
      closed and followed by nothing or a port. */
  ghost predicate Connects(authority: Bytes, address: Bytes) {
    if authority == "" then false
    else if authority[0] != '[' then address == if ':' in authority then authority else authority + ":80"
    else
      exists i: nat :: ClosesAt(authority, i) && ConnectsAfter(authority, i, address)
  }

  ghost predicate ConnectsAfter(authority: Bytes, i: nat, address: Bytes)
    requires i < |authority|
  {
    if i + 1 == |authority| then address == authority + ":80" else authority[i + 1] == ':' && address == authority
  }

  ghost predicate ClosesAt(authority: Bytes, i: nat) {
    i < |authority| && authority[i] == ']' && ']' !in authority[..i]
  }

  lemma FirstSlash(authority: Bytes, basePath: Bytes)
    requires Splits(authority, basePath)
    ensures Find("/", authority + basePath, 0) == if basePath == "" then None else Some(|authority|)
  {
    var s := authority + basePath;
    forall i | 0 <= i < |authority| ensures !OccursAt("/", s, i) {
      assert s[i..i + 1] == [authority[i]];
    }
    if basePath != "" {
      assert s[|authority|..|authority| + 1] == "/";
      assert OccursAt("/", s, |authority|);
    } else {
      assert !OccursAt("/", s, |authority|);
    }
  }

  lemma FirstBracket(authority: Bytes, i: nat)
    ensures Find("]", authority, 0) == Some(i) <==> ClosesAt(authority, i)
  {
    FindChar(']', authority);
  }

  lemma ConnectsExactly(authority: Bytes, address: Bytes)
    requires authority != ""
    ensures ConnectAddress(authority) == Some(address) <==> Connects(authority, address)
  {
    if authority[0] == '[' {
      forall i: nat ensures Find("]", authority, 0) == Some(i) <==> ClosesAt(authority, i) {
        FirstBracket(authority, i);
      }
      if Connects(authority, address) {
        var i: nat :| ClosesAt(authority, i) && ConnectsAfter(authority, i, address);
        assert Find("]", authority, 0) == Some(i);
      }
      if ConnectAddress(authority) == Some(address) {
        var i := Find("]", authority, 0).value;
        assert ClosesAt(authority, i) && ConnectsAfter(authority, i, address);
      }
    }
  }

  /** Exactly the URLs that are accepted, and what is made of them. */
  lemma UrlExactly(authority: Bytes, basePath: Bytes, upstream: Upstream)
    requires Splits(authority, basePath)
    ensures ParseUrl("http://" + authority + basePath) == Parsed(upstream) <==>
              && authority != "" && '@' !in authority && '?' !in authority && '#' !in authority
              && upstream.authority == authority && upstream.basePath == basePath
              && Connects(authority, upstream.connectAddress)
  {
    var url, rest := "http://" + authority + basePath, authority + basePath;
    assert url == SCHEME + rest && url[|SCHEME|..] == rest && SCHEME <= url;
    FirstSlash(authority, basePath);
    assert rest[..|authority|] == authority && rest[|authority|..] == basePath;
    assert basePath == "" ==> rest[..|rest|] == authority && rest[|rest|..] == "";
    if authority != "" {
      ConnectsExactly(authority, upstream.connectAddress);
    }
  }

  /** Any other scheme is refused. */
  lemma OtherSchemes(url: Bytes)
    ensures !("http://" <= url) <==> ParseUrl(url) == BadUrl(UnsupportedScheme)
  {
  }
}
