/** The upstream half of proxy.rs: upstream URLs and the request that is sent upstream.
    The main result is that what is printed upstream parses back to the intended request. */
module Upstream {
  import opened Common
  import opened Http

  datatype Upstream = Upstream(authority: Bytes, connectAddress: Bytes, basePath: Bytes)

  datatype UpstreamError = UnsupportedScheme | MissingHost | InvalidAuthority

  datatype UrlParse = Parsed(upstream: Upstream) | BadUrl(error: UpstreamError)

  const SCHEME: Bytes := "http://"

  // ---------------------------------------------------------------- URLs

  /** A bracketed host must be closed, and followed by nothing or a port. */
  function ConnectAddress(authority: Bytes): Option<Bytes>
    requires authority != ""
  {
    if authority[0] == '[' then
      match Find("]", authority, 0)
      case None => None
      case Some(closing) =>
        if closing + 1 == |authority| then Some(authority + ":80")
        else if authority[closing + 1] == ':' then Some(authority)
        else None
    else if ':' in authority then Some(authority)
    else Some(authority + ":80")
  }

  function ParseUrl(url: Bytes): UrlParse {
    if !(SCHEME <= url) then BadUrl(UnsupportedScheme)
    else
      var remainder := url[|SCHEME|..];
      var cut := match Find("/", remainder, 0) case None => |remainder| case Some(i) => i;
      var authority, basePath := remainder[..cut], remainder[cut..];
      if authority == "" then BadUrl(MissingHost)
      else if '@' in authority || '?' in authority || '#' in authority then BadUrl(InvalidAuthority)
      else
        match ConnectAddress(authority)
        case None => BadUrl(InvalidAuthority)
        case Some(address) => Parsed(Upstream(authority, address, basePath))
  }

  /** An accepted URL is exactly the scheme, the authority and the base path put back together, split at
      the first slash; the address to connect to is the authority, with port 80 where it names none. */
  lemma ParseUrlMeaning(url: Bytes)
    requires ParseUrl(url).Parsed?
    ensures var u := ParseUrl(url).upstream;
            && url == SCHEME + u.authority + u.basePath
            && u.authority != "" && '/' !in u.authority && '@' !in u.authority
            && (u.basePath == "" || u.basePath[0] == '/')
            && (u.connectAddress == u.authority || u.connectAddress == u.authority + ":80")
            && (u.connectAddress == u.authority ==> ':' in u.authority)
  {
    var remainder := url[|SCHEME|..];
    var u := ParseUrl(url).upstream;
    assert url == url[..|SCHEME|] + remainder;
    assert remainder == u.authority + u.basePath;
    forall i | 0 <= i < |u.authority| ensures u.authority[i] != '/' {
      assert !OccursAt("/", remainder, i);
      assert remainder[i..i + 1] == [u.authority[i]];
    }
  }

  // ---------------------------------------------------------------- printing

  function SplitOn(separator: char, s: Bytes): seq<Bytes>
    decreases |s|
  {
    match Find([separator], s, 0)
    case None => [s]
    case Some(i) => [s[..i]] + SplitOn(separator, s[i + 1..])
  }

  /** The whitespace removed by `str::trim`, within ASCII. */
  predicate IsTrimmed(c: char) { 9 as char <= c <= 13 as char || c == ' ' }

  /** The header names that one Connection field nominates. */
  function NominatedBy(value: Bytes): set<Bytes> {
    set part | part in SplitOn(',', value) :: LowerAll(Trim(IsTrimmed, part))
  }

  function Nominated(headers: seq<Header>): set<Bytes> {
    if headers == [] then {}
    else (if headers[0].name == "connection" then NominatedBy(headers[0].value) else {}) + Nominated(headers[1..])
  }

  predicate IsHopByHop(name: Bytes) {
    name in ["host", "connection", "proxy-connection", "keep-alive", "transfer-encoding", "upgrade"]
  }

  predicate Dropped(header: Header, nominated: set<Bytes>) {
    IsHopByHop(header.name) || header.name in nominated
  }

  /** The end-to-end headers (section 7.6.1 of RFC 9110). */
  function Kept(headers: seq<Header>, nominated: set<Bytes>): seq<Header> {
    if headers == [] then []
    else (if Dropped(headers[0], nominated) then [] else [headers[0]]) + Kept(headers[1..], nominated)
  }

  function ForwardTarget(upstream: Upstream, target: Bytes): Bytes {
    if upstream.basePath == "" then target else TrimEnd((c: char) => c == '/', upstream.basePath) + target
  }

  function HeaderLine(header: Header): Bytes { header.name + ": " + header.value }

  function HeaderLines(headers: seq<Header>): (r: seq<Bytes>)
    ensures |r| == |headers|
    ensures forall i | 0 <= i < |headers| :: r[i] == HeaderLine(headers[i])
  {
    seq(|headers|, i requires 0 <= i < |headers| => HeaderLine(headers[i]))
  }

  function RequestLine(upstream: Upstream, request: RequestHead): Bytes {
    request.verb + " " + ForwardTarget(upstream, request.target) + " HTTP/1.1"
  }

  /** The lines of the forwarded head. */
  function ForwardLines(upstream: Upstream, request: RequestHead): seq<Bytes> {
    [RequestLine(upstream, request), "Host: " + upstream.authority]
    + HeaderLines(Kept(request.headers, Nominated(request.headers)))
    + ["Connection: close"]
  }

  function Terminated(lines: seq<Bytes>): Bytes {
    if lines == [] then "" else lines[0] + CRLF + Terminated(lines[1..])
  }

  lemma TerminatedAppend(front: seq<Bytes>, last: Bytes)
    ensures Terminated(front + [last]) == Terminated(front) + last + CRLF
  {
    if front == [] {
      assert [last][1..] == [];
    } else {
      assert (front + [last])[1..] == front[1..] + [last];
      TerminatedAppend(front[1..], last);
    }
  }

  function Print(upstream: Upstream, request: RequestHead, body: Bytes): Bytes {
    Terminated(ForwardLines(upstream, request)) + CRLF + body
  }

  /** The first two lines of a forwarded head. */
  function FirstLines(upstream: Upstream, request: RequestHead): seq<Bytes> {
    [RequestLine(upstream, request), "Host: " + upstream.authority]
  }

  lemma FirstLinesWritten(upstream: Upstream, request: RequestHead)
    ensures request.verb + " " + ForwardTarget(upstream, request.target) + " HTTP/1.1" + CRLF
      + ("Host: " + upstream.authority) + CRLF ==
            Terminated(FirstLines(upstream, request) + HeaderLines([]))
  {
    var lines := FirstLines(upstream, request);
    TerminatedAppend([], lines[0]);
    TerminatedAppend([lines[0]], lines[1]);
    assert [] + [lines[0]] == [lines[0]] && [lines[0]] + [lines[1]] == lines == lines + HeaderLines([]);
  }

  lemma HeaderWritten(lines: seq<Bytes>, done: seq<Header>, header: Header)
    ensures Terminated(lines + HeaderLines(done)) + header.name + ": " + header.value + CRLF ==
            Terminated(lines + HeaderLines(done + [header]))
  {
    var before := Terminated(lines + HeaderLines(done));
    TerminatedAppend(lines + HeaderLines(done), HeaderLine(header));
    assert lines + HeaderLines(done) + [HeaderLine(header)] == lines + HeaderLines(done + [header]);
    assert before + header.name + ": " + header.value + CRLF == before + HeaderLine(header) + CRLF;
  }

  lemma LastLineWritten(upstream: Upstream, request: RequestHead, body: Bytes)
    ensures Terminated(FirstLines(upstream, request) + HeaderLines(Kept(request.headers, Nominated(request.headers))))
            + "Connection: close\r\n\r\n" + body == Print(upstream, request, body)
  {
    var before := FirstLines(upstream, request) + HeaderLines(Kept(request.headers, Nominated(request.headers)));
    TerminatedAppend(before, "Connection: close");
    assert "Connection: close\r\n\r\n" == "Connection: close" + CRLF + CRLF;
    assert ForwardLines(upstream, request) == before + ["Connection: close"];
  }

  /** The byte-appending loop of `Upstream::request_bytes`. */
  method RequestBytes(upstream: Upstream, request: RequestHead, body: Bytes) returns (bytes: Bytes)
    ensures bytes == Print(upstream, request, body)
  {
    var nominated := Nominated(request.headers);
    var target := ForwardTarget(upstream, request.target);
    bytes := request.verb + " " + target + " HTTP/1.1" + CRLF + ("Host: " + upstream.authority) + CRLF;
    FirstLinesWritten(upstream, request);
    ghost var lines, all := FirstLines(upstream, request), Kept(request.headers, nominated);
    ghost var done: seq<Header> := [];
    assert request.headers[0..] == request.headers;
    for i := 0 to |request.headers|
      invariant all == done + Kept(request.headers[i..], nominated)
      invariant bytes == Terminated(lines + HeaderLines(done))
    {
      var header := request.headers[i];
      assert request.headers[i..][0] == header && request.headers[i..][1..] == request.headers[i + 1..];
      if IsHopByHop(header.name) || header.name in nominated {
        continue;
      }
      HeaderWritten(lines, done, header);
      bytes := bytes + header.name + ": " + header.value + CRLF;
      done := done + [header];
    }
    assert done == all;
    LastLineWritten(upstream, request, body);
    bytes := bytes + "Connection: close\r\n\r\n" + body;
  }

  // ---------------------------------------------------------------- reading the lines back

  predicate IsClean(c: char) { c != '\r' && c != '\n' && IsAscii(c) }

  /** A line that survives printing: something, without line breaks. */
  predicate CleanLine(line: Bytes) { line != "" && All(IsClean, line) }

  predicate CleanLines(lines: seq<Bytes>) { forall i | 0 <= i < |lines| :: CleanLine(lines[i]) }

  /** Lines separated by CRLF. */
  function Join(lines: seq<Bytes>): Bytes {
    if lines == [] then ""
    else if |lines| == 1 then lines[0]
    else lines[0] + CRLF + Join(lines[1..])
  }

  lemma TerminatedIsJoin(lines: seq<Bytes>)
    requires lines != []
    ensures Terminated(lines) == Join(lines) + CRLF
  {
    if |lines| == 1 {
      assert lines[1..] == [];
    } else {
      TerminatedIsJoin(lines[1..]);
    }
  }

  lemma OccursHead(pattern: Bytes, s: Bytes, i: nat)
    requires pattern != ""
    ensures OccursAt(pattern, s, i) ==> i < |s| && s[i] == pattern[0]
  {
    if OccursAt(pattern, s, i) {
      assert s[i..i + |pattern|][0] == s[i];
    }
  }

  lemma AllConcat(p: char -> bool, a: Bytes, b: Bytes)
    ensures All(p, a + b) <==> All(p, a) && All(p, b)
  {
    assert forall i | 0 <= i < |a| :: a[i] == (a + b)[i];
    assert forall i | 0 <= i < |b| :: b[i] == (a + b)[|a| + i];
  }

  lemma TokenIsClean(s: Bytes)
    requires All(IsToken, s)
    ensures All(IsClean, s) && All(IsWordChar, s)
  {
  }

  lemma FindAfterLine(line: Bytes, rest: Bytes)
    requires All(IsClean, line)
    ensures Find(CRLF, line, 0) == None
    ensures Find(CRLF, line + CRLF + rest, 0) == Some(|line|)
  {
    var s := line + CRLF + rest;
    assert s[|line|..|line| + 2] == CRLF;
    assert OccursAt(CRLF, s, |line|);
    forall j | 0 <= j < |line| ensures !OccursAt(CRLF, s, j) && !OccursAt(CRLF, line, j) {
      assert s[j] == line[j] && IsClean(line[j]);
      OccursHead(CRLF, s, j);
      OccursHead(CRLF, line, j);
    }
  }

  /** Splitting undoes joining. */
  lemma {:induction false} LinesOfJoin(lines: seq<Bytes>)
    requires lines != [] && CleanLines(lines)
    ensures Lines(Join(lines)) == lines
  {
    if |lines| == 1 {
      FindAfterLine(lines[0], "");
    } else {
      var rest := Join(lines[1..]);
      FindAfterLine(lines[0], rest);
      assert Join(lines)[..|lines[0]|] == lines[0];
      assert Join(lines)[|lines[0]| + 2..] == rest;
      LinesOfJoin(lines[1..]);
    }
  }

  lemma HeadEndAt(s: Bytes, i: nat)
    ensures OccursAt(HEAD_END, s, i) <==>
            i + 4 <= |s| && s[i] == '\r' && s[i + 1] == '\n' && s[i + 2] == '\r' && s[i + 3] == '\n'
  {
    if i + 4 <= |s| {
      assert s[i..i + 4] == [s[i], s[i + 1], s[i + 2], s[i + 3]];
    }
  }

  lemma JoinStart(lines: seq<Bytes>)
    requires lines != [] && CleanLines(lines)
    ensures Join(lines) != "" && Join(lines)[0] == lines[0][0]
  {
  }

  /** No blank line inside the head. */
  lemma {:induction false} NoEarlyEnd(lines: seq<Bytes>, tail: Bytes, i: nat)
    requires lines != [] && CleanLines(lines) && i < |Join(lines)|
    ensures !OccursAt(HEAD_END, Join(lines) + tail, i)
  {
    var first := lines[0];
    var s := Join(lines) + tail;
    HeadEndAt(s, i);
    if i < |first| {
      assert s[i] == first[i] && IsClean(first[i]);
    } else {
      assert lines[1..] != [] && s == first + CRLF + (Join(lines[1..]) + tail);
      JoinStart(lines[1..]);
      if i == |first| {
        assert s[i + 2] == lines[1..][0][0];
      } else if i > |first| + 1 {
        var j := i - |first| - 2;
        NoEarlyEnd(lines[1..], tail, j);
        HeadEndAt(Join(lines[1..]) + tail, j);
      }
    }
  }

  lemma HeadEndOfJoin(lines: seq<Bytes>, body: Bytes)
    requires lines != [] && CleanLines(lines)
    ensures Find(HEAD_END, Join(lines) + (HEAD_END + body), 0) == Some(|Join(lines)|)
  {
    var s := Join(lines) + (HEAD_END + body);
    HeadEndAt(s, |Join(lines)|);
    forall i | 0 <= i < |Join(lines)| ensures !OccursAt(HEAD_END, s, i) {
      NoEarlyEnd(lines, HEAD_END + body, i);
    }
  }

  lemma {:induction false} JoinIsAscii(lines: seq<Bytes>)
    requires CleanLines(lines)
    ensures All(IsAscii, Join(lines))
  {
    if |lines| >= 1 {
      assert All(IsClean, lines[0]);
      if |lines| > 1 {
        JoinIsAscii(lines[1..]);
      }
    }
  }

  // ---------------------------------------------------------------- reading one line back

  lemma SpanAll(p: char -> bool, front: Bytes, rest: Bytes)
    requires All(p, front) && (rest == "" || !p(rest[0]))
    ensures Span(p, front + rest) == |front|
  {
    if front == "" {
      assert front + rest == rest;
    } else {
      assert (front + rest)[1..] == front[1..] + rest;
      SpanAll(p, front[1..], rest);
    }
  }

  lemma WordsCons(word: Bytes, rest: Bytes)
    requires word != "" && All(IsWordChar, word) && (rest == "" || IsSpace(rest[0]))
    ensures Words(word + rest) == [word] + Words(rest)
  {
    var s := word + rest;
    assert s[0] == word[0] && IsWordChar(word[0]);
    assert TrimStart(IsSpace, s) == s;
    SpanAll(IsWordChar, word, rest);
    assert s[..|word|] == word && s[|word|..] == rest;
  }

  lemma WordsSkip(s: Bytes)
    ensures Words(" " + s) == Words(s)
  {
    assert (" " + s)[1..] == s;
    assert Span(IsSpace, " " + s) == 1 + Span(IsSpace, s);
    assert TrimStart(IsSpace, " " + s) == TrimStart(IsSpace, s);
  }

  predicate IsWord(s: Bytes) { s != "" && All(IsWordChar, s) }

  lemma WordsThen(first: Bytes, rest: Bytes)
    requires IsWord(first)
    ensures Words(first + (" " + rest)) == [first] + Words(rest)
  {
    WordsCons(first, " " + rest);
    WordsSkip(rest);
  }

  lemma WordsLast(word: Bytes)
    requires IsWord(word)
    ensures Words(word) == [word]
  {
    WordsCons(word, "");
    assert word + "" == word;
    assert Words("") == [];
  }

  lemma WordsLastTwo(target: Bytes, version: Bytes)
    requires IsWord(target) && IsWord(version)
    ensures Words(target + (" " + version)) == [target, version]
  {
    WordsThen(target, version);
    WordsLast(version);
  }

  lemma WordsOfRequestLine(verb: Bytes, target: Bytes, version: Bytes)
    requires IsWord(verb) && IsWord(target) && IsWord(version)
    ensures Words(verb + (" " + (target + (" " + version)))) == [verb, target, version]
  {
    WordsThen(verb, target + (" " + version));
    WordsLastTwo(target, version);
  }

  /** Names and values as the parser produces them. */
  predicate WellFormedHeader(header: Header) {
    && header.name != "" && All(IsToken, header.name) && LowerAll(header.name) == header.name
    && All(IsClean, header.value)
    && Trim(IsBlank, header.value) == header.value
  }

  predicate IsVisible(c: char) { IsAscii(c) && !IsControl(c) && !IsSpace(c) }

  predicate WellFormed(request: RequestHead) {
    && request.verb != "" && All(IsToken, request.verb)
    && request.target != "" && All(IsVisible, request.target)
    && forall i | 0 <= i < |request.headers| :: WellFormedHeader(request.headers[i])
  }

  lemma TrimBlank(s: Bytes)
    ensures Trim(IsBlank, " " + s) == Trim(IsBlank, s)
  {
    assert (" " + s)[1..] == s;
    assert TrimStart(IsBlank, " " + s) == TrimStart(IsBlank, s);
  }

  /** A printed header line reads back as the header, blanks around the value removed. */
  lemma ParseHeaderLine(name: Bytes, value: Bytes)
    requires name != "" && All(IsToken, name) && All(IsClean, value)
    ensures ParseHeader(name + ": " + value) == Some(Header(LowerAll(name), Trim(IsBlank, value)))
  {
    var line := name + ": " + value;
    FindColon(name, value);
    assert line[..|name|] == name;
    assert line[|name| + 1..] == " " + value;
    assert '\r' !in " " + value && '\n' !in " " + value;
    ParseAtColon(line, |name|, name, " " + value);
    TrimBlank(value);
  }

  lemma ParseAtColon(line: Bytes, i: nat, name: Bytes, value: Bytes)
    requires Find(":", line, 0) == Some(i) && i < |line| && line[..i] == name && line[i + 1..] == value
    requires name != "" && All(IsToken, name) && '\r' !in value && '\n' !in value
    ensures ParseHeader(line) == Some(Header(LowerAll(name), Trim(IsBlank, value)))
  {
  }

  lemma FindColon(name: Bytes, value: Bytes)
    requires All(IsToken, name)
    ensures Find(":", name + ": " + value, 0) == Some(|name|)
  {
    var line := name + ": " + value;
    assert line[|name|..|name| + 1] == ":";
    assert OccursAt(":", line, |name|);
    forall i | 0 <= i < |name| ensures !OccursAt(":", line, i) {
      assert line[i] == name[i] && IsToken(name[i]);
      assert line[i..i + 1] == [line[i]];
    }
  }

  lemma {:induction false} ParseHeadersBack(headers: seq<Header>, lines: seq<Bytes>)
    requires |lines| == |headers| && CleanLines(lines)
    requires forall i | 0 <= i < |lines| :: ParseHeader(lines[i]) == Some(headers[i])
    ensures ParseHeaders(lines) == Some(headers)
  {
    if lines != [] {
      ParseHeadersBack(headers[1..], lines[1..]);
      assert headers == [headers[0]] + headers[1..];
    }
  }

  lemma LowerLetters(s: Bytes, t: Bytes)
    requires |s| == |t| && forall i | 0 <= i < |s| :: t[i] == Lower(s[i])
    ensures LowerAll(s) == t
  {
  }

  // ---------------------------------------------------------------- what the parser guarantees

  lemma {:induction false} WordsAreWords(line: Bytes)
    requires All(IsAscii, line)
    ensures forall word | word in Words(line) :: IsWord(word) && All(IsAscii, word)
    decreases |line|
  {
    var s := TrimStart(IsSpace, line);
    if s != "" {
      var n := Span(IsWordChar, s);
      FirstWord(line);
      WordsAreWords(s[n..]);
      assert Words(line) == [s[..n]] + Words(s[n..]);
    }
  }

  lemma FirstWord(line: Bytes)
    requires All(IsAscii, line) && TrimStart(IsSpace, line) != ""
    ensures var s := TrimStart(IsSpace, line);
            var n := Span(IsWordChar, s);
            IsWord(s[..n]) && All(IsAscii, s[..n]) && All(IsAscii, s[n..]) && |s[n..]| < |line|
  {
    var skip := Span(IsSpace, line);
    var s := TrimStart(IsSpace, line);
    assert forall i | 0 <= i < |s| :: s[i] == line[skip + i];
    assert s[0] == line[skip];
  }

  lemma {:induction false} LinesAreAscii(text: Bytes)
    requires All(IsAscii, text)
    ensures forall i | 0 <= i < |Lines(text)| :: All(IsAscii, Lines(text)[i])
    decreases |text|
  {
    match Find(CRLF, text, 0) {
      case None =>
      case Some(i) =>
        assert All(IsAscii, text[..i]) && All(IsAscii, text[i + 2..]);
        LinesAreAscii(text[i + 2..]);
    }
  }

  lemma TrimTwice(p: char -> bool, s: Bytes)
    ensures Trim(p, Trim(p, s)) == Trim(p, s)
    ensures forall c | c in Trim(p, s) :: c in s
  {
    var t := TrimStart(p, s);
    var r := TrimEnd(p, t);
    if r != "" {
      assert r[0] == t[0] == s[Span(p, s)];
      assert Span(p, r) == 0;
      assert TrimStart(p, r) == r;
    }
    forall c | c in r ensures c in s {
      var i :| 0 <= i < |r| && r[i] == c;
      assert c == t[i] == s[Span(p, s) + i];
    }
  }

  lemma LowerTwice(s: Bytes)
    requires All(IsToken, s)
    ensures LowerAll(LowerAll(s)) == LowerAll(s) && All(IsToken, LowerAll(s))
  {
  }

  lemma ParsedHeaderWellFormed(line: Bytes)
    requires All(IsAscii, line) && ParseHeader(line).Some?
    ensures WellFormedHeader(ParseHeader(line).value)
  {
    var i := Find(":", line, 0).value;
    var name, value := line[..i], line[i + 1..];
    LowerTwice(name);
    TrimTwice(IsBlank, value);
    var trimmed := Trim(IsBlank, value);
    forall k | 0 <= k < |trimmed| ensures IsClean(trimmed[k]) {
      assert trimmed[k] in value;
      var j :| 0 <= j < |value| && value[j] == trimmed[k];
      assert value[j] == line[i + 1 + j];
    }
  }

  lemma {:induction false} ParsedHeadersWellFormed(lines: seq<Bytes>)
    requires forall i | 0 <= i < |lines| :: All(IsAscii, lines[i])
    requires ParseHeaders(lines).Some?
    ensures forall i | 0 <= i < |ParseHeaders(lines).value| :: WellFormedHeader(ParseHeaders(lines).value[i])
  {
    if lines != [] {
      ParsedHeadersWellFormed(lines[1..]);
      if lines[0] != "" {
        ParsedHeaderWellFormed(lines[0]);
      }
    }
  }

  /** Every request the parser accepts is fit to be printed. */
  lemma ParsedIsWellFormed(bytes: Bytes)
    requires ParseHead(bytes).Complete?
    ensures WellFormed(ParseHead(bytes).request)
  {
    var text := bytes[..Find(HEAD_END, bytes, 0).value];
    var lines := Lines(text);
    LinesAreAscii(text);
    ParsedHeadersWellFormed(lines[1..]);
    WordsAreWords(lines[0]);
    var parts := Words(lines[0]);
    assert parts[0] in parts && parts[1] in parts;
    assert forall i | 0 <= i < |parts[1]| :: IsVisible(parts[1][i]);
  }

  // ---------------------------------------------------------------- print, then parse

  /** An upstream whose authority and base path add no line break and no space to the head. */
  predicate CleanUpstream(upstream: Upstream) {
    All(IsClean, upstream.authority) && All(IsVisible, upstream.basePath)
  }

  /** Any URL of visible ASCII characters gives one. */
  lemma VisibleUrlIsClean(url: Bytes)
    requires ParseUrl(url).Parsed? && All(IsVisible, url)
    ensures CleanUpstream(ParseUrl(url).upstream)
  {
    var u := ParseUrl(url).upstream;
    ParseUrlMeaning(url);
    assert forall i | 0 <= i < |u.authority| :: u.authority[i] == url[|SCHEME| + i];
    assert forall i | 0 <= i < |u.basePath| :: u.basePath[i] == url[|SCHEME| + |u.authority| + i];
  }

  /** The request that an upstream is meant to see. */
  function Forwarded(upstream: Upstream, request: RequestHead): RequestHead {
    RequestHead(
      request.verb,
      ForwardTarget(upstream, request.target),
      Http11,
      [Header("host", Trim(IsBlank, upstream.authority))]
      + Kept(request.headers, Nominated(request.headers))
      + [Header("connection", "close")])
  }

  lemma {:induction false} KeptWellFormed(headers: seq<Header>, nominated: set<Bytes>)
    requires forall i | 0 <= i < |headers| :: WellFormedHeader(headers[i])
    ensures forall i | 0 <= i < |Kept(headers, nominated)| :: WellFormedHeader(Kept(headers, nominated)[i])
  {
    if headers != [] {
      KeptWellFormed(headers[1..], nominated);
    }
  }

  lemma ForwardTargetVisible(upstream: Upstream, request: RequestHead)
    requires WellFormed(request) && CleanUpstream(upstream)
    ensures var t := ForwardTarget(upstream, request.target); t != "" && All(IsVisible, t)
  {
  }

  lemma RequestLineClean(upstream: Upstream, request: RequestHead)
    requires WellFormed(request) && CleanUpstream(upstream)
    ensures CleanLine(RequestLine(upstream, request))
  {
    var target := ForwardTarget(upstream, request.target);
    ForwardTargetVisible(upstream, request);
    TokenIsClean(request.verb);
    assert All(IsClean, target);
    AllConcat(IsClean, request.verb, " ");
    AllConcat(IsClean, request.verb + " ", target);
    AllConcat(IsClean, request.verb + " " + target, " HTTP/1.1");
  }

  lemma RequestLineBack(upstream: Upstream, request: RequestHead)
    requires WellFormed(request) && CleanUpstream(upstream)
    ensures ParseRequestLine(RequestLine(upstream, request)) ==
            Line(request.verb, ForwardTarget(upstream, request.target), Http11)
  {
    var verb, target, version := request.verb, ForwardTarget(upstream, request.target), "HTTP/1.1";
    ForwardTargetVisible(upstream, request);
    assert IsWord(verb) && IsWord(version);
    assert forall i | 0 <= i < |target| :: IsVisible(target[i]) && !IsControl(target[i]) && IsWordChar(target[i]);
    assert RequestLine(upstream, request) == verb + (" " + (target + (" " + version))) by {
      assert " HTTP/1.1" == " " + version;
    }
    assert Words(RequestLine(upstream, request)) == [verb, target, version] by {
      WordsOfRequestLine(verb, target, version);
    }
  }

  lemma HeaderLineBack(name: Bytes, value: Bytes, header: Header)
    requires name != "" && All(IsToken, name) && All(IsClean, value)
    requires LowerAll(name) == header.name && Trim(IsBlank, value) == header.value
    ensures CleanLine(name + ": " + value) && ParseHeader(name + ": " + value) == Some(header)
  {
    PairIsClean(name, value);
    ParseHeaderLine(name, value);
  }

  lemma PairIsClean(name: Bytes, value: Bytes)
    requires name != "" && All(IsToken, name) && All(IsClean, value)
    ensures CleanLine(name + ": " + value)
  {
    TokenIsClean(name);
    assert All(IsClean, ": ");
    AllConcat(IsClean, name, ": ");
    AllConcat(IsClean, name + ": ", value);
  }

  lemma HostLineBack(upstream: Upstream)
    requires CleanUpstream(upstream)
    ensures var line := "Host: " + upstream.authority;
            CleanLine(line) && ParseHeader(line) == Some(Header("host", Trim(IsBlank, upstream.authority)))
  {
    LowerLetters("Host", "host");
    HeaderLineBack("Host", upstream.authority, Header("host", Trim(IsBlank, upstream.authority)));
    assert "Host" + ": " == "Host: ";
  }

  lemma CloseLineBack()
    ensures CleanLine("Connection: close") && ParseHeader("Connection: close") == Some(Header("connection", "close"))
  {
    CloseWords();
    HeaderLineBack("Connection", "close", Header("connection", "close"));
    CloseLine();
  }

  lemma CloseLine()
    ensures "Connection" + ": " + "close" == "Connection: close"
  {
  }

  lemma CloseWords()
    ensures LowerAll("Connection") == "connection" && All(IsToken, "Connection")
    ensures Trim(IsBlank, "close") == "close" && All(IsClean, "close")
  {
    LowerLetters("Connection", "connection");
  }

  lemma KeptLineBack(request: RequestHead, nominated: set<Bytes>, i: nat)
    requires WellFormed(request) && i < |Kept(request.headers, nominated)|
    ensures var header := Kept(request.headers, nominated)[i];
            CleanLine(HeaderLine(header)) && ParseHeader(HeaderLine(header)) == Some(header)
  {
    KeptWellFormed(request.headers, nominated);
    var header := Kept(request.headers, nominated)[i];
    HeaderLineBack(header.name, header.value, header);
  }

  ghost predicate ReadsBack(line: Bytes, header: Header) {
    CleanLine(line) && ParseHeader(line) == Some(header)
  }

  ghost predicate AllReadBack(lines: seq<Bytes>, headers: seq<Header>) {
    |lines| == |headers| && forall i | 0 <= i < |lines| :: ReadsBack(lines[i], headers[i])
  }

  lemma ReadBackTogether(a: seq<Bytes>, b: seq<Bytes>, ha: seq<Header>, hb: seq<Header>)
    requires AllReadBack(a, ha) && AllReadBack(b, hb)
    ensures AllReadBack(a + b, ha + hb)
  {
    forall i | 0 <= i < |a + b| ensures ReadsBack((a + b)[i], (ha + hb)[i]) {
      if i < |a| {
        assert (a + b)[i] == a[i] && (ha + hb)[i] == ha[i];
      } else {
        assert (a + b)[i] == b[i - |a|] && (ha + hb)[i] == hb[i - |a|];
      }
    }
  }

  lemma ReadBackIsParsed(lines: seq<Bytes>, headers: seq<Header>)
    requires AllReadBack(lines, headers)
    ensures CleanLines(lines) && ParseHeaders(lines) == Some(headers)
  {
    forall i | 0 <= i < |lines| ensures CleanLine(lines[i]) && ParseHeader(lines[i]) == Some(headers[i]) {
      assert ReadsBack(lines[i], headers[i]);
    }
    ParseHeadersBack(headers, lines);
  }

  lemma AllReadBackAround(first: Bytes, middle: seq<Bytes>, last: Bytes, host: Header, kept: seq<Header>, close: Header)
    requires AllReadBack([first], [host]) && AllReadBack([last], [close]) && AllReadBack(middle, kept)
    ensures AllReadBack([first] + middle + [last], [host] + kept + [close])
  {
    ReadBackTogether([first], middle, [host], kept);
    ReadBackTogether([first] + middle, [last], [host] + kept, [close]);
  }

  lemma ParsedAfter(start: Bytes, lines: seq<Bytes>, headers: seq<Header>)
    requires CleanLine(start) && AllReadBack(lines, headers)
    ensures CleanLines([start] + lines) && ParseHeaders(([start] + lines)[1..]) == Some(headers)
  {
    ReadBackIsParsed(lines, headers);
    CleanFront(start, lines);
    assert ([start] + lines)[1..] == lines;
  }

  lemma CleanFront(first: Bytes, rest: seq<Bytes>)
    requires CleanLine(first) && CleanLines(rest)
    ensures CleanLines([first] + rest)
  {
    var lines := [first] + rest;
    forall i | 0 <= i < |lines| ensures CleanLine(lines[i]) {
      if i > 0 {
        assert lines[i] == rest[i - 1];
      }
    }
  }

  /** The header lines of the forwarded head. */
  function FieldLines(upstream: Upstream, request: RequestHead): seq<Bytes> {
    ["Host: " + upstream.authority] + HeaderLines(Kept(request.headers, Nominated(request.headers)))
      + ["Connection: close"]
  }

  lemma LinesAreFields(upstream: Upstream, request: RequestHead)
    ensures ForwardLines(upstream, request) == [RequestLine(upstream, request)] + FieldLines(upstream, request)
  {
  }

  lemma KeptLinesBack(request: RequestHead, nominated: set<Bytes>)
    requires WellFormed(request)
    ensures AllReadBack(HeaderLines(Kept(request.headers, nominated)), Kept(request.headers, nominated))
  {
    var kept := Kept(request.headers, nominated);
    forall i | 0 <= i < |kept| ensures ReadsBack(HeaderLines(kept)[i], kept[i]) {
      KeptLineBack(request, nominated, i);
    }
  }

  lemma FieldLinesBack(upstream: Upstream, request: RequestHead)
    requires WellFormed(request) && CleanUpstream(upstream)
    ensures AllReadBack(FieldLines(upstream, request), Forwarded(upstream, request).headers)
  {
    var kept := Kept(request.headers, Nominated(request.headers));
    HostLineBack(upstream);
    CloseLineBack();
    KeptLinesBack(request, Nominated(request.headers));
    AllReadBackAround("Host: " + upstream.authority, HeaderLines(kept), "Connection: close",
      Header("host", Trim(IsBlank, upstream.authority)), kept, Header("connection", "close"));
  }

  /** Every header line of the forwarded head reads back as the header it was printed from. */
  lemma ForwardLinesBack(upstream: Upstream, request: RequestHead)
    requires WellFormed(request) && CleanUpstream(upstream)
    ensures CleanLines(ForwardLines(upstream, request))
    ensures ParseHeaders(ForwardLines(upstream, request)[1..]) == Some(Forwarded(upstream, request).headers)
  {
    RequestLineClean(upstream, request);
    FieldLinesBack(upstream, request);
    ParsedAfter(RequestLine(upstream, request), FieldLines(upstream, request), Forwarded(upstream, request).headers);
    LinesAreFields(upstream, request);
  }

  /** The size of the forwarded head, without its terminator. */
  function ForwardedHeadSize(upstream: Upstream, request: RequestHead): nat {
    |Join(ForwardLines(upstream, request))|
  }

  /** A head printed as clean lines is parsed line by line. */
  lemma HeadBack(lines: seq<Bytes>, line: LineParse, headers: seq<Header>, body: Bytes)
    requires lines != [] && CleanLines(lines) && |Join(lines)| <= MAX_REQUEST_HEAD_SIZE
    requires line.Line? && ParseRequestLine(lines[0]) == line && ParseHeaders(lines[1..]) == Some(headers)
    ensures ParseHead(Join(lines) + (HEAD_END + body)) ==
            Complete(RequestHead(line.verb, line.target, line.version, headers), |Join(lines)| + 4)
  {
    var text := Join(lines);
    HeadEndOfJoin(lines, body);
    assert (text + (HEAD_END + body))[..|text|] == text;
    LinesOfJoin(lines);
    JoinIsAscii(lines);
  }

  lemma PrintedBytes(lines: seq<Bytes>, body: Bytes)
    requires lines != []
    ensures Terminated(lines) + CRLF + body == Join(lines) + (HEAD_END + body)
  {
    TerminatedIsJoin(lines);
    assert CRLF + CRLF == HEAD_END;
    assert Join(lines) + CRLF + CRLF + body == Join(lines) + (CRLF + CRLF) + body;
  }

  /** Print then parse: within the head limit, what goes upstream is read back as exactly the intended
      request, and exactly the body is left over. */
  lemma PrintThenParse(upstream: Upstream, request: RequestHead, body: Bytes)
    requires WellFormed(request) && CleanUpstream(upstream)
    requires ForwardedHeadSize(upstream, request) <= MAX_REQUEST_HEAD_SIZE
    ensures var printed := Print(upstream, request, body);
            && ParseHead(printed) == Complete(Forwarded(upstream, request), |printed| - |body|)
            && printed[|printed| - |body|..] == body
  {
    var lines := ForwardLines(upstream, request);
    var printed := Print(upstream, request, body);
    ForwardLinesBack(upstream, request);
    RequestLineBack(upstream, request);
    PrintedBytes(lines, body);
    HeadBack(lines, ParseRequestLine(lines[0]), Forwarded(upstream, request).headers, body);
  }

  // ---------------------------------------------------------------- the body keeps its length

  lemma {:induction false} KeptLengths(headers: seq<Header>, nominated: set<Bytes>)
    ensures !HasTransferEncoding(Kept(headers, nominated))
    ensures LengthHeaders(Kept(headers, nominated)) ==
            if "content-length" in nominated then [] else LengthHeaders(headers)
  {
    if headers != [] {
      KeptLengths(headers[1..], nominated);
      var rest := Kept(headers[1..], nominated);
      if !Dropped(headers[0], nominated) {
        assert Kept(headers, nominated) == [headers[0]] + rest;
        assert Kept(headers, nominated)[1..] == rest;
      } else {
        assert Kept(headers, nominated) == rest;
      }
    }
  }

  lemma {:induction false} LengthHeadersAround(header: Header, middle: seq<Header>, last: Header)
    requires header.name != "content-length" && last.name != "content-length"
    ensures LengthHeaders([header] + middle + [last]) == LengthHeaders(middle)
  {
    assert ([header] + middle + [last])[1..] == middle + [last];
    LengthHeadersBefore(middle, last);
  }

  lemma NoCodingAround(header: Header, middle: seq<Header>, last: Header)
    requires !HasTransferEncoding(middle) && header.name != "transfer-encoding" && last.name != "transfer-encoding"
    ensures !HasTransferEncoding([header] + middle + [last])
  {
    var headers := [header] + middle + [last];
    assert forall i | 0 < i < |headers| - 1 :: headers[i] == middle[i - 1];
  }

  lemma {:induction false} LengthHeadersBefore(headers: seq<Header>, last: Header)
    requires last.name != "content-length"
    ensures LengthHeaders(headers + [last]) == LengthHeaders(headers)
  {
    if headers == [] {
      assert [last][1..] == [];
    } else {
      assert (headers + [last])[1..] == headers[1..] + [last];
      LengthHeadersBefore(headers[1..], last);
    }
  }

  /** The framing of the forwarded request agrees with the body that follows it if and only if the client's
      Connection header does not strip the content length of a non-empty body. */
  lemma ForwardedFraming(upstream: Upstream, request: RequestHead, body: Bytes)
    requires BodyLength(request.headers) == Length(|body|)
    ensures BodyLength(Forwarded(upstream, request).headers) == Length(|body|) <==>
            body == "" || "content-length" !in Nominated(request.headers)
  {
    var nominated := Nominated(request.headers);
    var kept := Kept(request.headers, nominated);
    var host, close := Header("host", Trim(IsBlank, upstream.authority)), Header("connection", "close");
    KeptLengths(request.headers, nominated);
    LengthHeadersAround(host, kept, close);
    var headers := [host] + kept + [close];
    NoCodingAround(host, kept, close);
    BodyLengthMeaning(request.headers, |body|);
    BodyLengthMeaning(headers, |body|);
  }

  lemma JudgeReady(limit: nat, head: RequestHead, all: Bytes, body: Bytes)
    requires BodyLength(head.headers) == Length(|body|) && |body| <= |all| <= limit <= USIZE_MAX
    requires all[|all| - |body|..] == body
    ensures Judge(limit, Complete(head, |all| - |body|), all) == Ready(head, body)
  {
    assert all[|all| - |body|..|all|] == body;
  }

  /** End to end: an upstream that reads with the same rules receives the intended head and exactly the
      client's body, provided the content length survives the hop. */
  lemma ForwardedIsReceived(upstream: Upstream, request: RequestHead, body: Bytes, limit: nat)
    requires WellFormed(request) && CleanUpstream(upstream)
    requires BodyLength(request.headers) == Length(|body|)
    requires body == "" || "content-length" !in Nominated(request.headers)
    requires ForwardedHeadSize(upstream, request) <= MAX_REQUEST_HEAD_SIZE
    requires |Print(upstream, request, body)| <= limit <= USIZE_MAX
    ensures Whole(limit, Print(upstream, request, body)) == Ready(Forwarded(upstream, request), body)
  {
    var printed, head := Print(upstream, request, body), Forwarded(upstream, request);
    WholeIsJudge(limit, printed);
    assert BodyLength(head.headers) == Length(|body|) by { ForwardedFraming(upstream, request, body); }
    assert ParseHead(printed) == Complete(head, |printed| - |body|) && printed[|printed| - |body|..] == body by {
      PrintThenParse(upstream, request, body);
    }
    JudgeReady(limit, head, printed, body);
  }

  lemma SplitOnNone(separator: char, s: Bytes)
    requires separator !in s
    ensures SplitOn(separator, s) == [s]
  {
    forall i | 0 <= i <= |s| ensures !OccursAt([separator], s, i) {
      OccursHead([separator], s, i);
    }
  }

  lemma NominatesItself(name: Bytes)
    requires name != "" && ',' !in name && LowerAll(name) == name
    requires !IsTrimmed(name[0]) && !IsTrimmed(name[|name| - 1])
    ensures name in NominatedBy(name)
  {
    SplitOnNone(',', name);
    assert Span(IsTrimmed, name) == 0;
    assert name in SplitOn(',', name);
  }

  lemma OneIsTheLength(length: Header, connection: Header)
    requires length == Header("content-length", "1") && connection.name == "connection"
    ensures BodyLength([length] + [connection]) == Length(1)
  {
    LengthHeadersBefore([length], connection);
    assert [length][1..] == [] && LengthHeaders([length]) == ["1"];
    assert "1"[..0] == "" && Decimal("1") == 1;
    BodyLengthMeaning([length] + [connection], 1);
  }

  lemma StripsTheLength(length: Header, connection: Header)
    requires length.name == "content-length" && connection == Header("connection", "content-length")
    ensures "content-length" in Nominated([length] + [connection])
  {
    var headers := [length] + [connection];
    assert headers[1..] == [connection] && [connection][1..] == [];
    LowerLetters("content-length", "content-length");
    NominatesItself("content-length");
    assert Nominated(headers) >= Nominated([connection]) >= NominatedBy("content-length");
  }
}
