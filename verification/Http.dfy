/** The incremental HTTP/1.x request reader of http.rs, together with the request intake that both
    workers build on it: append what was received, look for a complete head, frame the body. */
module Http {
  import opened Common

  const MAX_REQUEST_HEAD_SIZE: nat := 16 * 1024
  const USIZE_MAX: nat := 0xFFFF_FFFF_FFFF_FFFF
  const CRLF: Bytes := "\r\n"
  const HEAD_END: Bytes := "\r\n\r\n"

  datatype HttpVersion = Http10 | Http11

  /** The name is stored in lower case. */
  datatype Header = Header(name: Bytes, value: Bytes)

  datatype RequestHead = RequestHead(verb: Bytes, target: Bytes, version: HttpVersion, headers: seq<Header>)

  datatype ParseError =
    | HeadTooLarge
    | InvalidRequestLine
    | InvalidMethod
    | InvalidTarget
    | UnsupportedVersion
    | InvalidHeader
    | InvalidText

  datatype HeadParse =
    | Incomplete
    | Complete(request: RequestHead, consumed: nat)
    | Invalid(error: ParseError)

  datatype LineParse = Line(verb: Bytes, target: Bytes, version: HttpVersion) | BadLine(error: ParseError)

  datatype Framing =
    | Length(value: nat)
    | InvalidContentLength
    | ConflictingContentLength
    | UnsupportedTransferEncoding

  // ---------------------------------------------------------------- characters

  predicate IsDigit(c: char) { '0' <= c <= '9' }

  predicate IsToken(c: char) {
    || IsDigit(c) || 'a' <= c <= 'z' || 'A' <= c <= 'Z'
    || c == '!' || '#' <= c <= '\'' || c == '*' || c == '+' || c == '-' || c == '.' || '^' <= c <= '`' || c == '|'
      || c == '~'
  }

  predicate IsControl(c: char) { c < ' ' || c == 127 as char }

  /** The separators of `split_ascii_whitespace`. */
  predicate IsSpace(c: char) { c == ' ' || c == '\t' || c == '\n' || c == '\r' || c == 12 as char }

  predicate IsWordChar(c: char) { !IsSpace(c) }

  predicate IsBlank(c: char) { c == ' ' || c == '\t' }

  predicate All(p: char -> bool, s: Bytes) { forall i | 0 <= i < |s| :: p(s[i]) }

  function Lower(c: char): char {
    if 'A' <= c <= 'Z' then (c as int + 32) as char else c
  }

  function LowerAll(s: Bytes): (r: Bytes) {
    seq(|s|, i requires 0 <= i < |s| => Lower(s[i]))
  }

  // ---------------------------------------------------------------- splitting

  predicate OccursAt(pattern: Bytes, s: Bytes, i: nat) {
    i + |pattern| <= |s| && s[i..i + |pattern|] == pattern
  }

  /** The first occurrence of a pattern at or after an offset. */
  function Find(pattern: Bytes, s: Bytes, from: nat): (r: Option<nat>)
    requires from <= |s|
    ensures r.Some? ==> from <= r.value && OccursAt(pattern, s, r.value)
    ensures r.Some? ==> forall j | from <= j < r.value :: !OccursAt(pattern, s, j)
    ensures r.None? ==> forall j | from <= j <= |s| :: !OccursAt(pattern, s, j)
    decreases |s| - from
  {
    if OccursAt(pattern, s, from) then Some(from)
    else if from == |s| then None
    else Find(pattern, s, from + 1)
  }

  /** `str::split("\r\n")`. */
  function Lines(text: Bytes): (r: seq<Bytes>)
    ensures r != []
    decreases |text|
  {
    match Find(CRLF, text, 0)
    case None => [text]
    case Some(i) => [text[..i]] + Lines(text[i + 2..])
  }

  /** The length of the longest prefix that satisfies a predicate. */
  function Span(p: char -> bool, s: Bytes): (n: nat)
    ensures n <= |s| && All(p, s[..n])
    ensures n < |s| ==> !p(s[n])
  {
    if s == "" || !p(s[0]) then 0
    else
      var n := 1 + Span(p, s[1..]);
      assert forall i | 1 <= i < n :: s[i] == s[1..][..n - 1][i - 1];
      n
  }

  function TrimStart(p: char -> bool, s: Bytes): (r: Bytes)
    ensures |r| <= |s|
  {
    s[Span(p, s)..]
  }

  function TrimEnd(p: char -> bool, s: Bytes): (r: Bytes)
    ensures r <= s
    ensures r != "" ==> !p(r[|r| - 1])
    ensures forall i | |r| <= i < |s| :: p(s[i])
  {
    if s == "" || !p(s[|s| - 1]) then s else TrimEnd(p, s[..|s| - 1])
  }

  function Trim(p: char -> bool, s: Bytes): Bytes { TrimEnd(p, TrimStart(p, s)) }

  /** `str::split_ascii_whitespace`. */
  function Words(line: Bytes): seq<Bytes>
    decreases |line|
  {
    var s := TrimStart(IsSpace, line);
    if s == "" then []
    else
      var n := Span(IsWordChar, s);
      [s[..n]] + Words(s[n..])
  }

  // ---------------------------------------------------------------- the head

  function ParseRequestLine(line: Bytes): LineParse {
    var parts := Words(line);
    if |parts| != 3 then BadLine(InvalidRequestLine)
    else if !All(IsToken, parts[0]) then BadLine(InvalidMethod)
    else if parts[1] == "" || exists i | 0 <= i < |parts[1]| :: IsControl(parts[1][i]) then BadLine(InvalidTarget)
    else if parts[2] == "HTTP/1.0" then Line(parts[0], parts[1], Http10)
    else if parts[2] == "HTTP/1.1" then Line(parts[0], parts[1], Http11)
    else BadLine(UnsupportedVersion)
  }

  function ParseHeader(line: Bytes): Option<Header> {
    match Find(":", line, 0)
    case None => None
    case Some(i) =>
      var name, value := line[..i], line[i + 1..];
      if name == "" || !All(IsToken, name) || '\r' in value || '\n' in value then None
      else Some(Header(LowerAll(name), Trim(IsBlank, value)))
  }

  /** Every non-empty line is a header; one bad line spoils the head. */
  function ParseHeaders(lines: seq<Bytes>): Option<seq<Header>> {
    if lines == [] then Some([])
    else if lines[0] == "" then ParseHeaders(lines[1..])
    else
      match ParseHeader(lines[0])
      case None => None
      case Some(header) =>
        match ParseHeaders(lines[1..])
        case None => None
        case Some(rest) => Some([header] + rest)
  }

  predicate IsAscii(c: char) { c < 128 as char }

  /** The head `text` without its terminator. */
  function ParseHeadText(text: Bytes): (r: HeadParse)
    ensures !r.Incomplete?
    ensures r.Complete? ==> r.consumed == |text| + 4
  {
    if !All(IsAscii, text) then Invalid(InvalidText)
    else
      var lines := Lines(text);
      match ParseRequestLine(lines[0])
      case BadLine(error) => Invalid(error)
      case Line(verb, target, version) =>
        match ParseHeaders(lines[1..])
        case None => Invalid(InvalidHeader)
        case Some(headers) => Complete(RequestHead(verb, target, version, headers), |text| + 4)
  }

  function ParseHead(bytes: Bytes): (r: HeadParse)
    ensures r.Complete? ==> r.consumed <= |bytes|
    ensures r.Incomplete? ==> Find(HEAD_END, bytes, 0).None?
  {
    match Find(HEAD_END, bytes, 0)
    case None => if |bytes| > MAX_REQUEST_HEAD_SIZE then Invalid(HeadTooLarge) else Incomplete
    case Some(end) => if end > MAX_REQUEST_HEAD_SIZE then Invalid(HeadTooLarge) else ParseHeadText(bytes[..end])
  }

  /** The parser as the source runs it. */
  method ParseRequestHead(bytes: Bytes) returns (r: HeadParse)
    ensures r == ParseHead(bytes)
  {
    var headEnd := Find(HEAD_END, bytes, 0);
    if headEnd == None {
      if |bytes| > MAX_REQUEST_HEAD_SIZE {
        return Invalid(HeadTooLarge);
      }
      return Incomplete;
    }
    if headEnd.value > MAX_REQUEST_HEAD_SIZE {
      return Invalid(HeadTooLarge);
    }
    var text := bytes[..headEnd.value];
    if !All(IsAscii, text) {
      return Invalid(InvalidText);
    }
    var lines := Lines(text);
    var requestLine := ParseRequestLine(lines[0]);
    if requestLine.BadLine? {
      return Invalid(requestLine.error);
    }
    var headers := CollectHeaders(lines[1..]);
    if headers == None {
      return Invalid(InvalidHeader);
    }
    r := Complete(RequestHead(requestLine.verb, requestLine.target, requestLine.version, headers.value),
      headEnd.value + 4);
  }

  /** Its loop: one pass over the lines, growing the header list. */
  method CollectHeaders(lines: seq<Bytes>) returns (r: Option<seq<Header>>)
    ensures r == ParseHeaders(lines)
  {
    var headers: seq<Header> := [];
    assert lines[0..] == lines;
    assert ParseHeaders(lines).Some? ==> headers + ParseHeaders(lines).value == ParseHeaders(lines).value;
    for i := 0 to |lines|
      invariant ParseHeaders(lines) ==
                match ParseHeaders(lines[i..]) case None => None case Some(rest) => Some(headers + rest)
    {
      assert lines[i..][0] == lines[i] && lines[i..][1..] == lines[i + 1..];
      if lines[i] == "" {
        continue;
      }
      var header := ParseHeader(lines[i]);
      if header == None {
        return None;
      }
      ghost var rest := ParseHeaders(lines[i + 1..]);
      assert rest.Some? ==> headers + ([header.value] + rest.value) == headers + [header.value] + rest.value;
      headers := headers + [header.value];
    }
    assert headers + [] == headers;
    r := Some(headers);
  }

  // ---------------------------------------------------------------- body framing

  /** The number written by a string of decimal digits. */
  function Decimal(digits: Bytes): nat
    requires All(IsDigit, digits)
  {
    if digits == "" then 0
    else 10 * Decimal(digits[..|digits| - 1]) + (digits[|digits| - 1] as nat - '0' as nat)
  }

  /** A content-length field: digits only, and a value that fits in a machine word. */
  predicate IsLength(value: Bytes) {
    value != "" && All(IsDigit, value) && Decimal(value) <= USIZE_MAX
  }

  lemma {:induction false} DecimalOfDigits(n: nat)
    ensures All(IsDigit, Digits(n)) && Decimal(Digits(n)) == n
  {
    if n >= 10 {
      DecimalOfDigits(n / 10);
      var d := Digits(n);
      assert |Digits(n % 10)| == 1 && d == Digits(n / 10) + Digits(n % 10);
      assert d[..|d| - 1] == Digits(n / 10);
    } else {
      assert Digits(n)[..0] == "";
    }
  }

  function LengthHeaders(headers: seq<Header>): (values: seq<Bytes>)
    ensures forall v :: v in values <==> exists i :: 0 <= i < |headers| && headers[i] == Header("content-length", v)
  {
    if headers == [] then []
    else
      var rest := LengthHeaders(headers[1..]);
      assert forall i | 0 <= i < |headers| - 1 :: headers[1..][i] == headers[i + 1];
      assert forall i | 0 < i < |headers| :: headers[i] == headers[1..][i - 1];
      if headers[0].name == "content-length" then
        assert headers[0] == Header("content-length", headers[0].value);
        [headers[0].value] + rest
      else rest
  }

  predicate HasTransferEncoding(headers: seq<Header>) {
    exists i | 0 <= i < |headers| :: headers[i].name == "transfer-encoding"
  }

  /** What section 6.3 of RFC 9112 leaves once transfer codings are refused: no length means no body,
      one length (however often repeated) is the body, the first bad or differing one is an error. */
  function FrameLengths(values: seq<Bytes>, known: Option<nat>): Framing {
    if values == [] then Length(if known.Some? then known.value else 0)
    else if !IsLength(values[0]) then InvalidContentLength
    else if known.Some? && known.value != Decimal(values[0]) then ConflictingContentLength
    else FrameLengths(values[1..], Some(Decimal(values[0])))
  }

  function BodyLength(headers: seq<Header>): Framing {
    if HasTransferEncoding(headers) then UnsupportedTransferEncoding
    else FrameLengths(LengthHeaders(headers), None)
  }

  /** The accumulator loop of `RequestHead::body_length`. */
  method ComputeBodyLength(head: RequestHead) returns (r: Framing)
    ensures r == BodyLength(head.headers)
  {
    var headers := head.headers;
    if exists i | 0 <= i < |headers| :: headers[i].name == "transfer-encoding" {
      return UnsupportedTransferEncoding;
    }
    var contentLength: Option<nat> := None;
    var i := 0;
    while i < |headers|
      invariant i <= |headers|
      invariant FrameLengths(LengthHeaders(headers), None) == FrameLengths(LengthHeaders(headers[i..]), contentLength)
    {
      assert headers[i..][0] == headers[i] && headers[i..][1..] == headers[i + 1..];
      if headers[i].name == "content-length" {
        ghost var values := LengthHeaders(headers[i..]);
        assert values[0] == headers[i].value && values[1..] == LengthHeaders(headers[i + 1..]);
        if !IsLength(headers[i].value) {
          return InvalidContentLength;
        }
        var value := Decimal(headers[i].value);
        if contentLength.Some? && contentLength.value != value {
          return ConflictingContentLength;
        }
        contentLength := Some(value);
      }
      i := i + 1;
    }
    r := Length(if contentLength.Some? then contentLength.value else 0);
  }

  lemma {:induction false} FrameLengthsMeaning(values: seq<Bytes>, known: Option<nat>, n: nat)
    ensures FrameLengths(values, known) == Length(n) <==>
            && (forall v | v in values :: IsLength(v) && Decimal(v) == n)
            && (if known.Some? then known.value == n else values == [] ==> n == 0)
  {
    if values != [] {
      assert forall v :: v in values <==> v == values[0] || v in values[1..];
      if IsLength(values[0]) {
        FrameLengthsMeaning(values[1..], Some(Decimal(values[0])), n);
      } else {
        assert values[0] in values;
      }
    }
  }

  /** Exactly when a head frames a body of `n` bytes: no transfer coding, and every content-length field
      is a number equal to `n` (no such field at all means 0). */
  lemma BodyLengthMeaning(headers: seq<Header>, n: nat)
    ensures BodyLength(headers) == Length(n) <==>
            && !HasTransferEncoding(headers)
            && (forall v | v in LengthHeaders(headers) :: IsLength(v) && Decimal(v) == n)
            && (LengthHeaders(headers) == [] ==> n == 0)
  {
    FrameLengthsMeaning(LengthHeaders(headers), None, n);
  }

  // ---------------------------------------------------------------- request intake

  datatype Pending = Pending(head: RequestHead, bodyStart: nat, bodyEnd: nat) {
    ghost predicate Valid() { bodyStart <= bodyEnd }
  }

  /** Why a request is refused: with status 413, 400, 400 or 501. */
  datatype Refusal = TooLarge | InvalidRequest | InvalidLength | UnsupportedCoding

  datatype Intake =
    | More(buffer: Bytes, pending: Option<Pending>)
    | Rejected(refusal: Refusal)
    | Ready(head: RequestHead, body: Bytes)

  ghost predicate PendingOk(pending: Option<Pending>) { pending.Some? ==> pending.value.Valid() }

  function Finish(buffer: Bytes, pending: Pending): (r: Intake)
    requires pending.Valid()
  {
    if |buffer| >= pending.bodyEnd then Ready(pending.head, buffer[pending.bodyStart..pending.bodyEnd])
    else More(buffer, Some(pending))
  }

  /** What becomes of the buffered bytes `all`, given what the head parser says of them. */
  function Judge(limit: nat, parse: HeadParse, all: Bytes): (r: Intake)
    ensures r.More? ==> PendingOk(r.pending) && r.buffer == all
  {
    match parse
    case Incomplete => More(all, None)
    case Invalid(_) => Rejected(InvalidRequest)
    case Complete(head, consumed) =>
      match BodyLength(head.headers)
      case UnsupportedTransferEncoding => Rejected(UnsupportedCoding)
      case InvalidContentLength => Rejected(InvalidLength)
      case ConflictingContentLength => Rejected(InvalidLength)
      case Length(n) =>
        if consumed + n > USIZE_MAX || consumed + n > limit then Rejected(TooLarge)
        else Finish(all, Pending(head, consumed, consumed + n))
  }

  /** What one received chunk does to a request being read, under a limit on the buffered bytes. */
  function Ingest(limit: nat, buffer: Bytes, pending: Option<Pending>, chunk: Bytes): (r: Intake)
    requires PendingOk(pending)
    ensures r.More? ==> PendingOk(r.pending) && r.buffer == buffer + chunk && |r.buffer| <= limit
  {
    var all := buffer + chunk;
    if |all| > limit then Rejected(TooLarge)
    else if pending.Some? then Finish(all, pending.value)
    else Judge(limit, ParseHead(all), all)
  }

  /** The intake as both workers run it. */
  method ReceiveRequest(limit: nat, buffer: Bytes, pending: Option<Pending>, chunk: Bytes) returns (r: Intake)
    requires PendingOk(pending)
    ensures r == Ingest(limit, buffer, pending, chunk)
  {
    if |buffer| + |chunk| > limit {
      return Rejected(TooLarge);
    }
    var all := buffer + chunk;
    if pending.Some? {
      return Finish(all, pending.value);
    }
    var parse := ParseRequestHead(all);
    r := FrameRequest(limit, parse, all);
  }

  /** Frame the body of a parsed head. */
  method FrameRequest(limit: nat, parse: HeadParse, all: Bytes) returns (r: Intake)
    ensures r == Judge(limit, parse, all)
  {
    match parse {
      case Incomplete => r := More(all, None);
      case Invalid(_) => r := Rejected(InvalidRequest);
      case Complete(head, consumed) =>
        var framing := ComputeBodyLength(head);
        if framing.UnsupportedTransferEncoding? {
          return Rejected(UnsupportedCoding);
        }
        if !framing.Length? {
          return Rejected(InvalidLength);
        }
        var bodyEnd := consumed + framing.value;
        if bodyEnd > USIZE_MAX || bodyEnd > limit {
          return Rejected(TooLarge);
        }
        r := Finish(all, Pending(head, consumed, bodyEnd));
    }
  }

  /** Successive chunks, until the request is complete or refused. */
  function Feed(limit: nat, buffer: Bytes, pending: Option<Pending>, chunks: seq<Bytes>): Intake
    requires PendingOk(pending)
    decreases |chunks|
  {
    if chunks == [] then More(buffer, pending)
    else
      match Ingest(limit, buffer, pending, chunks[0])
      case More(buffer', pending') => Feed(limit, buffer', pending', chunks[1..])
      case done => done
  }

  /** The same bytes received at once. */
  function Whole(limit: nat, stream: Bytes): Intake { Ingest(limit, "", None, stream) }

  /** The head ends within three bytes of the size limit: a reader that has seen more than the limit but
      not yet the terminator gives up, while one that sees the terminator accepts. */
  predicate OnBoundary(stream: Bytes) {
    match Find(HEAD_END, stream, 0)
    case None => false
    case Some(end) => MAX_REQUEST_HEAD_SIZE - 2 <= end <= MAX_REQUEST_HEAD_SIZE
  }

  lemma FindInPrefixFrom(pattern: Bytes, front: Bytes, rest: Bytes, from: nat)
    requires from <= |front|
    ensures var r, s := Find(pattern, front, from), Find(pattern, front + rest, from);
            if r.Some? then s == r else s.Some? ==> s.value + |pattern| > |front|
    decreases |front| - from
  {
    if from + |pattern| <= |front| {
      assert front[from..from + |pattern|] == (front + rest)[from..from + |pattern|];
    }
    if from < |front| {
      FindInPrefixFrom(pattern, front, rest, from + 1);
    }
  }

  lemma FindInPrefix(pattern: Bytes, front: Bytes, rest: Bytes)
    ensures var r, s := Find(pattern, front, 0), Find(pattern, front + rest, 0);
            if r.Some? then s == r else s.Some? ==> s.value + |pattern| > |front|
  {
    FindInPrefixFrom(pattern, front, rest, 0);
  }

  /** The parser's answer depends only on the bytes up to the head terminator. */
  lemma ParseInPrefix(front: Bytes, rest: Bytes)
    ensures Find(HEAD_END, front, 0).Some? ==> ParseHead(front + rest) == ParseHead(front)
    ensures Find(HEAD_END, front, 0).None? && |front| <= MAX_REQUEST_HEAD_SIZE ==> ParseHead(front) == Incomplete
    ensures Find(HEAD_END, front, 0).None? && |front| > MAX_REQUEST_HEAD_SIZE ==>
              ParseHead(front) == Invalid(HeadTooLarge)
                && (OnBoundary(front + rest) || ParseHead(front + rest) == Invalid(HeadTooLarge))
  {
    FindInPrefix(HEAD_END, front, rest);
    var r := Find(HEAD_END, front, 0);
    if r.Some? {
      assert front[..r.value] == (front + rest)[..r.value];
    }
  }

  lemma JudgeExtends(limit: nat, parse: HeadParse, front: Bytes, rest: Bytes)
    requires parse.Complete? ==> parse.consumed <= |front|
    ensures var r, s := Judge(limit, parse, front), Judge(limit, parse, front + rest);
            match r
            case More(_, None) => parse.Incomplete?
            case More(_, Some(p)) => s == Finish(front + rest, p)
            case _ => s == r
  {
    if parse.Complete? && BodyLength(parse.request.headers).Length? {
      var end := parse.consumed + BodyLength(parse.request.headers).value;
      if end <= |front| {
        assert front[parse.consumed..end] == (front + rest)[parse.consumed..end];
      }
    }
  }

  lemma WholeIsJudge(limit: nat, stream: Bytes)
    requires |stream| <= limit
    ensures Whole(limit, stream) == Judge(limit, ParseHead(stream), stream)
  {
    assert "" + stream == stream;
  }

  /** A finished intake stays finished, whatever follows. */
  lemma WholeExtends(limit: nat, front: Bytes, rest: Bytes)
    requires |front + rest| <= limit && !OnBoundary(front + rest)
    requires !Whole(limit, front).More?
    ensures Whole(limit, front + rest) == Whole(limit, front)
  {
    WholeIsJudge(limit, front);
    WholeIsJudge(limit, front + rest);
    ParseInPrefix(front, rest);
    JudgeExtends(limit, ParseHead(front), front, rest);
  }

  /** One more chunk on an unfinished intake is the same as having had all the bytes at once. */
  lemma IngestIsWhole(limit: nat, front: Bytes, chunk: Bytes)
    requires |front + chunk| <= limit && Whole(limit, front).More?
    ensures Ingest(limit, front, Whole(limit, front).pending, chunk) == Whole(limit, front + chunk)
  {
    WholeIsJudge(limit, front);
    WholeIsJudge(limit, front + chunk);
    ParseInPrefix(front, chunk);
    JudgeExtends(limit, ParseHead(front), front, chunk);
  }

  lemma {:induction false} FeedFrom(limit: nat, front: Bytes, chunks: seq<Bytes>)
    requires |front + Flatten(chunks)| <= limit && !OnBoundary(front + Flatten(chunks))
    requires Whole(limit, front).More?
    ensures Feed(limit, front, Whole(limit, front).pending, chunks) == Whole(limit, front + Flatten(chunks))
    decreases |chunks|
  {
    assert "" + front == front;
    if chunks == [] {
      assert front + "" == front;
    } else {
      var chunk, rest := chunks[0], Flatten(chunks[1..]);
      assert front + Flatten(chunks) == (front + chunk) + rest;
      IngestIsWhole(limit, front, chunk);
      assert "" + (front + chunk) == front + chunk;
      if Whole(limit, front + chunk).More? {
        FeedFrom(limit, front + chunk, chunks[1..]);
      } else {
        WholeExtends(limit, front + chunk, rest);
      }
    }
  }

  ghost predicate SplitsInto(stream: Bytes, chunks: seq<Bytes>) {
    Flatten(chunks) == stream && forall i | 0 <= i < |chunks| :: chunks[i] != ""
  }

  /** Fragmentation independence, exactly: every way of cutting a stream into non-empty reads gives the same
      head, body or refusal as one read of it all, if and only if the head does not end within the last
      three bytes of the limit or is refused as invalid anyway. */
  lemma FragmentationIndependence(limit: nat, stream: Bytes)
    requires |stream| <= limit
    ensures (forall chunks | SplitsInto(stream, chunks) :: Feed(limit, "", None, chunks) == Whole(limit, stream)) <==>
            !OnBoundary(stream) || Whole(limit, stream) == Rejected(InvalidRequest)
  {
    assert Whole(limit, "") == More("", None);
    if !OnBoundary(stream) {
      forall chunks | SplitsInto(stream, chunks)
        ensures Feed(limit, "", None, chunks) == Whole(limit, stream)
      {
        assert "" + Flatten(chunks) == stream;
        FeedFrom(limit, "", chunks);
      }
    } else if Whole(limit, stream) != Rejected(InvalidRequest) {
      var bad := BoundarySplit(limit, stream);
    } else {
      forall chunks | SplitsInto(stream, chunks)
        ensures Feed(limit, "", None, chunks) == Whole(limit, stream)
      {
        assert "" + Flatten(chunks) == stream;
        FeedInvalid(limit, "", chunks);
      }
    }
  }

  /** The reads that a boundary head does not survive. */
  lemma BoundarySplit(limit: nat, stream: Bytes) returns (chunks: seq<Bytes>)
    requires |stream| <= limit && OnBoundary(stream)
    ensures SplitsInto(stream, chunks)
    ensures Feed(limit, "", None, chunks) == Rejected(InvalidRequest)
  {
    var cut := MAX_REQUEST_HEAD_SIZE + 1;
    var first, second := stream[..cut], stream[cut..];
    chunks := [first, second];
    assert chunks[1..] == [second] && [second][1..] == [];
    assert Flatten(chunks) == first + Flatten([second]) == first + (second + "") == first + second;
    assert stream == first + second;
    FindInPrefix(HEAD_END, first, second);
    ParseInPrefix(first, second);
    WholeIsJudge(limit, first);
  }

  /** A boundary head that is invalid on its own is refused the same way on every path. */
  lemma {:induction false} FeedInvalid(limit: nat, front: Bytes, chunks: seq<Bytes>)
    requires |front + Flatten(chunks)| <= limit && OnBoundary(front + Flatten(chunks))
    requires Whole(limit, front + Flatten(chunks)) == Rejected(InvalidRequest)
    requires Whole(limit, front) == More(front, None)
    ensures Feed(limit, front, None, chunks) == Rejected(InvalidRequest)
    decreases |chunks|
  {
    assert chunks == [] ==> front + Flatten(chunks) == front;
    if chunks != [] {
      var seen, rest := front + chunks[0], Flatten(chunks[1..]);
      assert front + Flatten(chunks) == seen + rest;
      IngestIsWhole(limit, front, chunks[0]);
      WholeIsJudge(limit, seen);
      WholeIsJudge(limit, seen + rest);
      ParseInPrefix(seen, rest);
      JudgeExtends(limit, ParseHead(seen), seen, rest);
      if Whole(limit, seen).More? {
        FeedInvalid(limit, seen, chunks[1..]);
      }
    }
  }
}
