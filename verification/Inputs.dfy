/** The bytes that show it: a request as a client writes it, and the inputs on which the code does less than it should.
    */
module Inputs {
  import opened Common
  import opened Http
  import opened Upstream
  import Exchange
  import Server
  import Readiness
  import UringState
  import UringProgress

  // ---------------------------------------------------------------- requests as clients write them

  function StartLine(request: RequestHead): Bytes { request.verb + " " + request.target + " HTTP/1.1" }

  function Head(request: RequestHead): Bytes { Join([StartLine(request)] + HeaderLines(request.headers)) }

  function Written(request: RequestHead, body: Bytes): Bytes { Head(request) + (HEAD_END + body) }

  /** No upstream that matters here: with it, the target stays as it is. */
  const NOWHERE: Upstream := Upstream("", "", "")

  predicate Writable(request: RequestHead) {
    WellFormed(request) && request.version == Http11 && |Head(request)| <= MAX_REQUEST_HEAD_SIZE
  }

  lemma TwoLines(a: Bytes, b: Bytes)
    ensures |Join([a] + [b])| == |a| + 2 + |b|
  {
    assert ([a] + [b])[1..] == [b];
  }

  lemma ThreeLines(a: Bytes, b: Bytes, c: Bytes)
    ensures |Join([a] + ([b] + [c]))| == |a| + 2 + |b| + 2 + |c|
  {
    assert ([a] + ([b] + [c]))[1..] == [b] + [c];
    TwoLines(b, c);
  }

  lemma LinesBack(request: RequestHead)
    requires WellFormed(request)
    ensures AllReadBack(HeaderLines(request.headers), request.headers)
  {
    var headers := request.headers;
    forall i | 0 <= i < |headers| ensures ReadsBack(HeaderLines(headers)[i], headers[i]) {
      HeaderLineBack(headers[i].name, headers[i].value, headers[i]);
    }
  }

  lemma StartBack(request: RequestHead)
    requires WellFormed(request)
    ensures CleanLine(StartLine(request))
    ensures ParseRequestLine(StartLine(request)) == Line(request.verb, request.target, Http11)
  {
    assert StartLine(request) == RequestLine(NOWHERE, request);
    RequestLineClean(NOWHERE, request);
    RequestLineBack(NOWHERE, request);
  }

  lemma LinesAreParsed(start: Bytes, fields: seq<Bytes>, request: RequestHead, body: Bytes)
    requires CleanLine(start) && ParseRequestLine(start) == Line(request.verb, request.target, request.version)
    requires CleanLines(fields) && ParseHeaders(fields) == Some(request.headers)
    requires |Join([start] + fields)| <= MAX_REQUEST_HEAD_SIZE
    ensures var head := Join([start] + fields);
            && ParseHead(head + (HEAD_END + body)) == Complete(request, |head| + 4)
            && Find(HEAD_END, head + (HEAD_END + body), 0) == Some(|head|)
  {
    CleanFront(start, fields);
    assert ([start] + fields)[1..] == fields;
    HeadBack([start] + fields, ParseRequestLine(start), request.headers, body);
    HeadEndOfJoin([start] + fields, body);
  }

  /** What is written is read back. */
  lemma WrittenIsParsed(request: RequestHead, body: Bytes)
    requires Writable(request)
    ensures ParseHead(Written(request, body)) == Complete(request, |Head(request)| + 4)
    ensures Find(HEAD_END, Written(request, body), 0) == Some(|Head(request)|)
  {
    StartBack(request);
    LinesBack(request);
    ReadBackIsParsed(HeaderLines(request.headers), request.headers);
    LinesAreParsed(StartLine(request), HeaderLines(request.headers), request, body);
  }

  /** A reader of the same rules gets exactly the request. */
  lemma WrittenIsReceived(limit: nat, request: RequestHead, body: Bytes)
    requires Writable(request) && BodyLength(request.headers) == Length(|body|)
    requires |Written(request, body)| <= limit <= USIZE_MAX
    ensures Whole(limit, Written(request, body)) == Ready(request, body)
  {
    WrittenIsParsed(request, body);
    BodyIsLast(Head(request), body);
    ParsedIsReceived(limit, request, Written(request, body), body);
  }

  lemma BodyIsLast(head: Bytes, body: Bytes)
    ensures var all := head + (HEAD_END + body);
            |all| == |head| + 4 + |body| && all[|all| - |body|..] == body
  {
  }

  lemma ParsedIsReceived(limit: nat, request: RequestHead, all: Bytes, body: Bytes)
    requires |body| <= |all| <= limit <= USIZE_MAX && all[|all| - |body|..] == body
    requires ParseHead(all) == Complete(request, |all| - |body|) && BodyLength(request.headers) == Length(|body|)
    ensures Whole(limit, all) == Ready(request, body)
  {
    WholeIsJudge(limit, all);
    JudgeReady(limit, request, all, body);
  }

  // ---------------------------------------------------------------- a head on the boundary

  /** A head of exactly the greatest size. */
  function LongHead(): RequestHead {
    RequestHead("GET", "/", Http11, [Header("x", seq(MAX_REQUEST_HEAD_SIZE - 19, _ => 'a'))])
  }

  lemma LongHeadIsWritable()
    ensures Writable(LongHead()) && |Head(LongHead())| == MAX_REQUEST_HEAD_SIZE
  {
    var header := LongHead().headers[0];
    assert Span(IsBlank, header.value) == 0;
    assert header.name == "x" && LowerAll("x") == "x" && WellFormedHeader(header);
    var start, line := StartLine(LongHead()), HeaderLine(header);
    assert |start| == 14 && |line| == MAX_REQUEST_HEAD_SIZE - 16;
    assert HeaderLines(LongHead().headers) == [line];
    TwoLines(start, line);
  }

  /** In one read the request is complete; cut in two it is refused. */
  lemma BoundaryHead(limit: nat) returns (chunks: seq<Bytes>)
    requires |Written(LongHead(), "")| <= limit <= USIZE_MAX
    ensures var stream := Written(LongHead(), "");
            && OnBoundary(stream) && Whole(limit, stream) == Ready(LongHead(), "")
            && SplitsInto(stream, chunks) && Feed(limit, "", None, chunks) == Rejected(InvalidRequest)
  {
    var stream := Written(LongHead(), "");
    LongHeadIsWritable();
    WrittenIsParsed(LongHead(), "");
    NoLength(LongHead().headers[0]);
    WrittenIsReceived(limit, LongHead(), "");
    chunks := BoundarySplit(limit, stream);
  }

  lemma NoLength(header: Header)
    requires header.name == "x"
    ensures BodyLength([header]) == Length(0)
  {
    assert LengthHeaders([header]) == [];
    BodyLengthMeaning([header], 0);
  }

  // ---------------------------------------------------------------- a lost length

  /** A client may name the length of its body as a field for this hop only. */
  function Stripped(): RequestHead {
    RequestHead("POST", "/", Http11, [Header("content-length", "1")] + [Header("connection", "content-length")])
  }

  lemma StrippedIsWritable()
    ensures Writable(Stripped())
  {
    StrippedSize();
    LowerLetters("content-length", "content-length");
    LowerLetters("connection", "connection");
    Server.NothingToTrim("1");
    Server.NothingToTrim("content-length");
    LengthFieldIsWellFormed();
    ConnectionFieldIsWellFormed();
  }

  lemma StrippedSize()
    ensures |Head(Stripped())| < 100
  {
    var length, connection := Header("content-length", "1"), Header("connection", "content-length");
    assert HeaderLines(Stripped().headers) == [HeaderLine(length)] + [HeaderLine(connection)];
    ThreeLines(StartLine(Stripped()), HeaderLine(length), HeaderLine(connection));
    assert |HeaderLine(length)| < 30 && |HeaderLine(connection)| < 30;
  }

  lemma LengthFieldIsWellFormed()
    requires LowerAll("content-length") == "content-length" && Trim(IsBlank, "1") == "1"
    ensures WellFormedHeader(Header("content-length", "1"))
  {
  }

  lemma ConnectionFieldIsWellFormed()
    requires LowerAll("connection") == "connection" && Trim(IsBlank, "content-length") == "content-length"
    ensures WellFormedHeader(Header("connection", "content-length"))
  {
  }

  /** The client's request has a body of one byte; what is sent upstream reads as a request without one, and the byte is
      left over. */
  lemma LostContentLength(upstream: Upstream, limit: nat)
    requires CleanUpstream(upstream)
    requires |Written(Stripped(), "x")| <= limit && |Print(upstream, Stripped(), "x")| <= limit <= USIZE_MAX
    requires ForwardedHeadSize(upstream, Stripped()) <= MAX_REQUEST_HEAD_SIZE
    ensures Whole(limit, Written(Stripped(), "x")) == Ready(Stripped(), "x")
    ensures Whole(limit, Print(upstream, Stripped(), "x")) == Ready(Forwarded(upstream, Stripped()), "")
    ensures |Print(upstream, Stripped(), "x")| > 0
    ensures ParseHead(Print(upstream, Stripped(), "x")) ==
              Complete(Forwarded(upstream, Stripped()), |Print(upstream, Stripped(), "x")| - 1)
  {
    var length, connection := Header("content-length", "1"), Header("connection", "content-length");
    StrippedIsWritable();
    OneIsTheLength(length, connection);
    StripsTheLength(length, connection);
    WrittenIsReceived(limit, Stripped(), "x");
    NoLengthForwarded(upstream, Stripped());
    PrintThenParse(upstream, Stripped(), "x");
    NoBodyReceived(limit, Forwarded(upstream, Stripped()), Print(upstream, Stripped(), "x"), "x");
  }

  lemma NoLengthForwarded(upstream: Upstream, request: RequestHead)
    requires "content-length" in Nominated(request.headers)
    ensures BodyLength(Forwarded(upstream, request).headers) == Length(0)
  {
    var nominated := Nominated(request.headers);
    var kept := Kept(request.headers, nominated);
    var host, close := Header("host", Trim(IsBlank, upstream.authority)), Header("connection", "close");
    KeptLengths(request.headers, nominated);
    LengthHeadersAround(host, kept, close);
    NoCodingAround(host, kept, close);
    BodyLengthMeaning([host] + kept + [close], 0);
  }

  lemma NoBodyReceived(limit: nat, head: RequestHead, printed: Bytes, body: Bytes)
    requires |body| <= |printed| <= limit <= USIZE_MAX
    requires ParseHead(printed) == Complete(head, |printed| - |body|)
    requires BodyLength(head.headers) == Length(0)
    ensures Whole(limit, printed) == Ready(head, "")
  {
    WholeIsJudge(limit, printed);
    var n := |printed| - |body|;
    assert printed[n..n] == "";
  }

  // ---------------------------------------------------------------- a long upload

  const UPLOAD: nat := 200_000

  function Upload(): RequestHead {
    RequestHead("POST", "/", Http11, [Header("content-length", Digits(UPLOAD))])
  }

  function UploadBody(): (body: Bytes)
    ensures |body| == UPLOAD
  {
    seq(UPLOAD, _ => 'x')
  }

  lemma UploadIsWritable()
    ensures Writable(Upload()) && BodyLength(Upload().headers) == Length(UPLOAD) && |Head(Upload())| < 100
  {
    UploadFieldIsWellFormed();
    UploadLength(Upload().headers[0]);
    UploadSize();
    OneField("POST", Upload().headers[0]);
  }

  lemma OneField(verb: Bytes, header: Header)
    requires WellFormedHeader(header) && verb != "" && All(IsToken, verb)
    ensures WellFormed(RequestHead(verb, "/", Http11, [header]))
  {
  }

  lemma UploadFieldIsWellFormed()
    ensures WellFormedHeader(Header("content-length", Digits(UPLOAD)))
  {
    LowerLetters("content-length", "content-length");
    Server.DigitsAreClean(UPLOAD);
    LongFieldIsWellFormed(Digits(UPLOAD));
  }

  lemma LongFieldIsWellFormed(value: Bytes)
    requires LowerAll("content-length") == "content-length" && All(IsClean, value) && Trim(IsBlank, value) == value
    ensures WellFormedHeader(Header("content-length", value))
  {
  }

  lemma UploadLength(header: Header)
    requires header == Header("content-length", Digits(UPLOAD))
    ensures BodyLength([header]) == Length(UPLOAD)
  {
    DecimalOfDigits(UPLOAD);
    assert [header][1..] == [] && LengthHeaders([header]) == [Digits(UPLOAD)];
    BodyLengthMeaning([header], UPLOAD);
  }

  lemma UploadSize()
    ensures |Head(Upload())| < 100
  {
    var start, line := StartLine(Upload()), HeaderLine(Upload().headers[0]);
    assert HeaderLines(Upload().headers) == [line];
    TwoLines(start, line);
    UploadDigits();
    assert |start| == 15 && |line| == 22;
  }

  lemma OneMoreDigit(n: nat)
    requires n >= 10
    ensures |Digits(n)| == |Digits(n / 10)| + 1
  {
    assert |Digits(n % 10)| == 1;
  }

  lemma UploadDigits()
    ensures |Digits(UPLOAD)| == 6
  {
    OneMoreDigit(UPLOAD);
    OneMoreDigit(20_000);
    OneMoreDigit(2_000);
    OneMoreDigit(200);
    OneMoreDigit(20);
  }

  /** What a worker has of it after one event: a head, and not yet all of the body. */
  lemma UploadIsUnfinished(limit: nat)
    requires |Written(Upload(), UploadBody())| <= limit <= USIZE_MAX
    ensures var stream := Written(Upload(), UploadBody());
            && |stream| > Readiness.READ_CAPACITY
            && Feed(limit, "", None, Readiness.Pieces(stream, Readiness.MAX_READS_PER_EVENT)).More?
  {
    var stream := Written(Upload(), UploadBody());
    var front, rest := stream[..Readiness.READ_CAPACITY], stream[Readiness.READ_CAPACITY..];
    var pieces := Readiness.Pieces(stream, Readiness.MAX_READS_PER_EVENT);
    UploadIsWritable();
    WrittenIsParsed(Upload(), UploadBody());
    assert stream == front + rest;
    Readiness.PiecesSize(stream, Readiness.MAX_READS_PER_EVENT);
    FrontIsUnfinished(limit, front, rest, Upload(), |Head(Upload())|);
    assert "" + Flatten(pieces) == front;
    assert Whole(limit, "") == More("", None);
    FeedFrom(limit, "", pieces);
  }

  lemma FrontIsUnfinished(limit: nat, front: Bytes, rest: Bytes, head: RequestHead, end: nat)
    requires end + 4 <= |front| <= limit <= USIZE_MAX && end < MAX_REQUEST_HEAD_SIZE - 2
    requires Find(HEAD_END, front + rest, 0) == Some(end) && ParseHead(front + rest) == Complete(head, end + 4)
    requires BodyLength(head.headers) == Length(UPLOAD) && |front| < end + 4 + UPLOAD <= limit
    ensures Whole(limit, front).More? && !OnBoundary(front)
  {
    FindInPrefix(HEAD_END, front, rest);
    ParseInPrefix(front, rest);
    WholeIsJudge(limit, front);
  }

  /** So a worker of the readiness kind that may buffer it forgets its client, as long as nothing else happens. */
  lemma ForgottenUploader(setup: Exchange.Setup) returns (e: Readiness.Entry)
    requires |Written(Upload(), UploadBody())| <= setup.maxRead <= USIZE_MAX
    ensures var stream := Written(Upload(), UploadBody());
            && Readiness.Do(setup, Readiness.NEW, Readiness.ReadClient, Readiness.Pouring(stream)) == Readiness.Stays(e)
            && Readiness.Unheard(Readiness.Stays(e), stream)
  {
    UploadIsUnfinished(setup.maxRead);
    e := Readiness.ForgottenUpload(setup, Written(Upload(), UploadBody()));
  }

  // ---------------------------------------------------------------- a send that is too long

  /** A response head of 2^32 bytes. */
  function Endless(): Exchange.Piece { seq(0x1_0000_0000, _ => 'x') }

  function Get(): RequestHead { RequestHead("GET", "/", Http11, [Header("x", "a")]) }

  lemma GetIsReceived(limit: nat)
    requires |Written(Get(), "")| <= limit <= USIZE_MAX
    ensures Whole(limit, Written(Get(), "")) == Ready(Get(), "")
  {
    Server.NothingToTrim("a");
    assert LowerAll("x") == "x" && WellFormedHeader(Get().headers[0]);
    NoLength(Get().headers[0]);
    assert HeaderLines(Get().headers) == [HeaderLine(Get().headers[0])];
    TwoLines(StartLine(Get()), HeaderLine(Get().headers[0]));
    WrittenIsReceived(limit, Get(), "");
  }

  /** A new connection whose request is answered with it cannot go on: handling its receive ends the worker. */
  lemma SendTooLong(w: UringState.World, slot: nat)
    requires UringState.Placed(w, slot) && w.exchanges[slot] == Exchange.START
    requires |Written(Get(), "")| <= w.setup.maxRead <= USIZE_MAX
    ensures var bytes := Written(Get(), "");
            !UringProgress.CanSubmit(w, slot, Exchange.Received(|bytes|, bytes, Exchange.Serve(Endless(), None)))
  {
    var bytes := Written(Get(), "");
    GetIsReceived(w.setup.maxRead);
    Exchange.StartIsSafe(w.setup);
    TooLongToSend(w.setup, bytes);
  }

  lemma TooLongToSend(setup: Exchange.Setup, bytes: Bytes)
    requires bytes != "" && Whole(setup.maxRead, bytes) == Ready(Get(), "") && Exchange.InOrder(Exchange.START)
    ensures var event := Exchange.Received(|bytes|, bytes, Exchange.Serve(Endless(), None));
            !UringState.Submittable(Exchange.Step(setup, Exchange.START, event))
  {
  }
}
