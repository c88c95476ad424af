/** The pieces put together: the notices as router.rs writes them, the upstream request as proxy.rs prints it, and what
    follows for a request on its way from a client of the io_uring worker to its upstream. */
module Server {
  import opened Common
  import opened Http
  import opened Upstream
  import Exchange

  // ---------------------------------------------------------------- local responses

  function ReasonPhrase(status: nat): Bytes {
    match status
    case 200 => "OK"
    case 201 => "Created"
    case 204 => "No Content"
    case 206 => "Partial Content"
    case 304 => "Not Modified"
    case 400 => "Bad Request"
    case 404 => "Not Found"
    case 405 => "Method Not Allowed"
    case 413 => "Payload Too Large"
    case 416 => "Range Not Satisfiable"
    case 500 => "Internal Server Error"
    case 501 => "Not Implemented"
    case 502 => "Bad Gateway"
    case 504 => "Gateway Timeout"
    case _ => "Unknown"
  }

  function StatusLine(status: nat): (line: Bytes)
    ensures line != ""
  {
    "HTTP/1.1 " + Digits(status) + " " + ReasonPhrase(status)
  }

  const TEXT: Bytes := "text/plain; charset=utf-8"

  function ResponseBytes(status: nat, body: Bytes): Exchange.Piece {
    StatusLine(status) + CRLF + "Content-Type: " + TEXT + CRLF + "Content-Length: " + Digits(|body|) + CRLF
    + "Connection: close" + HEAD_END + body
  }

  function ResponseLines(status: nat, length: nat): seq<Bytes> {
    [StatusLine(status), "Content-Type: " + TEXT, "Content-Length: " + Digits(length), "Connection: close"]
  }

  /** The header fields of a response, as a client reads them. */
  function ResponseHeaders(length: nat): seq<Header> {
    [Header("content-type", TEXT), Header("content-length", Digits(length)), Header("connection", "close")]
  }

  lemma ResponseIsLines(status: nat, body: Bytes)
    ensures ResponseBytes(status, body) == Join(ResponseLines(status, |body|)) + (HEAD_END + body)
  {
    var lines := ResponseLines(status, |body|);
    FourLines(lines[0], lines[1], lines[2], lines[3]);
    ResponseText(lines[0], "Content-Type: ", TEXT, "Content-Length: ", Digits(|body|), lines[3], body);
  }

  lemma FourLines(a: Bytes, b: Bytes, c: Bytes, d: Bytes)
    ensures Join([a, b, c, d]) == a + CRLF + (b + CRLF + (c + CRLF + d))
  {
    assert [a, b, c, d][1..] == [b, c, d] && [b, c, d][1..] == [c, d] && [c, d][1..] == [d];
    assert Join([c, d]) == c + CRLF + d;
    assert Join([b, c, d]) == b + CRLF + (c + CRLF + d);
  }

  lemma ResponseText(a: Bytes, b: Bytes, c: Bytes, d: Bytes, e: Bytes, f: Bytes, body: Bytes)
    ensures a + CRLF + b + c + CRLF + d + e + CRLF + f + HEAD_END + body ==
            (a + CRLF + ((b + c) + CRLF + ((d + e) + CRLF + f))) + (HEAD_END + body)
  {
  }

  lemma ReasonIsClean(status: nat)
    ensures All(IsClean, ReasonPhrase(status))
  {
    if status < 300 {
      SuccessIsClean(status);
    } else if status < 405 {
      BadReasonIsClean(status);
    } else if status < 416 {
      OtherReasonIsClean(status);
    } else if status < 502 {
      FailureIsClean(status);
    } else {
      LateReasonIsClean(status);
    }
  }

  lemma SuccessIsClean(status: nat)
    requires status < 300
    ensures All(IsClean, ReasonPhrase(status))
  {
  }

  lemma BadReasonIsClean(status: nat)
    requires 300 <= status < 405
    ensures All(IsClean, ReasonPhrase(status))
  {
  }

  lemma OtherReasonIsClean(status: nat)
    requires 405 <= status < 416
    ensures All(IsClean, ReasonPhrase(status))
  {
  }

  lemma FailureIsClean(status: nat)
    requires 416 <= status < 502
    ensures All(IsClean, ReasonPhrase(status))
  {
    if status == 416 {
      assert All(IsClean, "Range Not Satisfiable");
    } else if status == 500 {
      assert All(IsClean, "Internal Server Error");
    } else if status == 501 {
      assert All(IsClean, "Not Implemented");
    }
  }

  lemma LateReasonIsClean(status: nat)
    requires 502 <= status
    ensures All(IsClean, ReasonPhrase(status))
  {
  }

  lemma StatusLineIsClean(status: nat)
    ensures CleanLine(StatusLine(status))
  {
    ReasonIsClean(status);
    DecimalOfDigits(status);
    assert All(IsClean, "HTTP/1.1 ") && All(IsClean, " ") && All(IsClean, Digits(status));
    AllConcat(IsClean, "HTTP/1.1 ", Digits(status));
    AllConcat(IsClean, "HTTP/1.1 " + Digits(status), " ");
    AllConcat(IsClean, "HTTP/1.1 " + Digits(status) + " ", ReasonPhrase(status));
  }

  lemma ResponseLinesBack(length: nat)
    ensures AllReadBack(ResponseLines(0, length)[1..], ResponseHeaders(length))
  {
    TypeLineBack();
    LengthLineBack(length);
    CloseLineBack();
    ThreeReadBack(ResponseLines(0, length)[1..], ResponseHeaders(length));
  }

  lemma ThreeReadBack(lines: seq<Bytes>, headers: seq<Header>)
    requires |lines| == |headers| == 3
    requires ReadsBack(lines[0], headers[0]) && ReadsBack(lines[1], headers[1]) && ReadsBack(lines[2], headers[2])
    ensures AllReadBack(lines, headers)
  {
  }

  lemma NothingToTrim(s: Bytes)
    requires s != "" && !IsBlank(s[0]) && !IsBlank(s[|s| - 1])
    ensures Trim(IsBlank, s) == s
  {
    assert Span(IsBlank, s) == 0;
  }

  lemma TextIsClean()
    ensures All(IsClean, TEXT)
  {
  }

  lemma TypeLineBack()
    ensures ReadsBack("Content-Type: " + TEXT, Header("content-type", TEXT))
  {
    TextIsClean();
    NothingToTrim(TEXT);
    FieldBack("Content-Type", "content-type", "Content-Type: ", TEXT);
  }

  lemma FieldBack(name: Bytes, lower: Bytes, start: Bytes, value: Bytes)
    requires name != "" && All(IsToken, name) && All(IsClean, value) && Trim(IsBlank, value) == value
    requires |lower| == |name| && (forall i | 0 <= i < |name| :: lower[i] == Lower(name[i])) && start == name + ": "
    ensures ReadsBack(start + value, Header(lower, value))
  {
    LowerLetters(name, lower);
    HeaderLineBack(name, value, Header(lower, value));
  }

  lemma DigitsAreClean(n: nat)
    ensures All(IsClean, Digits(n)) && Trim(IsBlank, Digits(n)) == Digits(n)
  {
    DecimalOfDigits(n);
    NothingToTrim(Digits(n));
  }

  lemma LengthLineBack(length: nat)
    ensures ReadsBack("Content-Length: " + Digits(length), Header("content-length", Digits(length)))
  {
    DigitsAreClean(length);
    FieldBack("Content-Length", "content-length", "Content-Length: ", Digits(length));
  }

  lemma ResponseLength(length: nat)
    requires length <= USIZE_MAX
    ensures BodyLength(ResponseHeaders(length)) == Length(length)
  {
    var headers := ResponseHeaders(length);
    DecimalOfDigits(length);
    LengthHeadersAround(headers[0], [headers[1]], headers[2]);
    assert [headers[1]][1..] == [] && LengthHeaders([headers[1]]) == [Digits(length)];
    assert headers == [headers[0]] + [headers[1]] + [headers[2]];
    BodyLengthMeaning(headers, length);
  }

  /** The first blank line of a response is right before its body; the lines before it are the status line and fields
      that announce exactly that body. */
  lemma ResponseIsFramed(status: nat, body: Bytes)
    requires |body| <= USIZE_MAX
    ensures var r, end := ResponseBytes(status, body), |ResponseBytes(status, body)| - |body| - 4;
            && end >= 0 && Find(HEAD_END, r, 0) == Some(end) && r[end + 4..] == body
            && Lines(r[..end])[0] == "HTTP/1.1 " + Digits(status) + " " + ReasonPhrase(status)
            && ParseHeaders(Lines(r[..end])[1..]) == Some(ResponseHeaders(|body|))
            && BodyLength(ResponseHeaders(|body|)) == Length(|body|)
  {
    var lines := ResponseLines(status, |body|);
    ResponseIsLines(status, body);
    StatusLineIsClean(status);
    ResponseLinesBack(|body|);
    assert lines[1..] == ResponseLines(0, |body|)[1..];
    ReadBackIsParsed(lines[1..], ResponseHeaders(|body|));
    CleanFront(lines[0], lines[1..]);
    assert lines == [lines[0]] + lines[1..];
    HeadEndOfJoin(lines, body);
    LinesOfJoin(lines);
    assert ResponseBytes(status, body)[..|Join(lines)|] == Join(lines);
    ResponseLength(|body|);
  }

  function RefusalStatus(refusal: Refusal): (nat, Bytes) {
    match refusal
    case TooLarge => (413, "request is too large")
    case InvalidRequest => (400, "invalid HTTP request")
    case InvalidLength => (400, "invalid content length")
    case UnsupportedCoding => (501, "transfer encoding is not supported")
  }

  function TimeoutMessage(phase: Exchange.Phase): Bytes {
    match phase
    case ResolvingPhase => "upstream DNS resolution timed out"
    case ConnectingPhase => "upstream connect timed out"
    case WritingRequest => "upstream request write timed out"
    case ReadingResponse => "upstream response timed out"
  }

  /** The status and text of each notice. */
  function NoticeText(notice: Exchange.Notice): (nat, Bytes) {
    match notice
    case Configured(status, body) => (status, body)
    case Refused(refusal) => RefusalStatus(refusal)
    case ResponseTooLarge => (500, "response is too large")
    case BadUpstream => (502, "upstream configuration failed")
    case UpstreamRequestTooLarge => (502, "upstream request is too large")
    case ResolutionFailed => (502, "upstream DNS resolution failed")
    case NoAddress => (502, "upstream has no address")
    case ConnectionFailed => (502, "upstream connection failed")
    case WriteFailed => (502, "upstream request write failed")
    case InvalidWrite => (502, "invalid upstream write completion")
    case ResponseFailed => (502, "upstream response failed")
    case ChunkTooLarge => (502, "upstream response chunk is too large")
    case TimedOut(phase) => (504, TimeoutMessage(phase))
  }

  function Render(notice: Exchange.Notice): Exchange.Piece {
    var text := NoticeText(notice);
    ResponseBytes(text.0, text.1)
  }

  /** What the statuses of the server's own notices say: too large, a bad request, or one it does not support; too large
      a response; too slow an upstream; any other trouble with one. */
  lemma NoticeStatus(notice: Exchange.Notice)
    requires !notice.Configured?
    ensures Render(notice) == ResponseBytes(NoticeText(notice).0, NoticeText(notice).1)
    ensures var status := NoticeText(notice).0;
            && (status == 413 <==> notice == Exchange.Refused(TooLarge))
            && (status == 400 <==>
              notice == Exchange.Refused(InvalidRequest) || notice == Exchange.Refused(InvalidLength))
            && (status == 501 <==> notice == Exchange.Refused(UnsupportedCoding))
            && (status == 500 <==> notice == Exchange.ResponseTooLarge)
            && (status == 504 <==> notice.TimedOut?)
            && (status == 502 <==> !notice.Refused? && !notice.ResponseTooLarge? && !notice.TimedOut?)
  {
  }

  function Forward(url: Bytes, head: RequestHead, body: Bytes): Option<Exchange.Piece> {
    match ParseUrl(url)
    case BadUrl(_) => None
    case Parsed(upstream) =>
      PrintedIsNotEmpty(upstream, head, body);
      Some(Print(upstream, head, body))
  }

  lemma PrintedIsNotEmpty(upstream: Upstream, head: RequestHead, body: Bytes)
    ensures Print(upstream, head, body) != ""
  {
  }

  /** The worker of this server, for given limits. */
  ghost function ServerSetup(maxRead: nat, maxWrite: nat): Exchange.Setup {
    Exchange.Setup(maxRead, maxWrite, Render, Forward)
  }

  // ---------------------------------------------------------------- what reading a request guarantees

  /** The head was parsed from received bytes, and says how long the body is. */
  ghost predicate Framed(head: RequestHead, length: nat) {
    WellFormed(head) && BodyLength(head.headers) == Length(length)
  }

  lemma WholeIsFramed(limit: nat, stream: Bytes, head: RequestHead, body: Bytes)
    requires Whole(limit, stream) == Ready(head, body)
    ensures Framed(head, |body|)
  {
    assert "" + stream == stream;
    ParsedIsWellFormed(stream);
  }

  // ---------------------------------------------------------------- how the reads are cut does not matter

  /** The bytes that an event adds to the request being read. */
  function ChunkOf(e: Exchange.Exchange, event: Exchange.Event): Bytes {
    if event.Received? && Exchange.Possible(e.stage, event) && event.result > 0 then event.data else ""
  }

  /** All that a run has received of its request. */
  ghost function ReceivedIn(setup: Exchange.Setup, events: seq<Exchange.Event>): Bytes {
    if events == [] then ""
    else
      var front := events[..|events| - 1];
      ReceivedIn(setup, front) + ChunkOf(Exchange.Run(setup, front), events[|events| - 1])
  }

  /** While the request is being read, the connection holds what one read of all its bytes would have left. */
  ghost predicate ReadsWhole(setup: Exchange.Setup, e: Exchange.Exchange, received: Bytes) {
    match e.stage
    case Reading(buffer, pending) =>
      buffer == received && |received| <= setup.maxRead && Whole(setup.maxRead, received) == More(received, pending)
    case _ => true
  }

  lemma IntakeIsWhole(setup: Exchange.Setup, e: Exchange.Exchange, received: Bytes, chunk: Bytes)
    requires ReadsWhole(setup, e, received) && e.stage.Reading? && PendingOk(e.stage.pending)
    ensures Ingest(setup.maxRead, e.stage.buffer, e.stage.pending, chunk) == Whole(setup.maxRead, received + chunk)
  {
    if |received + chunk| <= setup.maxRead {
      IngestIsWhole(setup.maxRead, received, chunk);
    } else {
      assert "" + (received + chunk) == received + chunk;
    }
  }

  lemma StepReadsWhole(setup: Exchange.Setup, e: Exchange.Exchange, received: Bytes, event: Exchange.Event)
    requires Exchange.Safe(setup, e) && ReadsWhole(setup, e, received)
    ensures ReadsWhole(setup, Exchange.Step(setup, e, event), received + ChunkOf(e, event))
  {
    if !e.stage.Reading? {
      Exchange.StepExtends(setup, e, event);
    } else if ChunkOf(e, event) == "" {
      assert received + "" == received;
    } else {
      IntakeIsWhole(setup, e, received, event.data);
      WholeKeepsBytes(setup.maxRead, received + event.data);
      IntakeReadsWhole(setup, e, Whole(setup.maxRead, received + event.data), received + event.data, event.plan);
    }
  }

  lemma WholeKeepsBytes(limit: nat, received: Bytes)
    ensures Whole(limit, received).More? ==> Whole(limit, received).buffer == received && |received| <= limit
  {
    assert "" + received == received;
  }

  lemma IntakeReadsWhole(
      setup: Exchange.Setup, e: Exchange.Exchange, intake: Intake, received: Bytes, plan: Exchange.Plan)
    requires intake == Whole(setup.maxRead, received)
    requires intake.More? ==> intake.buffer == received && |received| <= setup.maxRead
    ensures ReadsWhole(setup, Exchange.OnIntake(setup, e, intake, plan), received)
  {
  }

  lemma {:induction false} RunReadsWhole(setup: Exchange.Setup, events: seq<Exchange.Event>)
    ensures ReadsWhole(setup, Exchange.Run(setup, events), ReceivedIn(setup, events))
  {
    if events == [] {
      assert "" + "" == "";
    } else {
      var front := events[..|events| - 1];
      RunReadsWhole(setup, front);
      StepReadsWhole(setup, Exchange.Run(setup, front), ReceivedIn(setup, front), events[|events| - 1]);
    }
  }

  /** The connection is still reading, and the event brings it the next bytes of `stream`. */
  ghost predicate ReadsOn(
      setup: Exchange.Setup, e: Exchange.Exchange, received: Bytes, event: Exchange.Event, stream: Bytes) {
    ReadsWhole(setup, e, received) && ChunkOf(e, event) != "" && received + ChunkOf(e, event) <= stream
  }

  lemma StepOnStream(setup: Exchange.Setup, e: Exchange.Exchange, received: Bytes, event: Exchange.Event, stream: Bytes)
    requires Exchange.Safe(setup, e) && ReadsOn(setup, e, received, event, stream)
    requires |stream| <= setup.maxRead && !OnBoundary(stream)
    ensures Exchange.Step(setup, e, event).stage.Reading?
            || Exchange.Step(setup, e, event) == Exchange.OnIntake(setup, e, Whole(setup.maxRead, stream), event.plan)
  {
    var front := received + event.data;
    assert stream == front + stream[|front|..];
    IntakeIsWhole(setup, e, received, event.data);
    if !Whole(setup.maxRead, front).More? {
      WholeExtends(setup.maxRead, front, stream[|front|..]);
    }
  }

  /** Over every run: however the bytes of a stream are cut into reads, the read that ends the request ends it with what
      one read of the whole stream would have given, the same head and body or the same refusal, unless the head ends on
      the boundary of the size limit. */
  lemma ReadsDoNotMatter(setup: Exchange.Setup, events: seq<Exchange.Event>, k: nat, stream: Bytes)
    requires k < |events| && ChunkOf(Exchange.Run(setup, events[..k]), events[k]) != ""
    requires ReceivedIn(setup, events[..k + 1]) <= stream && |stream| <= setup.maxRead && !OnBoundary(stream)
    ensures var e, later := Exchange.Run(setup, events[..k]), Exchange.Run(setup, events[..k + 1]);
            later.stage.Reading? || later == Exchange.OnIntake(setup, e, Whole(setup.maxRead, stream), events[k].plan)
  {
    assert events[..k + 1][..k] == events[..k];
    RunReadsWhole(setup, events[..k]);
    StepOnStream(setup, Exchange.Run(setup, events[..k]), ReceivedIn(setup, events[..k]), events[k], stream);
  }

  // ---------------------------------------------------------------- from the client to the upstream

  /** Routing sends this connection's request to one upstream. */
  ghost predicate RoutedTo(events: seq<Exchange.Event>, url: Bytes) {
    forall i | 0 <= i < |events| && events[i].Received? :: events[i].plan == Exchange.Forward(url, true)
  }

  /** What a worker would send upstream, if anything. */
  ghost predicate Intends(e: Exchange.Exchange, request: Bytes) { e.request != "" ==> e.request == request }

  lemma SendKeepsRequest(e: Exchange.Exchange, result: int, ready: bool)
    requires Exchange.IsSending(e.stage) && e.sent <= |e.out|
    ensures Exchange.OnSent(e, result, ready).request == e.request
  {
  }

  lemma UpstreamKeepsRequest(setup: Exchange.Setup, e: Exchange.Exchange, event: Exchange.Event)
    requires Exchange.InOrder(e) && Exchange.Possible(e.stage, event) && !event.Received? && !event.Sent?
    ensures Exchange.Step(setup, e, event).request == e.request
  {
  }

  lemma StepKeepsRequest(setup: Exchange.Setup, e: Exchange.Exchange, event: Exchange.Event)
    requires Exchange.Safe(setup, e) && ChunkOf(e, event) == ""
    ensures Exchange.Step(setup, e, event).request == e.request
  {
    if Exchange.Possible(e.stage, event) {
      if event.Sent? {
        SendKeepsRequest(e, event.result, event.ready);
      } else if !event.Received? {
        UpstreamKeepsRequest(setup, e, event);
      }
    }
  }

  lemma IntakeIntends(setup: Exchange.Setup, e: Exchange.Exchange, url: Bytes, head: RequestHead, body: Bytes)
    requires e.request == ""
    ensures var later := Exchange.OnIntake(setup, e, Ready(head, body), Exchange.Forward(url, true));
            later.request != "" ==> setup.forward(url, head, body) == Some(later.request)
  {
  }

  /** The stream is a whole request that is routed to the URL, and this is what would be sent there. */
  ghost predicate Asks(setup: Exchange.Setup, stream: Bytes, url: Bytes, request: Bytes) {
    && |stream| <= setup.maxRead && !OnBoundary(stream)
    && match Whole(setup.maxRead, stream)
       case Ready(head, body) => setup.forward(url, head, body) == Some(request)
       case _ => false
  }

  lemma ChunkIntends(
      setup: Exchange.Setup, e: Exchange.Exchange, received: Bytes, event: Exchange.Event, stream: Bytes, url: Bytes,
      request: Bytes)
    requires Exchange.Safe(setup, e) && Asks(setup, stream, url, request)
    requires ReadsOn(setup, e, received, event, stream) && event.plan == Exchange.Forward(url, true)
    ensures Intends(Exchange.Step(setup, e, event), request)
  {
    var intake := Whole(setup.maxRead, stream);
    StepOnStream(setup, e, received, event, stream);
    IntakeIntends(setup, e, url, intake.head, intake.body);
    if Exchange.Step(setup, e, event).stage.Reading? {
      ReadingKeepsRequest(setup, e, event);
    }
  }

  /** Every run whose client sends the stream, or part of it, can only ever send the stream's request upstream. */
  lemma {:induction false} RunIntends(
      setup: Exchange.Setup, events: seq<Exchange.Event>, stream: Bytes, url: Bytes, request: Bytes)
    requires Asks(setup, stream, url, request) && ReceivedIn(setup, events) <= stream && RoutedTo(events, url)
    ensures Intends(Exchange.Run(setup, events), request)
  {
    if events != [] {
      var front, event := events[..|events| - 1], events[|events| - 1];
      var e := Exchange.Run(setup, front);
      RunIntends(setup, front, stream, url, request);
      if ChunkOf(e, event) == "" {
        StepKeepsRequest(setup, e, event);
      } else {
        RunReadsWhole(setup, front);
        ChunkIntends(setup, e, ReceivedIn(setup, front), event, stream, url, request);
      }
    }
  }

  lemma ReadingKeepsRequest(setup: Exchange.Setup, e: Exchange.Exchange, event: Exchange.Event)
    requires Exchange.Safe(setup, e) && Exchange.Step(setup, e, event).stage.Reading?
    ensures Exchange.Step(setup, e, event).request == ""
  {
    Exchange.StepIsSafe(setup, e, event);
  }

  /** The URL names an upstream and has visible characters only. */
  ghost predicate Usable(url: Bytes) { ParseUrl(url).Parsed? && All(IsVisible, url) }

  /** What is printed for the upstream is read back by an upstream with the same rules. */
  lemma PrintedIsReceived(maxRead: nat, stream: Bytes, url: Bytes, head: RequestHead, body: Bytes)
    requires maxRead <= USIZE_MAX && Whole(maxRead, stream) == Ready(head, body)
    requires Usable(url) && |Print(ParseUrl(url).upstream, head, body)| <= maxRead
    requires ForwardedHeadSize(ParseUrl(url).upstream, head) <= MAX_REQUEST_HEAD_SIZE
    requires body == "" || "content-length" !in Nominated(head.headers)
    ensures Whole(maxRead, Print(ParseUrl(url).upstream, head, body)) ==
      Ready(Forwarded(ParseUrl(url).upstream, head), body)
  {
    WholeIsFramed(maxRead, stream, head, body);
    VisibleUrlIsClean(url);
    ForwardedIsReceived(ParseUrl(url).upstream, head, body, maxRead);
  }

  /** The newest upstream socket, and only it, has received bytes, and an upstream with the same rules makes of them the
      given request. */
  ghost predicate UpstreamGets(e: Exchange.Exchange, maxRead: nat, intake: Intake) {
    && e.log.wire != [] && Whole(maxRead, e.log.wire[|e.log.wire| - 1]) == intake
    && forall i | 0 <= i < |e.log.wire| - 1 :: e.log.wire[i] == ""
  }

  /** End to end, over every run and every cutting of the client's bytes into reads: once the worker has sent its whole
      upstream request, the one socket it was sent on has received exactly the head that is to be forwarded and the
      client's body, as an upstream that reads with the same rules sees them, provided the URL is of visible characters,
      neither head is too close to the size limit, and the client has not asked for the content length of its body to be
      stripped. */
  lemma RequestReachesUpstream(
      maxRead: nat, maxWrite: nat, events: seq<Exchange.Event>, stream: Bytes, url: Bytes, head: RequestHead,
      body: Bytes)
    requires |stream| <= maxRead <= USIZE_MAX && !OnBoundary(stream) && Whole(maxRead, stream) == Ready(head, body)
    requires ReceivedIn(ServerSetup(maxRead, maxWrite), events) <= stream && RoutedTo(events, url)
    requires Usable(url) && |Print(ParseUrl(url).upstream, head, body)| <= maxRead
    requires ForwardedHeadSize(ParseUrl(url).upstream, head) <= MAX_REQUEST_HEAD_SIZE
    requires body == "" || "content-length" !in Nominated(head.headers)
    ensures var e := Exchange.Run(ServerSetup(maxRead, maxWrite), events);
            e.request != "" && e.requestSent == |e.request| ==>
              UpstreamGets(e, maxRead, Ready(Forwarded(ParseUrl(url).upstream, head), body))
  {
    var setup, upstream := ServerSetup(maxRead, maxWrite), ParseUrl(url).upstream;
    var request := Print(upstream, head, body);
    ForwardPrints(url, head, body);
    RunIntends(setup, events, stream, url, request);
    PrintedIsReceived(maxRead, stream, url, head, body);
    SentIsReceived(setup, Exchange.Run(setup, events), request, maxRead, Ready(Forwarded(upstream, head), body));
  }

  lemma ForwardPrints(url: Bytes, head: RequestHead, body: Bytes)
    requires ParseUrl(url).Parsed?
    ensures Forward(url, head, body) == Some(Print(ParseUrl(url).upstream, head, body))
  {
  }

  lemma SentIsReceived(setup: Exchange.Setup, e: Exchange.Exchange, request: Bytes, maxRead: nat, intake: Intake)
    requires Exchange.Safe(setup, e) && Intends(e, request) && Whole(maxRead, request) == intake
    ensures e.request != "" && e.requestSent == |e.request| ==> UpstreamGets(e, maxRead, intake)
  {
    if e.request != "" && e.requestSent == |e.request| {
      WholeRequestOnWire(setup, e);
    }
  }

  lemma WholeRequestOnWire(setup: Exchange.Setup, e: Exchange.Exchange)
    requires Exchange.Safe(setup, e) && e.request != "" && e.requestSent == |e.request|
    ensures e.log.wire != [] && e.log.wire[|e.log.wire| - 1] == e.request
    ensures forall i | 0 <= i < |e.log.wire| - 1 :: e.log.wire[i] == ""
  {
  }
}
