/** What a client reads in the head of a file response: it ends at its first blank line, and its fields announce exactly
    the bytes that follow. */
module FileHeads {
  import opened Common
  import opened Http
  import Upstream
  import Server
  import StaticFiles
  import Exchange

  /** A field value that is written as it is. */
  predicate CleanValue(value: Bytes) { All(Upstream.IsClean, value) && Trim(IsBlank, value) == value }

  const CACHE: Bytes := "public, max-age=3600"
  const UNIT: Bytes := "bytes"

  /** The lines of a file's head; `range` is the value of its Content-Range field, if it has one. */
  function FileLines(status: Bytes, contentType: Bytes, length: Bytes, etag: Bytes, range: Option<Bytes>): seq<Bytes> {
    [status, "Content-Type: " + contentType, "Content-Length: " + length, "Accept-Ranges: " + UNIT, "ETag: " + etag,
     "Cache-Control: " + CACHE]
    + (match range case None => [] case Some(value) => ["Content-Range: " + value])
    + ["Connection: close"]
  }

  function FileHeaders(contentType: Bytes, length: Bytes, etag: Bytes, range: Option<Bytes>): seq<Header> {
    [Header("content-type", contentType), Header("content-length", length), Header("accept-ranges", UNIT),
     Header("etag", etag), Header("cache-control", CACHE)]
    + (match range case None => [] case Some(value) => [Header("content-range", value)])
    + [Header("connection", "close")]
  }

  // ---------------------------------------------------------------- reading lines back

  lemma ReadsBackOne(line: Bytes, header: Header)
    requires Upstream.ReadsBack(line, header)
    ensures Upstream.AllReadBack([line], [header])
  {
  }

  lemma ReadsBackAnd(
      lines: seq<Bytes>, headers: seq<Header>, line: Bytes, header: Header)
    requires Upstream.AllReadBack(lines, headers) && Upstream.ReadsBack(line, header)
    ensures Upstream.AllReadBack(lines + [line], headers + [header])
  {
    ReadsBackOne(line, header);
    Upstream.ReadBackTogether(lines, [line], headers, [header]);
  }

  lemma TypeBack(value: Bytes)
    requires CleanValue(value)
    ensures Upstream.ReadsBack("Content-Type: " + value, Header("content-type", value))
  {
    Server.FieldBack("Content-Type", "content-type", "Content-Type: ", value);
  }

  lemma AcceptBack()
    ensures Upstream.ReadsBack("Accept-Ranges: " + UNIT, Header("accept-ranges", UNIT))
  {
    Server.NothingToTrim(UNIT);
    Server.FieldBack("Accept-Ranges", "accept-ranges", "Accept-Ranges: ", UNIT);
  }

  lemma TagBack(value: Bytes)
    requires CleanValue(value)
    ensures Upstream.ReadsBack("ETag: " + value, Header("etag", value))
  {
    Server.FieldBack("ETag", "etag", "ETag: ", value);
  }

  lemma CacheIsClean()
    ensures All(Upstream.IsClean, CACHE)
  {
  }

  lemma CacheBack()
    ensures Upstream.ReadsBack("Cache-Control: " + CACHE, Header("cache-control", CACHE))
  {
    CacheIsClean();
    Server.NothingToTrim(CACHE);
    Server.FieldBack("Cache-Control", "cache-control", "Cache-Control: ", CACHE);
  }

  lemma RangeBack(value: Bytes)
    requires CleanValue(value)
    ensures Upstream.ReadsBack("Content-Range: " + value, Header("content-range", value))
  {
    Server.FieldBack("Content-Range", "content-range", "Content-Range: ", value);
  }

  lemma FirstFieldsBack(contentType: Bytes, length: nat, etag: Bytes)
    requires CleanValue(contentType) && CleanValue(etag)
    ensures Upstream.AllReadBack(
              FirstLines(contentType, Digits(length), etag), FirstHeaders(contentType, Digits(length), etag))
  {
    TypeBack(contentType);
    Server.LengthLineBack(length);
    AcceptBack();
    TagBack(etag);
    CacheBack();
    var lines, headers := ["Content-Type: " + contentType], [Header("content-type", contentType)];
    ReadsBackOne(lines[0], headers[0]);
    ReadsBackAnd(lines, headers, "Content-Length: " + Digits(length), Header("content-length", Digits(length)));
    lines, headers := lines + ["Content-Length: " + Digits(length)], headers
      + [Header("content-length", Digits(length))];
    ReadsBackAnd(lines, headers, "Accept-Ranges: " + UNIT, Header("accept-ranges", UNIT));
    lines, headers := lines + ["Accept-Ranges: " + UNIT], headers + [Header("accept-ranges", UNIT)];
    ReadsBackAnd(lines, headers, "ETag: " + etag, Header("etag", etag));
    lines, headers := lines + ["ETag: " + etag], headers + [Header("etag", etag)];
    ReadsBackAnd(lines, headers, "Cache-Control: " + CACHE,
      Header("cache-control", CACHE));
  }

  function FirstLines(contentType: Bytes, length: Bytes, etag: Bytes): seq<Bytes> {
    ["Content-Type: " + contentType] + ["Content-Length: " + length] + ["Accept-Ranges: " + UNIT] + ["ETag: " + etag]
    + ["Cache-Control: " + CACHE]
  }

  function FirstHeaders(contentType: Bytes, length: Bytes, etag: Bytes): seq<Header> {
    [Header("content-type", contentType)] + [Header("content-length", length)] + [Header("accept-ranges", UNIT)]
    + [Header("etag", etag)] + [Header("cache-control", CACHE)]
  }

  lemma LinesInParts(status: Bytes, contentType: Bytes, length: Bytes, etag: Bytes, range: Option<Bytes>)
    ensures FileLines(status, contentType, length, etag, range)[1..] ==
            FirstLines(contentType, length, etag)
            + (match range case None => [] case Some(value) => ["Content-Range: " + value]) + ["Connection: close"]
    ensures FileHeaders(contentType, length, etag, range) ==
            FirstHeaders(contentType, length, etag)
            + (match range case None => [] case Some(value) => [Header("content-range", value)])
            + [Header("connection", "close")]
  {
  }

  /** Every field line of the head reads back as its field. */
  lemma FieldsBack(status: Bytes, contentType: Bytes, length: nat, etag: Bytes, range: Option<Bytes>)
    requires CleanValue(contentType) && CleanValue(etag) && (range.Some? ==> CleanValue(range.value))
    ensures Upstream.AllReadBack(
              FileLines(status, contentType, Digits(length), etag, range)[1..],
              FileHeaders(contentType, Digits(length), etag, range))
  {
    var lines, headers := FirstLines(contentType, Digits(length), etag),
      FirstHeaders(contentType, Digits(length), etag);
    FirstFieldsBack(contentType, length, etag);
    Upstream.CloseLineBack();
    LinesInParts(status, contentType, Digits(length), etag, range);
    match range {
      case None => WithoutRange(lines, headers);
      case Some(value) => WithRange(lines, headers, value);
    }
  }

  lemma WithoutRange(lines: seq<Bytes>, headers: seq<Header>)
    requires Upstream.AllReadBack(lines, headers)
    ensures Upstream.AllReadBack(lines + [] + ["Connection: close"], headers + [] + [Header("connection", "close")])
  {
    Upstream.CloseLineBack();
    assert lines + [] == lines && headers + [] == headers;
    ReadsBackAnd(lines, headers, "Connection: close", Header("connection", "close"));
  }

  lemma WithRange(lines: seq<Bytes>, headers: seq<Header>, value: Bytes)
    requires Upstream.AllReadBack(lines, headers) && CleanValue(value)
    ensures Upstream.AllReadBack(lines + ["Content-Range: " + value] + ["Connection: close"],
              headers + [Header("content-range", value)] + [Header("connection", "close")])
  {
    RangeBack(value);
    ReadsBackAnd(lines, headers, "Content-Range: " + value, Header("content-range", value));
    Upstream.CloseLineBack();
    ReadsBackAnd(lines + ["Content-Range: " + value], headers + [Header("content-range", value)],
      "Connection: close", Header("connection", "close"));
  }

  // ---------------------------------------------------------------- the text is those lines

  lemma TextOfLines(
      n: Bytes, s: Bytes, a: Bytes, b: Bytes, c: Bytes, e: Bytes, g: Bytes, r: Bytes, z: Bytes)
    ensures s + n + (a + n + b + n + c + n + e + n + g + n + r + z + n + n) ==
            s + n + a + n + b + n + c + n + e + n + g + n + r + z + n + n
  {
  }

  lemma TextOfFields(
      n: Bytes, a: Bytes, x: Bytes, b: Bytes, y: Bytes, c: Bytes, e: Bytes, t: Bytes, g: Bytes, r: Bytes, z: Bytes)
    ensures a + x + (n + b) + y + (n + c + n + e) + t + (n + g + n) + r + (z + n + n) ==
            (a + x) + n + (b + y) + n + c + n + (e + t) + n + g + n + r + z + n + n
  {
  }

  lemma SixLines(a: Bytes, b: Bytes, c: Bytes, d: Bytes, e: Bytes, f: Bytes)
    ensures Upstream.Terminated([a, b, c, d, e, f]) ==
            a + CRLF + b + CRLF + c + CRLF + d + CRLF + e + CRLF + f + CRLF
  {
    assert [] + [a] == [a] && [a] + [b] == [a, b] && [a, b] + [c] == [a, b, c] && [a, b, c] + [d] == [a, b, c, d];
    assert [a, b, c, d] + [e] == [a, b, c, d, e] && [a, b, c, d, e] + [f] == [a, b, c, d, e, f];
    Upstream.TerminatedAppend([], a);
    Upstream.TerminatedAppend([a], b);
    Upstream.TerminatedAppend([a, b], c);
    Upstream.TerminatedAppend([a, b, c], d);
    Upstream.TerminatedAppend([a, b, c, d], e);
    Upstream.TerminatedAppend([a, b, c, d, e], f);
    assert "" + a == a;
  }

  /** The lines of a head one after the other, and a blank one. */
  lemma TextWritten(
      s: Bytes, a: Bytes, b: Bytes, c: Bytes, e: Bytes, g: Bytes, more: seq<Bytes>, text: Bytes, z: Bytes)
    requires Upstream.Terminated(more) == text && |more| <= 1
    ensures Upstream.Terminated([s, a, b, c, e, g] + more + [z]) + CRLF ==
            s + CRLF + (a + CRLF + b + CRLF + c + CRLF + e + CRLF + g + CRLF + text + z + CRLF + CRLF)
  {
    SixLines(s, a, b, c, e, g);
    var first := [s, a, b, c, e, g];
    Upstream.TerminatedAppend(first + more, z);
    MoreWritten(first, more);
    TextOfLines(CRLF, s, a, b, c, e, g, text, z);
  }

  lemma MoreWritten(first: seq<Bytes>, more: seq<Bytes>)
    requires |more| <= 1
    ensures Upstream.Terminated(first + more) == Upstream.Terminated(first) + Upstream.Terminated(more)
  {
    if more == [] {
      assert first + more == first && Upstream.Terminated(first) + "" == Upstream.Terminated(first);
    } else {
      assert more == [more[0]] && more[1..] == [];
      Upstream.TerminatedAppend(first, more[0]);
      Regroup(Upstream.Terminated(first), more[0], CRLF);
      assert more[0] + CRLF + "" == more[0] + CRLF;
    }
  }

  lemma Regroup(a: Bytes, b: Bytes, c: Bytes)
    ensures a + b + c == a + (b + c)
  {
  }

  /** The status line of a file's head. */
  function FileStatus(ranged: bool): Bytes {
    if ranged then "HTTP/1.1 206 Partial Content" else "HTTP/1.1 200 OK"
  }

  /** The value of its Content-Range field: first and last position, and the length of the file. */
  function RangeValue(start: nat, end: nat, length: nat): Bytes {
    "bytes " + Digits(start) + "-" + Digits(end) + "/" + Digits(length)
  }

  lemma StatusWritten(d: StaticFiles.Delivery)
    requires d.status == 200 || d.status == 206
    ensures StaticFiles.StatusText(d.status) == FileStatus(d.status == 206) + CRLF
  {
    assert "HTTP/1.1 206 Partial Content\r\n" == "HTTP/1.1 206 Partial Content" + CRLF;
    assert "HTTP/1.1 200 OK\r\n" == "HTTP/1.1 200 OK" + CRLF;
  }

  lemma RangeWritten(d: StaticFiles.Delivery)
    ensures StaticFiles.ContentRange(d) ==
            if d.status == 206 then "Content-Range: " + RangeValue(d.start, d.end, d.length) + CRLF else ""
  {
    var a, b, c, e, f := Digits(d.start), Digits(d.end), Digits(d.length), "-", "/";
    assert "Content-Range: bytes " == "Content-Range: " + "bytes ";
    RangeParts("Content-Range: ", "bytes ", a, e, b, f, c, CRLF);
  }

  lemma RangeParts(s: Bytes, t: Bytes, a: Bytes, b: Bytes, c: Bytes, d: Bytes, e: Bytes, n: Bytes)
    ensures (s + t) + a + b + c + d + e + n == s + (t + a + b + c + d + e) + n
  {
  }

  lemma LengthBreak()
    ensures "\r\nContent-Length: " == CRLF + "Content-Length: "
  {
  }

  lemma TagBreak()
    ensures "\r\nAccept-Ranges: bytes\r\nETag: " == CRLF + ("Accept-Ranges: " + UNIT) + CRLF + "ETag: "
  {
  }

  lemma CacheBreak()
    ensures StaticFiles.CACHED == CRLF + ("Cache-Control: " + CACHE) + CRLF
  {
  }

  lemma CloseBreak()
    ensures "Connection: close\r\n\r\n" == "Connection: close" + CRLF + CRLF
  {
  }

  /** The field lines and the blank line after them. */
  function Fields(contentType: Bytes, length: Bytes, etag: Bytes, range: Bytes): Bytes {
    ("Content-Type: " + contentType) + CRLF + ("Content-Length: " + length) + CRLF + ("Accept-Ranges: " + UNIT) + CRLF
    + ("ETag: " + etag) + CRLF + ("Cache-Control: " + CACHE) + CRLF + range + "Connection: close" + CRLF + CRLF
  }

  function RangeLine(range: Option<Bytes>): Bytes {
    match range case None => "" case Some(value) => "Content-Range: " + value + CRLF
  }

  lemma FieldsWritten(d: StaticFiles.Delivery, contentType: Bytes, etag: Bytes)
    requires d.length > 0 ==> d.start <= d.end
    ensures StaticFiles.FieldText(d, contentType, etag) ==
            Fields(contentType, Digits(StaticFiles.ResponseLength(d)), etag, StaticFiles.ContentRange(d))
  {
    LengthBreak();
    TagBreak();
    CacheBreak();
    CloseBreak();
    TextOfFields(CRLF, "Content-Type: ", contentType, "Content-Length: ", Digits(StaticFiles.ResponseLength(d)),
      "Accept-Ranges: " + UNIT, "ETag: ", etag, "Cache-Control: " + CACHE, StaticFiles.ContentRange(d),
      "Connection: close");
  }

  lemma LinesAreFields(status: Bytes, contentType: Bytes, length: Bytes, etag: Bytes, range: Option<Bytes>)
    ensures Upstream.Terminated(FileLines(status, contentType, length, etag, range)) + CRLF ==
            status + CRLF + Fields(contentType, length, etag, RangeLine(range))
  {
    var more := match range case None => [] case Some(value) => ["Content-Range: " + value];
    RangeIsLine(range, more);
    TextWritten(status, "Content-Type: " + contentType, "Content-Length: " + length, "Accept-Ranges: " + UNIT,
      "ETag: " + etag, "Cache-Control: " + CACHE, more, RangeLine(range), "Connection: close");
  }

  lemma RangeIsLine(range: Option<Bytes>, more: seq<Bytes>)
    requires more == match range case None => [] case Some(value) => ["Content-Range: " + value]
    ensures Upstream.Terminated(more) == RangeLine(range)
  {
    if range.Some? {
      assert more[1..] == [];
      assert more[0] + CRLF + "" == more[0] + CRLF;
    }
  }

  function RangeOf(d: StaticFiles.Delivery): Option<Bytes> {
    if d.status == 206 then Some(RangeValue(d.start, d.end, d.length)) else None
  }

  function LinesOf(d: StaticFiles.Delivery, contentType: Bytes, length: nat, etag: Bytes): seq<Bytes> {
    FileLines(FileStatus(d.status == 206), contentType, Digits(length), etag, RangeOf(d))
  }

  /** The head is those lines and a blank one. */
  lemma HeadWritten(d: StaticFiles.Delivery, contentType: Bytes, etag: Bytes)
    requires (d.length > 0 ==> d.start <= d.end) && (d.status == 200 || d.status == 206)
    ensures StaticFiles.Head(d, contentType, etag) ==
            Upstream.Join(LinesOf(d, contentType, StaticFiles.ResponseLength(d), etag)) + HEAD_END
  {
    var status, n := FileStatus(d.status == 206), StaticFiles.ResponseLength(d);
    StatusWritten(d);
    FieldsWritten(d, contentType, etag);
    RangeInLines(d);
    LinesAreFields(status, contentType, Digits(n), etag, RangeOf(d));
    BlankLineLast(LinesOf(d, contentType, n, etag));
  }

  lemma RangeInLines(d: StaticFiles.Delivery)
    ensures StaticFiles.ContentRange(d) == RangeLine(RangeOf(d))
  {
    RangeWritten(d);
  }

  lemma BlankLineLast(lines: seq<Bytes>)
    requires lines != []
    ensures Upstream.Terminated(lines) + CRLF == Upstream.Join(lines) + HEAD_END
  {
    Upstream.TerminatedIsJoin(lines);
    assert HEAD_END == CRLF + CRLF;
    Regroup(Upstream.Join(lines), CRLF, CRLF);
  }

  // ---------------------------------------------------------------- what the client reads

  lemma CleanDigits(n: nat)
    ensures All(Upstream.IsClean, Digits(n))
  {
    Server.DigitsAreClean(n);
  }

  lemma RangeIsClean(start: nat, end: nat, length: nat)
    ensures CleanValue(RangeValue(start, end, length))
  {
    var a, b, c := Digits(start), Digits(end), Digits(length);
    CleanDigits(start);
    CleanDigits(end);
    CleanDigits(length);
    assert All(Upstream.IsClean, "bytes ") && All(Upstream.IsClean, "-") && All(Upstream.IsClean, "/");
    Upstream.AllConcat(Upstream.IsClean, "bytes ", a);
    Upstream.AllConcat(Upstream.IsClean, "bytes " + a, "-");
    Upstream.AllConcat(Upstream.IsClean, "bytes " + a + "-", b);
    Upstream.AllConcat(Upstream.IsClean, "bytes " + a + "-" + b, "/");
    Upstream.AllConcat(Upstream.IsClean, "bytes " + a + "-" + b + "/", c);
    var value := RangeValue(start, end, length);
    assert value[0] == 'b' && value[|value| - 1] == c[|c| - 1];
    Server.NothingToTrim(value);
  }

  lemma TagIsClean(length: nat, modified: nat)
    ensures CleanValue(StaticFiles.Etag(length, modified))
  {
    var tag := StaticFiles.Etag(length, modified);
    assert tag[0] == '"' && tag[|tag| - 1] == '"';
    Server.NothingToTrim(tag);
  }

  lemma StatusIsClean(ranged: bool)
    ensures Upstream.CleanLine(FileStatus(ranged))
  {
  }

  /** What a client finds in a head: its only blank line at its end, this first line, and these fields. */
  ghost predicate ReadsAs(head: Bytes, status: Bytes, headers: seq<Header>) {
    && |head| >= 4 && Find(HEAD_END, head, 0) == Some(|head| - 4)
    && Lines(head[..|head| - 4])[0] == status
    && ParseHeaders(Lines(head[..|head| - 4])[1..]) == Some(headers)
  }

  lemma LinesReadAs(lines: seq<Bytes>, headers: seq<Header>)
    requires lines != [] && Upstream.CleanLine(lines[0]) && Upstream.AllReadBack(lines[1..], headers)
    ensures ReadsAs(Upstream.Join(lines) + HEAD_END, lines[0], headers)
  {
    Upstream.ReadBackIsParsed(lines[1..], headers);
    Upstream.CleanFront(lines[0], lines[1..]);
    assert lines == [lines[0]] + lines[1..];
    Upstream.HeadEndOfJoin(lines, "");
    assert HEAD_END + "" == HEAD_END;
    var head := Upstream.Join(lines) + HEAD_END;
    assert head[..|head| - 4] == Upstream.Join(lines);
    Upstream.LinesOfJoin(lines);
  }

  lemma HeadReadsAs(d: StaticFiles.Delivery, contentType: Bytes, length: nat, modified: nat)
    requires (d.length > 0 ==> d.start <= d.end) && (d.status == 200 || d.status == 206) && CleanValue(contentType)
    ensures var etag := StaticFiles.Etag(length, modified);
            ReadsAs(StaticFiles.Head(d, contentType, etag), FileStatus(d.status == 206),
              FileHeaders(contentType, Digits(StaticFiles.ResponseLength(d)), etag, RangeOf(d)))
  {
    var etag, n := StaticFiles.Etag(length, modified), StaticFiles.ResponseLength(d);
    var lines := LinesOf(d, contentType, n, etag);
    TagIsClean(length, modified);
    RangeIsClean(d.start, d.end, d.length);
    StatusIsClean(d.status == 206);
    HeadWritten(d, contentType, etag);
    FieldsBack(FileStatus(d.status == 206), contentType, n, etag, RangeOf(d));
    LinesReadAs(lines, FileHeaders(contentType, Digits(n), etag, RangeOf(d)));
  }

  /** These fields frame a body of that length. */
  lemma FieldsFrame(contentType: Bytes, n: nat, etag: Bytes, range: Option<Bytes>)
    requires n <= USIZE_MAX
    ensures BodyLength(FileHeaders(contentType, Digits(n), etag, range)) == Length(n)
  {
    var headers := FileHeaders(contentType, Digits(n), etag, range);
    DecimalOfDigits(n);
    assert headers[1] == Header("content-length", Digits(n));
    assert forall i | 0 <= i < |headers| && i != 1 :: headers[i].name != "content-length";
    assert forall v :: v in LengthHeaders(headers) <==> v == Digits(n);
    assert Digits(n) in LengthHeaders(headers);
    BodyLengthMeaning(headers, n);
  }

  /** The range that a request asks for, by its first Range field. */
  ghost predicate AsksFor(headers: seq<Header>, value: Bytes) {
    exists i :: 0 <= i < |headers| && headers[i] == Header("range", value)
      && forall j | 0 <= j < i :: headers[j].name != "range"
  }

  lemma {:induction false} FirstRange(headers: seq<Header>)
    ensures match StaticFiles.FirstValue(headers, "range")
            case None => forall i | 0 <= i < |headers| :: headers[i].name != "range"
            case Some(value) => AsksFor(headers, value)
  {
    if headers != [] && headers[0].name != "range" {
      FirstRange(headers[1..]);
      match StaticFiles.FirstValue(headers[1..], "range") {
        case None =>
          forall i | 0 <= i < |headers| ensures headers[i].name != "range" {
            assert i > 0 ==> headers[i] == headers[1..][i - 1];
          }
        case Some(value) =>
          var i :| 0 <= i < |headers| - 1 && headers[1..][i] == Header("range", value)
            && forall j | 0 <= j < i :: headers[1..][j].name != "range";
          assert headers[i + 1] == headers[1..][i];
          forall j | 0 <= j < i + 1 ensures headers[j].name != "range" {
            assert j > 0 ==> headers[j] == headers[1..][j - 1];
          }
      }
    } else if headers != [] {
      assert headers[0] == Header("range", headers[0].value);
    }
  }

  /** What the response is to deliver: the whole file, or an interval of it if one is asked for. */
  ghost predicate IsAskedFor(headers: seq<Header>, length: nat, asked: Option<StaticFiles.Interval>) {
    match asked
    case None => forall i | 0 <= i < |headers| :: headers[i].name != "range"
    case Some((first, last)) => first <= last < length && exists value :: AsksThat(headers, value, length, first, last)
  }

  ghost predicate AsksThat(headers: seq<Header>, value: Bytes, length: nat, first: nat, last: nat) {
    AsksFor(headers, value) && StaticFiles.ParseRange(value, length) == StaticFiles.Ok((first, last))
  }

  /** How many bytes that is, and which. */
  ghost function Portion(file: Bytes, asked: Option<StaticFiles.Interval>): Bytes {
    match asked
    case None => file
    case Some((first, last)) => if first <= last < |file| then file[first..last + 1] else ""
  }

  lemma WhatIsDelivered(request: RequestHead, file: Bytes) returns (asked: Option<StaticFiles.Interval>)
    requires StaticFiles.DeliveryFor(request, |file|).Ok?
    ensures IsAskedFor(request.headers, |file|, asked)
    ensures var d := StaticFiles.DeliveryFor(request, |file|).value;
            && d.length == |file| && (d.status == 200 || d.status == 206) && (d.status == 206 <==> asked.Some?)
            && (asked.Some? ==> asked.value == (d.start, d.end) && d.start <= d.end < |file|)
            && (asked == None && file != "" ==> d.start == 0 && d.end == |file| - 1)
  {
    FirstRange(request.headers);
    match StaticFiles.FirstValue(request.headers, "range") {
      case None => asked := None;
      case Some(value) =>
        StaticFiles.ParsedInterval(value, |file|);
        asked := Some(StaticFiles.ParseRange(value, |file|).value);
        assert AsksThat(request.headers, value, |file|, asked.value.0, asked.value.1);
    }
  }

  /** A file response as its client reads it: the status says whether a range was asked for; the only blank line is at
      the end of the head; the fields announce exactly as many bytes as the asked portion has, and, if it is a range,
      its first and last position and the length of the file; and for a GET exactly those bytes are streamed. */
  lemma FileHeadMeaning(
      request: RequestHead, file: Bytes, modified: nat, contentType: Bytes, r: StaticFiles.FileResponse)
    returns (asked: Option<StaticFiles.Interval>)
    requires CleanValue(contentType) && |file| <= USIZE_MAX && StaticFiles.DeliveryFor(request, |file|).Ok?
    requires StaticFiles.Answered(request, file, StaticFiles.Etag(|file|, modified), contentType, r)
    ensures IsAskedFor(request.headers, |file|, asked)
    ensures var range := if asked == None then None
              else Some("bytes " + Digits(asked.value.0) + "-" + Digits(asked.value.1) + "/" + Digits(|file|));
            var fields := FileHeaders(contentType, Digits(|Portion(file, asked)|),
                                      StaticFiles.Etag(|file|, modified), range);
            && ReadsAs(r.head, if asked == None then "HTTP/1.1 200 OK" else "HTTP/1.1 206 Partial Content", fields)
            && BodyLength(fields) == Length(|Portion(file, asked)|)
    ensures request.verb == "GET" ==>
              (if r.stream.Some? then Flatten(r.stream.value.chunks) else "") == Portion(file, asked)
    ensures request.verb != "GET" ==> r.stream == None
  {
    asked := WhatIsDelivered(request, file);
    var d := StaticFiles.DeliveryFor(request, |file|).value;
    var n := StaticFiles.ResponseLength(d);
    assert n == |Portion(file, asked)|;
    HeadReadsAs(d, contentType, |file|, modified);
    FieldsFrame(contentType, n, StaticFiles.Etag(|file|, modified), RangeOf(d));
    PortionStreamed(request, file, modified, contentType, r, asked, d);
  }

  lemma PortionStreamed(
      request: RequestHead, file: Bytes, modified: nat, contentType: Bytes, r: StaticFiles.FileResponse,
      asked: Option<StaticFiles.Interval>, d: StaticFiles.Delivery)
    requires StaticFiles.DeliveryFor(request, |file|) == StaticFiles.Ok(d)
    requires StaticFiles.Answered(request, file, StaticFiles.Etag(|file|, modified), contentType, r)
    requires asked.Some? ==> asked.value == (d.start, d.end) && d.start <= d.end < |file|
    requires asked == None && file != "" ==> d.start == 0 && d.end == |file| - 1
    ensures request.verb == "GET" ==>
              (if r.stream.Some? then Flatten(r.stream.value.chunks) else "") == Portion(file, asked)
    ensures request.verb != "GET" ==> r.stream == None
  {
    if asked == None && file != "" {
      assert file[0..|file| - 1 + 1] == file;
    }
  }

  // ---------------------------------------------------------------- nothing has changed

  lemma FourLines(a: Bytes, b: Bytes, c: Bytes, d: Bytes, n: Bytes, end: Bytes)
    ensures a + n + (b + n + (c + n + d)) + end == a + n + b + n + c + n + d + end
  {
  }

  lemma UnchangedWritten(etag: Bytes)
    ensures StaticFiles.NotModifiedHead(etag) ==
            Upstream.Join(["HTTP/1.1 304 Not Modified", "ETag: " + etag, "Cache-Control: " + CACHE,
                           "Connection: close"]) + HEAD_END
  {
    var status, cache, close := "HTTP/1.1 304 Not Modified", "Cache-Control: " + CACHE, "Connection: close";
    Server.FourLines(status, "ETag: " + etag, cache, close);
    FourLines(status, "ETag: " + etag, cache, close, CRLF, HEAD_END);
    CacheBreak();
    UnchangedBreak();
    assert "Connection: close\r\n\r\n" == close + HEAD_END;
    UnchangedParts(status, "ETag: ", etag, cache, close, CRLF, HEAD_END);
  }

  lemma UnchangedBreak()
    ensures StaticFiles.UNCHANGED == "HTTP/1.1 304 Not Modified" + CRLF + "ETag: "
  {
  }

  lemma UnchangedParts(a: Bytes, b: Bytes, t: Bytes, c: Bytes, d: Bytes, n: Bytes, end: Bytes)
    ensures (a + n + b) + (t + (n + c + n) + (d + end)) == a + n + (b + t) + n + c + n + d + end
  {
  }

  lemma UnchangedFields(etag: Bytes)
    requires CleanValue(etag)
    ensures Upstream.AllReadBack(["ETag: " + etag] + ["Cache-Control: " + CACHE] + ["Connection: close"],
              [Header("etag", etag)] + [Header("cache-control", CACHE)] + [Header("connection", "close")])
  {
    TagBack(etag);
    CacheBack();
    Upstream.CloseLineBack();
    var lines, headers := ["ETag: " + etag], [Header("etag", etag)];
    ReadsBackOne(lines[0], headers[0]);
    ReadsBackAnd(lines, headers, "Cache-Control: " + CACHE, Header("cache-control", CACHE));
    lines, headers := lines + ["Cache-Control: " + CACHE], headers + [Header("cache-control", CACHE)];
    ReadsBackAnd(lines, headers, "Connection: close", Header("connection", "close"));
  }

  /** A client that has the file already is told so, with its tag and without a body. */
  lemma UnchangedMeaning(length: nat, modified: nat)
    ensures var etag := StaticFiles.Etag(length, modified);
            ReadsAs(StaticFiles.NotModifiedHead(etag), "HTTP/1.1 304 Not Modified",
              [Header("etag", etag), Header("cache-control", CACHE), Header("connection", "close")])
  {
    var etag := StaticFiles.Etag(length, modified);
    var lines := ["HTTP/1.1 304 Not Modified", "ETag: " + etag, "Cache-Control: " + CACHE, "Connection: close"];
    var headers := [Header("etag", etag), Header("cache-control", CACHE), Header("connection", "close")];
    TagIsClean(length, modified);
    UnchangedWritten(etag);
    UnchangedFields(etag);
    assert lines[1..] == ["ETag: " + etag] + ["Cache-Control: " + CACHE] + ["Connection: close"];
    assert headers == [Header("etag", etag)] + [Header("cache-control", CACHE)] + [Header("connection", "close")];
    UnchangedStatus();
    LinesReadAs(lines, headers);
  }

  lemma UnchangedStatus()
    ensures Upstream.CleanLine("HTTP/1.1 304 Not Modified")
  {
  }
}
