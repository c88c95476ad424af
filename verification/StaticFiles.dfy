/** Byte ranges and streamed files (static_files.rs; section 14.1.2 of RFC 9110). A file is its bytes. */
module StaticFiles {
  import opened Common
  import Http
  import Exchange

  const STREAM_CHUNK_SIZE: nat := 65536
  const U64: nat := 0x1_0000_0000_0000_0000

  datatype StaticError = BadRequest | MethodNotAllowed | RangeNotSatisfiable

  datatype Result<+T> = Ok(value: T) | Err(error: StaticError)

  // ---------------------------------------------------------------- numbers

  /** A 64-bit number as the standard parser reads it: digits, after at most one plus sign. */
  function ParseU64(s: Bytes): Option<nat> {
    var digits := if s != "" && s[0] == '+' then s[1..] else s;
    if digits == "" || !Http.All(Http.IsDigit, digits) then None
    else if Http.Decimal(digits) >= U64 then None
    else Some(Http.Decimal(digits))
  }

  lemma ParseOfDigits(n: nat)
    requires n < U64
    ensures ParseU64(Digits(n)) == Some(n)
  {
    Http.DecimalOfDigits(n);
  }

  /** Exactly the spellings of a number: its digits, any number of zeros before them, and one plus sign at most. */
  lemma NumberExactly(s: Bytes, n: nat)
    ensures ParseU64(s) == Some(n) <==>
              exists digits :: (s == digits || s == "+" + digits) && digits != "" && Http.All(Http.IsDigit, digits)
                && Http.Decimal(digits) == n && n < 0x1_0000_0000_0000_0000
  {
    if ParseU64(s) == Some(n) {
      var digits := if s[0] == '+' then s[1..] else s;
      assert s == digits || s == "+" + digits;
    }
    forall digits | (s == digits || s == "+" + digits) && digits != "" && Http.All(Http.IsDigit, digits)
      && Http.Decimal(digits) == n && n < 0x1_0000_0000_0000_0000
      ensures ParseU64(s) == Some(n)
    {
      assert Http.IsDigit(digits[0]);
      assert s == "+" + digits ==> s[1..] == digits;
    }
  }

  lemma {:induction false} LeadingZero(digits: Bytes)
    requires Http.All(Http.IsDigit, digits)
    ensures Http.All(Http.IsDigit, "0" + digits) && Http.Decimal("0" + digits) == Http.Decimal(digits)
  {
    var all := "0" + digits;
    if digits == "" {
      assert all[..0] == "";
    } else {
      assert all[..|all| - 1] == "0" + digits[..|digits| - 1];
      LeadingZero(digits[..|digits| - 1]);
    }
  }

  // ---------------------------------------------------------------- ranges

  /** The first and last position of an accepted range. */
  type Interval = (nat, nat)

  predicate HasPrefix(prefix: Bytes, s: Bytes) { prefix <= s }

  function IndexOf(c: char, s: Bytes): (r: Option<nat>)
    ensures r.Some? ==> r.value < |s| && s[r.value] == c && forall i | 0 <= i < r.value :: s[i] != c
    ensures r.None? ==> forall i | 0 <= i < |s| :: s[i] != c
  {
    if s == "" then None
    else if s[0] == c then Some(0)
    else
      var rest := IndexOf(c, s[1..]);
      if rest.Some? then Some(rest.value + 1) else None
  }

  function SaturatingSub(a: nat, b: nat): nat { if a < b then 0 else a - b }

  function Min(a: nat, b: nat): nat { if a < b then a else b }

  function Satisfiable(first: nat, last: nat, length: nat): Result<Interval> {
    if first >= length || first > last then Err(RangeNotSatisfiable) else Ok((first, last))
  }

  function ParseRange(value: Bytes, length: nat): Result<Interval> {
    if !HasPrefix("bytes=", value) then Err(BadRequest) else ParseRangeSet(value[6..], length)
  }

  function ParseRangeSet(value: Bytes, length: nat): Result<Interval> {
    if IndexOf(',', value).Some? || length == 0 then Err(RangeNotSatisfiable)
    else
      match IndexOf('-', value)
      case None => Err(BadRequest)
      case Some(i) => ParseBounds(value[..i], value[i + 1..], length)
  }

  function ParseBounds(first: Bytes, last: Bytes, length: nat): Result<Interval>
    requires length > 0
  {
    if first == "" then
      match ParseU64(last)
      case None => Err(BadRequest)
      case Some(suffix) =>
        if suffix == 0 then Err(RangeNotSatisfiable) else Satisfiable(SaturatingSub(length, suffix), length - 1, length)
    else
      match ParseU64(first)
      case None => Err(BadRequest)
      case Some(start) =>
        if last == "" then Satisfiable(start, Min(length - 1, length - 1), length)
        else
          match ParseU64(last)
          case None => Err(BadRequest)
          case Some(end) => Satisfiable(start, Min(end, length - 1), length)
  }

  /** What a client can ask for: an interval, everything from a position on, or a number of bytes at the end. */
  datatype Spec = Between(first: nat, last: nat) | FromOn(first: nat) | AtEnd(count: nat)

  /** The positions of a file that a client asks for. */
  predicate Wanted(spec: Spec, length: nat, position: nat) {
    position < length &&
    match spec
    case Between(first, last) => first <= position <= last
    case FromOn(first) => first <= position
    case AtEnd(count) => length - position <= count
  }

  /** A header value that asks for `spec`, in any spelling of the numbers that is accepted. */
  ghost predicate Spells(value: Bytes, spec: Spec) {
    exists a: Bytes, b: Bytes :: SpelledAs(value, spec, a, b)
  }

  ghost predicate SpelledAs(value: Bytes, spec: Spec, a: Bytes, b: Bytes) {
    && value == "bytes=" + a + "-" + b
    && IndexOf('-', a).None? && IndexOf(',', a).None? && IndexOf(',', b).None?
    && match spec
       case Between(first, last) => ParseU64(a) == Some(first) && ParseU64(b) == Some(last)
       case FromOn(first) => ParseU64(a) == Some(first) && b == ""
       case AtEnd(count) => a == "" && ParseU64(b) == Some(count)
  }

  /** How a client writes it. */
  function Write(spec: Spec): Bytes {
    match spec
    case Between(first, last) => "bytes=" + Digits(first) + "-" + Digits(last)
    case FromOn(first) => "bytes=" + Digits(first) + "-"
    case AtEnd(count) => "bytes=" + "-" + Digits(count)
  }

  predicate Fits(spec: Spec) {
    match spec
    case Between(first, last) => first < U64 && last < U64
    case FromOn(first) => first < U64
    case AtEnd(count) => count < U64
  }

  /** The answer to a request for `spec`: exactly the wanted positions, or that there are none. */
  ghost predicate Answers(r: Result<Interval>, spec: Spec, length: nat) {
    match r
    case Ok((start, end)) =>
      start <= end < length && forall position: nat :: start <= position <= end <==> Wanted(spec, length, position)
    case Err(error) => error == RangeNotSatisfiable && forall position: nat :: !Wanted(spec, length, position)
  }

  lemma BoundsAnswer(a: Bytes, b: Bytes, spec: Spec, length: nat)
    requires length > 0
    requires match spec
             case Between(first, last) => ParseU64(a) == Some(first) && ParseU64(b) == Some(last)
             case FromOn(first) => ParseU64(a) == Some(first) && b == ""
             case AtEnd(count) => a == "" && ParseU64(b) == Some(count)
    ensures Answers(ParseBounds(a, b, length), spec, length)
  {
    var r := ParseBounds(a, b, length);
    if r.Err? && spec.Between? {
      assert forall position: nat :: !Wanted(spec, length, position);
    }
  }

  lemma SplitAtDash(a: Bytes, b: Bytes)
    requires IndexOf('-', a).None?
    ensures IndexOf('-', a + "-" + b) == Some(|a|)
    ensures (a + "-" + b)[..|a|] == a && (a + "-" + b)[|a| + 1..] == b
  {
    var s := a + "-" + b;
    assert s[|a|] == '-';
    var r := IndexOf('-', s);
    assert forall i | 0 <= i < |a| :: s[i] == a[i];
    assert r.Some? && r.value == |a|;
  }

  lemma NoComma(a: Bytes, b: Bytes)
    requires IndexOf(',', a).None? && IndexOf(',', b).None?
    ensures IndexOf(',', a + "-" + b).None?
  {
    var s, r := a + "-" + b, IndexOf(',', a + "-" + b);
    assert forall i | 0 <= i < |s| :: s[i] == if i < |a| then a[i] else if i == |a| then '-' else b[i - |a| - 1];
  }

  lemma ParseOfBytes(rest: Bytes, length: nat)
    ensures ParseRange("bytes=" + rest, length) == ParseRangeSet(rest, length)
  {
    assert ("bytes=" + rest)[6..] == rest;
  }

  lemma ParseOfPair(a: Bytes, b: Bytes, length: nat)
    requires IndexOf('-', a).None? && IndexOf(',', a).None? && IndexOf(',', b).None?
    ensures ParseRangeSet(a + "-" + b, length) == if length == 0 then Err(RangeNotSatisfiable)
      else ParseBounds(a, b, length)
  {
    NoComma(a, b);
    SplitAtDash(a, b);
  }

  /** Every spelling of a request is answered with exactly what it asks for, for every file length. */
  lemma RangeMeaning(value: Bytes, spec: Spec, length: nat)
    requires Spells(value, spec)
    ensures Answers(ParseRange(value, length), spec, length)
  {
    var a, b :| SpelledAs(value, spec, a, b);
    BytesOfPair(a, b);
    ParseOfBytes(a + "-" + b, length);
    ParseOfPair(a, b, length);
    if length > 0 {
      BoundsAnswer(a, b, spec, length);
    }
  }

  lemma BytesOfPair(a: Bytes, b: Bytes)
    ensures "bytes=" + a + "-" + b == "bytes=" + (a + "-" + b)
  {
  }

  /** Cutting at the first dash. */
  lemma CutAtDash(rest: Bytes, i: nat)
    requires IndexOf(',', rest).None? && IndexOf('-', rest) == Some(i)
    ensures rest == rest[..i] + "-" + rest[i + 1..]
    ensures IndexOf('-', rest[..i]).None? && IndexOf(',', rest[..i]).None? && IndexOf(',', rest[i + 1..]).None?
  {
    var a, b := rest[..i], rest[i + 1..];
    assert forall k | 0 <= k < |a| :: a[k] == rest[k];
    assert forall k | 0 <= k < |b| :: b[k] == rest[i + 1 + k];
  }

  /** An accepted set is a pair of bounds. */
  lemma AcceptedPair(rest: Bytes, length: nat) returns (a: Bytes, b: Bytes)
    requires ParseRangeSet(rest, length).Ok?
    ensures rest == a + "-" + b && IndexOf('-', a).None? && IndexOf(',', a).None? && IndexOf(',', b).None? && length > 0
    ensures ParseRangeSet(rest, length) == ParseBounds(a, b, length)
  {
    var i := IndexOf('-', rest).value;
    CutAtDash(rest, i);
    a, b := rest[..i], rest[i + 1..];
  }

  function SpecOf(a: Bytes, b: Bytes): Spec
    requires (a == "" ==> ParseU64(b).Some?) && (a != "" ==> ParseU64(a).Some? && (b == "" || ParseU64(b).Some?))
  {
    if a == "" then AtEnd(ParseU64(b).value)
    else if b == "" then FromOn(ParseU64(a).value) else Between(ParseU64(a).value, ParseU64(b).value)
  }

  lemma AcceptedBounds(a: Bytes, b: Bytes, length: nat)
    requires length > 0 && ParseBounds(a, b, length).Ok?
    ensures (a == "" ==> ParseU64(b).Some?) && (a != "" ==> ParseU64(a).Some? && (b == "" || ParseU64(b).Some?))
  {
  }

  /** Conversely, nothing is accepted that does not spell a request. */
  lemma AcceptedSpells(value: Bytes, length: nat) returns (spec: Spec)
    requires ParseRange(value, length).Ok?
    ensures Spells(value, spec) && Answers(ParseRange(value, length), spec, length)
  {
    var a, b := AcceptedPair(value[6..], length);
    AcceptedBounds(a, b, length);
    spec := SpecOf(a, b);
    BytesOfPair(a, b);
    assert value == "bytes=" + value[6..];
    assert SpelledAs(value, spec, a, b);
    RangeMeaning(value, spec, length);
  }

  lemma DigitsArePlain(n: nat)
    ensures IndexOf('-', Digits(n)).None? && IndexOf(',', Digits(n)).None?
  {
  }

  /** Writing a request and parsing it gives what was asked for. */
  lemma WrittenRangeMeaning(spec: Spec, length: nat)
    requires Fits(spec)
    ensures Answers(ParseRange(Write(spec), length), spec, length)
  {
    match spec {
      case Between(first, last) =>
        ParseOfDigits(first);
        ParseOfDigits(last);
        DigitsArePlain(first);
        DigitsArePlain(last);
        assert SpelledAs(Write(spec), spec, Digits(first), Digits(last));
      case FromOn(first) =>
        ParseOfDigits(first);
        DigitsArePlain(first);
        assert Write(spec) == "bytes=" + Digits(first) + "-" + "";
        assert SpelledAs(Write(spec), spec, Digits(first), "");
      case AtEnd(count) =>
        ParseOfDigits(count);
        DigitsArePlain(count);
        assert Write(spec) == "bytes=" + "" + "-" + Digits(count);
        assert SpelledAs(Write(spec), spec, "", Digits(count));
    }
    RangeMeaning(Write(spec), spec, length);
  }

  // ---------------------------------------------------------------- streaming

  type Piece = Exchange.Piece

  ghost predicate ChunksOk(chunks: seq<Piece>) { forall i | 0 <= i < |chunks| :: 1 <= |chunks[i]| <= STREAM_CHUNK_SIZE }

  lemma FlattenPieces(chunks: seq<Piece>, last: Piece)
    ensures Flatten(chunks + [last]) == Flatten(chunks) + last
  {
    FlattenAppend(chunks, last);
  }

  lemma SliceGrows(file: Bytes, from: nat, i: nat, j: nat)
    requires from <= i <= j <= |file|
    ensures file[from..i] + file[i..j] == file[from..j]
  {
  }

  /** Read `length` bytes from `start` on, piece by piece, of a file whose bytes are now `file`. It fails if the file
      has become too short. */
  method ReadChunks(file: Bytes, start: nat, length: nat) returns (stream: Exchange.Stream)
    ensures ChunksOk(stream.chunks) && stream.fails == (length > 0 && start + length > |file|)
    ensures start + length <= |file| ==> Flatten(stream.chunks) == file[start..start + length]
    ensures start <= |file| ==> Flatten(stream.chunks) <= file[start..]
    ensures |Flatten(stream.chunks)| <= length
  {
    var chunks: seq<Piece>, remaining, position := [], length, start;
    while remaining > 0
      invariant 0 <= remaining <= length && position + remaining == start + length && ChunksOk(chunks)
      invariant position > start ==> position <= |file|
      invariant position <= |file| ==> Flatten(chunks) == file[start..position]
      invariant position > |file| ==> chunks == []
    {
      var size := Min(STREAM_CHUNK_SIZE, remaining);
      if position + size > |file| {
        assert start + length > |file|;
        return Exchange.Stream(chunks, true);
      }
      var buffer := file[position..position + size];
      FlattenPieces(chunks, buffer);
      chunks := chunks + [buffer];
      SliceGrows(file, start, position, position + size);
      remaining := remaining - size;
      position := position + size;
    }
    assert position == start + length;
    stream := Exchange.Stream(chunks, false);
  }

  // ---------------------------------------------------------------- responses

  /** The status of a file response and the interval it delivers. */
  datatype Delivery = Delivery(status: nat, start: nat, end: nat, length: nat)

  function Deliver(range: Option<Bytes>, length: nat): Result<Delivery> {
    match range
    case None => Ok(Delivery(200, 0, SaturatingSub(length, 1), length))
    case Some(value) =>
      match ParseRange(value, length)
      case Err(error) => Err(error)
      case Ok((start, end)) => Ok(Delivery(206, start, end, length))
  }

  function ResponseLength(d: Delivery): nat
    requires d.length > 0 ==> d.start <= d.end
  {
    if d.length == 0 then 0 else d.end - d.start + 1
  }

  lemma ParsedInterval(value: Bytes, length: nat)
    ensures ParseRange(value, length).Ok? ==>
              ParseRange(value, length).value.0 <= ParseRange(value, length).value.1 < length
  {
  }

  /** Lower-case hexadecimal digits. */
  function HexDigits(n: nat): (r: Bytes)
    ensures r != "" && forall i | 0 <= i < |r| :: '0' <= r[i] <= '9' || 'a' <= r[i] <= 'f'
  {
    if n < 10 then [('0' as int + n) as char]
    else if n < 16 then [('a' as int + n - 10) as char]
    else HexDigits(n / 16) + HexDigits(n % 16)
  }

  lemma {:induction false} HexDigitsAreInjective(a: nat, b: nat)
    requires HexDigits(a) == HexDigits(b)
    ensures a == b
  {
    if a >= 16 && b >= 16 {
      var da, db := HexDigits(a), HexDigits(b);
      assert |HexDigits(a % 16)| == 1 && |HexDigits(b % 16)| == 1;
      assert da[..|da| - 1] == HexDigits(a / 16) && db[..|db| - 1] == HexDigits(b / 16);
      assert da[|da| - 1..] == HexDigits(a % 16) && db[|db| - 1..] == HexDigits(b % 16);
      HexDigitsAreInjective(a / 16, b / 16);
    }
  }

  /** The entity tag of a file of the given length, last modified at the given second. */
  function Etag(length: nat, modified: nat): Bytes { "\"" + HexDigits(length) + "-" + HexDigits(modified) + "\"" }

  /** Different lengths or times give different tags. */
  lemma EtagsDiffer(length: nat, modified: nat, otherLength: nat, otherModified: nat)
    ensures Etag(length, modified) == Etag(otherLength, otherModified) <==>
              length == otherLength && modified == otherModified
  {
    if Etag(length, modified) == Etag(otherLength, otherModified) {
      var a, b, c, d := HexDigits(length), HexDigits(modified), HexDigits(otherLength), HexDigits(otherModified);
      var s := Etag(length, modified);
      assert s[1..|s| - 1] == a + "-" + b && s[1..|s| - 1] == c + "-" + d;
      SameParts(a, b, c, d);
      HexDigitsAreInjective(length, otherLength);
      HexDigitsAreInjective(modified, otherModified);
    }
  }

  lemma SameParts(a: Bytes, b: Bytes, c: Bytes, d: Bytes)
    requires a + "-" + b == c + "-" + d && '-' !in a && '-' !in c
    ensures a == c && b == d
  {
    var s := a + "-" + b;
    assert s[|a|] == '-' && s[|c|] == '-';
    assert forall i | 0 <= i < |a| :: s[i] == a[i];
    assert forall i | 0 <= i < |c| :: s[i] == c[i];
    assert |a| == |c|;
    assert s[..|a|] == a && s[..|c|] == c && s[|a| + 1..] == b && s[|c| + 1..] == d;
  }

  /** The value of the first field with the given name. */
  function FirstValue(headers: seq<Http.Header>, name: Bytes): Option<Bytes> {
    if headers == [] then None
    else if headers[0].name == name then Some(headers[0].value)
    else FirstValue(headers[1..], name)
  }

  /** The client names the tag that the file has. */
  predicate NotModified(headers: seq<Http.Header>, etag: Bytes) {
    exists i :: 0 <= i < |headers| && headers[i] == Http.Header("if-none-match", etag)
  }

  const CACHED: Bytes := "\r\nCache-Control: public, max-age=3600\r\n"

  const UNCHANGED: Piece := "HTTP/1.1 304 Not Modified\r\nETag: "

  function NotModifiedHead(etag: Bytes): Piece { UNCHANGED + (etag + CACHED + "Connection: close\r\n\r\n") }

  function StatusText(status: nat): (line: Bytes)
    ensures line != ""
  {
    if status == 206 then "HTTP/1.1 206 Partial Content\r\n" else "HTTP/1.1 200 OK\r\n"
  }

  function Head(d: Delivery, contentType: Bytes, etag: Bytes): Piece
    requires d.length > 0 ==> d.start <= d.end
  {
    StatusText(d.status) + FieldText(d, contentType, etag)
  }

  function FieldText(d: Delivery, contentType: Bytes, etag: Bytes): Bytes
    requires d.length > 0 ==> d.start <= d.end
  {
    "Content-Type: " + contentType + "\r\nContent-Length: " + Digits(ResponseLength(d))
    + "\r\nAccept-Ranges: bytes\r\nETag: " + etag + CACHED + ContentRange(d) + "Connection: close\r\n\r\n"
  }

  function ContentRange(d: Delivery): Bytes {
    if d.status != 206 then ""
    else "Content-Range: bytes " + Digits(d.start) + "-" + Digits(d.end) + "/" + Digits(d.length) + "\r\n"
  }

  predicate Allowed(verb: Bytes) { verb == "GET" || verb == "HEAD" }

  /** What is to be delivered of a file for a request that does not name its tag. */
  function DeliveryFor(request: Http.RequestHead, length: nat): Result<Delivery> {
    Deliver(FirstValue(request.headers, "range"), length)
  }

  datatype FileResponse = FileResponse(head: Piece, stream: Option<Exchange.Stream>)

  /** The head announces the interval that was asked for, and the stream, if there is one, delivers exactly that. */
  ghost predicate Answered(request: Http.RequestHead, file: Bytes, etag: Bytes, contentType: Bytes, r: FileResponse)
    requires DeliveryFor(request, |file|).Ok?
  {
    var d := DeliveryFor(request, |file|).value;
    && (d.length > 0 ==> d.start <= d.end < |file|) && r.head == Head(d, contentType, etag)
    && (r.stream.Some? <==> request.verb == "GET" && file != "")
    && (r.stream.Some? ==>
          && !r.stream.value.fails && ChunksOk(r.stream.value.chunks)
          && Flatten(r.stream.value.chunks) == file[d.start..d.end + 1]
          && |Flatten(r.stream.value.chunks)| == ResponseLength(d))
  }

  /** The response to a request for a file of the given bytes. */
  method StaticResponse(request: Http.RequestHead, file: Bytes, modified: nat, contentType: Bytes)
    returns (r: Result<FileResponse>)
    ensures !Allowed(request.verb) ==> r == Err(MethodNotAllowed)
    ensures var etag := Etag(|file|, modified);
            Allowed(request.verb) ==>
              if NotModified(request.headers, etag) then r == Ok(FileResponse(NotModifiedHead(etag), None))
              else
                match DeliveryFor(request, |file|)
                case Err(error) => r == Err(error)
                case Ok(_) => r.Ok? && Answered(request, file, etag, contentType, r.value)
  {
    if request.verb != "GET" && request.verb != "HEAD" {
      return Err(MethodNotAllowed);
    }
    var etag := Etag(|file|, modified);
    if NotModified(request.headers, etag) {
      return Ok(FileResponse(NotModifiedHead(etag), None));
    }
    var range := FirstValue(request.headers, "range");
    var delivery := Deliver(range, |file|);
    if delivery.Err? {
      return Err(delivery.error);
    }
    var d := delivery.value;
    if range.Some? {
      ParsedInterval(range.value, |file|);
    }
    var stream := None;
    if request.verb == "GET" && ResponseLength(d) > 0 {
      var chunks := ReadChunks(file, d.start, ResponseLength(d));
      stream := Some(chunks);
    }
    r := Ok(FileResponse(Head(d, contentType, etag), stream));
  }

  /** A client of the io_uring worker that was served to the end has exactly the head and the announced slice. */
  lemma FileIsDelivered(
      setup: Exchange.Setup, events: seq<Exchange.Event>, head: Piece, chunks: seq<Piece>, file: Bytes, d: Delivery)
    requires d.start <= d.end < |file| == d.length && Flatten(chunks) == file[d.start..d.end + 1]
    requires var e := Exchange.Run(setup, events);
             e.log.sources == [Exchange.File(head + Flatten(chunks))] && e.stage == Exchange.Closed(Exchange.Finished)
    ensures var sent := Exchange.Run(setup, events).log.toClient;
            sent == head + file[d.start..d.end + 1] && |sent| == |head| + ResponseLength(d)
  {
  }

  // ---------------------------------------------------------------- percent escapes

  function Hex(c: char): (r: Option<nat>)
    ensures r.Some? ==> r.value < 16
  {
    if '0' <= c <= '9' then Some((c as nat) - ('0' as nat))
    else if 'a' <= c <= 'f' then Some((c as nat) - ('a' as nat) + 10)
    else if 'A' <= c <= 'F' then Some((c as nat) - ('A' as nat) + 10)
    else None
  }

  function HexDigit(n: nat): char
    requires n < 16
  {
    if n < 10 then ((n + '0' as nat) as char) else ((n - 10 + 'A' as nat) as char)
  }

  function Decode(raw: Bytes): Option<Bytes> {
    if raw == "" then Some("")
    else if raw[0] != '%' then Prepend(raw[0], Decode(raw[1..]))
    else if |raw| < 3 || Hex(raw[1]) == None || Hex(raw[2]) == None then None
    else Prepend((Hex(raw[1]).value * 16 + Hex(raw[2]).value) as char, Decode(raw[3..]))
  }

  function Prepend(c: char, rest: Option<Bytes>): Option<Bytes> {
    match rest
    case None => None
    case Some(s) => Some([c] + s)
  }

  function Join(front: Bytes, rest: Option<Bytes>): Option<Bytes> {
    match rest
    case None => None
    case Some(s) => Some(front + s)
  }

  lemma JoinStart(rest: Option<Bytes>)
    ensures Join("", rest) == rest
  {
    if rest.Some? {
      assert "" + rest.value == rest.value;
    }
  }

  lemma JoinPrepend(front: Bytes, c: char, rest: Option<Bytes>)
    ensures Join(front, Prepend(c, rest)) == Join(front + [c], rest)
  {
    if rest.Some? {
      assert front + ([c] + rest.value) == (front + [c]) + rest.value;
    }
  }

  method PercentDecode(raw: Bytes) returns (r: Option<Bytes>)
    ensures r == Decode(raw)
  {
    var decoded, index := "", 0;
    assert raw[0..] == raw;
    JoinStart(Decode(raw));
    while index < |raw|
      invariant index <= |raw|
      invariant Decode(raw) == Join(decoded, Decode(raw[index..]))
    {
      ghost var rest := raw[index..];
      assert rest[0] == raw[index];
      if raw[index] == '%' {
        if index + 2 >= |raw| {
          return None;
        }
        var high, low := Hex(raw[index + 1]), Hex(raw[index + 2]);
        if high == None || low == None {
          return None;
        }
        assert rest[3..] == raw[index + 3..];
        JoinPrepend(decoded, (high.value * 16 + low.value) as char, Decode(raw[index + 3..]));
        decoded := decoded + [(high.value * 16 + low.value) as char];
        index := index + 3;
      } else {
        assert rest[1..] == raw[index + 1..];
        JoinPrepend(decoded, raw[index], Decode(raw[index + 1..]));
        decoded := decoded + [raw[index]];
        index := index + 1;
      }
    }
    assert raw[index..] == "" && decoded + "" == decoded;
    r := Some(decoded);
  }

  /** Any byte may be escaped; the percent sign must be. */
  function Encode(bytes: Bytes, escaped: seq<bool>): Bytes
    requires |escaped| == |bytes|
    requires forall i | 0 <= i < |bytes| :: bytes[i] < 256 as char && (bytes[i] == '%' ==> escaped[i])
  {
    if bytes == "" then ""
    else
      (if escaped[0] then ['%', HexDigit(bytes[0] as nat / 16), HexDigit(bytes[0] as nat % 16)] else [bytes[0]])
      + Encode(bytes[1..], escaped[1..])
  }

  /** Whatever is escaped, decoding gives the bytes back. */
  lemma {:induction false} DecodeEncode(bytes: Bytes, escaped: seq<bool>)
    requires |escaped| == |bytes|
    requires forall i | 0 <= i < |bytes| :: bytes[i] < 256 as char && (bytes[i] == '%' ==> escaped[i])
    ensures Decode(Encode(bytes, escaped)) == Some(bytes)
  {
    if bytes != "" {
      var rest, raw := Encode(bytes[1..], escaped[1..]), Encode(bytes, escaped);
      DecodeEncode(bytes[1..], escaped[1..]);
      if escaped[0] {
        var n := bytes[0] as nat;
        assert raw[0] == '%' && raw[1] == HexDigit(n / 16) && raw[2] == HexDigit(n % 16) && raw[3..] == rest;
        HexBack(n / 16);
        HexBack(n % 16);
        assert Decode(raw) == Prepend((n / 16 * 16 + n % 16) as char, Decode(rest));
      } else {
        assert raw[0] == bytes[0] && raw[1..] == rest;
      }
      assert [bytes[0]] + bytes[1..] == bytes;
    }
  }

  lemma HexBack(n: nat)
    requires n < 16
    ensures Hex(HexDigit(n)) == Some(n)
  {
  }

  /** A byte as it is, or a percent sign and its two digits. */
  predicate Escapes(piece: Bytes, c: char) {
    || (piece == [c] && c != '%')
    || (|piece| == 3 && piece[0] == '%' && Hex(piece[1]).Some? && Hex(piece[2]).Some?
        && c as nat == 16 * Hex(piece[1]).value + Hex(piece[2]).value)
  }

  ghost predicate Spelled(raw: Bytes, bytes: Bytes, pieces: seq<Bytes>) {
    && |pieces| == |bytes| && Flatten(pieces) == raw
    && forall i | 0 <= i < |pieces| :: Escapes(pieces[i], bytes[i])
  }

  /** Exactly the strings that can be decoded: those made of such pieces. */
  lemma DecodeExactly(raw: Bytes, bytes: Bytes)
    ensures Decode(raw) == Some(bytes) <==> exists pieces :: Spelled(raw, bytes, pieces)
  {
    if Decode(raw) == Some(bytes) {
      var pieces := PiecesOf(raw, bytes);
    }
    forall pieces | Spelled(raw, bytes, pieces) ensures Decode(raw) == Some(bytes) {
      DecodePieces(raw, bytes, pieces);
    }
  }

  lemma {:induction false} PiecesOf(raw: Bytes, bytes: Bytes) returns (pieces: seq<Bytes>)
    requires Decode(raw) == Some(bytes)
    ensures Spelled(raw, bytes, pieces)
    decreases |raw|
  {
    if raw == "" {
      pieces := [];
    } else {
      var n := if raw[0] == '%' then 3 else 1;
      var rest := PiecesOf(raw[n..], bytes[1..]);
      pieces := [raw[..n]] + rest;
      assert pieces[1..] == rest && raw == raw[..n] + raw[n..];
      assert Escapes(raw[..n], bytes[0]);
    }
  }

  lemma {:induction false} DecodePieces(raw: Bytes, bytes: Bytes, pieces: seq<Bytes>)
    requires Spelled(raw, bytes, pieces)
    ensures Decode(raw) == Some(bytes)
    decreases |pieces|
  {
    if pieces != [] {
      var piece, rest := pieces[0], Flatten(pieces[1..]);
      assert raw == piece + rest && raw[|piece|..] == rest;
      assert Spelled(rest, bytes[1..], pieces[1..]);
      DecodePieces(rest, bytes[1..], pieces[1..]);
      assert Escapes(piece, bytes[0]);
      assert [bytes[0]] + bytes[1..] == bytes;
    }
  }
}
