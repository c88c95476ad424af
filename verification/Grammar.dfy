/** What http.rs accepts, said without its own parsing functions: which lines are request lines and header fields, which
    bytes are heads, and what the intake makes of a stream. */
module Grammar {
  import opened Common
  import opened Http
  import opened Upstream

  // ---------------------------------------------------------------- characters

  /** The delimiters of section 5.6.2 of RFC 9110. */
  const DELIMITERS: Bytes := "\"(),/:;<=>?@[\\]{}"

  /** A token consists of the visible ASCII characters that are not delimiters. */
  lemma TokenMeaning(c: char)
    ensures IsToken(c) <==> '!' <= c <= '~' && c !in DELIMITERS
  {
    var d := DELIMITERS;
    assert d[0] == '"' && d[1] == '(' && d[2] == ')' && d[3] == ',' && d[4] == '/' && d[5] == ':' && d[6] == ';';
    assert d[7] == '<' && d[8] == '=' && d[9] == '>' && d[10] == '?' && d[11] == '@' && d[12] == '[';
    assert d[13] == '\\' && d[14] == ']' && d[15] == '{' && d[16] == '}' && |d| == 17;
  }

  // ---------------------------------------------------------------- lines

  /** Splitting into lines loses nothing and leaves no line break inside a line. */
  lemma {:induction false} LinesMeaning(text: Bytes)
    ensures Join(Lines(text)) == text
    ensures forall i, k | 0 <= i < |Lines(text)| && 0 <= k <= |Lines(text)[i]| :: !OccursAt(CRLF, Lines(text)[i], k)
    decreases |text|
  {
    match Find(CRLF, text, 0) {
      case None =>
      case Some(i) =>
        LinesMeaning(text[i + 2..]);
        FirstLineIsClean(text, i);
        assert text[i..i + 2] == CRLF;
        assert text == text[..i] + CRLF + text[i + 2..];
        var rest := Lines(text[i + 2..]);
        assert Lines(text) == [text[..i]] + rest && Lines(text)[1..] == rest;
        forall j, k | 0 <= j < |Lines(text)| && 0 <= k <= |Lines(text)[j]|
          ensures !OccursAt(CRLF, Lines(text)[j], k)
        {
          if j > 0 {
            assert Lines(text)[j] == rest[j - 1];
          }
        }
    }
  }

  lemma FirstLineIsClean(text: Bytes, i: nat)
    requires Find(CRLF, text, 0) == Some(i)
    ensures forall k | 0 <= k <= i :: !OccursAt(CRLF, text[..i], k)
  {
    forall k | 0 <= k <= i ensures !OccursAt(CRLF, text[..i], k) {
      if k + 2 <= i {
        assert text[..i][k..k + 2] == text[k..k + 2];
        assert !OccursAt(CRLF, text, k);
      }
    }
  }

  // ---------------------------------------------------------------- the request line

  /** Three words with white space around and between them. */
  predicate ThreeWords(line: Bytes, a: Bytes, b: Bytes, c: Bytes, gaps: seq<Bytes>) {
    && |gaps| == 4 && (forall i | 0 <= i < 4 :: All(IsSpace, gaps[i])) && gaps[1] != "" && gaps[2] != ""
    && IsWord(a) && IsWord(b) && IsWord(c)
    && line == gaps[0] + (a + (gaps[1] + (b + (gaps[2] + (c + gaps[3])))))
  }

  lemma {:induction false} WordsAfterGap(gap: Bytes, rest: Bytes)
    requires All(IsSpace, gap)
    ensures Words(gap + rest) == Words(rest)
    decreases |gap|
  {
    if gap == "" {
      assert gap + rest == rest;
    } else {
      var s := gap[1..] + rest;
      assert gap + rest == [gap[0]] + s && (gap + rest)[1..] == s;
      assert Span(IsSpace, gap + rest) == 1 + Span(IsSpace, s);
      assert TrimStart(IsSpace, gap + rest) == TrimStart(IsSpace, s);
      SameWords(gap + rest, s);
      WordsAfterGap(gap[1..], rest);
    }
  }

  lemma SameWords(a: Bytes, b: Bytes)
    requires TrimStart(IsSpace, a) == TrimStart(IsSpace, b)
    ensures Words(a) == Words(b)
  {
  }

  lemma WordThenGap(word: Bytes, gap: Bytes, rest: Bytes)
    requires IsWord(word) && All(IsSpace, gap) && (gap != "" || rest == "")
    ensures Words(word + (gap + rest)) == [word] + Words(rest)
  {
    assert gap + rest == "" || IsSpace((gap + rest)[0]);
    WordsCons(word, gap + rest);
    WordsAfterGap(gap, rest);
  }

  lemma LastTwoWords(b: Bytes, c: Bytes, gap: Bytes, last: Bytes)
    requires IsWord(b) && IsWord(c) && All(IsSpace, gap) && gap != "" && All(IsSpace, last)
    ensures Words(b + (gap + (c + last))) == [b, c]
  {
    WordThenGap(b, gap, c + last);
    LastWord(c, last);
  }

  lemma LastWord(c: Bytes, last: Bytes)
    requires IsWord(c) && All(IsSpace, last)
    ensures Words(c + last) == [c]
  {
    WordThenGap(c, last, "");
    assert last + "" == last && Words("") == [];
  }

  lemma ThreeWordsAreWords(line: Bytes, a: Bytes, b: Bytes, c: Bytes, gaps: seq<Bytes>)
    requires ThreeWords(line, a, b, c, gaps)
    ensures Words(line) == [a, b, c]
  {
    var rest := b + (gaps[2] + (c + gaps[3]));
    assert Words(rest) == [b, c] by { LastTwoWords(b, c, gaps[2], gaps[3]); }
    assert Words(a + (gaps[1] + rest)) == [a] + Words(rest) by { WordThenGap(a, gaps[1], rest); }
    WordsAfterGap(gaps[0], a + (gaps[1] + rest));
  }

  /** A gap and a word are taken from the front of a line. */
  lemma TakeWord(line: Bytes, word: Bytes, more: seq<Bytes>) returns (gap: Bytes, rest: Bytes)
    requires Words(line) == [word] + more
    ensures All(IsSpace, gap) && IsWord(word) && line == gap + (word + rest)
    ensures Words(rest) == more && (rest == "" || IsSpace(rest[0]))
  {
    var s := TrimStart(IsSpace, line);
    var m := Span(IsWordChar, s);
    FirstTaken(line, s, word, more, m);
    gap := GapBefore(line, s);
    rest := s[m..];
    WordAndRest(s, m);
  }

  lemma GapBefore(line: Bytes, s: Bytes) returns (gap: Bytes)
    requires s == TrimStart(IsSpace, line)
    ensures All(IsSpace, gap) && line == gap + s && (s != "" ==> !IsSpace(s[0]))
  {
    var n := Span(IsSpace, line);
    gap := line[..n];
    assert s != "" ==> s[0] == line[n];
  }

  lemma WordAndRest(s: Bytes, m: nat)
    requires s != "" && !IsSpace(s[0]) && m == Span(IsWordChar, s)
    ensures IsWord(s[..m]) && s == s[..m] + s[m..] && (s[m..] == "" || IsSpace(s[m..][0]))
  {
  }

  lemma FirstTaken(line: Bytes, s: Bytes, word: Bytes, more: seq<Bytes>, m: nat)
    requires Words(line) == [word] + more && s == TrimStart(IsSpace, line) && m == Span(IsWordChar, s)
    ensures s != "" && word == s[..m] && Words(s[m..]) == more
  {
    assert Words(line) == [s[..m]] + Words(s[m..]);
    SameList(word, more, s[..m], Words(s[m..]));
  }

  lemma SameList(a: Bytes, more: seq<Bytes>, b: Bytes, rest: seq<Bytes>)
    requires [a] + more == [b] + rest
    ensures a == b && more == rest
  {
    assert ([a] + more)[0] == a && ([b] + rest)[0] == b;
    assert ([a] + more)[1..] == more && ([b] + rest)[1..] == rest;
  }

  lemma NoWords(line: Bytes)
    requires Words(line) == []
    ensures All(IsSpace, line)
  {
    var n := Span(IsSpace, line);
    assert TrimStart(IsSpace, line) == line[n..];
    assert line[..n] == line;
  }

  lemma WordsAreThree(line: Bytes, a: Bytes, b: Bytes, c: Bytes) returns (gaps: seq<Bytes>)
    requires Words(line) == [a, b, c]
    ensures ThreeWords(line, a, b, c, gaps)
  {
    ListsOfWords(a, b, c);
    var g0, rest := TakeWord(line, a, [b, c]);
    var g1, rest' := TakeWord(rest, b, [c]);
    var g2, g3 := TakeWord(rest', c, []);
    NoWords(g3);
    gaps := [g0, g1, g2, g3];
    GapsAreThere(line, a, b, c, gaps, rest, rest');
  }

  lemma ListsOfWords(a: Bytes, b: Bytes, c: Bytes)
    ensures [a] + [b, c] == [a, b, c] && [b] + [c] == [b, c] && [c] + [] == [c]
  {
  }

  lemma GapsAreThere(line: Bytes, a: Bytes, b: Bytes, c: Bytes, gaps: seq<Bytes>, rest: Bytes, rest': Bytes)
    requires |gaps| == 4 && IsWord(a) && IsWord(b) && IsWord(c)
    requires All(IsSpace, gaps[0]) && All(IsSpace, gaps[1]) && All(IsSpace, gaps[2]) && All(IsSpace, gaps[3])
    requires line == gaps[0] + (a + rest) && rest == gaps[1] + (b + rest') && rest' == gaps[2] + (c + gaps[3])
    requires IsSpace(rest[0]) && IsSpace(rest'[0])
    ensures ThreeWords(line, a, b, c, gaps)
  {
    StartsWith(gaps[1], b, rest');
    StartsWith(gaps[2], c, gaps[3]);
  }

  lemma StartsWith(gap: Bytes, word: Bytes, rest: Bytes)
    requires word != ""
    ensures (gap + (word + rest))[0] == if gap == "" then word[0] else gap[0]
  {
  }

  ghost predicate InWords(line: Bytes, a: Bytes, b: Bytes, c: Bytes) { exists gaps :: ThreeWords(line, a, b, c, gaps) }

  /** A method is a token, and a target has no control characters. */
  predicate Requests(verb: Bytes, target: Bytes) {
    All(IsToken, verb) && forall i | 0 <= i < |target| :: !(target[i] < ' ') && target[i] != 127 as char
  }

  lemma InWordsExactly(line: Bytes, a: Bytes, b: Bytes, c: Bytes)
    ensures Words(line) == [a, b, c] <==> InWords(line, a, b, c)
  {
    if Words(line) == [a, b, c] {
      var gaps := WordsAreThree(line, a, b, c);
    }
    if InWords(line, a, b, c) {
      var gaps :| ThreeWords(line, a, b, c, gaps);
      ThreeWordsAreWords(line, a, b, c, gaps);
    }
  }

  /** Exactly the lines that are request lines: a token, a target without control characters, and one of two versions,
      as words between white space. */
  lemma RequestLineExactly(line: Bytes, verb: Bytes, target: Bytes, version: HttpVersion)
    ensures ParseRequestLine(line) == Line(verb, target, version) <==>
              && InWords(line, verb, target, if version == Http10 then "HTTP/1.0" else "HTTP/1.1")
              && Requests(verb, target)
  {
    var name := if version == Http10 then "HTTP/1.0" else "HTTP/1.1";
    InWordsExactly(line, verb, target, name);
    LineOfWords(line, Words(line), verb, target, version);
    if InWords(line, verb, target, name) {
      var gaps :| ThreeWords(line, verb, target, name, gaps);
    }
  }

  lemma LineOfWords(line: Bytes, words: seq<Bytes>, verb: Bytes, target: Bytes, version: HttpVersion)
    requires words == Words(line)
    ensures ParseRequestLine(line) == Line(verb, target, version) <==>
              && words == [verb, target, if version == Http10 then "HTTP/1.0" else "HTTP/1.1"]
              && Requests(verb, target) && target != ""
  {
    if |words| == 3 {
      assert words == [words[0], words[1], words[2]];
      TargetIsPlain(words[1]);
      VersionsDiffer();
    }
  }

  lemma VersionsDiffer()
    ensures "HTTP/1.0" != "HTTP/1.1"
  {
    assert "HTTP/1.0"[7] != "HTTP/1.1"[7];
  }

  lemma TargetIsPlain(target: Bytes)
    ensures (exists i | 0 <= i < |target| :: IsControl(target[i])) <==>
              !(forall i | 0 <= i < |target| :: !(target[i] < ' ') && target[i] != 127 as char)
  {
  }

  // ---------------------------------------------------------------- header fields

  /** Exactly the lines that are header fields: a token, a colon, and a value without line breaks, which is trimmed. */
  lemma FieldExactly(line: Bytes, header: Header)
    ensures ParseHeader(line) == Some(header) <==>
              exists name, value ::
                && line == name + ":" + value && name != "" && All(IsToken, name)
                && '\r' !in value && '\n' !in value
                && header == Header(LowerAll(name), Trim(IsBlank, value))
  {
    if ParseHeader(line) == Some(header) {
      var i := Find(":", line, 0).value;
      assert line[i..i + 1] == ":" && line == line[..i] + ":" + line[i + 1..];
    }
    forall name, value | line == name + ":" + value && name != "" && All(IsToken, name)
      && '\r' !in value && '\n' !in value && header == Header(LowerAll(name), Trim(IsBlank, value))
      ensures ParseHeader(line) == Some(header)
    {
      FirstColon(name, value);
      assert line[..|name|] == name && line[|name| + 1..] == value;
      ParseAtColon(line, |name|, name, value);
    }
  }

  lemma FirstColon(name: Bytes, value: Bytes)
    requires All(IsToken, name)
    ensures Find(":", name + ":" + value, 0) == Some(|name|)
  {
    var line := name + ":" + value;
    assert line[|name|..|name| + 1] == ":";
    assert OccursAt(":", line, |name|);
    forall i | 0 <= i < |name| ensures !OccursAt(":", line, i) {
      assert line[i] == name[i] && IsToken(name[i]);
      assert line[i..i + 1] == [line[i]];
    }
  }

  /** Exactly the lists of lines that are fields: every line is one, and they are taken in order. */
  lemma {:induction false} FieldsExactly(lines: seq<Bytes>, headers: seq<Header>)
    requires forall i | 0 <= i < |lines| :: lines[i] != ""
    ensures ParseHeaders(lines) == Some(headers) <==>
              |headers| == |lines| && forall i | 0 <= i < |lines| :: ParseHeader(lines[i]) == Some(headers[i])
  {
    if lines != [] && headers != [] {
      FieldsExactly(lines[1..], headers[1..]);
      assert headers == [headers[0]] + headers[1..];
      FirstField(lines, headers);
    }
  }

  lemma FirstField(lines: seq<Bytes>, headers: seq<Header>)
    requires lines != [] && headers != [] && lines[0] != ""
    ensures ParseHeaders(lines) == Some(headers) <==>
              ParseHeader(lines[0]) == Some(headers[0]) && ParseHeaders(lines[1..]) == Some(headers[1..])
  {
    var rest := ParseHeaders(lines[1..]);
    if rest.Some? {
      assert ([headers[0]] + rest.value)[1..] == rest.value;
      assert headers == [headers[0]] + headers[1..];
    }
  }

  // ---------------------------------------------------------------- the head

  /** Exactly the bytes that are heads: the first blank line is no later than the limit, everything before it is ASCII,
      its first line is a request line and the others are fields. */
  lemma HeadExactly(bytes: Bytes, request: RequestHead, consumed: nat)
    ensures ParseHead(bytes) == Complete(request, consumed) <==>
              && 4 <= consumed <= |bytes| && Find(HEAD_END, bytes, 0) == Some(consumed - 4) && consumed - 4 <= 16384
              && var text := bytes[..consumed - 4];
                 && (forall i | 0 <= i < |text| :: text[i] < 128 as char)
                 && ParseRequestLine(Lines(text)[0]) == Line(request.verb, request.target, request.version)
                 && ParseHeaders(Lines(text)[1..]) == Some(request.headers)
  {
    var found := Find(HEAD_END, bytes, 0);
    if found.Some? && found.value <= 16384 {
      TextExactly(bytes[..found.value], request, consumed);
    }
  }

  lemma TextExactly(text: Bytes, request: RequestHead, consumed: nat)
    ensures ParseHeadText(text) == Complete(request, consumed) <==>
              && consumed == |text| + 4 && (forall i | 0 <= i < |text| :: text[i] < 128 as char)
              && ParseRequestLine(Lines(text)[0]) == Line(request.verb, request.target, request.version)
              && ParseHeaders(Lines(text)[1..]) == Some(request.headers)
  {
    var lines := Lines(text);
    assert All(IsAscii, text) <==> forall i | 0 <= i < |text| :: text[i] < 128 as char;
    HeadIsAssembled(text);
    AssembledExactly(|text| + 4, All(IsAscii, text), ParseRequestLine(lines[0]), ParseHeaders(lines[1..]), request,
      consumed);
  }

  /** A head from its parts. */
  function Assembled(size: nat, ascii: bool, line: LineParse, headers: Option<seq<Header>>): HeadParse {
    if !ascii then Invalid(InvalidText)
    else if line.BadLine? then Invalid(line.error)
    else if headers == None then Invalid(InvalidHeader)
    else Complete(RequestHead(line.verb, line.target, line.version, headers.value), size)
  }

  lemma HeadIsAssembled(text: Bytes)
    ensures ParseHeadText(text) ==
            Assembled(|text| + 4, All(IsAscii, text), ParseRequestLine(Lines(text)[0]), ParseHeaders(Lines(text)[1..]))
  {
  }

  lemma AssembledExactly(
      size: nat, ascii: bool, line: LineParse, headers: Option<seq<Header>>, request: RequestHead, consumed: nat)
    ensures Assembled(size, ascii, line, headers) == Complete(request, consumed) <==>
              && consumed == size && ascii && line == Line(request.verb, request.target, request.version)
              && headers == Some(request.headers)
  {
  }

  /** And of what may still become one, and what cannot. */
  lemma IncompleteExactly(bytes: Bytes)
    ensures ParseHead(bytes) == Incomplete <==> Find(HEAD_END, bytes, 0) == None && |bytes| <= 16384
  {
  }

  // ---------------------------------------------------------------- the intake

  /** What a stream that has been read at once is: the limit is on all that is buffered, and on all that the head
      announces. */
  lemma IntakeExactly(limit: nat, stream: Bytes, head: RequestHead, consumed: nat, body: Bytes)
    requires ParseHead(stream) == Complete(head, consumed) && |stream| <= limit
    ensures Whole(limit, stream) == Ready(head, body) <==>
              && BodyLength(head.headers) == Length(|body|) && consumed + |body| <= limit
              && consumed + |body| <= 0xFFFF_FFFF_FFFF_FFFF && consumed + |body| <= |stream|
              && body == stream[consumed..consumed + |body|]
    ensures Whole(limit, stream) == Rejected(UnsupportedCoding) <==> HasTransferEncoding(head.headers)
    ensures Whole(limit, stream) == Rejected(InvalidLength) <==>
              !HasTransferEncoding(head.headers) && !BodyLength(head.headers).Length?
    ensures Whole(limit, stream) == Rejected(TooLarge) <==>
              BodyLength(head.headers).Length?
              && (|| consumed + BodyLength(head.headers).value > limit
                  || consumed + BodyLength(head.headers).value > 0xFFFF_FFFF_FFFF_FFFF)
    ensures Whole(limit, stream) != Rejected(InvalidRequest)
  {
    WholeIsJudge(limit, stream);
    CodingExactly(head.headers);
    JudgeExactly(limit, head, consumed, stream, body, BodyLength(head.headers));
  }

  lemma CodingExactly(headers: seq<Header>)
    ensures BodyLength(headers) == UnsupportedTransferEncoding <==> HasTransferEncoding(headers)
  {
    if !HasTransferEncoding(headers) {
      LengthsAreNoCoding(LengthHeaders(headers), None);
    }
  }

  lemma {:induction false} LengthsAreNoCoding(values: seq<Bytes>, known: Option<nat>)
    ensures FrameLengths(values, known) != UnsupportedTransferEncoding
  {
    if values != [] && IsLength(values[0]) {
      LengthsAreNoCoding(values[1..], Some(Decimal(values[0])));
    }
  }

  lemma JudgeExactly(
      limit: nat, head: RequestHead, consumed: nat, stream: Bytes, body: Bytes, framing: Framing)
    requires framing == BodyLength(head.headers) && consumed <= |stream| <= limit
    ensures var intake := Judge(limit, Complete(head, consumed), stream);
            && (intake == Ready(head, body) <==>
                  && framing == Length(|body|) && consumed + |body| <= limit
                  && consumed + |body| <= 0xFFFF_FFFF_FFFF_FFFF && consumed + |body| <= |stream|
                  && body == stream[consumed..consumed + |body|])
            && (intake == Rejected(UnsupportedCoding) <==> framing == UnsupportedTransferEncoding)
            && (intake == Rejected(InvalidLength) <==> !framing.UnsupportedTransferEncoding? && !framing.Length?)
            && (intake == Rejected(TooLarge) <==>
                  framing.Length?
                  && (consumed + framing.value > limit || consumed + framing.value > 0xFFFF_FFFF_FFFF_FFFF))
            && intake != Rejected(InvalidRequest)
  {
  }

  /** Without a head there is nothing to frame. */
  lemma NoHeadExactly(limit: nat, stream: Bytes)
    ensures |stream| > limit ==> Whole(limit, stream) == Rejected(TooLarge)
    ensures |stream| <= limit && ParseHead(stream).Invalid? ==> Whole(limit, stream) == Rejected(InvalidRequest)
    ensures |stream| <= limit && ParseHead(stream).Incomplete? ==> Whole(limit, stream) == More(stream, None)
  {
    assert "" + stream == stream;
  }
}
