/** What HttpProcess does to a byte stream, as functions of values. `ParseStep` is one call of
    `parse`; `Drain` is the append/parse/release loop of a connection; `Interpret` is an independent
    reference that never sees a buffer, only the complete lines of the stream. */
module HttpSpec {
  import opened Algebra
  import opened Bytes

  const MAX_LINE := 8192
  const MAX_HEADERS := 100

  datatype Request = Request(method_: bytes, path: bytes, version: bytes, host: bytes, keepAlive: bool)

  const BLANK := Request("", "", "", "", true)

  datatype ParserState = ExpectRequestLine | ExpectHeaders

  datatype Parser = Parser(phase: ParserState, current: Request, contentLength: nat, headerCount: nat)

  const FRESH := Parser(ExpectRequestLine, BLANK, 0, 0)

  datatype ParseResult = NeedMore | Complete | Error | LineTooLong

  // ---- responses ----

  const BODY: bytes := "Hello, World!"

  /** The header block of a 200 answer, without the empty line that ends it. */
  function ResponseHead(keepAlive: bool, bodyLen: nat): bytes {
    "HTTP/1.1 200 OK" + CRLF + "Content-Length: " + Decimal(bodyLen) + CRLF
    + if keepAlive then "Connection: keep-alive" else "Connection: close"
  }

  function BuildResponse(req: Request): bytes {
    ResponseHead(req.keepAlive, |BODY|) + CRLF + CRLF + BODY
  }

  const BUILD_400: bytes :=
    "HTTP/1.1 400 Bad Request" + CRLF + "Content-Length: 0" + CRLF + "Connection: close" + CRLF + CRLF

  // ---- one line ----

  datatype Triple = Triple(a: bytes, b: bytes, c: bytes)

  function JoinThree(t: Triple): bytes { t.a + " " + t.b + " " + t.c }

  predicate SpaceFree(t: Triple) { ' ' !in t.a && ' ' !in t.b && ' ' !in t.c }

  function SplitThree(line: bytes): Option<Triple> {
    match IndexOf(line, ' ')
    case None => None
    case Some(p1) =>
      var tail := line[p1 + 1..];
      match IndexOf(tail, ' ')
      case None => None
      case Some(p2) =>
        if IndexOf(tail[p2 + 1..], ' ').Some? then None
        else Some(Triple(line[..p1], tail[..p2], tail[p2 + 1..]))
  }

  lemma JoinNested(t: Triple)
    ensures JoinThree(t) == t.a + (" " + (t.b + (" " + t.c)))
  {
    var space: bytes := " ";
    SeqAssoc(t.b, space, t.c);
    SeqAssoc(t.a, space, t.b + space + t.c);
    SeqAssoc(t.a + space, t.b, space + t.c);
    SeqAssoc(t.a + space + t.b, space, t.c);
    SeqAssoc(t.a + space, t.b + space, t.c);
  }

  lemma SplitThreeSound(line: bytes)
    requires SplitThree(line).Some?
    ensures var t := SplitThree(line).value; SpaceFree(t) && line == JoinThree(t)
  {
    var t := SplitThree(line).value;
    var p1 := IndexOf(line, ' ').value;
    var tail := line[p1 + 1..];
    CutAround(line, p1);
    CutAround(tail, IndexOf(tail, ' ').value);
    JoinNested(t);
  }

  lemma SplitThreeComplete(t: Triple)
    requires SpaceFree(t)
    ensures SplitThree(JoinThree(t)) == Some(t)
  {
    var line := JoinThree(t);
    var tail := t.b + (" " + t.c);
    JoinNested(t);
    assert line[..|t.a|] == t.a && line[|t.a| + 1..] == tail;
    IndexOfAfter(line, ' ', |t.a|);
    assert tail[..|t.b|] == t.b && tail[|t.b| + 1..] == t.c;
    IndexOfAfter(tail, ' ', |t.b|);
  }

  /** A line splits into three exactly when it is three space-free words joined by single spaces. */
  lemma SplitThreeExact(line: bytes, t: Triple)
    ensures SplitThree(line) == Some(t) <==> SpaceFree(t) && line == JoinThree(t)
  {
    if SplitThree(line) == Some(t) {
      SplitThreeSound(line);
    } else if SpaceFree(t) && line == JoinThree(t) {
      SplitThreeComplete(t);
    }
  }

  lemma IndexOfAfter(s: bytes, c: char, i: nat)
    requires i < |s| && s[i] == c && c !in s[..i]
    ensures IndexOf(s, c) == Some(i)
  {
    var r := IndexOf(s, c);
    assert r.Some? by { assert s[i] in s; }
    forall j | 0 <= j < i ensures s[j] != c { assert s[..i][j] == s[j]; }
    forall j | 0 <= j < r.value ensures s[j] != c { assert s[..r.value][j] == s[j]; }
  }

  predicate IsHttpVersion(v: bytes) { v == "HTTP/1.1" || v == "HTTP/1.0" }

  function ParseRequestLine(line: bytes, cur: Request): Option<Request> {
    match SplitThree(line)
    case None => None
    case Some(t) =>
      if t.a != "GET" || t.b == "" || t.b[0] != '/' || !IsHttpVersion(t.c) then None
      else Some(cur.(method_ := t.a, path := t.b, version := t.c,
                     keepAlive := cur.keepAlive && t.c != "HTTP/1.0"))
  }

  function UpdateKeepAlive(req: Request, connValue: bytes): Request {
    var v := ToLower(connValue);
    if Contains(v, "close") then req.(keepAlive := false)
    else if Contains(v, "keep-alive") then req.(keepAlive := true)
    else req
  }

  datatype HeaderFields = HeaderFields(req: Request, contentLength: nat)

  function ParseHeaderLine(line: bytes, req: Request, contentLength: nat): Option<HeaderFields> {
    match IndexOf(line, ':')
    case None => None
    case Some(colon) =>
      var key := ToLower(line[..colon]);
      var value := TrimLeft(line[colon + 1..]);
      if key == "host" then Some(HeaderFields(req.(host := value), contentLength))
      else if key == "connection" then Some(HeaderFields(UpdateKeepAlive(req, value), contentLength))
      else if key == "content-length" then
        if value == "" || exists c :: c in value && !IsDigit(c) then None
        else Some(HeaderFields(req, ToNat(value)))
      else Some(HeaderFields(req, contentLength))
  }

  /** The effect of one complete line on the parser. */
  datatype LineEffect =
    | Continue(p: Parser)
    | Emit(p: Parser)      // p.current is a complete request
    | Reject(p: Parser)    // answered with 400
    | Refuse(p: Parser)    // too many header lines

  function FeedLine(p: Parser, line: bytes): LineEffect {
    match p.phase
    case ExpectRequestLine =>
      (match ParseRequestLine(line, p.current)
       case None => Reject(p)
       case Some(req) => Continue(Parser(ExpectHeaders, req, 0, 0)))
    case ExpectHeaders =>
      if line == [] then
        if p.contentLength > 0 then Reject(p) else Emit(p.(phase := ExpectRequestLine))
      else
        var q := p.(headerCount := p.headerCount + 1);
        if q.headerCount > MAX_HEADERS then Refuse(q)
        else
          match ParseHeaderLine(line, q.current, q.contentLength)
          case None => Reject(q)
          case Some(h) => Continue(q.(current := h.req, contentLength := h.contentLength))
  }

  // ---- one call of parse ----

  datatype ParseOut = ParseOut(result: ParseResult, parser: Parser, rest: bytes)

  function ParseStep(p: Parser, s: bytes): (r: ParseOut)
    ensures |r.rest| <= |s|
    ensures r.result.NeedMore? ==> CrlfFree(r.rest)
    ensures r.result.Complete? ==> |r.rest| + 2 <= |s| && r.parser.phase.ExpectRequestLine?
    decreases |s|
  {
    match FindCrlf(s)
    case None => ParseOut(NeedMore, p, s)
    case Some(i) =>
      if i > MAX_LINE then ParseOut(LineTooLong, p, s)
      else
        var rest := s[i + 2..];
        match FeedLine(p, s[..i])
        case Continue(q) => ParseStep(q, rest)
        case Emit(q) => ParseOut(Complete, q, rest)
        case Reject(q) => ParseOut(Error, q, rest)
        case Refuse(q) => ParseOut(LineTooLong, q, rest)
  }

  function ParseAfter(e: LineEffect, rest: bytes): ParseOut {
    match e
    case Continue(q) => ParseStep(q, rest)
    case Emit(q) => ParseOut(Complete, q, rest)
    case Reject(q) => ParseOut(Error, q, rest)
    case Refuse(q) => ParseOut(LineTooLong, q, rest)
  }

  /** ParseStep, one line at a time. */
  lemma ParseLine(p: Parser, s: bytes)
    ensures match FindCrlf(s)
            case None => ParseStep(p, s) == ParseOut(NeedMore, p, s)
            case Some(i) =>
              ParseStep(p, s) == if i > MAX_LINE then ParseOut(LineTooLong, p, s)
                                 else ParseAfter(FeedLine(p, s[..i]), s[i + 2..])
  {
  }

  // ---- the parse/release loop ----

  datatype End = Open | Bad | Refused

  /** Requests completed, how parsing ended, and (when it did not end) what is left. */
  datatype Outcome = Outcome(reqs: seq<Request>, end: End, parser: Parser, rest: bytes)

  function Prepend(reqs: seq<Request>, o: Outcome): Outcome { o.(reqs := reqs + o.reqs) }

  function Drain(p: Parser, s: bytes): (o: Outcome)
    ensures o.end.Open? ==> CrlfFree(o.rest)
    decreases |s|
  {
    var r := ParseStep(p, s);
    match r.result
    case NeedMore => Outcome([], Open, r.parser, r.rest)
    case LineTooLong => Outcome([], Refused, r.parser, r.rest)
    case Error => Outcome([], Bad, r.parser, r.rest)
    case Complete => Prepend([r.parser.current], Drain(FRESH, r.rest))
  }

  // ---- the reference: lines, then a fold ----

  /** The lines of `s` that are ended by a CRLF. */
  function Lines(s: bytes): seq<bytes>
    decreases |s|
  {
    match FindCrlf(s)
    case None => []
    case Some(i) => [s[..i]] + Lines(s[i + 2..])
  }

  /** What follows the last CRLF. */
  function Tail(s: bytes): (r: bytes)
    ensures CrlfFree(r)
    decreases |s|
  {
    match FindCrlf(s)
    case None => s
    case Some(i) => Tail(s[i + 2..])
  }

  datatype Verdict = Verdict(reqs: seq<Request>, end: End, parser: Parser)

  function Interpret(p: Parser, lines: seq<bytes>): Verdict
    decreases |lines|, 1
  {
    if lines == [] then Verdict([], Open, p)
    else if |lines[0]| > MAX_LINE then Verdict([], Refused, p)
    else InterpretAfter(FeedLine(p, lines[0]), lines[1..])
  }

  function InterpretAfter(e: LineEffect, lines: seq<bytes>): Verdict
    decreases |lines|, 2
  {
    match e
    case Continue(q) => Interpret(q, lines)
    case Emit(q) =>
      var v := Interpret(FRESH, lines);
      v.(reqs := [q.current] + v.reqs)
    case Reject(q) => Verdict([], Bad, q)
    case Refuse(q) => Verdict([], Refused, q)
  }

  /** Drain, one line at a time. */
  lemma {:induction false} DrainLine(p: Parser, s: bytes)
    ensures Drain(p, s) ==
            match FindCrlf(s)
            case None => Outcome([], Open, p, s)
            case Some(i) =>
              if i > MAX_LINE then Outcome([], Refused, p, s)
              else AfterLine(FeedLine(p, s[..i]), s[i + 2..])
  {
    match FindCrlf(s)
    case None =>
    case Some(i) =>
      if i <= MAX_LINE {
        match FeedLine(p, s[..i])
        case Continue(q) => assert ParseStep(p, s) == ParseStep(q, s[i + 2..]);
        case _ =>
      }
  }

  function AfterLine(e: LineEffect, rest: bytes): Outcome {
    match e
    case Continue(q) => Drain(q, rest)
    case Emit(q) => Prepend([q.current], Drain(FRESH, rest))
    case Reject(q) => Outcome([], Bad, q, rest)
    case Refuse(q) => Outcome([], Refused, q, rest)
  }

  lemma InterpretLine(p: Parser, line: bytes, lines: seq<bytes>)
    requires |line| <= MAX_LINE
    ensures Interpret(p, [line] + lines) == InterpretAfter(FeedLine(p, line), lines)
  {
    assert ([line] + lines)[1..] == lines;
  }

  /** The incremental parser computes the fold over complete lines. */
  lemma {:induction false} DrainIsInterpret(p: Parser, s: bytes)
    ensures Agrees(Drain(p, s), Interpret(p, Lines(s)), Tail(s))
    decreases |s|
  {
    DrainLine(p, s);
    match FindCrlf(s)
    case None =>
    case Some(i) =>
      var rest := s[i + 2..];
      if i <= MAX_LINE {
        InterpretLine(p, s[..i], Lines(rest));
        match FeedLine(p, s[..i])
        case Continue(q) => DrainIsInterpret(q, rest);
        case Emit(q) => DrainIsInterpret(FRESH, rest);
        case _ =>
      }
  }

  ghost predicate Agrees(o: Outcome, v: Verdict, tail: bytes) {
    && o.reqs == v.reqs && o.end == v.end && o.parser == v.parser
    && (o.end.Open? ==> o.rest == tail)
  }

  // ---- chunking invariance ----

  /** One more chunk: a finished parse stays as it is, an open one resumes from its own leftovers. */
  lemma {:induction false} DrainAppend(p: Parser, a: bytes, b: bytes)
    ensures Resumes(Drain(p, a), b, Drain(p, a + b))
    decreases |a|
  {
    DrainLine(p, a);
    match FindCrlf(a)
    case None =>
      assert Prepend([], Drain(p, a + b)) == Drain(p, a + b);
    case Some(i) =>
      FindCrlfExtends(a, b);
      DrainLine(p, a + b);
      var rest := a[i + 2..];
      assert (a + b)[..i] == a[..i] && (a + b)[i + 2..] == rest + b;
      if i <= MAX_LINE {
        match FeedLine(p, a[..i])
        case Continue(q) => DrainAppend(q, rest, b);
        case Emit(q) =>
          DrainAppend(FRESH, rest, b);
          PrependResumes([q.current], Drain(FRESH, rest), b, Drain(FRESH, rest + b));
        case _ =>
      }
  }

  /** `w` is what `o` becomes when `b` arrives. */
  ghost predicate Resumes(o: Outcome, b: bytes, w: Outcome) {
    if o.end.Open? then w == Prepend(o.reqs, Drain(o.parser, o.rest + b))
    else w.reqs == o.reqs && w.end == o.end && w.parser == o.parser
  }

  lemma PrependResumes(reqs: seq<Request>, o: Outcome, b: bytes, w: Outcome)
    requires Resumes(o, b, w)
    ensures Resumes(Prepend(reqs, o), b, Prepend(reqs, w))
  {
    if o.end.Open? {
      var t := Drain(o.parser, o.rest + b);
      SeqAssoc(reqs, o.reqs, t.reqs);
    }
  }

  /** The connection's loop over a list of reads: append, drain, stop at the first terminal outcome. */
  function DrainChunks(p: Parser, left: bytes, chunks: seq<bytes>): Outcome
    decreases |chunks|
  {
    if chunks == [] then Outcome([], Open, p, left)
    else
      var o := Drain(p, left + chunks[0]);
      if o.end.Open? then Prepend(o.reqs, DrainChunks(o.parser, o.rest, chunks[1..])) else o
  }

  /** Whatever the split of a stream into reads, the requests and the terminal outcome are those of
      one parse of the whole stream; without a terminal outcome the parser state and the leftover
      bytes agree too. */
  lemma {:induction false} ChunkingInvariance(p: Parser, left: bytes, chunks: seq<bytes>)
    requires CrlfFree(left)
    ensures var c := DrainChunks(p, left, chunks); var w := Drain(p, left + Flatten(chunks));
            && c.reqs == w.reqs && c.end == w.end && c.parser == w.parser
            && (c.end.Open? ==> c.rest == w.rest)
    decreases |chunks|
  {
    if chunks == [] {
      assert left + [] == left;
    } else {
      var more := Flatten(chunks[1..]);
      assert left + Flatten(chunks) == (left + chunks[0]) + more;
      DrainAppend(p, left + chunks[0], more);
      var o := Drain(p, left + chunks[0]);
      if o.end.Open? {
        ChunkingInvariance(o.parser, o.rest, chunks[1..]);
      }
    }
  }
}
