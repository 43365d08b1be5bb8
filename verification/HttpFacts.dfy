/** What a completed request looks like and costs, across any number of `parse` calls. */
module HttpFacts {
  import opened Bytes
  import opened HttpSpec

  /** The size of `n` lines of 8192 bytes with their CRLFs. */
  function LineCost(n: int): int { 8194 * n }

  const REQUEST_COST := 827596

  // ---- bounded parsing ----

  /** How many complete lines the rest of the current request can still have. */
  function LineBudget(p: Parser): int {
    match p.phase
    case ExpectRequestLine => MAX_HEADERS + 2
    case ExpectHeaders => MAX_HEADERS - p.headerCount + 1
  }

  /** The most bytes that the rest of the current request can still take out of the buffer: full
      lines, except for the empty one that ends it. */
  function Budget(p: Parser): int {
    LineCost(LineBudget(p) - 1) + 2
  }

  lemma {:induction false} ParseKeepsSuffix(p: Parser, s: bytes)
    ensures ParseStep(p, s).rest == s[|s| - |ParseStep(p, s).rest|..]
    decreases |s|
  {
    ParseLine(p, s);
    match FindCrlf(s)
    case None =>
    case Some(i) =>
      if i <= MAX_LINE {
        match FeedLine(p, s[..i])
        case Continue(q) => ParseKeepsSuffix(q, s[i + 2..]);
        case _ =>
      }
  }

  function Consumed(p: Parser, s: bytes): bytes {
    s[..|s| - |ParseStep(p, s).rest|]
  }

  lemma ConsumedStep(p: Parser, s: bytes, i: nat, q: Parser)
    requires FindCrlf(s) == Some(i) && ParseStep(p, s) == ParseStep(q, s[i + 2..])
    ensures Consumed(p, s) == s[..i + 2] + Consumed(q, s[i + 2..])
  {
    CutTwice(s, i + 2, |s| - |ParseStep(p, s).rest|);
  }

  lemma CutTwice(s: bytes, i: nat, j: nat)
    requires i <= j <= |s|
    ensures s[..j] == s[..i] + s[i..][..j - i]
  {
  }

  /** What one call takes out of the buffer: at most 100 header lines, none over the limit, whole
      lines only; a completed request ends with the empty line. */
  lemma {:induction false} ParseShape(p: Parser, s: bytes)
    requires p.headerCount <= MAX_HEADERS
    ensures Shaped(LineBudget(p), Lines(Consumed(p, s)), ParseStep(p, s))
    ensures ParseStep(p, s).result in {NeedMore, Complete} ==> Tail(Consumed(p, s)) == []
    decreases |s|
  {
    ParseLine(p, s);
    match FindCrlf(s)
    case None =>
    case Some(i) =>
      if i <= MAX_LINE {
        var rest := s[i + 2..];
        FeedCounts(p, s[..i]);
        match FeedLine(p, s[..i])
        case Continue(q) =>
          ParseShape(q, rest);
          ConsumedStep(p, s, i, q);
          LinesOfPrefix(s, i, Consumed(q, rest));
          ShapedCons(LineBudget(p), s[..i], LineBudget(q), Lines(Consumed(q, rest)), ParseStep(q, rest));
        case Emit(q) =>
          assert Consumed(p, s) == s[..i + 2] + [];
          LinesOfPrefix(s, i, []);
        case _ =>
      }
  }

  ghost predicate Shaped(budget: int, lines: seq<bytes>, r: ParseOut) {
    match r.result
    case Complete =>
      && 0 < |lines| <= budget && lines[|lines| - 1] == []
      && forall l :: l in lines ==> |l| <= MAX_LINE
    case NeedMore =>
      && r.parser.headerCount <= MAX_HEADERS && |lines| + LineBudget(r.parser) <= budget
      && forall l :: l in lines ==> |l| <= MAX_LINE
    case _ => true
  }

  lemma ShapedCons(budget: int, line: bytes, left: int, lines: seq<bytes>, r: ParseOut)
    requires Shaped(left, lines, r) && left < budget && |line| <= MAX_LINE
    ensures Shaped(budget, [line] + lines, r)
  {
  }

  lemma FeedCounts(p: Parser, line: bytes)
    requires p.headerCount <= MAX_HEADERS
    ensures match FeedLine(p, line)
            case Continue(q) => q.headerCount <= MAX_HEADERS && LineBudget(q) < LineBudget(p)
            case Emit(q) => line == [] && 0 < LineBudget(p)
            case _ => true
  {
  }

  lemma LinesOfPrefix(s: bytes, i: nat, more: bytes)
    requires FindCrlf(s) == Some(i)
    ensures Lines(s[..i + 2] + more) == [s[..i]] + Lines(more)
    ensures Tail(s[..i + 2] + more) == Tail(more)
  {
    var c := s[..i + 2] + more;
    assert CrlfAt(c, i);
    assert forall j :: j < i ==> CrlfAt(c, j) == CrlfAt(s, j);
    assert c[..i] == s[..i] && c[i + 2..] == more;
  }

  function Total(lines: seq<bytes>): nat {
    if lines == [] then 0 else |lines[0]| + 2 + Total(lines[1..])
  }

  /** Splitting into lines loses nothing. */
  lemma {:induction false} LinesTotal(s: bytes)
    ensures |s| == Total(Lines(s)) + |Tail(s)|
    decreases |s|
  {
    match FindCrlf(s)
    case None =>
    case Some(i) => LinesTotal(s[i + 2..]);
  }

  lemma {:induction false} TotalBound(lines: seq<bytes>)
    requires forall l :: l in lines ==> |l| <= MAX_LINE
    ensures Total(lines) <= LineCost(|lines|)
    ensures lines != [] && lines[|lines| - 1] == [] ==> Total(lines) <= LineCost(|lines| - 1) + 2
  {
    if lines != [] {
      TotalBound(lines[1..]);
    }
  }

  lemma ParseCost(p: Parser, s: bytes)
    requires p.headerCount <= MAX_HEADERS
    ensures var r := ParseStep(p, s);
            && (r.result.Complete? ==> |Consumed(p, s)| <= Budget(p))
            && (r.result.NeedMore? ==> r.parser.headerCount <= MAX_HEADERS
                                       && |Consumed(p, s)| + Budget(r.parser) <= Budget(p))
  {
    ParseShape(p, s);
    if ParseStep(p, s).result in {NeedMore, Complete} {
      LinesTotal(Consumed(p, s));
      TotalBound(Lines(Consumed(p, s)));
    }
  }

  /** Bytes taken out of the buffer by the calls that follow the arrivals of `chunks`, until a call
      ends otherwise than by asking for more. */
  function TotalConsumed(p: Parser, left: bytes, chunks: seq<bytes>): nat
    decreases |chunks|
  {
    if chunks == [] then 0
    else
      var s := left + chunks[0];
      var r := ParseStep(p, s);
      |Consumed(p, s)| + if r.result.NeedMore? then TotalConsumed(r.parser, r.rest, chunks[1..]) else 0
  }

  predicate EndsBadly(p: Parser, left: bytes, chunks: seq<bytes>)
    decreases |chunks|
  {
    chunks != [] &&
    var r := ParseStep(p, left + chunks[0]);
    match r.result
    case NeedMore => EndsBadly(r.parser, r.rest, chunks[1..])
    case Complete => false
    case _ => true
  }

  /** However many calls it takes, one request takes at most 827596 bytes out of the buffer. */
  lemma {:induction false} RequestCostIsBounded(p: Parser, left: bytes, chunks: seq<bytes>)
    requires p.headerCount <= MAX_HEADERS && !EndsBadly(p, left, chunks)
    ensures TotalConsumed(p, left, chunks) <= Budget(p) <= REQUEST_COST
    decreases |chunks|
  {
    if chunks != [] {
      var s := left + chunks[0];
      ParseCost(p, s);
      var r := ParseStep(p, s);
      if r.result.NeedMore? {
        RequestCostIsBounded(r.parser, r.rest, chunks[1..]);
      }
    }
  }

  // ---- what is emitted ----

  predicate ValidPath(path: bytes) {
    && path != [] && path[0] == '/'
    && ' ' !in path && FindCrlf(path).None?
    && |path| <= MAX_LINE - 13
  }

  predicate ValidRequest(r: Request) {
    r.method_ == "GET" && ValidPath(r.path) && IsHttpVersion(r.version)
  }

  predicate ValidParser(p: Parser) {
    match p.phase
    case ExpectRequestLine => p == FRESH
    case ExpectHeaders => ValidRequest(p.current)
  }

  lemma RequestLineSound(line: bytes, cur: Request)
    requires CrlfFree(line) && |line| <= MAX_LINE && ParseRequestLine(line, cur).Some?
    ensures ValidRequest(ParseRequestLine(line, cur).value)
  {
    SplitThreeSound(line);
    var t := SplitThree(line).value;
    var k := |t.a| + 1;
    assert line == t.a + " " + t.b + " " + t.c;
    assert |line| == 13 + |t.b|;
    assert line[k..k + |t.b|] == t.b;
    NoCrlfInside(line, k, t.b);
  }

  lemma NoCrlfInside(line: bytes, k: nat, word: bytes)
    requires k + |word| <= |line| && line[k..k + |word|] == word
    ensures CrlfFree(line) ==> CrlfFree(word)
  {
    forall j | CrlfAt(word, j) ensures CrlfAt(line, k + j) {
      assert line[k..k + |word|][j] == line[k + j] && line[k..k + |word|][j + 1] == line[k + j + 1];
    }
  }

  lemma HeaderKeepsRequestLine(line: bytes, req: Request, n: nat)
    ensures var h := ParseHeaderLine(line, req, n);
            h.Some? ==> h.value.req.method_ == req.method_ && h.value.req.path == req.path && h.value.req.version == req.version
  {
  }

  lemma FeedSound(p: Parser, line: bytes)
    requires ValidParser(p) && CrlfFree(line) && |line| <= MAX_LINE
    ensures match FeedLine(p, line)
            case Continue(q) => q.phase.ExpectHeaders? && ValidParser(q)
            case Emit(q) => ValidRequest(q.current)
            case _ => true
  {
    if p.phase.ExpectRequestLine? && ParseRequestLine(line, p.current).Some? {
      RequestLineSound(line, p.current);
    }
    HeaderKeepsRequestLine(line, p.current, p.contentLength);
  }

  /** Every request a connection is answered for is a GET of a valid path, and an open parse is
      either between requests or has a valid request line. */
  lemma {:induction false} DrainSound(p: Parser, s: bytes)
    requires ValidParser(p)
    ensures forall r :: r in Drain(p, s).reqs ==> ValidRequest(r)
    ensures Drain(p, s).end.Open? ==> ValidParser(Drain(p, s).parser)
    decreases |s|
  {
    DrainLine(p, s);
    match FindCrlf(s)
    case None =>
    case Some(i) =>
      if i <= MAX_LINE {
        assert forall j :: CrlfAt(s[..i], j) ==> CrlfAt(s, j);
        FeedSound(p, s[..i]);
        match FeedLine(p, s[..i])
        case Continue(q) => DrainSound(q, s[i + 2..]);
        case Emit(q) => DrainSound(FRESH, s[i + 2..]);
        case _ =>
      }
  }
}
