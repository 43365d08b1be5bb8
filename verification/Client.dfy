/** The acceptance client: the printer of requests that the parser must read back, and the reader of
    one response. */
module Client {
  import opened Bytes
  import opened HttpSpec
  import opened HttpFacts

  // ---- requests ----

  datatype Get = Get(path: bytes, close: bool)

  function BuildGetRequest(g: Get): bytes {
    "GET " + g.path + " HTTP/1.1\r\n"
    + "Host: localhost\r\n"
    + (if g.close then "Connection: close\r\n" else "Connection: keep-alive\r\n")
    + "\r\n"
  }

  /** The request the server should see. */
  function Expected(g: Get): Request {
    Request("GET", g.path, "HTTP/1.1", "localhost", !g.close)
  }

  function RequestLine(g: Get): bytes { "GET " + g.path + " HTTP/1.1" }

  function ConnectionValue(g: Get): bytes { if g.close then "close" else "keep-alive" }

  function ConnectionLine(g: Get): bytes { "Connection" + ": " + ConnectionValue(g) }

  lemma PrintedText(g: Get)
    ensures RequestLine(g) + CRLF == "GET " + g.path + " HTTP/1.1\r\n"
    ensures "Host: localhost" + CRLF == "Host: localhost\r\n"
    ensures ConnectionLine(g) + CRLF == if g.close then "Connection: close\r\n" else "Connection: keep-alive\r\n"
  {
  }

  lemma PrintedLines(g: Get, rest: bytes)
    ensures BuildGetRequest(g) + rest ==
            RequestLine(g) + CRLF + ("Host: localhost" + CRLF + (ConnectionLine(g) + CRLF + ([] + CRLF + rest)))
  {
    PrintedText(g);
    Regroup(RequestLine(g) + CRLF, "Host: localhost" + CRLF, ConnectionLine(g) + CRLF, CRLF, rest);
    assert [] + CRLF == CRLF;
  }

  lemma Regroup(a: bytes, b: bytes, c: bytes, d: bytes, e: bytes)
    ensures (a + b + c + d) + e == a + (b + (c + (d + e)))
  {
  }

  lemma RequestLineCrlfFree(path: bytes)
    requires CrlfFree(path)
    ensures CrlfFree("GET " + path + " HTTP/1.1")
  {
    NoCrNoCrlf("GET ");
    NoCrNoCrlf(" HTTP/1.1");
    CrlfFreeConcat(path, " HTTP/1.1");
    var s := path + " HTTP/1.1";
    forall j | CrlfAt("GET " + s, j) ensures CrlfAt(s, j - 4) {
    }
    assert "GET " + s == "GET " + path + " HTTP/1.1";
  }

  lemma RequestLineSplits(g: Get)
    requires ValidPath(g.path)
    ensures SplitThree(RequestLine(g)) == Some(Triple("GET", g.path, "HTTP/1.1"))
  {
    var t := Triple("GET", g.path, "HTTP/1.1");
    assert RequestLine(g) == JoinThree(t);
    SplitThreeComplete(t);
  }

  lemma RequestLineReadBack(g: Get)
    requires ValidPath(g.path)
    ensures FeedLine(FRESH, RequestLine(g)) ==
            Continue(Parser(ExpectHeaders, Request("GET", g.path, "HTTP/1.1", "", true), 0, 0))
  {
    RequestLineSplits(g);
    RequestFeeds(RequestLine(g), g.path);
  }

  lemma RequestFeeds(line: bytes, path: bytes)
    requires SplitThree(line) == Some(Triple("GET", path, "HTTP/1.1")) && path != [] && path[0] == '/'
    ensures FeedLine(FRESH, line) ==
            Continue(Parser(ExpectHeaders, Request("GET", path, "HTTP/1.1", "", true), 0, 0))
  {
    assert "HTTP/1.1"[7] != "HTTP/1.0"[7];
  }

  lemma HeaderSplit(key: bytes, value: bytes)
    requires ':' !in key && (value != [] ==> value[0] != ' ')
    ensures var line := key + ": " + value;
            && IndexOf(line, ':') == Some(|key|) && line[..|key|] == key
            && TrimLeft(line[|key| + 1..]) == value
  {
    var line := key + ": " + value;
    assert line[..|key|] == key;
    IndexOfAfter(line, ':', |key|);
    assert line[|key| + 1..] == " " + value;
    assert (" " + value)[1..] == value;
  }

  lemma LowerKeys()
    ensures ToLower("Host") == "host" && ToLower("Connection") == "connection"
  {
    assert ToLower("Host") == "host";
    assert ToLower("Connection") == "connection";
  }

  lemma HostLineReadBack(p: Parser)
    requires p.phase.ExpectHeaders? && p.headerCount == 0
    ensures CrlfFree("Host: localhost")
    ensures FeedLine(p, "Host: localhost") ==
            Continue(p.(headerCount := 1, current := p.current.(host := "localhost")))
  {
    NoCrNoCrlf("Host: localhost");
    HostHeader(p.current, p.contentLength);
    HeaderFeeds(p, "Host: localhost", HeaderFields(p.current.(host := "localhost"), p.contentLength));
  }

  lemma HeaderFeeds(p: Parser, line: bytes, h: HeaderFields)
    requires p.phase.ExpectHeaders? && p.headerCount < MAX_HEADERS && line != []
    requires ParseHeaderLine(line, p.current, p.contentLength) == Some(h)
    ensures FeedLine(p, line) ==
            Continue(p.(headerCount := p.headerCount + 1, current := h.req, contentLength := h.contentLength))
  {
  }

  lemma HostHeader(req: Request, n: nat)
    ensures ParseHeaderLine("Host: localhost", req, n) == Some(HeaderFields(req.(host := "localhost"), n))
  {
    assert "Host: localhost" == "Host" + ": " + "localhost";
    HeaderSplit("Host", "localhost");
    LowerKeys();
  }

  lemma KeepAliveReadBack(req: Request, g: Get)
    requires req.keepAlive
    ensures UpdateKeepAlive(req, ConnectionValue(g)) == req.(keepAlive := !g.close)
  {
    var value := ConnectionValue(g);
    assert ToLower(value) == value;
    OccursByFirstChar(value, "close");
    assert OccursAt(value, value, 0);
  }

  lemma ConnectionLineReadBack(p: Parser, g: Get)
    requires p.phase.ExpectHeaders? && p.headerCount == 1 && p.current.keepAlive
    ensures CrlfFree(ConnectionLine(g)) && |ConnectionLine(g)| <= MAX_LINE
    ensures FeedLine(p, ConnectionLine(g)) ==
            Continue(p.(headerCount := 2, current := p.current.(keepAlive := !g.close)))
  {
    NoCrNoCrlf(ConnectionLine(g));
    HeaderSplit("Connection", ConnectionValue(g));
    LowerKeys();
    KeepAliveReadBack(p.current, g);
  }

  /** One printed request in front of anything is parsed back and leaves the rest untouched. */
  lemma RequestReadBack(g: Get, rest: bytes)
    requires ValidPath(g.path)
    ensures Drain(FRESH, BuildGetRequest(g) + rest) == Prepend([Expected(g)], Drain(FRESH, rest))
  {
    PrintedLines(g, rest);
    var s3 := [] + CRLF + rest;
    var s2 := ConnectionLine(g) + CRLF + s3;
    var s1 := "Host: localhost" + CRLF + s2;
    var p1 := Parser(ExpectHeaders, Request("GET", g.path, "HTTP/1.1", "", true), 0, 0);
    var p2 := p1.(headerCount := 1, current := p1.current.(host := "localhost"));
    var p3 := p2.(headerCount := 2, current := p2.current.(keepAlive := !g.close));
    RequestLineCrlfFree(g.path);
    RequestLineReadBack(g);
    LineReadBack(FRESH, RequestLine(g), s1);
    HostLineReadBack(p1);
    LineReadBack(p1, "Host: localhost", s2);
    ConnectionLineReadBack(p2, g);
    LineReadBack(p2, ConnectionLine(g), s3);
    LineReadBack(p3, [], rest);
    assert FeedLine(p3, []) == Emit(p3.(phase := ExpectRequestLine));
  }

  lemma LineReadBack(p: Parser, line: bytes, rest: bytes)
    requires CrlfFree(line) && |line| <= MAX_LINE
    ensures Drain(p, line + CRLF + rest) == AfterLine(FeedLine(p, line), rest)
  {
    FindCrlfLine(line, rest);
    DrainLine(p, line + CRLF + rest);
  }

  /** The printer is read back exactly on the paths the parser can carry. */
  lemma RoundTripExact(g: Get)
    ensures Drain(FRESH, BuildGetRequest(g)) == Outcome([Expected(g)], Open, FRESH, []) <==> ValidPath(g.path)
  {
    assert BuildGetRequest(g) + [] == BuildGetRequest(g);
    if ValidPath(g.path) {
      RequestReadBack(g, []);
      assert Drain(FRESH, []) == Outcome([], Open, FRESH, []);
    } else {
      DrainSound(FRESH, BuildGetRequest(g));
      assert Expected(g) in [Expected(g)];
    }
  }

  function PrintAll(gs: seq<Get>): bytes {
    if gs == [] then [] else BuildGetRequest(gs[0]) + PrintAll(gs[1..])
  }

  function ExpectAll(gs: seq<Get>): seq<Request> {
    if gs == [] then [] else [Expected(gs[0])] + ExpectAll(gs[1..])
  }

  lemma {:induction false} PrintAllReadBack(gs: seq<Get>)
    requires forall g :: g in gs ==> ValidPath(g.path)
    ensures Drain(FRESH, PrintAll(gs)) == Outcome(ExpectAll(gs), Open, FRESH, [])
  {
    if gs != [] {
      RequestReadBack(gs[0], PrintAll(gs[1..]));
      PrintAllReadBack(gs[1..]);
    }
  }

  /** Pipelined requests, cut into reads in any way, come out as printed, and nothing is left over. */
  lemma PipelinedRoundTrip(gs: seq<Get>, chunks: seq<bytes>)
    requires forall g :: g in gs ==> ValidPath(g.path)
    requires Flatten(chunks) == PrintAll(gs)
    ensures DrainChunks(FRESH, [], chunks) == Outcome(ExpectAll(gs), Open, FRESH, [])
  {
    PrintAllReadBack(gs);
    ChunkingInvariance(FRESH, [], chunks);
    assert [] + Flatten(chunks) == Flatten(chunks);
  }
}
