/** What the server's answers say: the text of a reply, read line by line as a client would, announces the
    status, the length of the body and whether the connection is kept. */
module Announce {
  import opened Algebra
  import opened Bytes
  import opened HttpSpec
  import opened ConnSpec

  /** The value of the last line that reads `name: value`. */
  function FieldOf(lines: seq<bytes>, name: bytes): Option<bytes>
    decreases |lines|
  {
    if lines == [] then None
    else
      var last := lines[|lines| - 1];
      if name + ": " <= last then Some(last[|name| + 2..]) else FieldOf(lines[..|lines| - 1], name)
  }

  predicate AnnouncesKeepAlive(text: bytes) { FieldOf(Lines(text), "Connection") == Some("keep-alive") }

  predicate AnnouncesClose(text: bytes) { FieldOf(Lines(text), "Connection") == Some("close") }

  /** The three digits behind the version of the first line. */
  function StatusOf(text: bytes): Option<bytes> {
    var lines := Lines(text);
    if lines != [] && |lines[0]| >= 12 && lines[0][..9] == "HTTP/1.1 " then Some(lines[0][9..12]) else None
  }

  lemma LineThenRest(line: bytes, rest: bytes)
    requires '\r' !in line
    ensures Lines(line + CRLF + rest) == [line] + Lines(rest) && Tail(line + CRLF + rest) == Tail(rest)
  {
    NoCrNoCrlf(line);
    FindCrlfLine(line, rest);
  }

  lemma NoMoreLines(body: bytes)
    requires '\r' !in body
    ensures Lines(body) == [] && Tail(body) == body
  {
    NoCrNoCrlf(body);
  }

  lemma FourLines(a: bytes, b: bytes, c: bytes, body: bytes, text: bytes)
    requires '\r' !in a && '\r' !in b && '\r' !in c && '\r' !in body
    requires text == a + CRLF + (b + CRLF + (c + CRLF + ([] + CRLF + body)))
    ensures Lines(text) == [a, b, c, []] && Tail(text) == body
  {
    var t4 := [] + CRLF + body;
    var t3 := c + CRLF + t4;
    var t2 := b + CRLF + t3;
    NoMoreLines(body);
    LineThenRest([], body);
    LineThenRest(c, t4);
    LineThenRest(b, t3);
    LineThenRest(a, t2);
    FourInARow(a, b, c, []);
  }

  lemma FourInARow(a: bytes, b: bytes, c: bytes, d: bytes)
    ensures [a] + ([b] + ([c] + ([d] + []))) == [a, b, c, d]
  {
  }

  lemma Regroup(a: bytes, b: bytes, c: bytes, body: bytes)
    ensures a + CRLF + b + CRLF + c + CRLF + CRLF + body == a + CRLF + (b + CRLF + (c + CRLF + ([] + CRLF + body)))
  {
    assert [] + CRLF == CRLF;
  }

  function PersistWord(keepAlive: bool): bytes { if keepAlive then "keep-alive" else "close" }

  function PersistText(keepAlive: bool): bytes { if keepAlive then "Connection: keep-alive" else "Connection: close" }

  lemma PersistTextIs(keepAlive: bool)
    ensures PersistText(keepAlive) == "Connection" + ": " + PersistWord(keepAlive) && '\r' !in PersistText(keepAlive)
  {
  }

  lemma LengthTexts()
    ensures "Content-Length: " + Decimal(13) == "Content-Length: 13" == "Content-Length" + ": " + "13"
    ensures "Content-Length: 0" == "Content-Length" + ": " + "0" && Decimal(0) == "0" && Decimal(13) == "13"
  {
    assert Decimal(1) == "1";
  }

  lemma ResponseText(req: Request)
    ensures BuildResponse(req) ==
            "HTTP/1.1 200 OK" + CRLF + "Content-Length: 13" + CRLF + PersistText(req.keepAlive) + CRLF + CRLF + "Hello, World!"
  {
    LengthTexts();
    assert |BODY| == 13;
    var a: bytes, n := "HTTP/1.1 200 OK", Decimal(13);
    SeqAssoc(a + CRLF, "Content-Length: ", n);
  }

  lemma OkLines(req: Request)
    ensures Lines(BuildResponse(req)) == ["HTTP/1.1 200 OK", "Content-Length: 13", PersistText(req.keepAlive), []]
    ensures Tail(BuildResponse(req)) == "Hello, World!"
  {
    ResponseText(req);
    PersistTextIs(req.keepAlive);
    Regroup("HTTP/1.1 200 OK", "Content-Length: 13", PersistText(req.keepAlive), "Hello, World!");
    FourLines("HTTP/1.1 200 OK", "Content-Length: 13", PersistText(req.keepAlive), "Hello, World!", BuildResponse(req));
  }

  lemma BadLines()
    ensures Lines(BUILD_400) == ["HTTP/1.1 400 Bad Request", "Content-Length: 0", "Connection: close", []]
    ensures Tail(BUILD_400) == []
  {
    var a: bytes, b: bytes, c: bytes := "HTTP/1.1 400 Bad Request", "Content-Length: 0", "Connection: close";
    Regroup(a, b, c, []);
    assert BUILD_400 + [] == BUILD_400;
    FourLines(a, b, c, [], BUILD_400);
  }

  lemma FieldHere(lines: seq<bytes>, name: bytes, value: bytes)
    ensures FieldOf(lines + [name + ": " + value], name) == Some(value)
  {
    var key, last := name + ": ", name + ": " + value;
    assert last == key + value && last[|key|..] == value;
    assert (lines + [last])[..|lines|] == lines;
  }

  lemma FieldNotHere(lines: seq<bytes>, last: bytes, name: bytes)
    requires !(name + ": " <= last)
    ensures FieldOf(lines + [last], name) == FieldOf(lines, name)
  {
    assert (lines + [last])[..|lines|] == lines;
  }

  lemma FieldsOfFour(status: bytes, length: bytes, persist: bytes)
    ensures var lines := [status] + ["Content-Length" + ": " + length] + ["Connection" + ": " + persist] + [[]];
            FieldOf(lines, "Connection") == Some(persist) && FieldOf(lines, "Content-Length") == Some(length)
  {
    var two := [status] + ["Content-Length" + ": " + length];
    var three := two + ["Connection" + ": " + persist];
    FieldNotHere(three, [], "Connection");
    FieldNotHere(three, [], "Content-Length");
    FieldHere(two, "Connection", persist);
    var p: bytes, key: bytes := "Connection" + ": " + persist, "Content-Length" + ": ";
    assert p[3] == 'n' && key[3] == 't';
    FieldNotHere(two, p, "Content-Length");
    FieldHere([status], "Content-Length", length);
  }

  /** What FieldsOfFour says of a text with these lines. */
  lemma TextFields(text: bytes, status: bytes, length: bytes, persist: bytes)
    requires Lines(text) == [status, "Content-Length" + ": " + length, "Connection" + ": " + persist, []]
    ensures FieldOf(Lines(text), "Connection") == Some(persist) && FieldOf(Lines(text), "Content-Length") == Some(length)
  {
    FieldsOfFour(status, length, persist);
    assert Lines(text) == [status] + ["Content-Length" + ": " + length] + ["Connection" + ": " + persist] + [[]];
  }

  lemma OkFields(req: Request)
    ensures var t := BuildResponse(req);
            && FieldOf(Lines(t), "Connection") == Some(PersistWord(req.keepAlive))
            && FieldOf(Lines(t), "Content-Length") == Some("13") && StatusOf(t) == Some("200")
            && Tail(t) == "Hello, World!"
  {
    OkLines(req);
    LengthTexts();
    PersistTextIs(req.keepAlive);
    TextFields(BuildResponse(req), "HTTP/1.1 200 OK", "13", PersistWord(req.keepAlive));
    StatusDigits(BuildResponse(req), "HTTP/1.1 200 OK", "200");
  }

  lemma StatusDigits(text: bytes, line: bytes, digits: bytes)
    requires Lines(text) != [] && Lines(text)[0] == line && |line| >= 12 && line[..9] == "HTTP/1.1 " && line[9..12] == digits
    ensures StatusOf(text) == Some(digits)
  {
  }

  lemma BadFields()
    ensures FieldOf(Lines(BUILD_400), "Connection") == Some(PersistWord(false))
    ensures FieldOf(Lines(BUILD_400), "Content-Length") == Some("0") && StatusOf(BUILD_400) == Some("400")
    ensures Tail(BUILD_400) == []
  {
    BadLines();
    LengthTexts();
    PersistTextIs(false);
    TextFields(BUILD_400, "HTTP/1.1 400 Bad Request", "0", PersistWord(false));
    StatusDigits(BUILD_400, "HTTP/1.1 400 Bad Request", "400");
  }

  lemma Words()
    ensures PersistWord(true) != PersistWord(false)
  {
    assert PersistWord(true)[0] == 'k' && PersistWord(false)[0] == 'c';
  }

  /** Every answer announces what the connection will do: 200 and the greeting for a request, 400 and no
      body for a bad one, the length of its body, and `keep-alive` or `close` as the reply keeps or ends
      the connection. */
  lemma ReplyAnnounces(r: Reply)
    ensures AnnouncesKeepAlive(r.Text()) <==> r.KeepAlive()
    ensures AnnouncesClose(r.Text()) <==> !r.KeepAlive()
    ensures StatusOf(r.Text()) == Some(if r.Ok? then "200" else "400")
    ensures Tail(r.Text()) == if r.Ok? then "Hello, World!" else []
    ensures FieldOf(Lines(r.Text()), "Content-Length") == Some(Decimal(|Tail(r.Text())|))
  {
    Words();
    LengthTexts();
    if r.Ok? {
      OkFields(r.req);
      assert |"Hello, World!"| == 13;
    } else {
      BadFields();
    }
  }
}
