/** How the acceptance client reads one response off the wire. */
module ClientRead {
  import opened Algebra
  import opened Bytes
  import opened Socket
  import opened HttpSpec

  const MAX_HEAD := 65536
  const FIELD: bytes := "Content-Length:"
  const FIELD_LOWER: bytes := "content-length:"

  predicate BlankAt(s: bytes, i: int) { CrlfAt(s, i) && CrlfAt(s, i + 2) }

  /** Position of the first empty line: `find("\r\n\r\n")`. */
  function FindBlank(s: bytes): (r: Option<nat>)
    ensures r.Some? ==> BlankAt(s, r.value) && forall i :: i < r.value ==> !BlankAt(s, i)
    ensures r.None? ==> forall i :: !BlankAt(s, i)
  {
    FindBlankFrom(s, 0)
  }

  function FindBlankFrom(s: bytes, i: nat): (r: Option<nat>)
    requires forall j :: j < i ==> !BlankAt(s, j)
    ensures r.Some? ==> BlankAt(s, r.value) && forall j :: j < r.value ==> !BlankAt(s, j)
    ensures r.None? ==> forall j :: !BlankAt(s, j)
    decreases |s| - i
  {
    if |s| <= i + 3 then None
    else if BlankAt(s, i) then Some(i)
    else FindBlankFrom(s, i + 1)
  }

  lemma FindBlankExtends(a: bytes, b: bytes)
    requires FindBlank(a).Some?
    ensures FindBlank(a + b) == FindBlank(a)
  {
    var i := FindBlank(a).value;
    assert BlankAt(a + b, i);
    assert forall j :: j < i ==> BlankAt(a + b, j) == BlankAt(a, j);
  }

  function LeadingDigits(s: bytes): (r: bytes)
    ensures forall c :: c in r ==> IsDigit(c)
  {
    if s != [] && IsDigit(s[0]) then [s[0]] + LeadingDigits(s[1..]) else []
  }

  const ULONG_RANGE := 0x1_0000_0000_0000_0000

  /** `isspace` in the C locale. */
  predicate IsSpace(c: char) { c == ' ' || '\t' <= c <= '\r' }

  function SkipSpace(s: bytes): (r: bytes)
    ensures r != [] ==> !IsSpace(r[0])
  {
    if s != [] && IsSpace(s[0]) then SkipSpace(s[1..]) else s
  }

  /** `std::stoul`: white space, a sign, digits; None where it throws, because there is no digit or the
      value does not fit. A negated value wraps around. */
  function Stoul(s: bytes): Option<nat> {
    var t := SkipSpace(s);
    var signed := t != [] && (t[0] == '-' || t[0] == '+');
    var digits := LeadingDigits(if signed then t[1..] else t);
    if digits == [] || ToNat(digits) >= ULONG_RANGE then None
    else Some(if signed && t[0] == '-' then (ULONG_RANGE - ToNat(digits)) % ULONG_RANGE else ToNat(digits))
  }

  predicate IsLengthField(line: bytes) { FIELD <= line || FIELD_LOWER <= line }

  /** The value of the last Content-Length line, 0 without one, None if `stoul` throws. */
  function ContentLength(head: bytes, acc: nat): Option<nat>
    decreases |head|
  {
    if head == [] then Some(acc)
    else
      var i := FindCrlf(head);
      var line := if i.None? then head else head[..i.value];
      var rest := if i.None? then [] else head[i.value + 2..];
      if IsLengthField(line) then
        match Stoul(line[15..])
        case None => None
        case Some(n) => ContentLength(rest, n)
      else ContentLength(rest, acc)
  }

  /** Exactly one response: a head, an empty line and as many bytes as the head announces. */
  predicate IsFramed(s: bytes) {
    match FindBlank(s)
    case None => false
    case Some(h) => ContentLength(s[..h], 0) == Some(|s| - h - 4)
  }

  datatype ReadStatus = Received | NotReceived | BadNumber

  /** All the bytes a script of reads delivers. */
  function AllData(script: seq<ReadOutcome>): bytes {
    if script == [] then [] else (if script[0].Got? then script[0].data else []) + AllData(script[1..])
  }

  predicate AllDeliver(script: seq<ReadOutcome>) {
    forall i :: 0 <= i < |script| ==> script[i].Got? && script[i].data != []
  }

  method FindContentLength(head: bytes) returns (r: Option<nat>)
    ensures r == ContentLength(head, 0)
  {
    var acc: nat, pos: nat := 0, 0;
    assert head[0..] == head;
    while pos < |head|
      invariant pos <= |head|
      invariant ContentLength(head[pos..], acc) == ContentLength(head, 0)
    {
      var i := FindCrlf(head[pos..]);
      var line := if i.None? then head[pos..] else head[pos..][..i.value];
      var next := if i.None? then |head| else pos + i.value + 2;
      assert head[next..] == if i.None? then [] else head[pos..][i.value + 2..];
      pos := next;
      if IsLengthField(line) {
        var n := Stoul(line[15..]);
        if n.None? {
          return None;
        }
        acc := n.value;
      }
    }
    assert head[pos..] == [];
    r := Some(acc);
  }

  /** What has been read when the head is complete, or when reading stops before that. */
  function ReadForHead(out: bytes, script: seq<ReadOutcome>): (r: bytes)
    ensures |out| <= |r| <= |out| + |AllData(script)|
    decreases |script|
  {
    if FindBlank(out).Some? || script == [] || !script[0].Got? || script[0].data == [] then out
    else ReadForHead(out + script[0].data, script[1..])
  }

  /** A read of 0 bytes is the peer's end of file or the 3 s timeout. */
  predicate NoMore(script: seq<ReadOutcome>, k: nat) { k >= |script| || script[k] == Got([]) }

  /** The first loop: reads until the head is complete. `ended` is the value returned early. The bound
      is checked after each read, so it is for all that was read by the time the head is complete. */
  method ReadHead(script: seq<ReadOutcome>)
    returns (ended: Option<ReadStatus>, out: bytes, k: nat, headEnd: nat)
    ensures k <= |script| && out + AllData(script[k..]) == AllData(script)
    ensures ended == None <==> FindBlank(ReadForHead([], script)).Some? && |ReadForHead([], script)| <= MAX_HEAD
    ensures ended == None ==> FindBlank(out) == Some(headEnd) && out == ReadForHead([], script)
    ensures ended.Some? ==>
      if |out| > MAX_HEAD then |ReadForHead([], script)| > MAX_HEAD
      else FindBlank(out).None? && (NoMore(script, k) || !script[k].Got?)
    ensures ended.Some? ==>
      ended.value == if |out| <= MAX_HEAD && NoMore(script, k) && out != [] then Received else NotReceived
  {
    out, k, headEnd := [], 0, 0;
    var found := FindBlank(out);
    while found.None?
      invariant k <= |script| && found == FindBlank(out) && |out| <= MAX_HEAD
      invariant out + AllData(script[k..]) == AllData(script)
      invariant ReadForHead(out, script[k..]) == ReadForHead([], script)
      decreases |script| - k
    {
      if k == |script| || script[k] == Got([]) {
        assert k == |script| ==> out + AllData(script[k..]) == out;
        ended := Some(if out != [] then Received else NotReceived);
        return;
      }
      if !script[k].Got? {
        ended := Some(NotReceived);
        return;
      }
      OneMoreRead(script, k, out);
      out := out + script[k].data;
      k := k + 1;
      if MAX_HEAD < |out| {
        ended := Some(NotReceived);
        return;
      }
      found := FindBlank(out);
    }
    ended, headEnd := None, found.value;
  }

  lemma OneMoreRead(script: seq<ReadOutcome>, k: nat, out: bytes)
    requires k < |script| && script[k].Got?
    ensures out + script[k].data + AllData(script[k + 1..]) == out + AllData(script[k..])
    ensures script[k].data != [] && FindBlank(out).None? ==>
      ReadForHead(out + script[k].data, script[k + 1..]) == ReadForHead(out, script[k..])
  {
    assert script[k..][1..] == script[k + 1..];
    SeqAssoc(out, script[k].data, AllData(script[k + 1..]));
  }

  /** `s` holds a complete head and at least as many bytes behind it as the head announces. */
  predicate IsComplete(s: bytes) {
    match FindBlank(s)
    case None => false
    case Some(h) => ContentLength(s[..h], 0).Some? && ContentLength(s[..h], 0).value <= |s| - h - 4
  }

  /** Reads the head and then as many bytes as it announces; `k` answers have been used up. Exactly one
      response, cut into non-empty reads in any way, is returned byte for byte, exactly if what was
      read by the end of its head keeps the bound; the body may have any length. */
  method ReadHttpResponse(script: seq<ReadOutcome>) returns (status: ReadStatus, out: bytes, ghost k: nat)
    ensures AllDeliver(script) && IsFramed(AllData(script)) ==>
              (status == Received && out == AllData(script) <==> |ReadForHead([], script)| <= MAX_HEAD)
    ensures k <= |script| && out + AllData(script[k..]) == AllData(script)
    ensures status == Received ==> IsComplete(out) || (NoMore(script, k) && out != [])
    ensures status == BadNumber ==> FindBlank(out).Some? && ContentLength(out[..FindBlank(out).value], 0) == None
    ensures status == NotReceived ==>
      || (k < |script| && !script[k].Got?) || (NoMore(script, k) && out == [])
      || (|out| > MAX_HEAD && |ReadForHead([], script)| > MAX_HEAD)
  {
    var ended, used, headEnd;
    ended, out, used, headEnd := ReadHead(script);
    k := used;
    if ended.Some? {
      status := ended.value;
      HeadNotRead(script);
      return;
    }
    FindBlankExtends(out, AllData(script[k..]));
    assert AllData(script)[..headEnd] == out[..headEnd];
    var length := FindContentLength(out[..headEnd]);
    if length.None? {
      status := BadNumber;
      return;
    }
    ghost var head := out;
    status, out, k := ReadBody(script, used, out, headEnd, length.value);
    assert out[..headEnd] == head[..headEnd];
    WholeRead(script, k, out, headEnd, length.value);
  }

  lemma WholeRead(script: seq<ReadOutcome>, k: nat, out: bytes, headEnd: nat, length: nat)
    requires k <= |script| && out + AllData(script[k..]) == AllData(script) && FindBlank(out) == Some(headEnd)
    requires ContentLength(out[..headEnd], 0) == Some(length)
    ensures AllDeliver(script) && IsFramed(AllData(script)) && (length <= |out| - headEnd - 4 || NoMore(script, k)) ==>
              out == AllData(script)
  {
    FindBlankExtends(out, AllData(script[k..]));
    assert AllData(script)[..headEnd] == out[..headEnd];
    if AllDeliver(script) && IsFramed(AllData(script)) {
      assert |AllData(script)| == |out| + |AllData(script[k..])|;
      assert k == |script| ==> script[k..] == [];
    }
  }

  /** The second loop: reads until `length` bytes follow the head, or no more come. */
  method ReadBody(script: seq<ReadOutcome>, used: nat, head: bytes, headEnd: nat, length: nat)
    returns (status: ReadStatus, out: bytes, ghost k: nat)
    requires used <= |script| && FindBlank(head) == Some(headEnd)
    ensures used <= k <= |script| && head <= out && out + AllData(script[k..]) == head + AllData(script[used..])
    ensures FindBlank(out) == Some(headEnd) && status != BadNumber
    ensures status == Received ==> length <= |out| - headEnd - 4 || NoMore(script, k)
    ensures status == NotReceived ==> k < |script| && !script[k].Got?
  {
    out, k := head, used;
    var i := used;
    while |out| - (headEnd + 4) < length
      invariant used <= i == k <= |script| && head <= out && FindBlank(out) == Some(headEnd)
      invariant out + AllData(script[k..]) == head + AllData(script[used..])
      decreases |script| - i
    {
      if i == |script| || script[i] == Got([]) {
        break;
      }
      if !script[i].Got? {
        status := NotReceived;
        return;
      }
      OneMoreRead(script, i, out);
      FindBlankExtends(out, script[i].data);
      out := out + script[i].data;
      i := i + 1;
      k := i;
    }
    status := Received;
  }

  /** Reads that only deliver data bring a framed stream's head, unless it breaks the bound. */
  lemma {:induction false} HeadRead(out: bytes, script: seq<ReadOutcome>)
    requires AllDeliver(script)
    ensures FindBlank(out + AllData(script)).Some? ==> FindBlank(ReadForHead(out, script)).Some?
    decreases |script|
  {
    if script == [] {
      assert out + AllData(script) == out;
    } else if FindBlank(out).None? {
      SeqAssoc(out, script[0].data, AllData(script[1..]));
      HeadRead(out + script[0].data, script[1..]);
    }
  }

  lemma HeadNotRead(script: seq<ReadOutcome>)
    requires FindBlank(ReadForHead([], script)).None? || |ReadForHead([], script)| > MAX_HEAD
    ensures AllDeliver(script) && IsFramed(AllData(script)) ==> |ReadForHead([], script)| > MAX_HEAD
  {
    if AllDeliver(script) {
      HeadRead([], script);
      assert [] + AllData(script) == AllData(script);
    }
  }

  // ---- the server's responses are framed ----

  lemma CrlfBehindLine(line: bytes, rest: bytes, i: int)
    requires '\r' !in line
    ensures CrlfAt(line + CRLF + rest, i) <==> i == |line| || CrlfAt(rest, i - |line| - 2)
  {
    var s := line + CRLF + rest;
    if 0 <= i < |line| {
      assert s[i] == line[i];
    } else if |line| + 2 <= i < |s| - 1 {
      assert s[i] == rest[i - |line| - 2] && s[i + 1] == rest[i - |line| - 1];
    }
  }

  lemma BlankAfterLine(line: bytes, rest: bytes)
    requires '\r' !in line && line != []
    ensures FindBlank(line + CRLF + rest) ==
            if CrlfAt(rest, 0) then Some(|line|)
            else if FindBlank(rest).None? then None else Some(|line| + 2 + FindBlank(rest).value)
  {
    var s, m := line + CRLF + rest, |line| + 2;
    forall i ensures BlankAt(s, i) <==> (i == |line| && CrlfAt(rest, 0)) || BlankAt(rest, i - m) {
      CrlfBehindLine(line, rest, i);
      CrlfBehindLine(line, rest, i + 2);
    }
    if CrlfAt(rest, 0) {
      assert BlankAt(s, |line|);
    } else if FindBlank(rest).Some? {
      assert BlankAt(s, m + FindBlank(rest).value);
    }
    if FindBlank(s).Some? && FindBlank(s).value != |line| {
      assert BlankAt(rest, FindBlank(s).value - m);
    }
  }

  lemma {:induction false} LeadingDigitsAll(s: bytes)
    requires forall c :: c in s ==> IsDigit(c)
    ensures LeadingDigits(s) == s
  {
    if s != [] {
      assert s[0] in s;
      LeadingDigitsAll(s[1..]);
    }
  }

  lemma StoulDecimal(n: nat)
    requires n < ULONG_RANGE
    ensures Stoul(" " + Decimal(n)) == Some(n)
  {
    var d := Decimal(n);
    assert IsDigit(d[0]);
    assert SkipSpace(d) == d;
    assert (" " + d)[1..] == d;
    LeadingDigitsAll(d);
    DecimalRoundTrip(n);
  }

  lemma ContentLengthLine(line: bytes, rest: bytes, acc: nat)
    requires CrlfFree(line)
    ensures ContentLength(line + CRLF + rest, acc) ==
            if IsLengthField(line) then
              (if Stoul(line[15..]).None? then None else ContentLength(rest, Stoul(line[15..]).value))
            else ContentLength(rest, acc)
  {
    FindCrlfLine(line, rest);
  }

  function StatusLine(): bytes { "HTTP/1.1 200 OK" }

  function LengthLine(n: nat): bytes { "Content-Length: " + Decimal(n) }

  function PersistLine(keepAlive: bool): bytes {
    if keepAlive then "Connection: keep-alive" else "Connection: close"
  }

  lemma HeadLines(keepAlive: bool, n: nat, rest: bytes)
    ensures ResponseHead(keepAlive, n) + rest ==
            StatusLine() + CRLF + (LengthLine(n) + CRLF + (PersistLine(keepAlive) + rest))
  {
  }

  lemma LengthLineFacts(n: nat)
    ensures '\r' !in LengthLine(n) && IsLengthField(LengthLine(n)) && LengthLine(n)[15..] == " " + Decimal(n)
  {
    assert LengthLine(n)[..15] == FIELD;
    assert '\r' !in Decimal(n);
  }

  lemma OtherLinesFacts(keepAlive: bool)
    ensures '\r' !in StatusLine() && !IsLengthField(StatusLine())
    ensures '\r' !in PersistLine(keepAlive) && PersistLine(keepAlive) != [] && !IsLengthField(PersistLine(keepAlive))
  {
    assert StatusLine()[0] != FIELD[0] && StatusLine()[0] != FIELD_LOWER[0];
    assert PersistLine(keepAlive)[3] != FIELD[3] && PersistLine(keepAlive)[0] != FIELD_LOWER[0];
  }

  lemma HeadLength(keepAlive: bool, n: nat)
    requires n < ULONG_RANGE
    ensures ContentLength(ResponseHead(keepAlive, n), 0) == Some(n)
  {
    var p := PersistLine(keepAlive);
    HeadLines(keepAlive, n, []);
    OtherLinesFacts(keepAlive);
    LengthLineFacts(n);
    NoCrNoCrlf(StatusLine());
    NoCrNoCrlf(LengthLine(n));
    NoCrNoCrlf(p);
    ContentLengthLine(StatusLine(), LengthLine(n) + CRLF + (p + []), 0);
    ContentLengthLine(LengthLine(n), p + [], 0);
    StoulDecimal(n);
    assert ContentLength(p, n) == ContentLength([], n);
    assert p + [] == p && ResponseHead(keepAlive, n) + [] == ResponseHead(keepAlive, n);
  }

  /** Every 200 answer is framed, whatever its body. */
  lemma ResponseIsFramed(keepAlive: bool, body: bytes)
    requires |body| < ULONG_RANGE
    ensures IsFramed(ResponseHead(keepAlive, |body|) + CRLF + CRLF + body)
  {
    var n := |body|;
    var head := ResponseHead(keepAlive, n);
    var p := PersistLine(keepAlive);
    var tail := CRLF + (CRLF + body);
    assert head + CRLF + CRLF + body == head + tail;
    HeadLines(keepAlive, n, tail);
    HeadLines(keepAlive, n, []);
    OtherLinesFacts(keepAlive);
    LengthLineFacts(n);
    assert p + tail == p + CRLF + (CRLF + body);
    BlankAfterLine(p, CRLF + body);
    BlankAfterLine(LengthLine(n), p + tail);
    BlankAfterLine(StatusLine(), LengthLine(n) + CRLF + (p + tail));
    assert |head| == |StatusLine()| + 2 + |LengthLine(n)| + 2 + |p| by {
      assert |head + []| == |head|;
    }
    assert (head + tail)[..|head|] == head;
    HeadLength(keepAlive, n);
  }

  /** So both answers of the server, cut into reads in any way, meet the reader's precondition. */
  lemma AnswersAreFramed(req: Request)
    ensures IsFramed(BuildResponse(req)) && |BuildResponse(req)| <= MAX_HEAD
    ensures IsFramed(BUILD_400) && |BUILD_400| <= MAX_HEAD
  {
    ResponseIsFramed(req.keepAlive, BODY);
    ResponseIsShort(req);
    BadRequestIsFramed();
  }

  lemma ResponseIsShort(req: Request)
    ensures |BuildResponse(req)| <= MAX_HEAD
  {
    assert Decimal(|BODY|) == "13" by { assert Decimal(1) == "1"; }
  }

  lemma BadRequestText()
    ensures BUILD_400 == "HTTP/1.1 400 Bad Request" + CRLF + (LengthLine(0) + CRLF + (PersistLine(false) + CRLF + CRLF))
  {
    var a: bytes, b: bytes, c: bytes := "HTTP/1.1 400 Bad Request", "Content-Length: 0", "Connection: close";
    assert Decimal(0) == "0";
    assert LengthLine(0) == b;
    Regroup(a, b, c);
  }

  lemma Regroup(a: bytes, b: bytes, c: bytes)
    ensures a + CRLF + b + CRLF + c + CRLF + CRLF == a + CRLF + (b + CRLF + (c + CRLF + CRLF))
  {
  }

  lemma BadRequestLines()
    ensures '\r' !in "HTTP/1.1 400 Bad Request" && !IsLengthField("HTTP/1.1 400 Bad Request")
  {
    var status: bytes := "HTTP/1.1 400 Bad Request";
    assert status[0] != FIELD[0] && status[0] != FIELD_LOWER[0];
  }

  lemma BadRequestIsFramed()
    ensures IsFramed(BUILD_400)
  {
    var status: bytes, length: bytes, p := "HTTP/1.1 400 Bad Request", LengthLine(0), PersistLine(false);
    BadRequestText();
    BadRequestLines();
    LengthLineFacts(0);
    OtherLinesFacts(false);
    BlankAfterLine(p, CRLF);
    BlankAfterLine(length, p + CRLF + CRLF);
    BlankAfterLine(status, length + CRLF + (p + CRLF + CRLF));
    var head := status + CRLF + (length + CRLF + p);
    assert BUILD_400 == head + CRLF + CRLF && BUILD_400[..|head|] == head;
    BadRequestLength();
  }

  lemma BadRequestLength()
    ensures ContentLength("HTTP/1.1 400 Bad Request" + CRLF + (LengthLine(0) + CRLF + PersistLine(false)), 0) == Some(0)
  {
    var status: bytes, length, p := "HTTP/1.1 400 Bad Request", LengthLine(0), PersistLine(false);
    BadRequestLines();
    LengthLineFacts(0);
    OtherLinesFacts(false);
    NoCrNoCrlf(status);
    NoCrNoCrlf(length);
    NoCrNoCrlf(p);
    ContentLengthLine(status, length + CRLF + p, 0);
    ContentLengthLine(length, p, 0);
    StoulDecimal(0);
    assert ContentLength(p, 0) == ContentLength([], 0);
  }
}
