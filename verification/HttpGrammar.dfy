/** Which texts the parser takes for a request, and as which: stated on the characters of the lines, without
    the parser's own functions, and proved to be what `ParseStep` does. */
module HttpGrammar {
  import opened Algebra
  import opened Bytes
  import opened HttpSpec

  // ---- the parts of a line ----

  /** `GET path version`, with single spaces. */
  predicate IsRequestLine(line: bytes, path: bytes, version: bytes) {
    && line == "GET " + path + " " + version
    && path != [] && path[0] == '/' && ' ' !in path
    && (version == "HTTP/1.1" || version == "HTTP/1.0")
  }

  /** The first colon. */
  function ColonAt(line: bytes): (c: nat)
    requires ':' in line
    ensures c < |line| && line[c] == ':' && forall j :: 0 <= j < c ==> line[j] != ':'
  {
    var c := IndexOf(line, ':').value;
    assert forall j :: 0 <= j < c ==> line[..c][j] == line[j];
    c
  }

  /** The first character behind the colon that is no space, or the end. */
  function ValueAt(line: bytes): (k: nat)
    requires ':' in line
    ensures ColonAt(line) < k <= |line| && forall j :: ColonAt(line) < j < k ==> line[j] == ' '
    ensures k < |line| ==> line[k] != ' '
  {
    ValueFrom(line, ColonAt(line) + 1)
  }

  function ValueFrom(line: bytes, i: nat): (k: nat)
    requires i <= |line|
    ensures i <= k <= |line| && (forall j :: i <= j < k ==> line[j] == ' ') && (k < |line| ==> line[k] != ' ')
    decreases |line| - i
  {
    if i < |line| && line[i] == ' ' then ValueFrom(line, i + 1) else i
  }

  function Name(line: bytes): bytes
    requires ':' in line
  {
    line[..ColonAt(line)]
  }

  function Value(line: bytes): bytes
    requires ':' in line
  {
    line[ValueAt(line)..]
  }

  /** `s` is `word` in any letter case. */
  predicate Spells(s: bytes, word: bytes) {
    |s| == |word| && forall i :: 0 <= i < |s| ==>
      s[i] == word[i] || ('a' <= word[i] <= 'z' && s[i] as int == word[i] as int - 32)
  }

  predicate SpellsAt(value: bytes, word: bytes, i: nat) {
    i + |word| <= |value| && Spells(value[i..i + |word|], word)
  }

  predicate Mentions(value: bytes, word: bytes) {
    exists i :: 0 <= i <= |value| && SpellsAt(value, word, i)
  }

  predicate Names(line: bytes, word: bytes) { ':' in line && Spells(Name(line), word) }

  predicate IsNumber(v: bytes) { v != [] && forall i :: 0 <= i < |v| ==> '0' <= v[i] <= '9' }

  // ---- a request ----

  /** A header line that is read without complaint. */
  predicate GoodHeader(line: bytes) {
    |line| <= 8192 && ':' in line && (Names(line, "content-length") ==> IsNumber(Value(line)))
  }

  predicate AllGood(hs: seq<bytes>) { forall i :: 0 <= i < |hs| ==> GoodHeader(hs[i]) }

  /** The last Content-Length, if there is one, is a zero. */
  predicate NoBody(hs: seq<bytes>) {
    hs == []
    || (var last := hs[|hs| - 1];
        if Names(last, "content-length") then forall i :: 0 <= i < |Value(last)| ==> Value(last)[i] == '0'
        else NoBody(hs[..|hs| - 1]))
  }

  /** The version decides, unless a Connection line says `close` or `keep-alive`; then the last such
      line decides, and `close` wins within it. */
  predicate Keeps(version: bytes, hs: seq<bytes>) {
    if hs == [] then version == "HTTP/1.1"
    else
      var last := hs[|hs| - 1];
      if Names(last, "connection") && Mentions(Value(last), "close") then false
      else if Names(last, "connection") && Mentions(Value(last), "keep-alive") then true
      else Keeps(version, hs[..|hs| - 1])
  }

  function Host(hs: seq<bytes>): bytes {
    if hs == [] then []
    else if Names(hs[|hs| - 1], "host") then Value(hs[|hs| - 1]) else Host(hs[..|hs| - 1])
  }

  ghost predicate HasRequestLine(line: bytes) { |line| <= 8192 && exists path, version :: IsRequestLine(line, path, version) }

  ghost predicate WellFormed(line: bytes, hs: seq<bytes>) {
    HasRequestLine(line) && |hs| <= 100 && AllGood(hs) && NoBody(hs)
  }

  // ---- on the wire ----

  ghost predicate Proper(line: bytes, hs: seq<bytes>) {
    CrlfFree(line) && forall i :: 0 <= i < |hs| ==> CrlfFree(hs[i]) && hs[i] != []
  }

  function Block(hs: seq<bytes>): bytes {
    if hs == [] then CRLF else hs[0] + CRLF + Block(hs[1..])
  }

  function Wire(line: bytes, hs: seq<bytes>): bytes { line + CRLF + Block(hs) }

  // ---- one line ----

  lemma GetLine(path: bytes, version: bytes)
    ensures "GET " + path + " " + version == JoinThree(Triple("GET", path, version))
  {
    var get: bytes, space: bytes := "GET", " ";
    assert "GET " == get + space;
  }

  lemma Versions(version: bytes)
    ensures IsHttpVersion(version) ==> ' ' !in version
    ensures IsHttpVersion(version) ==> (version == "HTTP/1.1" <==> version != "HTTP/1.0")
  {
    assert "HTTP/1.1"[7] != "HTTP/1.0"[7];
  }

  lemma RequestLineExact(line: bytes, path: bytes, version: bytes)
    ensures ParseRequestLine(line, BLANK) == Some(Request("GET", path, version, "", version == "HTTP/1.1"))
            <==> IsRequestLine(line, path, version)
  {
    var t := Triple("GET", path, version);
    SplitThreeExact(line, t);
    GetLine(path, version);
    Versions(version);
    assert ' ' !in "GET";
    SplitDecides(line, path, version);
  }

  lemma SplitDecides(line: bytes, path: bytes, version: bytes)
    requires IsHttpVersion(version) ==> (version == "HTTP/1.1" <==> version != "HTTP/1.0")
    ensures ParseRequestLine(line, BLANK) == Some(Request("GET", path, version, "", version == "HTTP/1.1"))
            <==> SplitThree(line) == Some(Triple("GET", path, version)) && path != [] && path[0] == '/' && IsHttpVersion(version)
  {
  }

  lemma RequestLineSome(line: bytes)
    ensures ParseRequestLine(line, BLANK).Some? <==> exists path, version :: IsRequestLine(line, path, version)
    ensures ParseRequestLine(line, BLANK).Some? ==>
      var r := ParseRequestLine(line, BLANK).value;
      r == Request("GET", r.path, r.version, "", r.version == "HTTP/1.1") && IsRequestLine(line, r.path, r.version)
  {
    var r := ParseRequestLine(line, BLANK);
    assert "HTTP/1.1"[7] != "HTTP/1.0"[7];
    if r.Some? {
      RequestLineExact(line, r.value.path, r.value.version);
    }
    forall path, version | IsRequestLine(line, path, version) ensures r.Some? {
      RequestLineExact(line, path, version);
    }
  }

  predicate NoCapital(word: bytes) { forall i :: 0 <= i < |word| ==> !('A' <= word[i] <= 'Z') }

  lemma LowerIsSpelling(s: bytes, word: bytes)
    requires NoCapital(word)
    ensures ToLower(s) == word <==> Spells(s, word)
  {
    if Spells(s, word) {
      forall i | 0 <= i < |s| ensures LowerChar(s[i]) == word[i] {
        SameLetter(s[i], word[i]);
      }
    } else if ToLower(s) == word {
      forall i | 0 <= i < |s|
        ensures s[i] == word[i] || ('a' <= word[i] <= 'z' && s[i] as int == word[i] as int - 32) {
        assert LowerChar(s[i]) == word[i];
        SameLetter(s[i], word[i]);
      }
      assert false;
    }
  }

  lemma SameLetter(c: char, w: char)
    requires !('A' <= w <= 'Z')
    ensures LowerChar(c) == w <==> c == w || ('a' <= w <= 'z' && c as int == w as int - 32)
  {
  }

  lemma ContainsIsMention(value: bytes, word: bytes)
    requires NoCapital(word)
    ensures Contains(ToLower(value), word) <==> Mentions(value, word)
  {
    forall i: nat ensures OccursAt(ToLower(value), word, i) <==> SpellsAt(value, word, i) {
      if i + |word| <= |value| {
        assert ToLower(value)[i..i + |word|] == ToLower(value[i..i + |word|]);
        LowerIsSpelling(value[i..i + |word|], word);
      }
    }
    if Mentions(value, word) {
      var i :| 0 <= i <= |value| && SpellsAt(value, word, i);
      assert OccursAt(ToLower(value), word, i);
    }
    if Contains(ToLower(value), word) {
      var i: nat :| i <= |ToLower(value)| - |word| && OccursAt(ToLower(value), word, i);
      assert SpellsAt(value, word, i);
    }
  }

  lemma {:induction false} TrimIsValue(line: bytes, i: nat)
    requires i <= |line|
    ensures TrimLeft(line[i..]) == line[ValueFrom(line, i)..]
    decreases |line| - i
  {
    if i < |line| && line[i] == ' ' {
      TrimIsValue(line, i + 1);
      assert line[i..][1..] == line[i + 1..];
    }
  }

  /** The three header names the parser looks for, and the rest. */
  lemma HeaderParts(line: bytes)
    requires ':' in line
    ensures IndexOf(line, ':') == Some(ColonAt(line))
    ensures TrimLeft(line[ColonAt(line) + 1..]) == Value(line)
    ensures ToLower(line[..ColonAt(line)]) == "host" <==> Names(line, "host")
    ensures ToLower(line[..ColonAt(line)]) == "connection" <==> Names(line, "connection")
    ensures ToLower(line[..ColonAt(line)]) == "content-length" <==> Names(line, "content-length")
  {
    TrimIsValue(line, ColonAt(line) + 1);
    LowerIsSpelling(Name(line), "host");
    LowerIsSpelling(Name(line), "connection");
    LowerIsSpelling(Name(line), "content-length");
  }

  lemma NumberExact(v: bytes)
    ensures IsNumber(v) <==> !(v == "" || exists c :: c in v && !IsDigit(c))
  {
    if IsNumber(v) {
      assert forall c :: c in v ==> IsDigit(c);
    } else if v != [] {
      var i :| 0 <= i < |v| && !('0' <= v[i] <= '9');
      assert v[i] in v;
    }
  }

  lemma {:induction false} ZeroExact(v: bytes)
    requires forall c :: c in v ==> IsDigit(c)
    ensures ToNat(v) == 0 <==> forall i :: 0 <= i < |v| ==> v[i] == '0'
  {
    if v != [] {
      var k := |v| - 1;
      assert IsDigit(v[k]) by { assert v[k] in v; }
      ZeroExact(v[..k]);
      assert forall i :: 0 <= i < k ==> v[..k][i] == v[i];
    }
  }

  lemma KeepAliveExact(req: Request, value: bytes)
    ensures UpdateKeepAlive(req, value) ==
            req.(keepAlive := if Mentions(value, "close") then false
                              else if Mentions(value, "keep-alive") then true else req.keepAlive)
  {
    ContainsIsMention(value, "close");
    ContainsIsMention(value, "keep-alive");
  }

  // ---- the parser behind a list of header lines ----

  function Length(hs: seq<bytes>): nat
    requires AllGood(hs)
  {
    if hs == [] then 0
    else
      assert GoodHeader(hs[|hs| - 1]);
      if Names(hs[|hs| - 1], "content-length") then Number(Value(hs[|hs| - 1]))
    else Length(hs[..|hs| - 1])
  }

  function Number(v: bytes): nat
    requires IsNumber(v)
  {
    NumberExact(v);
    ToNat(v)
  }

  function RequestOf(path: bytes, version: bytes, hs: seq<bytes>): Request {
    Request("GET", path, version, Host(hs), Keeps(version, hs))
  }

  function Behind(path: bytes, version: bytes, hs: seq<bytes>): Parser
    requires AllGood(hs)
  {
    Parser(ExpectHeaders, RequestOf(path, version, hs), Length(hs), |hs|)
  }

  lemma HeaderEffect(path: bytes, version: bytes, hs: seq<bytes>, h: bytes)
    requires AllGood(hs) && h != [] && |h| <= 8192
    ensures var p := Behind(path, version, hs);
            if |hs| >= 100 then FeedLine(p, h).Refuse?
            else if !GoodHeader(h) then FeedLine(p, h).Reject?
            else AllGood(hs + [h])
                 && FeedLine(p, h) == Continue(Behind(path, version, hs + [h]))
  {
    var p := Behind(path, version, hs);
    if |hs| < 100 {
      if ':' in h {
        HeaderParts(h);
        NumberExact(Value(h));
        KeepAliveExact(p.current, Value(h));
        assert (hs + [h])[..|hs|] == hs;
      }
    }
  }

  lemma {:induction false} LengthZero(hs: seq<bytes>)
    requires AllGood(hs)
    ensures Length(hs) == 0 <==> NoBody(hs)
  {
    if hs != [] {
      var last := hs[|hs| - 1];
      assert GoodHeader(last);
      if Names(last, "content-length") {
        NumberExact(Value(last));
        ZeroExact(Value(last));
      } else {
        LengthZero(hs[..|hs| - 1]);
      }
    }
  }

  // ---- what parse makes of the lines ----

  predicate TooLong(hs: seq<bytes>, i: nat)
    requires i < |hs|
  {
    |hs[i]| > 8192 || i >= 100
  }

  /** Header line `i` ends the parse. */
  predicate Faulty(hs: seq<bytes>, i: nat)
    requires i < |hs|
  {
    TooLong(hs, i) || !GoodHeader(hs[i])
  }

  /** The first header line that ends the parse is too long, or one too many. */
  predicate FirstFaultTooLong(hs: seq<bytes>, i: nat) {
    exists k :: i <= k < |hs| && TooLong(hs, k) && forall j :: i <= j < k ==> !Faulty(hs, j)
  }

  predicate Judged(r: ParseOut, path: bytes, version: bytes, hs: seq<bytes>, i: nat, rest: bytes) {
    && (r.result.Complete? <==> (forall j :: i <= j < |hs| ==> !Faulty(hs, j)) && NoBody(hs))
    && (r.result.Complete? ==> r.rest == rest && r.parser.current == RequestOf(path, version, hs))
    && (r.result.LineTooLong? <==> FirstFaultTooLong(hs, i))
    && !r.result.NeedMore?
  }

  lemma ParseFirstLine(p: Parser, line: bytes, rest: bytes)
    requires CrlfFree(line)
    ensures ParseStep(p, line + CRLF + rest) ==
            if |line| > MAX_LINE then ParseOut(LineTooLong, p, line + CRLF + rest)
            else ParseAfter(FeedLine(p, line), rest)
  {
    FindCrlfLine(line, rest);
    ParseLine(p, line + CRLF + rest);
  }

  lemma BlockHead(hs: seq<bytes>, i: nat, rest: bytes)
    requires i < |hs|
    ensures Block(hs[i..]) + rest == hs[i] + CRLF + (Block(hs[i + 1..]) + rest)
  {
    assert hs[i..][1..] == hs[i + 1..];
    SeqAssoc(hs[i] + CRLF, Block(hs[i + 1..]), rest);
  }

  lemma NoMoreFaults(hs: seq<bytes>, i: nat)
    requires i < |hs| && !Faulty(hs, i)
    ensures FirstFaultTooLong(hs, i) <==> FirstFaultTooLong(hs, i + 1)
    ensures (forall j :: i <= j < |hs| ==> !Faulty(hs, j)) <==> (forall j :: i + 1 <= j < |hs| ==> !Faulty(hs, j))
  {
    if FirstFaultTooLong(hs, i + 1) {
      var k :| i + 1 <= k < |hs| && TooLong(hs, k) && forall j :: i + 1 <= j < k ==> !Faulty(hs, j);
      assert i <= k && forall j :: i <= j < k ==> !Faulty(hs, j);
    }
  }

  lemma FaultHere(hs: seq<bytes>, i: nat)
    requires i < |hs| && Faulty(hs, i)
    ensures FirstFaultTooLong(hs, i) <==> TooLong(hs, i)
  {
  }

  lemma OneHeader(path: bytes, version: bytes, hs: seq<bytes>, i: nat, rest: bytes)
    requires i < |hs| && AllGood(hs[..i]) && CrlfFree(hs[i]) && hs[i] != []
    ensures var r := ParseStep(Behind(path, version, hs[..i]), Block(hs[i..]) + rest);
            if TooLong(hs, i) then r.result.LineTooLong?
            else if !GoodHeader(hs[i]) then r.result.Error?
            else AllGood(hs[..i + 1])
                 && r == ParseStep(Behind(path, version, hs[..i + 1]), Block(hs[i + 1..]) + rest)
  {
    BlockHead(hs, i, rest);
    ParseFirstLine(Behind(path, version, hs[..i]), hs[i], Block(hs[i + 1..]) + rest);
    if |hs[i]| <= 8192 {
      HeaderEffect(path, version, hs[..i], hs[i]);
      assert hs[..i] + [hs[i]] == hs[..i + 1];
    }
  }

  /** The header lines from `i` on, when the ones before have been read. */
  lemma {:induction false} HeadersJudged(path: bytes, version: bytes, hs: seq<bytes>, i: nat, rest: bytes)
    requires i <= |hs| && AllGood(hs[..i])
    requires forall j :: 0 <= j < |hs| ==> CrlfFree(hs[j]) && hs[j] != []
    ensures Judged(ParseStep(Behind(path, version, hs[..i]), Block(hs[i..]) + rest), path, version, hs, i, rest)
    decreases |hs| - i
  {
    if i == |hs| {
      assert hs[..i] == hs;
      EmptyLineJudged(path, version, hs, rest);
    } else {
      OneHeader(path, version, hs, i, rest);
      if Faulty(hs, i) {
        FaultHere(hs, i);
      } else {
        NoMoreFaults(hs, i);
        HeadersJudged(path, version, hs, i + 1, rest);
      }
    }
  }

  lemma EmptyLineJudged(path: bytes, version: bytes, hs: seq<bytes>, rest: bytes)
    requires AllGood(hs)
    ensures hs[..|hs|] == hs
    ensures Judged(ParseStep(Behind(path, version, hs), Block(hs[|hs|..]) + rest), path, version, hs, |hs|, rest)
  {
    var p := Behind(path, version, hs);
    assert Block(hs[|hs|..]) == CRLF && CRLF + rest == [] + CRLF + rest;
    ParseFirstLine(p, [], rest);
    LengthZero(hs);
  }

  /** A request line, header lines and the empty line complete a request exactly if they are well formed;
      the request then is the one the lines describe, and what follows is left alone. They are refused
      as too long exactly if the first line at fault is over 8192 bytes or the 101st header, and
      rejected otherwise. */
  lemma CompletesExactly(line: bytes, hs: seq<bytes>, rest: bytes)
    requires Proper(line, hs)
    ensures var r := ParseStep(FRESH, Wire(line, hs) + rest);
            && (r.result.Complete? <==> WellFormed(line, hs))
            && (r.result.Complete? ==>
                  && r.rest == rest && IsRequestLine(line, r.parser.current.path, r.parser.current.version)
                  && r.parser.current == RequestOf(r.parser.current.path, r.parser.current.version, hs))
            && (r.result.LineTooLong? <==> |line| > 8192 || (HasRequestLine(line) && FirstFaultTooLong(hs, 0)))
            && !r.result.NeedMore?
  {
    SeqAssoc(line + CRLF, Block(hs), rest);
    ParseFirstLine(FRESH, line, Block(hs) + rest);
    RequestLineSome(line);
    if HasRequestLine(line) {
      var q := ParseRequestLine(line, BLANK).value;
      assert hs[..0] == [] && hs[0..] == hs;
      assert Behind(q.path, q.version, []) == Parser(ExpectHeaders, q, 0, 0);
      HeadersJudged(q.path, q.version, hs, 0, rest);
      FaultsAreMalformed(hs);
    }
  }

  lemma FaultsAreMalformed(hs: seq<bytes>)
    ensures (forall j :: 0 <= j < |hs| ==> !Faulty(hs, j)) <==> |hs| <= 100 && AllGood(hs)
  {
    if |hs| > 100 {
      assert Faulty(hs, 100);
    } else if i :| 0 <= i < |hs| && !GoodHeader(hs[i]) {
      assert Faulty(hs, i);
    }
  }

  // ---- every completed request is such a text ----

  lemma {:induction false} HeadersOf(p: Parser, s: bytes) returns (hs: seq<bytes>, rest: bytes)
    requires p.phase.ExpectHeaders? && ParseStep(p, s).result.Complete?
    ensures s == Block(hs) + rest && forall j :: 0 <= j < |hs| ==> CrlfFree(hs[j]) && hs[j] != []
    decreases |s|
  {
    ParseLine(p, s);
    var i := FindCrlf(s).value;
    var line, behind := s[..i], s[i + 2..];
    LineIsFree(s, i);
    if line == [] {
      hs, rest := [], behind;
      assert s == CRLF + behind;
    } else {
      var more;
      more, rest := HeadersOf(FeedLine(p, line).p, behind);
      hs := [line] + more;
      assert hs[1..] == more;
      SeqAssoc(line + CRLF, Block(more), rest);
    }
  }

  lemma LineIsFree(s: bytes, i: nat)
    requires FindCrlf(s) == Some(i)
    ensures CrlfFree(s[..i]) && s == s[..i] + CRLF + s[i + 2..]
  {
    assert forall j :: CrlfAt(s[..i], j) ==> CrlfAt(s, j);
    assert s[i..i + 2] == CRLF;
  }

  /** A fresh parser completes a request on a byte string exactly if that begins with a well-formed
      request line, header block and empty line. */
  lemma CompleteIsWellFormed(s: bytes)
    ensures ParseStep(FRESH, s).result.Complete?
            <==> exists line, hs, rest :: s == Wire(line, hs) + rest && Proper(line, hs) && WellFormed(line, hs)
  {
    if ParseStep(FRESH, s).result.Complete? {
      ParseLine(FRESH, s);
      var i := FindCrlf(s).value;
      LineIsFree(s, i);
      var hs, rest := HeadersOf(FeedLine(FRESH, s[..i]).p, s[i + 2..]);
      SeqAssoc(s[..i] + CRLF, Block(hs), rest);
      CompletesExactly(s[..i], hs, rest);
      assert s == Wire(s[..i], hs) + rest;
    }
    forall line, hs, rest | s == Wire(line, hs) + rest && Proper(line, hs) && WellFormed(line, hs)
      ensures ParseStep(FRESH, s).result.Complete?
    {
      CompletesExactly(line, hs, rest);
    }
  }
}
