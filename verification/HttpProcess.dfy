/** The incremental request parser of one connection; its fields survive across reads. */
module HttpProcess {
  import opened Bytes
  import opened Buffer
  import opened HttpSpec

  class HttpProcess {
    var phase: ParserState
    var current: Request
    var contentLength: nat
    var headerLineCount: nat

    function View(): Parser
      reads this
    {
      Parser(phase, current, contentLength, headerLineCount)
    }

    constructor ()
      ensures View() == FRESH
    {
      phase, current, contentLength, headerLineCount := ExpectRequestLine, BLANK, 0, 0;
    }

    /** Takes one line without its CRLF; `got == false` asks for more data. A line over the limit
        stays in the buffer. */
    method RetrieveLine(readBuf: Buffer) returns (got: bool, line: bytes, tooLong: bool)
      requires readBuf.Valid()
      modifies readBuf`readIdx, readBuf`writeIdx
      ensures readBuf.Valid()
      ensures
        match FindCrlf(old(readBuf.Contents()))
        case None => !got && !tooLong && readBuf.Contents() == old(readBuf.Contents())
        case Some(i) =>
          && got && tooLong == (i > MAX_LINE)
          && if tooLong then readBuf.Contents() == old(readBuf.Contents())
             else line == old(readBuf.Contents())[..i] && readBuf.Contents() == old(readBuf.Contents())[i + 2..]
    {
      line, tooLong := [], false;
      var crlf := readBuf.FindCRLF();
      if crlf.None? {
        return false, line, tooLong;
      }
      got := true;
      if crlf.value > MAX_LINE {
        tooLong := true;
        return;
      }
      var view := readBuf.Peek();
      line := view[..crlf.value];
      readBuf.Retrieve(crlf.value + 2);
    }

    /** One call of `parse`. */
    method Parse(readBuf: Buffer) returns (r: ParseResult)
      requires readBuf.Valid()
      modifies this, readBuf`readIdx, readBuf`writeIdx
      ensures readBuf.Valid()
      ensures ParseOut(r, View(), readBuf.Contents()) == ParseStep(old(View()), old(readBuf.Contents()))
    {
      ghost var goal := ParseStep(View(), readBuf.Contents());
      if phase == ExpectRequestLine {
        ParseLine(View(), readBuf.Contents());
        var got, line, tooLong := RetrieveLine(readBuf);
        if !got {
          return NeedMore;
        }
        if tooLong {
          return LineTooLong;
        }
        var req := ParseRequestLine(line, current);
        if req.None? {
          return Error;
        }
        current := req.value;
        contentLength := 0;
        headerLineCount := 0;
        phase := ExpectHeaders;
      }
      r := ParseHeaders(readBuf);
    }

    /** The header loop of `parse`. It leaves only through its returns, so the statement after it in
        the original is never reached. */
    method ParseHeaders(readBuf: Buffer) returns (r: ParseResult)
      requires readBuf.Valid() && phase == ExpectHeaders
      modifies this, readBuf`readIdx, readBuf`writeIdx
      ensures readBuf.Valid()
      ensures ParseOut(r, View(), readBuf.Contents()) == ParseStep(old(View()), old(readBuf.Contents()))
    {
      ghost var goal := ParseStep(View(), readBuf.Contents());
      while phase == ExpectHeaders
        invariant readBuf.Valid() && phase == ExpectHeaders
        invariant ParseStep(View(), readBuf.Contents()) == goal
        decreases |readBuf.Contents()|
      {
        ParseLine(View(), readBuf.Contents());
        var got, line, tooLong := RetrieveLine(readBuf);
        if !got {
          return NeedMore;
        }
        if tooLong {
          return LineTooLong;
        }
        var result := TakeHeader(line);
        if result.Some? {
          return result.value;
        }
      }
      assert false;
    }

    /** One line of the header section; `None` goes on to the next line. */
    method TakeHeader(line: bytes) returns (r: Option<ParseResult>)
      requires phase == ExpectHeaders
      modifies this
      ensures
        match FeedLine(old(View()), line)
        case Continue(q) => r == None && View() == q && phase == ExpectHeaders
        case Emit(q) => r == Some(Complete) && View() == q
        case Reject(q) => r == Some(Error) && View() == q
        case Refuse(q) => r == Some(LineTooLong) && View() == q
    {
      if line == [] {
        if contentLength > 0 {
          return Some(Error);
        }
        phase := ExpectRequestLine;
        return Some(Complete);
      }
      headerLineCount := headerLineCount + 1;
      if headerLineCount > MAX_HEADERS {
        return Some(LineTooLong);
      }
      var h := ParseHeaderLine(line, current, contentLength);
      if h.None? {
        return Some(Error);
      }
      current, contentLength := h.value.req, h.value.contentLength;
      r := None;
    }

    method ReleaseRequest() returns (req: Request)
      modifies this
      ensures req == old(current) && View() == FRESH
    {
      req := current;
      Reset();
    }

    method Reset()
      modifies this
      ensures View() == FRESH
    {
      current, contentLength, headerLineCount, phase := BLANK, 0, 0, ExpectRequestLine;
    }
  }
}
