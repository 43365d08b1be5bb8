/** A run of a server without pool in which a valid request that was read is never answered. */
module LostAnswer {
  import opened Bytes
  import opened Socket
  import opened HttpSpec
  import opened HttpFacts
  import opened Client
  import opened Timers
  import opened ConnSpec
  import opened ConnLife
  import opened ConnOutput
  import opened Eof
  import opened Reactor
  import opened ReactorSteps
  import opened Opening

  /** The requests and the end of file in one delivery, and a kernel that takes `n` bytes at once. */
  function LastStep(a: Get, b: Get, n: Positive): Step {
    HandleNext([Got(PrintAll([a, b])), Got([])], [Wrote(n)], T0, T0)
  }

  /** After this run the connection is dead, has read two valid requests and has answered one. */
  lemma AnswerLostInARun(a: Get, b: Get, n: Positive) returns (r: Reactor)
    requires ValidPath(a.path) && ValidPath(b.path) && n >= |BuildResponse(Expected(a))|
    ensures Run(Init(false), OPENING + [LastStep(a, b, n)], r) && 0 in r.conns && !Live(r.conns[0])
    ensures r.conns[0].intake.received == PrintAll([a, b])
    ensures Stream(r.conns[0]) == BuildResponse(Expected(a)) != ResponseStream(PrintAll([a, b]))
  {
    var o := Opened();
    OpeningRuns();
    RunOn(Init(false), OPENING, o, LastStep(a, b, n));
    r := Next(o, LastStep(a, b, n));
    InitInv(false);
    RunInv(Init(false), OPENING, o);
    AnswerLostByEvent(WorldOf(o, 0, [Got(PrintAll([a, b])), Got([])], [Wrote(n)]), a, b, n);
  }

  lemma AnswerLostByEvent(w: World, a: Get, b: Get, n: Positive)
    requires AtRest(w.conn) && w.conn.link.state == Connected && w.conn.link.readOn && !w.conn.pool
    requires LifeInv(w.conn, w.timers) && Ordered(w.timers, T0)
    requires w.conn.intake == Intake(FRESH, [], [], [], Open) && w.conn.pipe == Pipe([], [])
    requires w.readScript == [Got(PrintAll([a, b])), Got([])] && w.writeScript == [Wrote(n)]
    requires ValidPath(a.path) && ValidPath(b.path) && n >= |BuildResponse(Expected(a))|
    ensures var c := Handle(w, true, false, T0, T0).conn;
            && c.id == w.conn.id && !Live(c) && c.intake.received == PrintAll([a, b])
            && Stream(c) == BuildResponse(Expected(a)) != ResponseStream(PrintAll([a, b]))
  {
    HandleStep(w, true, false, T0, T0, T0);
    RefreshAtRest(w, T0);
    assert w.writeScript == [Wrote(n)] + [];
    SecondAnswerLost(RefreshTimer(w, T0), a, b, n, []);
    Unprefixed(w.conn, PrintAll([a, b]), BuildResponse(Expected(a)));
  }

  lemma Unprefixed(c: Conn, s: bytes, t: bytes)
    requires c.pipe == Pipe([], []) && c.intake.received == []
    ensures c.intake.received + s == s && Stream(c) + t == t
  {
  }
}
