/** Why a connection is no longer connected, and what a dead one may owe: handlers whose system calls do not
    fail half-close a connection only for a reason that can be seen from outside, and let it die only
    when it owes nothing. */
module Reasons {
  import opened Algebra
  import opened Bytes
  import opened Socket
  import opened HttpSpec
  import opened Timers
  import opened ConnSpec
  import opened ConnFacts
  import opened ConnOutput
  import opened CleanWrites
  import opened ConnLaws
  import opened ReadLaws

  predicate CleanReads(script: seq<ReadOutcome>) {
    forall k :: 0 <= k < |script| ==> !script[k].ReadFailed?
  }

  /** The peer has ended its stream, the input was refused or rejected, or a closing response was given. */
  ghost predicate HasReason(c: Conn, eof: bool) { eof || !c.intake.end.Open? || !AllKeep(c.book.replies) }

  /** A connection is connected exactly as long as there is no reason to close it, and is read exactly as
      long as it gave no closing response and its input was not refused; a dead one has sent all it had
      and has no worker out. With the pool on, all that was read has been taken in. */
  ghost predicate Reasoned(c: Conn, eof: bool) {
    && (c.link.state == Connected <==> !HasReason(c, eof))
    && (c.link.readOn <==> c.intake.end.Open? && AllKeep(c.book.replies))
    && (!Alive(c) ==> c.pipe.output == [] && c.link.working == 0)
    && c.book.dropped == multiset{}
    && (c.pool ==> AllTakenIn(c.intake))
  }

  ghost predicate AllTakenIn(i: Intake) {
    i.done == Drain(FRESH, i.received).reqs && i.end == Drain(FRESH, i.received).end
  }

  // ---- answers without failures ----

  lemma AllKeepConcat(a: seq<Reply>, b: seq<Reply>)
    ensures AllKeep(a + b) <==> AllKeep(a) && AllKeep(b)
  {
    if AllKeep(a + b) {
      assert forall k :: 0 <= k < |a| ==> a[k] == (a + b)[k];
      assert forall k :: 0 <= k < |b| ==> b[k] == (a + b)[|a| + k];
    }
  }

  lemma {:induction false} CleanFlush(n: Positive, script: seq<WriteOutcome>)
    requires Clean(script)
    ensures var f := FlushOf(n, script);
            && Clean(f.script) && !f.k.Broken? && !f.k.Waiting? && f.left <= n && (f.k.AllSent? <==> f.left == 0)
    decreases |script|
  {
    if script != [] && script[0].WriteInterrupted? {
      CleanFlush(n, script[1..]);
    }
  }

  /** What a connection is after answers that met no failure. */
  ghost predicate Settles(state: ConnState, working: int, keep: bool, t: Talk) {
    && Clean(t.script)
    && (t.state == Connected <==> state == Connected && keep)
    && (t.state == Dead ==> t.left == 0 && working == 0)
  }

  lemma SaySettles(t: Talk, working: int, r: Reply)
    requires t.state != Dead && Clean(t.script)
    ensures Settles(t.state, working, r.KeepAlive(), Say(t, working, r))
  {
    TextNonEmpty(r);
    CleanFlush(t.left + |r.Text()|, t.script);
  }

  lemma SettlesOn(state: ConnState, working: int, keep: bool, t: Talk, keep': bool, t': Talk)
    requires Settles(state, working, keep, t)
    requires if t.state == Dead then t' == t else Settles(t.state, working, keep', t')
    ensures Settles(state, working, keep && (t.state == Dead || keep'), t')
  {
  }

  lemma {:induction false} SayAllSettles(t: Talk, working: int, rs: seq<Reply>)
    requires t.state != Dead && Clean(t.script)
    ensures Settles(t.state, working, AllKeep(rs[..Said(t, working, rs)]), SayAll(t, working, rs))
    decreases |rs|
  {
    if rs != [] {
      var r, more := rs[0], rs[1..];
      var u := Say(t, working, r);
      var said := more[..Said(u, working, more)];
      HeadFirst(rs);
      SayFirst(t, working, r, more);
      SaySettles(t, working, r);
      ConsPrefix(r, more, Said(u, working, more));
      KeepBefore(r, said);
      if u.state != Dead {
        SayAllSettles(u, working, more);
      }
      SettlesOn(t.state, working, r.KeepAlive(), u, AllKeep(said), SayAll(u, working, more));
    }
  }

  // ---- the handlers ----

  lemma AnswerReasoned(w: World, r: Reply, v: World, eof: bool)
    requires Alive(w.conn) && Clean(w.writeScript) && AnswerLaw(w, r, v)
    requires Reasoned(w.conn, eof)
    requires r.BadRequest? ==> !w.conn.intake.end.Open?
    ensures Reasoned(v.conn, eof) && Clean(v.writeScript)
  {
    SaySettles(TalkOf(w), w.conn.link.working, r);
    AllKeepConcat(w.conn.book.replies, [r]);
    assert AllKeep([r]) <==> r.KeepAlive() by {
      assert [r][0] == r;
    }
  }

  lemma RunAnswerReasoned(w: World, req: Request, eof: bool)
    requires Alive(w.conn) && Clean(w.writeScript) && Reasoned(w.conn, eof)
    ensures Reasoned(RunAnswer(w, req).conn, eof)
  {
    RunAnswerLaw(w, req);
    var u := TakeAnswer(w, req);
    AnswerReasoned(u, Ok(req), RunAnswer(w, req), eof);
  }

  lemma {:induction false} CleanSuffix(script: seq<WriteOutcome>, k: nat)
    requires Clean(script) && k <= |script|
    ensures Clean(script[k..]) && !FailedIn(script, k)
  {
  }

  lemma WriteReasoned(w: World, v: World, eof: bool)
    requires Alive(w.conn) && Clean(w.writeScript) && WriteLaw(w, v) && Reasoned(w.conn, eof)
    ensures Reasoned(v.conn, eof) && Clean(v.writeScript)
  {
    CleanSuffix(w.writeScript, WritingOf(|w.conn.pipe.output|, w.writeScript).used);
  }

  lemma {:induction false} CleanLastAnswer(script: seq<ReadOutcome>)
    requires CleanReads(script)
    ensures !LastAnswer(script).ReadFailed?
  {
    if script != [] && !EndsReading(script[0]) {
      CleanLastAnswer(script[1..]);
    }
  }

  /** More input continues the whole-stream parse where the connection's own parse stands. */
  lemma WholeStream(i: Intake, more: bytes)
    requires Tracked(i) && i.end.Open?
    ensures var whole := Drain(FRESH, i.received + more); var d := Drain(i.parser, i.input + more);
            whole.reqs == i.done + d.reqs && whole.end == d.end
  {
    TrackedAppend(i, more);
  }

  lemma NothingReadReasoned(w: World, v: World, eof: bool)
    requires Alive(w.conn) && ReadLaw(w, v) && Reasoned(w.conn, eof) && w.conn.intake.end.Open? && Tracked(w.conn.intake)
    requires !LastAnswer(w.readScript).ReadFailed? && w.conn.intake.input + Arriving(w.readScript) == []
    ensures Reasoned(v.conn, eof || LastAnswer(w.readScript).Got?) && v.writeScript == w.writeScript
  {
    assert Arriving(w.readScript) == [] && w.conn.intake.received + [] == w.conn.intake.received;
  }

  lemma BadIsSaid(pool: bool, d: Outcome)
    ensures d.end.Bad? ==> !AllKeep(OnTheSpot(pool, d))
  {
    var rs := OnTheSpot(pool, d);
    if d.end.Bad? {
      assert rs[|rs| - 1] == BadRequest;
    }
  }

  lemma DealtReasoned(w: World, d: Outcome, v: World, eof: bool)
    requires Alive(w.conn) && Clean(w.writeScript) && Dealt(w, d, v) && TookIn(w, d, v) && w.conn.intake.end.Open?
    requires w.conn.link.state == Connected <==> !HasReason(w.conn, eof)
    requires w.conn.link.readOn && AllKeep(w.conn.book.replies) && w.conn.book.dropped == multiset{}
    requires w.conn.pool ==> AllTakenIn(v.conn.intake)
    ensures Reasoned(v.conn, eof) && Clean(v.writeScript)
  {
    var rs, out := OnTheSpot(w.conn.pool, d), WorkersOut(w.conn.pool, w.conn.link.working, d);
    var n := Said(TalkOf(w), out, rs);
    SayAllSettles(TalkOf(w), out, rs);
    SaidAllOrDead(TalkOf(w), out, rs);
    AllKeepConcat(w.conn.book.replies, rs[..n]);
    BadIsSaid(w.conn.pool, d);
    assert rs[..|rs|] == rs;
  }

  /** With the pool on every outcome of the parse is taken in. */
  lemma TakenInAll(w: World, d: Outcome, v: World, received: bytes)
    requires Alive(w.conn) && w.conn.pool && TookIn(w, d, v) && v.conn.intake.received == received
    requires Drain(FRESH, received).reqs == w.conn.intake.done + d.reqs && Drain(FRESH, received).end == d.end
    ensures AllTakenIn(v.conn.intake)
  {
    var rs, out := OnTheSpot(true, d), WorkersOut(true, w.conn.link.working, d);
    SaidAllOrDead(TalkOf(w), out, rs);
    assert |rs| <= 1;
  }

  /** One read event. */
  lemma ReadReasoned(w: World, v: World, eof: bool)
    requires Alive(w.conn) && w.conn.link.readOn && Clean(w.writeScript) && CleanReads(w.readScript)
    requires ReadLaw(w, v) && Reasoned(w.conn, eof) && Tracked(w.conn.intake)
    ensures Reasoned(v.conn, eof || LastAnswer(w.readScript).Got?) && Clean(v.writeScript)
  {
    CleanLastAnswer(w.readScript);
    var last, more := LastAnswer(w.readScript), Arriving(w.readScript);
    var input := w.conn.intake.input + more;
    if input == [] {
      NothingReadReasoned(w, v, eof);
    } else {
      var d := Drain(w.conn.intake.parser, input);
      var x := SetLink(w, w.conn.link.(state := AfterReading(w.conn.link.state, last)));
      WholeStream(w.conn.intake, more);
      if w.conn.pool {
        TakenInAll(x, d, v, w.conn.intake.received + more);
      }
      DealtReasoned(x, d, v, eof || last.Got?);
    }
  }

  /** `Channel::handle` without failures. */
  lemma HandleReasoned(w: World, canRead: bool, canWrite: bool, t1: Time, t2: Time, eof: bool)
    requires Alive(w.conn) && (canRead ==> w.conn.link.readOn) && Clean(w.writeScript) && CleanReads(w.readScript)
    requires Reasoned(w.conn, eof) && Tracked(w.conn.intake)
    ensures Reasoned(Handle(w, canRead, canWrite, t1, t2).conn, eof || (canRead && LastAnswer(w.readScript).Got?))
  {
    var u := if canRead then ReadCallback(w, t1) else w;
    if canRead {
      ReadCallbackLaw(w, t1);
      ReadReasoned(w, u, eof);
    }
    if canWrite && Alive(u.conn) {
      WriteCallbackLaw(u, t2);
      WriteReasoned(u, WriteCallback(u, t2), eof || (canRead && LastAnswer(w.readScript).Got?));
    }
  }
}
