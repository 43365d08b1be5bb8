/** The connection table of one sub-reactor, and the tasks that change it. */
module SubReactor {
  import opened Algebra
  import opened Socket
  import opened Timers
  import opened Channel
  import opened ConnSpec
  import opened ConnLife
  import opened Connection

  class SubReactor {
    const useThreadPool: bool
    const ep: Epoll
    const timers: TimerQueue
    const timeChannel: Channel
    const queues: Queues
    var connections: map<nat, Connection>
    var stop: bool

    /** `timeFd` is the descriptor of the timerfd, which the loop watches from the start. */
    constructor (useThreadPool: bool, timeFd: nat)
      ensures connections == map[] && !stop && fresh(ep) && fresh(timers) && fresh(queues) && fresh(timeChannel)
      ensures timeChannel.fd == timeFd && timeChannel.ep == ep && timeChannel.Synced()
      ensures timeChannel.events == Mask(true, false, true)
      ensures ep.interest - {timeFd} == map[] && timers.View() == NO_TIMERS && queues.tasks == []
    {
      var e := new Epoll();
      var c := new Channel(e, timeFd);
      c.EnableReading();
      this.useThreadPool, connections, stop := useThreadPool, map[], false;
      ep, timeChannel := e, c;
      timers := new TimerQueue();
      queues := new Queues();
    }

    /** `c` is registered under its own key and shares the loop's objects. */
    ghost predicate Mine(id: nat, c: Connection)
      reads c, c.Parts()
    {
      c.Valid() && c.id == id && c.ep == ep && c.timers == timers && c.queues == queues
    }

    /** The task that turns an accepted socket into a connection. */
    method AdoptSocket(id: nat, sck: Socket, now: Time) returns (c: Connection)
      requires id !in ep.interest
      modifies this`connections, ep, timers
      ensures fresh(c) && connections == old(connections)[id := c] && Mine(id, c)
      ensures timers.View() == Add(old(timers.View()), now, id)
      ensures c.LinkView() == Link(Connected, 0, timers.timerId, true, false, true, now, NoCause, false)
      ensures ep.interest - {id} == old(ep.interest) - {id}
    {
      c := new Connection(id, useThreadPool, sck, ep, timers, queues);
      connections := connections[id := c];
      c.StartConnect(now);
    }

    /** The task that a dying connection leaves behind. */
    method EraseConnection(id: nat)
      modifies this`connections
      ensures connections == old(connections) - {id}
    {
      connections := connections - {id};
    }

    // ---- handling and stopping ----

    /** The connections of the table are made of `parts` and share the loop's objects. */
    ghost predicate Made(conns: map<nat, Connection>, parts: set<object>) {
      && this !in parts && ep !in parts && timers !in parts && timeChannel !in parts
      && timeChannel.ep == ep && timeChannel.fd !in conns
      && forall id :: id in conns ==>
           var c := conns[id];
           && c in parts && c.channel in parts
           && c.id == id && c.ep == ep && c.timers == timers && c.channel.ep == ep && c.channel.fd == id
    }

    /** A dead connection is out of epoll and owns no timer, a live one only its own. */
    ghost predicate Settled(c: Connection)
      reads c, c.channel, timers
    {
      && (c.state == Dead ==> !c.channel.inEpoll)
      && forall i :: i in timers.timers && timers.timers[i].owner == c.id ==> c.state != Dead && i == c.timerId
    }

    ghost predicate Ended(c: Connection)
      reads c, c.channel, timers
    {
      && c.state == Dead && !c.channel.inEpoll
      && forall i :: i in timers.timers ==> timers.timers[i].owner != c.id
    }

    ghost predicate Mounted(conns: map<nat, Connection>, parts: set<object>)
      reads parts, ep
      requires Made(conns, parts)
    {
      forall id :: id in conns ==> conns[id].channel.Synced()
    }

    /** The connections in `left` are settled, the others have ended. */
    ghost predicate Sorted(conns: map<nat, Connection>, left: set<nat>, parts: set<object>)
      reads parts, timers
      requires Made(conns, parts)
    {
      forall id :: id in conns ==> if id in left then Settled(conns[id]) else Ended(conns[id])
    }

    /** One reported event of a connection: it is handled as ConnSpec says, and the kernel's entries of
        all other connections, whose objects are in `others`, stay true. */
    method HandleEvent(id: nat, t1: Time, t2: Time, ghost others: set<object>)
      requires id in connections && Mine(id, connections[id])
      requires Made(connections - {id}, others) && Mounted(connections - {id}, others)
      requires connections[id].Parts() !! others && this !in connections[id].Parts()
      modifies connections[id].Parts()
      ensures Mine(id, connections[id]) && Mounted(connections - {id}, others)
      ensures connections[id].View() ==
              Handle(old(connections[id].View()), old(connections[id].channel.revents.canRead),
                     old(connections[id].channel.revents.canWrite), t1, t2)
    {
      connections[id].Handle(t1, t2);
      OthersAgree(old(ep.interest), ep.interest, id);
    }

    /** Connections at a handler boundary are ready to be stopped. */
    lemma TableAtBoundary(conns: map<nat, Connection>, parts: set<object>)
      requires Made(conns, parts)
      requires forall id :: id in conns ==> Mine(id, conns[id]) && LifeInv(conns[id].View().conn, timers.View())
      ensures Mounted(conns, parts) && Sorted(conns, conns.Keys, parts)
    {
      forall id | id in conns ensures Settled(conns[id]) {
        SettledAtBoundary(id, conns[id]);
      }
    }

    lemma SettledAtBoundary(id: nat, c: Connection)
      requires Mine(id, c) && LifeInv(c.View().conn, timers.View())
      ensures Settled(c)
    {
      assert c.View().conn.link == c.LinkView();
    }

    /** `stop` of one connection. */
    method StopOne(c: Connection)
      requires c.ChannelOk() && c.ep == ep && c.timers == timers && Settled(c)
      modifies c`state, c`cause, c.channel, ep, timers
      ensures c.ChannelOk() && Ended(c)
      ensures AgreeBut(c.id, old(ep.interest), ep.interest) && NoNewTimers(old(timers.timers), timers.timers)
    {
      ghost var q := timers.View();
      c.Stop();
      DeletedTimers(q, c.timerId);
      OthersAgree(old(ep.interest), ep.interest, c.id);
      assert timers.View().entries == timers.timers;
    }

    /** One turn of the loop. */
    method StopStep(id: nat, ghost left: set<nat>, ghost parts: set<object>)
      requires Made(connections, parts) && timeChannel.Synced() && id in left && id in connections
      requires Mounted(connections, parts) && Sorted(connections, left, parts)
      modifies parts, ep, timers
      ensures timeChannel.Synced() && Mounted(connections, parts) && Sorted(connections, left - {id}, parts)
    {
      StopOne(connections[id]);
    }

    /** The loop over the table. */
    method StopAll(ghost parts: set<object>)
      requires Made(connections, parts) && timeChannel.Synced()
      requires Mounted(connections, parts) && Sorted(connections, connections.Keys, parts)
      modifies parts, ep, timers
      ensures timeChannel.Synced() && Mounted(connections, parts) && Sorted(connections, {}, parts)
    {
      var left := connections.Keys;
      while left != {}
        invariant left <= connections.Keys
        invariant timeChannel.Synced() && Mounted(connections, parts) && Sorted(connections, left, parts)
        decreases |left|
      {
        var id :| id in left;
        StopStep(id, left, parts);
        left := left - {id};
      }
    }

    /** `stopLoop`: the timerfd gets an empty mask, and the flag goes up. */
    method StopLoop(ghost parts: set<object>)
      requires Made(connections, parts) && timeChannel.Synced() && Mounted(connections, parts)
      modifies this`stop, timeChannel`events, timeChannel`inEpoll, ep
      ensures stop && timeChannel.Synced() && timeChannel.events == NOTHING && Mounted(connections, parts)
    {
      timeChannel.DisableAll();
      OthersAgree(old(ep.interest), ep.interest, timeChannel.fd);
      stop := true;
    }

    /** The task queued by `stop`: every connection is dead afterwards, out of epoll and without a
        timer, the timerfd is no longer watched, and the loop will end. */
    method StopConnections(ghost parts: set<object>)
      requires Made(connections, parts) && timeChannel.Synced()
      requires Mounted(connections, parts) && Sorted(connections, connections.Keys, parts)
      modifies this`stop, parts, ep, timers, timeChannel`events, timeChannel`inEpoll
      ensures stop && connections == old(connections) && timeChannel.Synced() && timeChannel.events == NOTHING
      ensures Mounted(connections, parts) && Sorted(connections, {}, parts)
    {
      StopAll(parts);
      StopLoop(parts);
    }
  }

  /** All descriptors but `fd` keep their entry. */
  ghost predicate AgreeBut(fd: nat, m: map<nat, Mask>, m': map<nat, Mask>) {
    forall d: nat :: d != fd ==> (d in m <==> d in m') && (d in m ==> m[d] == m'[d])
  }

  lemma OthersAgree(m: map<nat, Mask>, m': map<nat, Mask>, fd: nat)
    requires m - {fd} == m' - {fd}
    ensures AgreeBut(fd, m, m')
  {
    forall d: nat | d != fd ensures (d in m <==> d in m') && (d in m ==> m[d] == m'[d]) {
      SameElsewhere(m, m', fd, d);
    }
  }

  predicate NoNewTimers(ts: map<int, Timer>, ts': map<int, Timer>) {
    forall i :: i in ts' ==> i in ts && ts'[i] == ts[i]
  }

  lemma DeletedTimers(q: TimerTable, id: int)
    ensures NoNewTimers(q.entries, Delete(q, id).entries) && id !in Delete(q, id).entries
  {
  }
}
