/** The interest mask of a descriptor, and the kernel's interest set that must agree with it. */
module Channel {

  datatype Mask = Mask(read: bool, write: bool, edge: bool)

  const NOTHING := Mask(false, false, false)

  /** What epoll reports of a descriptor. */
  datatype Revents = Revents(canRead: bool, canWrite: bool)

  const MAX_EVENTS := 100

  class Epoll {
    ghost var interest: map<nat, Mask>     // the kernel's side

    constructor ()
      ensures interest == map[]
    {
      interest := map[];
    }

    /** ADD or MOD, as the flag of the channel says: neither can fail when the flag is true to the
        kernel's set. */
    method UpdateChannel(c: Channel)
      requires c.inEpoll <==> c.fd in interest
      modifies this, c`inEpoll
      ensures c.inEpoll && interest == old(interest)[c.fd := c.events]
    {
      if !c.inEpoll {
        Add(c.fd, c.events);
        c.inEpoll := true;
      } else {
        Mod(c.fd, c.events);
      }
    }

    ghost method Add(fd: nat, events: Mask)
      requires fd !in interest
      modifies this
      ensures interest == old(interest)[fd := events]
    {
      interest := interest[fd := events];
    }

    ghost method Mod(fd: nat, events: Mask)
      requires fd in interest
      modifies this
      ensures interest == old(interest)[fd := events]
    {
      interest := interest[fd := events];
    }

    ghost method Del(fd: nat)
      requires fd in interest
      modifies this
      ensures interest == old(interest) - {fd}
    {
      interest := interest - {fd};
    }

    method RemoveChannel(c: Channel)
      requires c.inEpoll <==> c.fd in interest
      modifies this, c`inEpoll
      ensures !c.inEpoll && interest == old(interest) - {c.fd}
    {
      if !c.inEpoll {
        assert interest - {c.fd} == interest;
        return;
      }
      Del(c.fd);
      c.inEpoll := false;
    }

    /** `poll`: waits again after each interruption by a signal, then stores what the kernel reported and
        lists the channels in its order; false is the error exit. The kernel reports 1 to 100. */
    method Poll(interrupts: nat, failed: bool, reported: seq<Channel>, ready: seq<Revents>)
      returns (ok: bool, active: seq<Channel>)
      requires !failed ==> 0 < |reported| <= MAX_EVENTS
      requires |reported| == |ready|
      requires forall a, b :: 0 <= a < b < |reported| ==> reported[a] != reported[b]
      modifies reported`revents
      ensures ok == !failed
      ensures if ok then active == reported && forall k :: 0 <= k < |reported| ==> reported[k].revents == ready[k]
              else active == [] && unchanged(reported`revents)
    {
      active := [];
      var left := interrupts;
      while left > 0 {
        left := left - 1;
      }
      if failed {
        return false, active;
      }
      for k := 0 to |reported|
        invariant active == reported[..k]
        invariant forall j :: 0 <= j < k ==> reported[j].revents == ready[j]
      {
        reported[k].revents := ready[k];
        active := active + [reported[k]];
      }
      ok := true;
    }
  }

  class Channel {
    const ep: Epoll
    const fd: nat
    var events: Mask
    var revents: Revents
    var inEpoll: bool

    constructor (ep: Epoll, fd: nat)
      ensures this.ep == ep && this.fd == fd && events == NOTHING && !inEpoll
    {
      this.ep, this.fd := ep, fd;
      events, revents, inEpoll := NOTHING, Revents(false, false), false;
    }

    /** The flag tells the truth, and the kernel has the current mask. */
    ghost predicate Synced()
      reads this, ep
    {
      (inEpoll <==> fd in ep.interest) && (inEpoll ==> ep.interest[fd] == events)
    }

    /** What a method leaves alone: the other descriptors. */
    ghost function Others(): map<nat, Mask>
      reads this, ep
    {
      ep.interest - {fd}
    }

    method EnableReading()
      requires Synced()
      modifies this`events, this`inEpoll, ep
      ensures Synced() && inEpoll && events == Mask(true, old(events).write, true) && Others() == old(Others())
    {
      events := Mask(true, events.write, true);
      ep.UpdateChannel(this);
    }

    method DisableReading()
      requires Synced()
      modifies this`events, this`inEpoll, ep
      ensures Synced() && inEpoll && events == old(events).(read := false) && Others() == old(Others())
    {
      events := events.(read := false);
      ep.UpdateChannel(this);
    }

    method EnableWriting()
      requires Synced()
      modifies this`events, this`inEpoll, ep
      ensures Synced() && inEpoll && events == old(events).(write := true) && Others() == old(Others())
    {
      events := events.(write := true);
      ep.UpdateChannel(this);
    }

    method DisableWriting()
      requires Synced()
      modifies this`events, this`inEpoll, ep
      ensures Synced() && inEpoll && events == old(events).(write := false) && Others() == old(Others())
    {
      events := events.(write := false);
      ep.UpdateChannel(this);
    }

    /** Level-triggered reading, for a listening socket; false is the error exit. */
    method EnableListen() returns (ok: bool)
      requires Synced()
      modifies this`events, this`inEpoll, ep
      ensures ok == !old(inEpoll) && Synced() && Others() == old(Others())
      ensures if ok then inEpoll && events == Mask(true, false, false) else inEpoll && events == old(events)
    {
      if inEpoll {
        return false;
      }
      events := Mask(true, false, false);
      ep.UpdateChannel(this);
      return true;
    }

    /** An empty mask keeps the descriptor in the set. */
    method DisableAll()
      requires Synced()
      modifies this`events, this`inEpoll, ep
      ensures Synced() && inEpoll && events == NOTHING && Others() == old(Others())
    {
      events := NOTHING;
      ep.UpdateChannel(this);
    }

    method Remove()
      requires Synced()
      modifies this`inEpoll, ep
      ensures Synced() && !inEpoll && Others() == old(Others())
    {
      ep.RemoveChannel(this);
    }
  }
}
