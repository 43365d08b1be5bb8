/** The idle timers of one event loop: a table ordered by id, scanned from the smallest id, and a
    timerfd programmed with the first entry's deadline. */
module Timers {

  // ---- time ----

  /** A point of the monotonic clock, as `struct timespec`. */
  datatype Time = Time(sec: nat, nsec: nat) {
    predicate Valid() { nsec < 1_000_000_000 }

    function Nanos(): nat { sec * 1_000_000_000 + nsec }

    /** The comparison of the expiry scan. */
    predicate Before(t: Time) {
      sec < t.sec || (sec == t.sec && nsec < t.nsec)
    }

    /** When a timer added now expires. */
    function Deadline(): Time { Time(sec + 60, nsec) }
  }

  /** The two-field comparison is the order of the instants. */
  lemma BeforeIsEarlier(a: Time, b: Time)
    requires a.Valid() && b.Valid()
    ensures a.Before(b) <==> a.Nanos() < b.Nanos()
    ensures a.Deadline().Nanos() == a.Nanos() + 60_000_000_000
  {
  }

  // ---- the table ----

  /** `owner` is the connection whose `handleDead` is the callback. */
  datatype Timer = Timer(deadline: Time, owner: nat)

  const DISARMED := Time(0, 0)

  datatype TimerTable = TimerTable(entries: map<int, Timer>, lastId: int, alarm: Time)

  const NO_TIMERS := TimerTable(map[], 0, DISARMED)

  ghost function Pick<T>(s: set<T>): (x: T)
    requires s != {}
    ensures x in s
  {
    var x :| x in s;
    x
  }

  /** The first key of an ordered map. */
  ghost function MinKey(keys: set<int>): (k: int)
    requires keys != {}
    ensures k in keys && forall j :: j in keys ==> k <= j
  {
    var x := Pick(keys);
    if keys == {x} then x
    else
      var k := MinKey(keys - {x});
      assert forall j :: j in keys ==> j == x || j in keys - {x};
      if x < k then x else k
  }

  /** What `refreshClock` programs. */
  ghost function AlarmFor(entries: map<int, Timer>): Time {
    if entries == map[] then DISARMED else entries[MinKey(entries.Keys)].deadline
  }

  ghost function Add(q: TimerTable, now: Time, owner: nat): TimerTable {
    var id := q.lastId + 1;
    var entries := q.entries[id := Timer(now.Deadline(), owner)];
    TimerTable(entries, id, AlarmFor(entries))
  }

  ghost function Delete(q: TimerTable, id: int): TimerTable {
    if id !in q.entries then q
    else q.(entries := q.entries - {id}, alarm := AlarmFor(q.entries - {id}))
  }

  ghost function Erase(q: TimerTable, id: int): TimerTable {
    q.(entries := q.entries - {id})
  }

  ghost function Refresh(q: TimerTable): TimerTable {
    q.(alarm := AlarmFor(q.entries))
  }

  /** The scan: smallest id first, stopping at the first timer that has not expired. */
  ghost function Scan(entries: map<int, Timer>, keys: set<int>, t: Time): (ids: seq<int>)
    requires keys <= entries.Keys
    ensures forall k :: 0 <= k < |ids| ==> ids[k] in keys
    decreases |keys|
  {
    if keys == {} then []
    else
      var id := MinKey(keys);
      if entries[id].deadline.Before(t) then [id] + Scan(entries, keys - {id}, t) else []
  }

  // ---- ids stand in for deadlines ----

  /** Larger ids have later deadlines, and no deadline is more than 60 s after the clock. */
  ghost predicate Ordered(q: TimerTable, clock: Time) {
    && (forall i :: i in q.entries ==> i <= q.lastId)
    && (forall i, j :: i in q.entries && j in q.entries && i < j ==>
          !q.entries[j].deadline.Before(q.entries[i].deadline))
    && (forall i :: i in q.entries ==> !clock.Deadline().Before(q.entries[i].deadline))
    && (forall i :: i in q.entries ==> 60 <= q.entries[i].deadline.sec)
  }

  ghost predicate Programmed(q: TimerTable) { q.alarm == AlarmFor(q.entries) }

  lemma AddKeepsOrder(q: TimerTable, clock: Time, now: Time, owner: nat)
    requires Ordered(q, clock) && !now.Before(clock)
    ensures Ordered(Add(q, now, owner), now) && Programmed(Add(q, now, owner))
  {
  }

  lemma RemovalKeepsOrder(q: TimerTable, clock: Time, id: int, now: Time)
    requires Ordered(q, clock) && !now.Before(clock)
    ensures Ordered(Delete(q, id), now) && Ordered(Erase(q, id), now)
    ensures Programmed(q) ==> Programmed(Delete(q, id))
  {
  }

  /** The scan with its early break finds exactly the timers whose deadline has passed. */
  lemma {:induction false} ScanFindsExpired(q: TimerTable, clock: Time, keys: set<int>, t: Time)
    requires Ordered(q, clock) && keys <= q.entries.Keys
    ensures forall i :: i in Scan(q.entries, keys, t) <==> i in keys && q.entries[i].deadline.Before(t)
    decreases |keys|
  {
    if keys != {} {
      var id := MinKey(keys);
      if q.entries[id].deadline.Before(t) {
        ScanFindsExpired(q, clock, keys - {id}, t);
      }
    }
  }

  ghost predicate Ascending(ids: seq<int>) {
    forall a, b :: 0 <= a < b < |ids| ==> ids[a] < ids[b]
  }

  /** It finds them in the order of their ids, so each once. */
  lemma {:induction false} ScanAscends(entries: map<int, Timer>, keys: set<int>, t: Time)
    requires keys <= entries.Keys
    ensures Ascending(Scan(entries, keys, t))
    decreases |keys|
  {
    if keys != {} {
      var id := MinKey(keys);
      ScanAscends(entries, keys - {id}, t);
      var ids, more := Scan(entries, keys, t), Scan(entries, keys - {id}, t);
      if ids != [] {
        assert ids == [id] + more;
        forall a, b | 0 <= a < b < |ids| ensures ids[a] < ids[b] {
          assert ids[b] == more[b - 1] && more[b - 1] in keys - {id};
          assert a > 0 ==> ids[a] == more[a - 1];
        }
      }
    }
  }

  /** The timerfd holds the earliest deadline; it is disarmed exactly when there is no timer. */
  lemma AlarmIsEarliest(q: TimerTable, clock: Time)
    requires Ordered(q, clock) && Programmed(q)
    ensures q.alarm == DISARMED <==> q.entries == map[]
    ensures forall i :: i in q.entries ==> !q.entries[i].deadline.Before(q.alarm)
    ensures q.entries != map[] ==> exists i :: i in q.entries && q.entries[i].deadline == q.alarm
  {
    if q.entries != map[] {
      var i := MinKey(q.entries.Keys);
      assert i in q.entries;
    }
  }

  // ---- the firing loop ----

  /** What a callback looks at: whether the connection is dead, and its current timer. */
  datatype Life = Life(dead: bool, timerId: int)

  datatype Fired = Fired(q: TimerTable, lives: map<nat, Life>)

  /** One expired timer: its callback (`handleDead` of the owner), then the erasure. */
  ghost function FireOne(f: Fired, id: int): Fired
    requires id in f.q.entries && f.q.entries[id].owner in f.lives
  {
    var o := f.q.entries[id].owner;
    var life := f.lives[o];
    if life.dead then f.(q := Erase(f.q, id))
    else Fired(Erase(Delete(f.q, life.timerId), id), f.lives[o := life.(dead := true)])
  }

  /** Every timer belongs to the connection whose current timer it is. */
  ghost predicate Owned(f: Fired) {
    forall i :: i in f.q.entries ==>
      f.q.entries[i].owner in f.lives && f.lives[f.q.entries[i].owner].timerId == i
  }

  /** A callback deletes no timer but its own, and kills no connection but its own. */
  lemma FireOneIsLocal(f: Fired, id: int)
    requires Owned(f) && id in f.q.entries
    ensures var g := FireOne(f, id); var o := f.q.entries[id].owner;
            && Owned(g) && g.q.entries == f.q.entries - {id} && g.q.lastId == f.q.lastId
            && g.lives == f.lives[o := f.lives[o].(dead := true)]
  {
  }

  function IdSet(ids: seq<int>): set<int> { set i | i in ids }

  /** The lives after the callbacks of `ids` have run, in order. */
  ghost function KillOwners(lives: map<nat, Life>, entries: map<int, Timer>, ids: seq<int>): map<nat, Life>
    requires forall k :: 0 <= k < |ids| ==> ids[k] in entries && entries[ids[k]].owner in lives
    ensures KillOwners(lives, entries, ids).Keys == lives.Keys
  {
    if ids == [] then lives
    else
      var before := KillOwners(lives, entries, ids[..|ids| - 1]);
      var o := entries[ids[|ids| - 1]].owner;
      before[o := before[o].(dead := true)]
  }

  lemma {:induction false} KillOwnersExact(lives: map<nat, Life>, entries: map<int, Timer>, ids: seq<int>)
    requires forall k :: 0 <= k < |ids| ==> ids[k] in entries && entries[ids[k]].owner in lives
    ensures forall o :: o in lives ==>
      KillOwners(lives, entries, ids)[o]
      == lives[o].(dead := lives[o].dead || exists i :: i in ids && entries[i].owner == o)
  {
    if ids != [] {
      var k := |ids| - 1;
      KillOwnersExact(lives, entries, ids[..k]);
      assert forall i :: i in ids <==> i in ids[..k] || i == ids[k];
    }
  }

  /** What a whole timer pass at time `t` does: exactly the timers whose deadline is before `t` go,
      and exactly their owners die. */
  lemma TimerPassExact(q: TimerTable, clock: Time, lives: map<nat, Life>, t: Time)
    requires Ordered(q, clock) && Owned(Fired(q, lives))
    ensures var ids := Scan(q.entries, q.entries.Keys, t);
            && (forall i :: i in q.entries - IdSet(ids) <==> i in q.entries && !q.entries[i].deadline.Before(t))
            && forall o :: o in lives ==>
                 (KillOwners(lives, q.entries, ids)[o].dead
                  <==> lives[o].dead
                       || exists i :: i in q.entries && q.entries[i].owner == o && q.entries[i].deadline.Before(t))
  {
    ScanFindsExpired(q, clock, q.entries.Keys, t);
    KillOwnersExact(lives, q.entries, Scan(q.entries, q.entries.Keys, t));
  }

  /** The firing loop after the callbacks of `ids`. */
  ghost predicate HasFired(f: Fired, entries: map<int, Timer>, lives: map<nat, Life>, ids: seq<int>) {
    && (forall k :: 0 <= k < |ids| ==> ids[k] in entries && entries[ids[k]].owner in lives)
    && f.q.entries == entries - IdSet(ids)
    && f.lives == KillOwners(lives, entries, ids)
    && Owned(f)
  }

  lemma HasFiredStep(f: Fired, entries: map<int, Timer>, lives: map<nat, Life>, ids: seq<int>, id: int)
    requires HasFired(f, entries, lives, ids) && id in entries && id !in ids
    ensures id in f.q.entries && f.q.entries[id].owner in f.lives
    ensures HasFired(FireOne(f, id), entries, lives, ids + [id]) && FireOne(f, id).q.lastId == f.q.lastId
  {
    FireOneIsLocal(f, id);
    assert (ids + [id])[..|ids|] == ids;
    assert IdSet(ids + [id]) == IdSet(ids) + {id};
  }

  class TimerQueue {
    var timers: map<int, Timer>
    var timerId: int
    var alarm: Time          // what the timerfd was last programmed with

    ghost function View(): TimerTable
      reads this
    {
      TimerTable(timers, timerId, alarm)
    }

    constructor ()
      ensures View() == NO_TIMERS
    {
      timers, timerId, alarm := map[], 0, DISARMED;
    }

    /** The first key of an ordered map. */
    static method Begin(keys: set<int>) returns (k: int)
      requires keys != {}
      ensures k == MinKey(keys)
    {
      assert exists k :: k in keys && forall j :: j in keys ==> k <= j by {
        var m := MinKey(keys);
      }
      k :| k in keys && forall j :: j in keys ==> k <= j;
    }

    method RefreshClock()
      modifies this`alarm
      ensures View() == Refresh(old(View()))
    {
      if timers == map[] {
        alarm := DISARMED;
        return;
      }
      var first := Begin(timers.Keys);
      alarm := timers[first].deadline;
    }

    method AddTimer(now: Time, owner: nat) returns (id: int)
      modifies this
      ensures View() == Add(old(View()), now, owner) && id == timerId
    {
      timerId := timerId + 1;
      timers := timers[timerId := Timer(now.Deadline(), owner)];
      RefreshClock();
      id := timerId;
    }

    method DeleteTimer(id: int)
      modifies this`timers, this`alarm
      ensures View() == Delete(old(View()), id)
    {
      if id !in timers {
        return;
      }
      timers := timers - {id};
      RefreshClock();
    }

    /** The scan loop of `handleRead`. */
    method CollectExpired(t: Time) returns (dying: seq<int>)
      ensures dying == Scan(timers, timers.Keys, t)
    {
      dying := [];
      var keys := timers.Keys;
      while keys != {}
        invariant keys <= timers.Keys
        invariant dying + Scan(timers, keys, t) == Scan(timers, timers.Keys, t)
        decreases |keys|
      {
        var id := Begin(keys);
        if !timers[id].deadline.Before(t) {
          break;
        }
        dying := dying + [id];
        keys := keys - {id};
      }
    }

    /** One turn of the firing loop: the callback of `id`, then its erasure. */
    method Fire(id: int, lives: map<nat, Life>) returns (after: map<nat, Life>)
      requires id in timers && timers[id].owner in lives
      modifies this`timers, this`alarm
      ensures Fired(View(), after) == FireOne(Fired(old(View()), lives), id)
    {
      var o := timers[id].owner;
      after := lives;
      if !lives[o].dead {
        after := lives[o := lives[o].(dead := true)];
        DeleteTimer(lives[o].timerId);
      }
      timers := timers - {id};
    }

    /** `handleRead`: the timerfd is read, however often a signal interrupts; if it turns out not to
        have expired, nothing happens. Every entry the firing loop looks up is there: the callbacks
        before it have deleted no timer but their own. */
    method HandleRead(interrupts: nat, expired: bool, t: Time, ghost clock: Time, lives: map<nat, Life>)
      returns (after: map<nat, Life>)
      requires Ordered(View(), clock) && Owned(Fired(View(), lives))
      modifies this
      ensures !expired ==> View() == old(View()) && after == lives
      ensures expired ==>
        var ids := Scan(old(timers), old(timers).Keys, t);
        timers == old(timers) - IdSet(ids) && after == KillOwners(lives, old(timers), ids) && Programmed(View())
      ensures timerId == old(timerId) && Owned(Fired(View(), after))
    {
      var left := interrupts;
      while left > 0 {
        left := left - 1;
      }
      if !expired {
        return lives;
      }
      after := FireExpired(t, clock, lives);
    }

    /** The scan, the firing loop and the new alarm. */
    method FireExpired(t: Time, ghost clock: Time, lives: map<nat, Life>) returns (after: map<nat, Life>)
      requires Ordered(View(), clock) && Owned(Fired(View(), lives))
      modifies this
      ensures var ids := Scan(old(timers), old(timers).Keys, t);
        && timers == old(timers) - IdSet(ids)
        && after == KillOwners(lives, old(timers), ids)
      ensures timerId == old(timerId) && Programmed(View()) && Owned(Fired(View(), after))
    {
      var dying := CollectExpired(t);
      ghost var all := timers;
      ScanAscends(timers, timers.Keys, t);
      after := lives;
      for k := 0 to |dying|
        invariant timerId == old(timerId) && HasFired(Fired(View(), after), all, lives, dying[..k])
      {
        HasFiredStep(Fired(View(), after), all, lives, dying[..k], dying[k]);
        after := Fire(dying[k], after);
        assert dying[..k + 1] == dying[..k] + [dying[k]];
      }
      assert dying[..|dying|] == dying;
      RefreshClock();
    }
  }
}
