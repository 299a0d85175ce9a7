/** The live-events bell (backend/events.py) as a state machine: committers on
    any thread, releases queued on the event loop, and any number of streams.

    One event is one stretch the event loop cannot interrupt. Message ids are
    the commit order (backend/db.py: get_messages_after, insert_message). */
module Events {
  import opened Sorting

  datatype Phase =
    | Top                                // about to check the stop flag and read
    | Serving(gen: nat, rows: seq<nat>)  // read at generation gen; rows still to yield
    | Parked(done: bool)                 // waiting on a future
    | Ended

  datatype Stream = Stream(since: nat, last: nat, out: seq<nat>, phase: Phase)

  /** `owed` counts commits (and a shutdown) whose notify has not run yet,
      `queued` the releases waiting on the loop. */
  datatype Bus = Bus(committed: seq<nat>, owed: nat, queued: nat, generation: nat, stopping: bool,
                     streams: map<int, Stream>)

  datatype Event =
    | Commit(id: nat)
    | Notify
    | Release
    | BeginShutdown
    | Connect(k: int, since: nat)
    | Turn(k: int)      // stream k runs to its next stop
    | TimeOut(k: int)   // its wait times out: a ping, then around again
    | Disconnect(k: int)

  function Above(since: nat): nat -> bool {
    (id: nat) => id > since
  }

  function UpTo(since: nat, high: nat): nat -> bool {
    (id: nat) => since < id <= high
  }

  /** get_messages_after: the ids above a cursor, in order. */
  function MessagesAfter(committed: seq<nat>, since: nat): seq<nat> {
    Restrict(committed, Above(since))
  }

  function Woken(s: Stream): Stream {
    if s.phase.Parked? then s.(phase := Parked(true)) else s
  }

  function Turned(b: Bus, s: Stream): Stream {
    match s.phase
    case Top =>
      if b.stopping then s.(phase := Ended)
      else s.(phase := Serving(b.generation, MessagesAfter(b.committed, s.last)))
    case Serving(gen, rows) =>
      if rows != [] then s.(last := rows[0], out := s.out + [rows[0]], phase := Serving(gen, rows[1..]))
      else if b.generation != gen then s.(phase := Top)
      else s.(phase := Parked(false))
    case Parked(done) => if done then s.(phase := Top) else s
    case Ended => s
  }

  predicate Enabled(b: Bus, e: Event) {
    match e
    case Commit(id) => forall x <- b.committed :: x < id
    case Notify => b.owed > 0
    case Release => b.queued > 0
    case BeginShutdown => true
    case Connect(k, _) => k !in b.streams
    case Turn(k) => k in b.streams
    case TimeOut(k) => k in b.streams && b.streams[k].phase.Parked?
    case Disconnect(k) => k in b.streams
  }

  function Next(b: Bus, e: Event): Bus
    requires Enabled(b, e)
  {
    match e
    case Commit(id) => b.(committed := b.committed + [id], owed := b.owed + 1)
    case Notify => b.(owed := b.owed - 1, queued := b.queued + 1)
    case Release =>
      b.(queued := b.queued - 1, generation := b.generation + 1,
         streams := map k | k in b.streams :: Woken(b.streams[k]))
    case BeginShutdown => b.(stopping := true, owed := b.owed + 1)
    case Connect(k, since) => b.(streams := b.streams[k := Stream(since, since, [], Top)])
    case Turn(k) => b.(streams := b.streams[k := Turned(b, b.streams[k])])
    case TimeOut(k) => b.(streams := b.streams[k := b.streams[k].(phase := Top)])
    case Disconnect(k) => b.(streams := b.streams[k := b.streams[k].(phase := Ended)])
  }

  // ---------- the module state ----------

  /** The bell's module state: the generation, the futures not yet set (one per
      waiting stream), the releases queued on the loop, and the stop flag. */
  class Bell {
    var generation: nat
    var waiters: seq<int>
    var queued: nat
    var stopping: bool

    /** The bell as the machine has it. */
    ghost predicate Matches(b: Bus)
      reads this
    {
      && generation == b.generation && queued == b.queued && stopping == b.stopping
      && Distinct(waiters)
      && forall k :: k in waiters <==> k in b.streams && b.streams[k].phase == Parked(false)
    }

    constructor ()
      ensures Matches(Bus([], 0, 0, 0, false, map[]))
    {
      generation, waiters, queued, stopping := 0, [], 0, false;
    }

    method NotifyNewMessage(ghost b: Bus)
      requires Matches(b) && Enabled(b, Notify)
      modifies this
      ensures Matches(Next(b, Notify))
    {
      queued := queued + 1;
    }

    method ReleaseWaiters(ghost b: Bus) returns (woken: seq<int>)
      requires Matches(b) && Enabled(b, Release)
      modifies this
      ensures Matches(Next(b, Release)) && woken == old(waiters)
    {
      queued := queued - 1;
      generation := generation + 1;
      woken, waiters := waiters, [];
    }

    /** The flag goes up, then every waiting stream is woken to see it. */
    method ShutDown(ghost b: Bus)
      requires Matches(b)
      modifies this
      ensures Matches(Next(Next(b, BeginShutdown), Notify))
    {
      stopping := true;
      NotifyNewMessage(Next(b, BeginShutdown));
    }

    /** A stream's wait ends without a release: it times out or its client leaves. */
    method StopWaiting(k: int, ghost b: Bus)
      requires Matches(b) && k in b.streams
      modifies this
      ensures Enabled(b, TimeOut(k)) ==> Matches(Next(b, TimeOut(k)))
      ensures Matches(Next(b, Disconnect(k)))
    {
      if k in waiters {
        ghost var before := waiters;
        RestrictMembers(waiters, NotStream(k));
        RestrictDistinct(waiters, NotStream(k));
        waiters := Restrict(waiters, NotStream(k));
      }
    }

    /** Stream k runs to its next stop, reading `committed` when it reads. */
    method StreamTurn(k: int, s: Stream, committed: seq<nat>, ghost b: Bus) returns (s': Stream)
      requires Matches(b) && k in b.streams && s == b.streams[k] && committed == b.committed
      modifies this
      ensures s' == Turned(b, s) && Matches(Next(b, Turn(k)))
    {
      match s.phase
      case Top =>
        if stopping {
          s' := s.(phase := Ended);
        } else {
          s' := s.(phase := Serving(generation, MessagesAfter(committed, s.last)));
        }
      case Serving(gen, rows) =>
        if rows != [] {
          s' := s.(last := rows[0], out := s.out + [rows[0]], phase := Serving(gen, rows[1..]));
        } else if generation != gen {
          s' := s.(phase := Top);
        } else {
          DistinctConcat(waiters, [k]);
          waiters := waiters + [k];
          s' := s.(phase := Parked(false));
        }
      case Parked(done) =>
        s' := if done then s.(phase := Top) else s;
      case Ended =>
        s' := s;
    }
  }

  function NotStream(k: int): int -> bool {
    (j: int) => j != k
  }

  // ---------- the invariant ----------

  ghost predicate Rising(ids: seq<nat>) {
    forall i, j | 0 <= i < j < |ids| :: ids[i] < ids[j]
  }

  function Rows(s: Stream): seq<nat> {
    if s.phase.Serving? then s.phase.rows else []
  }

  /** The highest id the stream has read. */
  function High(s: Stream): nat {
    if Rows(s) != [] then Rows(s)[|Rows(s)| - 1] else s.last
  }

  ghost predicate Unseen(b: Bus, s: Stream) {
    exists id <- b.committed :: id > High(s)
  }

  predicate Ringing(b: Bus) {
    b.owed > 0 || b.queued > 0
  }

  /** A stream about to wait, or waiting, on the strength of its last read. */
  predicate RestsOnRead(b: Bus, s: Stream) {
    s.phase == Parked(false) || (s.phase.Serving? && s.phase.gen == b.generation)
  }

  ghost predicate StreamOk(b: Bus, s: Stream) {
    && (s.phase.Serving? ==> s.phase.gen <= b.generation)
    && s.since <= s.last <= High(s)
    && (s.last == s.since || s.last in b.committed)
    && (High(s) == s.since || High(s) in b.committed)
    && s.out == Restrict(b.committed, UpTo(s.since, s.last))
    && s.out + Rows(s) == Restrict(b.committed, UpTo(s.since, High(s)))
    && (RestsOnRead(b, s) && (Unseen(b, s) || b.stopping) ==> Ringing(b))
  }

  ghost predicate BusOk(b: Bus) {
    Rising(b.committed) && forall k <- b.streams :: StreamOk(b, b.streams[k])
  }

  lemma {:induction false} RestrictSame(ids: seq<nat>, p: nat -> bool, q: nat -> bool)
    requires forall id <- ids :: p(id) <==> q(id)
    ensures Restrict(ids, p) == Restrict(ids, q)
  {
    if ids != [] {
      RestrictSame(ids[..|ids| - 1], p, q);
    }
  }

  lemma CommitKeepsStream(b: Bus, s: Stream, id: nat)
    requires BusOk(b) && StreamOk(b, s) && Enabled(b, Commit(id))
    ensures StreamOk(Next(b, Commit(id)), s)
  {
    RestrictSnoc(b.committed, id, UpTo(s.since, s.last));
    RestrictSnoc(b.committed, id, UpTo(s.since, High(s)));
  }

  /** Cut at any id, a rising sequence splits in order. */
  lemma {:induction false} SplitAt(ids: seq<nat>, since: nat, mid: nat, high: nat)
    requires Rising(ids) && since <= mid <= high
    ensures Restrict(ids, UpTo(since, high)) == Restrict(ids, UpTo(since, mid)) + Restrict(ids, UpTo(mid, high))
  {
    if ids != [] {
      var init, last := ids[..|ids| - 1], ids[|ids| - 1];
      SplitAt(init, since, mid, high);
      if since < last <= mid {
        RestrictNone(init, UpTo(mid, high));
        assert Restrict(init, UpTo(since, mid)) + [] == Restrict(init, UpTo(since, mid));
      }
    }
  }

  lemma {:induction false} RestrictRises(ids: seq<nat>, keep: nat -> bool)
    requires Rising(ids)
    ensures Rising(Restrict(ids, keep))
  {
    if ids != [] {
      var r := Restrict(ids[..|ids| - 1], keep);
      RestrictRises(ids[..|ids| - 1], keep);
      forall k | 0 <= k < |r| ensures r[k] < ids[|ids| - 1] {
        var i := RestrictFrom(ids[..|ids| - 1], keep, k);
      }
    }
  }

  /** A fresh read takes in everything unseen. */
  lemma ReadKeepsStream(b: Bus, s: Stream)
    requires BusOk(b) && StreamOk(b, s) && s.phase.Top? && !b.stopping
    ensures StreamOk(b, Turned(b, s))
    ensures !Unseen(b, Turned(b, s))
  {
    var s' := Turned(b, s);
    var rows := MessagesAfter(b.committed, s.last);
    RestrictMembers(b.committed, Above(s.last));
    RestrictRises(b.committed, Above(s.last));
    assert rows != [] ==> rows[|rows| - 1] in rows;
    forall id <- b.committed ensures id <= High(s') {
      if id > s.last {
        assert id in rows;
        var i :| 0 <= i < |rows| && rows[i] == id;
        assert i < |rows| - 1 ==> rows[i] < rows[|rows| - 1];
      }
    }
    RestrictSame(b.committed, Above(s.last), UpTo(s.last, High(s')));
    if rows != [] {
      assert rows[|rows| - 1] in rows;
    }
    SplitAt(b.committed, s.since, s.last, High(s'));
  }

  lemma YieldKeepsStream(b: Bus, s: Stream)
    requires BusOk(b) && StreamOk(b, s) && s.phase.Serving? && s.phase.rows != []
    ensures StreamOk(b, Turned(b, s))
  {
    var s', rows := Turned(b, s), s.phase.rows;
    RestrictRises(b.committed, UpTo(s.since, High(s)));
    RestrictMembers(b.committed, UpTo(s.since, High(s)));
    var all := s.out + rows;
    assert all[|s.out|] == rows[0] && all[|all| - 1] == High(s);
    assert rows[0] in all && s'.out + rows[1..] == all;
    assert High(s') == High(s);
    SplitAt(b.committed, s.since, rows[0], High(s));
    CutAtMember(all, |s.out|, b.committed, s.since, High(s));
  }

  lemma RisingIndex(ids: seq<nat>, i: nat, j: nat)
    requires Rising(ids) && i < |ids| && j < |ids| && ids[j] <= ids[i]
    ensures j <= i
  {
  }

  /** A rising run cut just after one of its members is cut at that id. */
  lemma CutAtMember(all: seq<nat>, i: nat, ids: seq<nat>, since: nat, high: nat)
    requires Rising(ids) && all == Restrict(ids, UpTo(since, high)) && i < |all|
    ensures all[..i + 1] == Restrict(ids, UpTo(since, all[i]))
  {
    RestrictMembers(ids, UpTo(since, high));
    RestrictRises(ids, UpTo(since, high));
    assert all[i] in all;
    SplitAt(ids, since, all[i], high);
    var low, rest := Restrict(ids, UpTo(since, all[i])), Restrict(ids, UpTo(all[i], high));
    RestrictMembers(ids, UpTo(since, all[i]));
    RestrictMembers(ids, UpTo(all[i], high));
    assert all[i] in low;
    var j :| 0 <= j < |low| && low[j] == all[i];
    assert all[j] == low[j] && j == i;
    assert low[|low| - 1] in low && all[|low| - 1] == low[|low| - 1];
    RisingIndex(all, i, |low| - 1);
  }

  lemma TurnKeepsStream(b: Bus, s: Stream)
    requires BusOk(b) && StreamOk(b, s)
    ensures StreamOk(b, Turned(b, s))
  {
    match s.phase
    case Top => if !b.stopping { ReadKeepsStream(b, s); }
    case Serving(gen, rows) => if rows != [] { YieldKeepsStream(b, s); }
    case Parked(_) =>
    case Ended =>
  }

  lemma ReleaseKeepsStream(b: Bus, s: Stream)
    requires BusOk(b) && StreamOk(b, s) && b.queued > 0
    ensures StreamOk(Next(b, Release), Woken(s))
  {
    assert Rows(Woken(s)) == Rows(s);
  }

  lemma ConnectStartsOk(b: Bus, k: int, since: nat)
    requires BusOk(b) && k !in b.streams
    ensures StreamOk(Next(b, Connect(k, since)), Stream(since, since, [], Top))
  {
    RestrictNone(b.committed, UpTo(since, since));
  }

  lemma OthersKeepStream(b: Bus, e: Event, s: Stream)
    requires BusOk(b) && StreamOk(b, s) && Enabled(b, e)
    requires e.Notify? || e.BeginShutdown? || e.Connect? || e.Turn? || e.TimeOut? || e.Disconnect?
    ensures StreamOk(Next(b, e), s)
  {
  }

  lemma LeavingKeepsStream(b: Bus, s: Stream, phase: Phase)
    requires BusOk(b) && StreamOk(b, s) && (phase.Ended? || (phase.Top? && s.phase.Parked?))
    ensures StreamOk(b, s.(phase := phase))
  {
    assert s.out + [] == s.out;
  }

  lemma CommitKeepsRising(b: Bus, id: nat)
    requires Rising(b.committed) && Enabled(b, Commit(id))
    ensures Rising(b.committed + [id])
  {
    assert forall i | 0 <= i < |b.committed| :: b.committed[i] in b.committed;
  }

  lemma EventKeepsStream(b: Bus, e: Event, k: int)
    requires BusOk(b) && Enabled(b, e) && k in Next(b, e).streams
    ensures StreamOk(Next(b, e), Next(b, e).streams[k])
  {
    match e
    case Commit(id) => CommitKeepsStream(b, b.streams[k], id);
    case Release => ReleaseKeepsStream(b, b.streams[k]);
    case Connect(j, since) =>
      if j == k { ConnectStartsOk(b, k, since); } else { OthersKeepStream(b, e, b.streams[k]); }
    case Turn(j) =>
      if j == k { TurnKeepsStream(b, b.streams[k]); }
      OthersKeepStream(b, e, Next(b, e).streams[k]);
    case TimeOut(j) =>
      if j == k { LeavingKeepsStream(b, b.streams[k], Top); }
      OthersKeepStream(b, e, Next(b, e).streams[k]);
    case Disconnect(j) =>
      if j == k { LeavingKeepsStream(b, b.streams[k], Ended); }
      OthersKeepStream(b, e, Next(b, e).streams[k]);
    case _ => OthersKeepStream(b, e, b.streams[k]);
  }

  /** Every event, in any interleaving, keeps the invariant. */
  lemma EventKeepsBus(b: Bus, e: Event)
    requires BusOk(b) && Enabled(b, e)
    ensures BusOk(Next(b, e))
  {
    var b' := Next(b, e);
    if e.Commit? {
      CommitKeepsRising(b, e.id);
    }
    forall k <- b'.streams ensures StreamOk(b', b'.streams[k]) {
      EventKeepsStream(b, e, k);
    }
  }

  // ---------- whole runs ----------

  /** A run of events; one that cannot happen is passed over. */
  function After(b: Bus, events: seq<Event>): Bus {
    if events == [] then b
    else
      var before := After(b, events[..|events| - 1]);
      if Enabled(before, events[|events| - 1]) then Next(before, events[|events| - 1]) else before
  }

  /** A process just started over a table of messages. */
  function Started(committed: seq<nat>): Bus {
    Bus(committed, 0, 0, 0, false, map[])
  }

  lemma {:induction false} RunKeepsBus(committed: seq<nat>, events: seq<Event>)
    requires Rising(committed)
    ensures BusOk(After(Started(committed), events))
  {
    if events != [] {
      RunKeepsBus(committed, events[..|events| - 1]);
      var before := After(Started(committed), events[..|events| - 1]);
      if Enabled(before, events[|events| - 1]) {
        EventKeepsBus(before, events[|events| - 1]);
      }
    }
  }

  /** A stream with nothing left unread has yielded every id above its start. */
  lemma CaughtUp(b: Bus, s: Stream)
    requires BusOk(b) && StreamOk(b, s) && !s.phase.Serving? && !Unseen(b, s)
    ensures s.out == MessagesAfter(b.committed, s.since)
  {
    RestrictSame(b.committed, UpTo(s.since, s.last), Above(s.since));
  }

  /** No lost wakeup, over every interleaving: a parked stream that has not been
      woken has seen everything committed unless a notify is owed or a release
      queued, and the same holds of a shutdown it has not heard of. What a
      stream has yielded is exactly the committed ids above its start, up to its
      cursor, rising, each once. */
  lemma NoLostWakeup(committed: seq<nat>, events: seq<Event>, k: int)
    requires Rising(committed) && k in After(Started(committed), events).streams
    ensures
      var b := After(Started(committed), events);
      var s := b.streams[k];
      && (s.phase == Parked(false) && !Ringing(b) ==>
            !b.stopping && s.out == MessagesAfter(b.committed, s.since))
      && s.out == Restrict(b.committed, UpTo(s.since, s.last))
      && Rising(s.out)
  {
    RunKeepsBus(committed, events);
    var b := After(Started(committed), events);
    var s := b.streams[k];
    assert StreamOk(b, s);
    RestrictRises(b.committed, UpTo(s.since, s.last));
    if s.phase == Parked(false) && !Ringing(b) {
      CaughtUp(b, s);
    }
  }

  // ---------- every stream gets there ----------

  /** How many of its own turns a stream can still take before it must wait. */
  function Work(b: Bus, s: Stream): nat {
    match s.phase
    case Top => |MessagesAfter(b.committed, s.last)| + 2
    case Serving(gen, rows) =>
      if gen == b.generation then |rows| + 1
      else |rows| + |MessagesAfter(b.committed, High(s))| + 4
    case Parked(done) => if done then |MessagesAfter(b.committed, s.last)| + 3 else 0
    case Ended => 0
  }

  lemma TurnIsProgress(b: Bus, s: Stream)
    requires Work(b, s) > 0
    ensures Work(b, Turned(b, s)) < Work(b, s)
  {
  }

  /** A stream's own turns, taken until it must wait. */
  function Settled(b: Bus, k: int): (r: Bus)
    requires k in b.streams
    ensures k in r.streams && r.streams.Keys == b.streams.Keys
    decreases Work(b, b.streams[k])
  {
    if Work(b, b.streams[k]) == 0 then b
    else
      TurnIsProgress(b, b.streams[k]);
      Settled(Next(b, Turn(k)), k)
  }

  /** A stream's own turn leaves the bell alone. */
  lemma TurnIsItsOwn(b: Bus, k: int)
    requires k in b.streams
    ensures var b' := Next(b, Turn(k));
            && k in b'.streams && b'.committed == b.committed && b'.stopping == b.stopping
            && Ringing(b') == Ringing(b) && b'.streams[k].since == b.streams[k].since
            && Work(b', b'.streams[k]) == Work(b, Turned(b, b.streams[k]))
  {
  }

  lemma {:induction false} SettledKeepsBus(b: Bus, k: int)
    requires BusOk(b) && k in b.streams
    ensures BusOk(Settled(b, k)) && Work(Settled(b, k), Settled(b, k).streams[k]) == 0
    ensures Settled(b, k).committed == b.committed && Settled(b, k).stopping == b.stopping
    ensures Ringing(Settled(b, k)) == Ringing(b)
    ensures Settled(b, k).streams[k].since == b.streams[k].since
    ensures !b.stopping ==> (Settled(b, k).streams[k].phase == Ended <==> b.streams[k].phase == Ended)
    decreases Work(b, b.streams[k])
  {
    if Work(b, b.streams[k]) != 0 {
      TurnIsProgress(b, b.streams[k]);
      TurnIsItsOwn(b, k);
      EventKeepsBus(b, Turn(k));
      SettledKeepsBus(Next(b, Turn(k)), k);
    }
  }

  /** Once every bell has rung, a stream left to its own turns ends, and no
      later than its next check, if the process is stopping; otherwise, unless its
      client had gone, it comes to rest having yielded every id above its start. */
  lemma QuietBusDelivers(b: Bus, k: int)
    requires BusOk(b) && k in b.streams && !Ringing(b)
    ensures
      var b' := Settled(b, k);
      var s := b'.streams[k];
      && (b.stopping ==> s.phase == Ended)
      && (!b.stopping ==> if b.streams[k].phase == Ended then s.phase == Ended
                          else s.phase == Parked(false) && s.out == MessagesAfter(b.committed, s.since))
  {
    SettledKeepsBus(b, k);
    var b' := Settled(b, k);
    var s := b'.streams[k];
    assert StreamOk(b', s);
    if s.phase != Ended && !b.stopping {
      CaughtUp(b', s);
    }
  }

  // ---------- what a run comes to ----------

  /** The ids committed in a run, in order, on top of those there were. */
  function Landed(committed: seq<nat>, events: seq<Event>): seq<nat> {
    if events == [] then committed
    else
      var before, e := Landed(committed, events[..|events| - 1]), events[|events| - 1];
      if e.Commit? && forall x <- before :: x < e.id then before + [e.id] else before
  }

  function Shutdowns(events: seq<Event>): nat {
    if events == [] then 0
    else Shutdowns(events[..|events| - 1]) + if events[|events| - 1].BeginShutdown? then 1 else 0
  }

  lemma EventRings(b: Bus, e: Event)
    requires Enabled(b, e)
    ensures Next(b, e).committed == if e.Commit? then b.committed + [e.id] else b.committed
    ensures Next(b, e).stopping == (b.stopping || e.BeginShutdown?)
    ensures Next(b, e).owed + Next(b, e).queued + Next(b, e).generation
            == b.owed + b.queued + b.generation + if e.Commit? || e.BeginShutdown? then 1 else 0
  {}

  /** Every commit stays, in order; the flag is up exactly when a shutdown began; and
      each of them rings the bell once: its notify is owed, its release queued, or the
      generation has moved for it. */
  lemma {:induction false} EveryCommitRingsOnce(committed: seq<nat>, events: seq<Event>)
    ensures
      var b := After(Started(committed), events);
      && b.committed == Landed(committed, events)
      && (b.stopping <==> Shutdowns(events) > 0)
      && b.owed + b.queued + b.generation == |Landed(committed, events)| - |committed| + Shutdowns(events)
  {
    if events != [] {
      var init, e := events[..|events| - 1], events[|events| - 1];
      EveryCommitRingsOnce(committed, init);
      if Enabled(After(Started(committed), init), e) {
        EventRings(After(Started(committed), init), e);
      }
    }
  }

  /** A stream begins at the cursor it asks for; a release wakes every stream that
      waits; one whose wait times out looks again; and a client that leaves is gone. */
  lemma StreamsComeAndGo(b: Bus, k: int, since: nat)
    ensures k !in b.streams ==>
              Next(b, Connect(k, since)).streams == b.streams[k := Stream(since, since, [], Top)]
    ensures k in b.streams && b.queued > 0 ==>
              && k in Next(b, Release).streams
              && Next(b, Release).streams[k].phase
                 == if b.streams[k].phase.Parked? then Parked(true) else b.streams[k].phase
    ensures k in b.streams && b.streams[k].phase.Parked? ==>
              Next(b, TimeOut(k)).streams[k] == b.streams[k].(phase := Top)
    ensures k in b.streams ==> Next(b, Disconnect(k)).streams[k].phase == Ended
                               && Next(b, Disconnect(k)).streams[k].out == b.streams[k].out
  {}
}
