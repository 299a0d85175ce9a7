/** Politeness pacing, one burst per host at a time (backend/egress.py:
    EgressProxy._pace). */
module Pacing {
  import opened Wrappers
  import opened Sorting

  type Host = int

  /** politeness_s and burst_window_s. */
  datatype Manners = Manners(politeness: nat, window: nat)

  datatype Slot = Slot(host: Host, start: int, next: int)

  /** One connect: its burst's start, when it may leave, and whether it led the burst. */
  datatype Connect = Connect(host: Host, at: int, start: int, leaves: int, leads: bool)

  const SLOTS_MAX := 1024
  const SLOTS_DROPPED := 512

  function Find(slots: seq<Slot>, host: Host): Option<Slot> {
    if slots == [] then None
    else if slots[|slots| - 1].host == host then Some(slots[|slots| - 1])
    else Find(slots[..|slots| - 1], host)
  }

  function Replaced(slots: seq<Slot>, slot: Slot): seq<Slot> {
    if slots == [] then []
    else if slots[|slots| - 1].host == slot.host then slots[..|slots| - 1] + [slot]
    else Replaced(slots[..|slots| - 1], slot) + [slots[|slots| - 1]]
  }

  function Put(slots: seq<Slot>, slot: Slot): seq<Slot> {
    if Find(slots, slot.host).Some? then Replaced(slots, slot) else slots + [slot]
  }

  function ByNext(): Slot -> Key {
    (slot: Slot) => Key(slot.next, 0, 0)
  }

  function NotAmong(gone: seq<Slot>): Slot -> bool {
    (slot: Slot) => slot !in gone
  }

  lemma SortedLength(slots: seq<Slot>)
    ensures |Sorted(slots, ByNext())| == |slots|
  {
    SortedPermutes(slots, ByNext());
  }

  /** The hosts due soonest. */
  function Due(slots: seq<Slot>): seq<Slot>
    requires |slots| >= SLOTS_DROPPED
  {
    SortedLength(slots);
    Sorted(slots, ByNext())[..SLOTS_DROPPED]
  }

  /** Past the cap, those are forgotten. */
  function Trimmed(slots: seq<Slot>): seq<Slot> {
    if |slots| > SLOTS_MAX then Restrict(slots, NotAmong(Due(slots))) else slots
  }

  function Max(a: int, b: int): int {
    if a > b then a else b
  }

  predicate Joins(slots: seq<Slot>, host: Host, now: int, m: Manners) {
    Find(slots, host).Some? && now - Find(slots, host).value.start <= m.window
  }

  /** The burst a connect that joins none would lead. */
  function NewBurst(slots: seq<Slot>, host: Host, now: int, m: Manners): Slot {
    var found := Find(slots, host);
    var start := if found.Some? then Max(now, found.value.next) else now;
    Slot(host, start, start + m.politeness)
  }

  function Booked(slots: seq<Slot>, host: Host, now: int, m: Manners): (seq<Slot>, Connect) {
    if Joins(slots, host, now, m) then
      var start := Find(slots, host).value.start;
      (slots, Connect(host, now, start, Max(now, start), false))
    else
      var slot := NewBurst(slots, host, now, m);
      (Put(slots, slot), Connect(host, now, slot.start, slot.start, true))
  }

  function Paced(slots: seq<Slot>, host: Host, now: int, m: Manners): (seq<Slot>, Connect) {
    (Trimmed(Booked(slots, host, now, m).0), Booked(slots, host, now, m).1)
  }

  class Pacer {
    var slots: seq<Slot>
    const manners: Manners

    constructor (manners: Manners)
      ensures slots == [] && this.manners == manners
    {
      this.manners, slots := manners, [];
    }

    method Pace(host: Host, now: int) returns (wait: int)
      modifies this
      ensures slots == Paced(old(slots), host, now, manners).0
      ensures wait >= 0 && now + wait == Paced(old(slots), host, now, manners).1.leaves
    {
      var found := Find(slots, host);
      if found.Some? && now - found.value.start <= manners.window {
        wait := Max(0, found.value.start - now);
      } else {
        var next := if found.Some? then found.value.next else now;
        wait := Max(0, next - now);
        var start := Max(now, next);
        slots := Put(slots, Slot(host, start, start + manners.politeness));
      }
      if |slots| > SLOTS_MAX {
        var due := Due(slots);
        slots := Restrict(slots, NotAmong(due));
      }
    }
  }

  // ---------- the slots are one per host ----------

  ghost predicate OnePerHost(slots: seq<Slot>) {
    slots == []
    || (OnePerHost(slots[..|slots| - 1]) && Find(slots[..|slots| - 1], slots[|slots| - 1].host).None?)
  }

  lemma {:induction false} ReplacedFinds(slots: seq<Slot>, slot: Slot, host: Host)
    requires OnePerHost(slots)
    ensures OnePerHost(Replaced(slots, slot))
    ensures Find(Replaced(slots, slot), host)
            == if host == slot.host && Find(slots, host).Some? then Some(slot) else Find(slots, host)
  {
    if slots != [] {
      var init, last := slots[..|slots| - 1], slots[|slots| - 1];
      ReplacedFinds(init, slot, host);
      ReplacedFinds(init, slot, last.host);
      assert (Replaced(init, slot) + [last])[..|Replaced(init, slot)|] == Replaced(init, slot);
      assert (init + [slot])[..|init|] == init;
    }
  }

  lemma PutFinds(slots: seq<Slot>, slot: Slot, host: Host)
    requires OnePerHost(slots)
    ensures OnePerHost(Put(slots, slot))
    ensures Find(Put(slots, slot), host) == if host == slot.host then Some(slot) else Find(slots, host)
  {
    ReplacedFinds(slots, slot, host);
    assert (slots + [slot])[..|slots|] == slots;
  }

  lemma {:induction false} RestrictFinds(slots: seq<Slot>, keep: Slot -> bool, host: Host)
    requires OnePerHost(slots)
    ensures OnePerHost(Restrict(slots, keep))
    ensures Find(Restrict(slots, keep), host).Some? ==> Find(Restrict(slots, keep), host) == Find(slots, host)
  {
    if slots != [] {
      var init, last := slots[..|slots| - 1], slots[|slots| - 1];
      RestrictFinds(init, keep, host);
      RestrictFinds(init, keep, last.host);
      var r := Restrict(init, keep);
      assert (r + [last])[..|r|] == r;
    }
  }

  lemma BookedFinds(slots: seq<Slot>, host: Host, now: int, m: Manners, other: Host)
    requires OnePerHost(slots)
    ensures OnePerHost(Booked(slots, host, now, m).0)
    ensures Find(Booked(slots, host, now, m).0, other)
            == if other == host && Booked(slots, host, now, m).1.leads then Some(NewBurst(slots, host, now, m))
               else Find(slots, other)
  {
    if !Joins(slots, host, now, m) {
      PutFinds(slots, NewBurst(slots, host, now, m), other);
    }
  }

  /** A host's slot after a connect: what the connect wrote, unless it was forgotten. */
  lemma {:induction false} PacedFinds(slots: seq<Slot>, host: Host, now: int, m: Manners, other: Host)
    requires OnePerHost(slots)
    ensures var (after, c) := Paced(slots, host, now, m);
            && OnePerHost(after)
            && (Find(after, other).Some? ==>
                  Find(after, other) == if other == host && c.leads then Some(Slot(host, c.start, c.start + m.politeness))
                                        else Find(slots, other))
  {
    BookedFinds(slots, host, now, m, other);
    TrimmedFinds(Booked(slots, host, now, m).0, other);
  }

  lemma TrimmedFinds(slots: seq<Slot>, host: Host)
    requires OnePerHost(slots)
    ensures OnePerHost(Trimmed(slots))
    ensures Find(Trimmed(slots), host).Some? ==> Find(Trimmed(slots), host) == Find(slots, host)
  {
    if |slots| > SLOTS_MAX {
      RestrictFinds(slots, NotAmong(Due(slots)), host);
    }
  }

  // ---------- over every run ----------

  datatype Event = Wait(ms: nat) | Connecting(host: Host)

  /** `since[h]` is where in the log h's slot was last created. */
  datatype World = World(now: int, slots: seq<Slot>, log: seq<Connect>, since: map<Host, nat>)

  function Next(w: World, e: Event, m: Manners): World {
    match e
    case Wait(ms) => w.(now := w.now + ms)
    case Connecting(host) =>
      var (slots, c) := Paced(w.slots, host, w.now, m);
      World(w.now, slots, w.log + [c],
            if Find(w.slots, host).None? then w.since[host := |w.log|] else w.since)
  }

  function Run(events: seq<Event>, m: Manners): World {
    if events == [] then World(0, [], [], map[])
    else Next(Run(events[..|events| - 1], m), events[|events| - 1], m)
  }

  /** Of two connects to one host, the later is in the earlier's burst, or in a later
      burst far enough behind it. */
  predicate WellSpaced(first: Connect, second: Connect, m: Manners) {
    || (second.start == first.start && !second.leads)
    || (second.start >= first.start + m.politeness && second.start > first.start + m.window)
  }

  predicate InItsBurst(c: Connect, m: Manners) {
    if c.leads then c.leaves == c.start >= c.at
    else c.leaves >= c.start && c.leaves >= c.at && c.at <= c.start + m.window
  }

  /** The slot's burst has a leader in the log, and nothing there starts later. */
  ghost predicate Led(slot: Slot, log: seq<Connect>, since: nat) {
    && (exists i | since <= i < |log| :: log[i].host == slot.host && log[i].leads && log[i].start == slot.start)
    && (forall i | since <= i < |log| && log[i].host == slot.host :: log[i].start <= slot.start)
  }

  ghost predicate Spaced(log: seq<Connect>, host: Host, since: nat, m: Manners) {
    forall i, j | since <= i < j < |log| && log[i].host == host && log[j].host == host :: WellSpaced(log[i], log[j], m)
  }

  ghost predicate HostOk(w: World, host: Host, m: Manners) {
    Find(w.slots, host).Some? ==>
      var slot := Find(w.slots, host).value;
      && slot.host == host && slot.next == slot.start + m.politeness
      && host in w.since && w.since[host] < |w.log|
      && Led(slot, w.log, w.since[host])
      && Spaced(w.log, host, w.since[host], m)
  }

  ghost predicate PacedOk(w: World, m: Manners) {
    && OnePerHost(w.slots)
    && (forall i | 0 <= i < |w.log| :: InItsBurst(w.log[i], m))
    && forall host :: HostOk(w, host, m)
  }

  lemma LedGrows(slot: Slot, log: seq<Connect>, since: nat, c: Connect)
    requires Led(slot, log, since) && (c.host == slot.host ==> c.start <= slot.start)
    ensures Led(slot, log + [c], since)
  {
    var i :| since <= i < |log| && log[i].host == slot.host && log[i].leads && log[i].start == slot.start;
    assert (log + [c])[i] == log[i];
  }

  /** A connect that leads a new burst, or the host's first, is its slot's leader. */
  lemma LeaderLeads(slot: Slot, log: seq<Connect>, since: nat, c: Connect)
    requires since <= |log| && c.leads && c.host == slot.host && c.start == slot.start
    requires forall i | since <= i < |log| && log[i].host == slot.host :: log[i].start <= slot.start
    ensures Led(slot, log + [c], since)
  {
    assert (log + [c])[|log|] == c;
  }

  lemma SpacedGrows(log: seq<Connect>, host: Host, since: nat, c: Connect, m: Manners)
    requires Spaced(log, host, since, m)
    requires c.host == host ==> forall i | since <= i < |log| && log[i].host == host :: WellSpaced(log[i], c, m)
    ensures Spaced(log + [c], host, since, m)
  {}

  lemma JoinerIsSpaced(slot: Slot, log: seq<Connect>, since: nat, c: Connect, m: Manners)
    requires Led(slot, log, since) && Spaced(log, slot.host, since, m)
    requires c.host == slot.host && c.start == slot.start && !c.leads
    ensures forall i | since <= i < |log| && log[i].host == slot.host :: WellSpaced(log[i], c, m)
  {
    var k :| since <= k < |log| && log[k].host == slot.host && log[k].leads && log[k].start == slot.start;
    forall i | since <= i < |log| && log[i].host == slot.host ensures WellSpaced(log[i], c, m) {
      if i < k {
        assert WellSpaced(log[i], log[k], m);
      } else if k < i {
        assert WellSpaced(log[k], log[i], m);
      }
    }
  }

  lemma ConnectKeepsHost(w: World, host: Host, other: Host, m: Manners)
    requires OnePerHost(w.slots) && HostOk(w, other, m)
    ensures HostOk(Next(w, Connecting(host), m), other, m)
  {
    PacedFinds(w.slots, host, w.now, m, other);
    var (slots, c) := Paced(w.slots, host, w.now, m);
    var found := Find(w.slots, other);
    if Find(slots, other).Some? {
      var slot := Find(slots, other).value;
      if found.None? {
        LeaderLeads(slot, w.log, |w.log|, c);
      } else {
        var since := w.since[other];
        if other != host {
          LedGrows(slot, w.log, since, c);
        } else if c.leads {
          LeaderLeads(slot, w.log, since, c);
        } else {
          LedGrows(slot, w.log, since, c);
          JoinerIsSpaced(slot, w.log, since, c, m);
        }
        SpacedGrows(w.log, other, since, c, m);
      }
    }
  }

  /** While a host is remembered, its connects fall into bursts whose starts are at
      least the politeness interval, and more than the window, apart; a burst's leader
      leaves at its start and nobody who joins leaves before that. */
  lemma {:induction false} BurstsAreSpaced(events: seq<Event>, m: Manners)
    ensures PacedOk(Run(events, m), m)
  {
    if events != [] {
      var init, last := events[..|events| - 1], events[|events| - 1];
      var w := Run(init, m);
      BurstsAreSpaced(init, m);
      match last
      case Wait(ms) =>
        forall host ensures HostOk(Next(w, last, m), host, m) {
          assert HostOk(w, host, m);
        }
      case Connecting(host) =>
        PacedFinds(w.slots, host, w.now, m, host);
        forall other ensures HostOk(Next(w, last, m), other, m) {
          ConnectKeepsHost(w, host, other, m);
        }
    }
  }

  // ---------- and nobody waits longer ----------

  /** The milliseconds that have passed. */
  function Elapsed(events: seq<Event>): int {
    if events == [] then 0
    else Elapsed(events[..|events| - 1]) + if events[|events| - 1].Wait? then events[|events| - 1].ms else 0
  }

  lemma {:induction false} TheClockRuns(events: seq<Event>, m: Manners)
    ensures Run(events, m).now == Elapsed(events)
  {
    if events != [] {
      TheClockRuns(events[..|events| - 1], m);
    }
  }

  /** The host's latest burst since it was last remembered, as its leader opened it. */
  ghost predicate LatestBurst(log: seq<Connect>, host: Host, since: nat, i: nat) {
    && since <= i < |log| && log[i].host == host && log[i].leads
    && forall j | since <= j < |log| && log[j].host == host :: log[j].start <= log[i].start
  }

  /** The connect a host's latest burst calls for: to join it within its window and
      leave with it, or at once if it has started; behind the window to open the next
      burst as soon as the politeness interval allows. */
  function Called(host: Host, now: int, start: int, m: Manners): Connect {
    if now <= start + m.window then Connect(host, now, start, Max(now, start), false)
    else Connect(host, now, Max(now, start + m.politeness), Max(now, start + m.politeness), true)
  }

  lemma PacedAsCalled(slots: seq<Slot>, host: Host, now: int, m: Manners)
    requires Find(slots, host).Some? ==>
               Find(slots, host).value.next == Find(slots, host).value.start + m.politeness
    ensures Paced(slots, host, now, m).1
            == if Find(slots, host).None? then Connect(host, now, now, now, true)
               else Called(host, now, Find(slots, host).value.start, m)
  {}

  lemma RememberedBurst(w: World, host: Host, m: Manners) returns (i: nat)
    requires HostOk(w, host, m) && Find(w.slots, host).Some?
    ensures host in w.since && LatestBurst(w.log, host, w.since[host], i)
    ensures w.log[i].start == Find(w.slots, host).value.start
  {
    var slot, since := Find(w.slots, host).value, w.since[host];
    i :| since <= i < |w.log| && w.log[i].host == slot.host && w.log[i].leads && w.log[i].start == slot.start;
  }

  /** How each connect is paced: one to a host not remembered is let through at once and
      opens a burst; any other is as the host's latest burst calls for. */
  lemma AConnectIsPacedExactly(events: seq<Event>, host: Host, m: Manners) returns (i: nat)
    ensures
      var w, now := Run(events, m), Elapsed(events);
      && Run(events + [Connecting(host)], m).now == now
      && (Find(w.slots, host).None? ==>
            Run(events + [Connecting(host)], m).log == w.log + [Connect(host, now, now, now, true)])
      && (Find(w.slots, host).Some? ==>
            && host in w.since && LatestBurst(w.log, host, w.since[host], i)
            && Run(events + [Connecting(host)], m).log == w.log + [Called(host, now, w.log[i].start, m)])
  {
    var w := Run(events, m);
    TheClockRuns(events, m);
    BurstsAreSpaced(events, m);
    assert (events + [Connecting(host)])[..|events|] == events;
    assert HostOk(w, host, m);
    PacedAsCalled(w.slots, host, w.now, m);
    i := 0;
    if Find(w.slots, host).Some? {
      i := RememberedBurst(w, host, m);
    }
  }

  lemma MaxIs(a: int, b: int)
    ensures Max(a, b) >= a && Max(a, b) >= b && (Max(a, b) == a || Max(a, b) == b)
  {}

  // ---------- which hosts are forgotten ----------

  lemma {:induction false} OnePerHostDistinct(slots: seq<Slot>)
    requires OnePerHost(slots)
    ensures Distinct(slots)
    ensures forall slot <- slots :: Find(slots, slot.host) == Some(slot)
  {
    if slots != [] {
      var init, last := slots[..|slots| - 1], slots[|slots| - 1];
      OnePerHostDistinct(init);
      assert forall slot :: slot in slots <==> slot in init || slot == last;
      assert forall slot <- init :: slot.host != last.host;
    }
  }

  /** Past 1024 hosts the map forgets 512, none due later than one it keeps. */
  lemma TrimmingForgetsTheSoonest(slots: seq<Slot>)
    requires OnePerHost(slots)
    ensures |slots| <= 1024 ==> Trimmed(slots) == slots
    ensures |slots| > 1024 ==>
              && |Trimmed(slots)| == |slots| - 512
              && (forall kept <- Trimmed(slots) :: kept in slots)
              && forall gone <- slots, kept <- Trimmed(slots) | gone !in Trimmed(slots) :: gone.next <= kept.next
  {
    if |slots| > SLOTS_MAX {
      var due, sorted := Due(slots), Sorted(slots, ByNext());
      OnePerHostDistinct(slots);
      SortedPermutes(slots, ByNext());
      SortedInOrder(slots, ByNext());
      SortedDistinct(slots, ByNext());
      RestrictMembers(slots, NotAmong(due));
      RestrictDistinct(slots, NotAmong(due));
      forall slot <- due ensures slot in slots {
        assert slot in multiset(sorted);
      }
      LeftSize(slots, due, Trimmed(slots));
      forall gone <- slots, kept <- Trimmed(slots) | gone !in Trimmed(slots) ensures gone.next <= kept.next {
        SoonestFirst(sorted, SLOTS_DROPPED, gone, kept);
      }
    }
  }

  lemma SoonestFirst(sorted: seq<Slot>, n: nat, gone: Slot, kept: Slot)
    requires InOrder(sorted, ByNext()) && n <= |sorted|
    requires gone in sorted[..n] && kept in sorted && kept !in sorted[..n]
    ensures gone.next <= kept.next
  {
    var i :| 0 <= i < n && sorted[i] == gone;
    var j :| 0 <= j < |sorted| && sorted[j] == kept;
    assert forall k | 0 <= k < n :: sorted[k] in sorted[..n];
    assert NotAfter(ByNext()(sorted[i]), ByNext()(sorted[j]));
  }

  lemma {:induction false} ReplacedLength(slots: seq<Slot>, slot: Slot)
    ensures |Replaced(slots, slot)| == |slots|
  {
    if slots != [] {
      ReplacedLength(slots[..|slots| - 1], slot);
    }
  }

  /** So the map never holds more than 1024 hosts. */
  lemma {:induction false} TheMapIsBounded(events: seq<Event>, m: Manners)
    ensures |Run(events, m).slots| <= 1024
  {
    if events != [] {
      var init, last := events[..|events| - 1], events[|events| - 1];
      TheMapIsBounded(init, m);
      BurstsAreSpaced(init, m);
      if last.Connecting? {
        var w := Run(init, m);
        var slot := NewBurst(w.slots, last.host, w.now, m);
        ReplacedLength(w.slots, slot);
        BookedFinds(w.slots, last.host, w.now, m, last.host);
        TrimmingForgetsTheSoonest(Booked(w.slots, last.host, w.now, m).0);
      }
    }
  }
}
