/** Which clips a bank keeps (backend/anchors.py: _variety_order, select_keep). */
module Rotation {
  import opened Bank
  import opened Sorting
  import S = Sessions

  /** A clip of a bank, with its place in it and its session. */
  datatype Entry = Entry(index: nat, clip: Clip, session: int)

  /** An entry with its round in the round robin. */
  datatype Placed = Placed(round: int, entry: Entry)

  /** Best quality first, newest on a tie. */
  function QualityKey(e: Entry): Key {
    Key(-e.clip.score, -(e.clip.addedAt as int), 0)
  }

  function RoundKey(p: Placed): Key {
    Key(p.round, -p.entry.clip.score, -(p.entry.clip.addedAt as int))
  }

  function InSession(session: int): Entry -> bool {
    (e: Entry) => e.session == session
  }

  function PlacedIn(session: int): Placed -> bool {
    (p: Placed) => p.entry.session == session
  }

  function Unplaced(placed: seq<Placed>): seq<Entry> {
    seq(|placed|, i requires 0 <= i < |placed| => placed[i].entry)
  }

  // ---------- the round robin ----------

  /** The sessions of a pool, in order of first appearance. */
  function SessionList(pool: seq<Entry>): seq<int> {
    if pool == [] then []
    else
      var list, session := SessionList(pool[..|pool| - 1]), pool[|pool| - 1].session;
      if session in list then list else list + [session]
  }

  function Ranked(members: seq<Entry>, start: int): seq<Placed> {
    seq(|members|, rank requires 0 <= rank < |members| => Placed(start + rank, members[rank]))
  }

  function Seat(seated: map<int, nat>, session: int): nat {
    if session in seated then seated[session] else 0
  }

  /** One session's clips, best first, with their rounds. */
  function SessionRounds(pool: seq<Entry>, seated: map<int, nat>, session: int): seq<Placed> {
    Ranked(Sorted(Restrict(pool, InSession(session)), QualityKey), Seat(seated, session))
  }

  function Keyed(pool: seq<Entry>, sessions: seq<int>, seated: map<int, nat>): seq<Placed> {
    if sessions == [] then []
    else Keyed(pool, sessions[..|sessions| - 1], seated) + SessionRounds(pool, seated, sessions[|sessions| - 1])
  }

  function PlacedOrder(pool: seq<Entry>, seated: map<int, nat>): seq<Placed> {
    Sorted(Keyed(pool, SessionList(pool), seated), RoundKey)
  }

  function VarietyOrder(pool: seq<Entry>, seated: map<int, nat>): seq<Entry> {
    Unplaced(PlacedOrder(pool, seated))
  }

  ghost predicate GroupedBySession(pool: seq<Entry>, bySession: map<int, seq<Entry>>, sessions: seq<int>) {
    && (forall s :: s in sessions <==> s in bySession)
    && forall s <- bySession :: bySession[s] == Restrict(pool, InSession(s))
  }

  lemma {:induction false} SessionListMembers(pool: seq<Entry>)
    ensures forall s :: s in SessionList(pool) <==> exists e <- pool :: e.session == s
    ensures Distinct(SessionList(pool))
  {
    if pool != [] {
      var init, last := pool[..|pool| - 1], pool[|pool| - 1];
      SessionListMembers(init);
      assert pool == init + [last];
    }
  }

  lemma GroupOneMore(pool: seq<Entry>, e: Entry, bySession: map<int, seq<Entry>>)
    requires GroupedBySession(pool, bySession, SessionList(pool))
    ensures GroupedBySession(pool + [e],
                             bySession[e.session := (if e.session in bySession then bySession[e.session] else []) + [e]],
                             SessionList(pool + [e]))
  {
    assert (pool + [e])[..|pool|] == pool;
    if e.session !in bySession {
      SessionListMembers(pool);
      RestrictNone(pool, InSession(e.session));
    }
    forall s {:trigger InSession(s)} {
      RestrictSnoc(pool, e, InSession(s));
    }
  }

  lemma GroupOf(pool: seq<Entry>, bySession: map<int, seq<Entry>>, sessions: seq<int>, k: nat)
    requires GroupedBySession(pool, bySession, sessions) && k < |sessions|
    ensures sessions[k] in bySession && bySession[sessions[k]] == Restrict(pool, InSession(sessions[k]))
  {
    var s := sessions[k];
    assert s in sessions;
    assert bySession[s] == Restrict(pool, InSession(s));
  }

  method GroupBySession(pool: seq<Entry>) returns (sessions: seq<int>, bySession: map<int, seq<Entry>>)
    ensures sessions == SessionList(pool) && GroupedBySession(pool, bySession, sessions)
  {
    sessions, bySession := [], map[];
    for i := 0 to |pool|
      invariant sessions == SessionList(pool[..i]) && GroupedBySession(pool[..i], bySession, sessions)
    {
      var e := pool[i];
      GroupOneMore(pool[..i], e, bySession);
      assert pool[..i + 1] == pool[..i] + [e];
      if e.session !in bySession {
        sessions := sessions + [e.session];
        bySession := bySession[e.session := []];
      }
      bySession := bySession[e.session := bySession[e.session] + [e]];
    }
    assert pool[..|pool|] == pool;
  }

  method RankMembers(before: seq<Placed>, members: seq<Entry>, start: int) returns (keyed: seq<Placed>)
    ensures keyed == before + Ranked(members, start)
  {
    keyed := before;
    for rank := 0 to |members|
      invariant keyed == before + Ranked(members, start)[..rank]
    {
      keyed := keyed + [Placed(start + rank, members[rank])];
    }
  }

  method OrderForVariety(pool: seq<Entry>, seated: map<int, nat>) returns (order: seq<Entry>)
    ensures order == VarietyOrder(pool, seated)
  {
    var sessions, bySession := GroupBySession(pool);
    var keyed: seq<Placed> := [];
    for k := 0 to |sessions|
      invariant keyed == Keyed(pool, sessions[..k], seated)
    {
      assert sessions[..k + 1][..k] == sessions[..k];
      GroupOf(pool, bySession, sessions, k);
      var members := Sorted(bySession[sessions[k]], QualityKey);
      keyed := RankMembers(keyed, members, Seat(seated, sessions[k]));
    }
    assert sessions[..|sessions|] == sessions;
    order := Unplaced(Sorted(keyed, RoundKey));
  }

  // ---------- what the order guarantees ----------

  lemma RankedIn(members: seq<Entry>, start: int, session: int, s: int)
    requires forall e <- members :: e.session == s
    ensures Restrict(Ranked(members, start), PlacedIn(session)) == if s == session then Ranked(members, start) else []
  {
    if s == session {
      RestrictAll(Ranked(members, start), PlacedIn(session));
    } else {
      RestrictNone(Ranked(members, start), PlacedIn(session));
    }
  }

  lemma SessionRoundsMembers(pool: seq<Entry>, seated: map<int, nat>, session: int)
    ensures forall p <- SessionRounds(pool, seated, session) :: p.entry in pool && p.entry.session == session
    ensures |SessionRounds(pool, seated, session)| == |Restrict(pool, InSession(session))|
  {
    var members := Restrict(pool, InSession(session));
    RestrictMembers(pool, InSession(session));
    SortedPermutes(members, QualityKey);
    forall e | e in Sorted(members, QualityKey) ensures e in members {
      assert e in multiset(Sorted(members, QualityKey));
    }
  }

  lemma {:induction false} KeyedIn(pool: seq<Entry>, sessions: seq<int>, seated: map<int, nat>, session: int)
    requires Distinct(sessions)
    ensures Restrict(Keyed(pool, sessions, seated), PlacedIn(session))
            == if session in sessions then SessionRounds(pool, seated, session) else []
  {
    if sessions != [] {
      var init, last := sessions[..|sessions| - 1], sessions[|sessions| - 1];
      KeyedIn(pool, init, seated, session);
      RestrictConcat(Keyed(pool, init, seated), SessionRounds(pool, seated, last), PlacedIn(session));
      SessionRoundsMembers(pool, seated, last);
      forall e | e in Sorted(Restrict(pool, InSession(last)), QualityKey) ensures e.session == last {
        var k :| 0 <= k < |Sorted(Restrict(pool, InSession(last)), QualityKey)|
                 && Sorted(Restrict(pool, InSession(last)), QualityKey)[k] == e;
        assert SessionRounds(pool, seated, last)[k].entry == e;
      }
      RankedIn(Sorted(Restrict(pool, InSession(last)), QualityKey), Seat(seated, last), session, last);
    }
  }

  /** Seen from one session, the whole order is that session's clips, best
      first, one round apart. */
  lemma OrderInSession(pool: seq<Entry>, seated: map<int, nat>, session: int)
    ensures Restrict(PlacedOrder(pool, seated), PlacedIn(session)) == SessionRounds(pool, seated, session)
  {
    SessionListMembers(pool);
    KeyedIn(pool, SessionList(pool), seated, session);
    RestrictSorted(Keyed(pool, SessionList(pool), seated), RoundKey, PlacedIn(session));
    SortedUnchanged(SessionRounds(pool, seated, session), RoundKey);
    if session !in SessionList(pool) {
      RestrictNone(pool, InSession(session));
    }
  }

  lemma RestrictUnplaced(placed: seq<Placed>, session: int)
    ensures Restrict(Unplaced(placed), InSession(session)) == Unplaced(Restrict(placed, PlacedIn(session)))
  {
    if placed != [] {
      RestrictUnplaced(placed[..|placed| - 1], session);
      assert Unplaced(placed)[..|placed| - 1] == Unplaced(placed[..|placed| - 1]);
    }
  }

  /** How the first m of an order treat one session: they hold a best-first
      run of it, and what is left out starts one round later. */
  lemma SessionCut(pool: seq<Entry>, seated: map<int, nat>, m: nat, session: int) returns (kept: nat)
    requires m <= |PlacedOrder(pool, seated)|
    ensures kept == |Restrict(VarietyOrder(pool, seated)[..m], InSession(session))|
    ensures kept <= |SessionRounds(pool, seated, session)|
    ensures Restrict(PlacedOrder(pool, seated)[..m], PlacedIn(session)) == SessionRounds(pool, seated, session)[..kept]
    ensures Restrict(PlacedOrder(pool, seated)[m..], PlacedIn(session)) == SessionRounds(pool, seated, session)[kept..]
  {
    var order := PlacedOrder(pool, seated);
    OrderInSession(pool, seated, session);
    assert order == order[..m] + order[m..];
    RestrictConcat(order[..m], order[m..], PlacedIn(session));
    RestrictUnplaced(order[..m], session);
    assert Unplaced(order)[..m] == Unplaced(order[..m]);
    kept := |Restrict(order[..m], PlacedIn(session))|;
  }

  /** The round robin is fair at every cut: if session t left a clip out while
      session s got one in, s is at most one clip ahead, counting what each was
      seated with. */
  lemma VarietyIsFair(pool: seq<Entry>, seated: map<int, nat>, m: nat, s: int, t: int)
    requires m <= |VarietyOrder(pool, seated)|
    requires Restrict(VarietyOrder(pool, seated)[..m], InSession(s)) != []
    requires Restrict(VarietyOrder(pool, seated)[m..], InSession(t)) != []
    ensures Seat(seated, s) + |Restrict(VarietyOrder(pool, seated)[..m], InSession(s))|
            <= Seat(seated, t) + |Restrict(VarietyOrder(pool, seated)[..m], InSession(t))| + 1
  {
    var order := PlacedOrder(pool, seated);
    var ks := SessionCut(pool, seated, m, s);
    var kt := SessionCut(pool, seated, m, t);
    RestrictUnplaced(order[m..], t);
    assert Unplaced(order)[m..] == Unplaced(order[m..]);
    var i := RestrictFrom(order[..m], PlacedIn(s), ks - 1);
    var j := RestrictFrom(order[m..], PlacedIn(t), 0);
    SortedInOrder(Keyed(pool, SessionList(pool), seated), RoundKey);
    assert NotAfter(RoundKey(order[i]), RoundKey(order[m + j]));
  }

  lemma CutByRank(pool: seq<Entry>, seated: map<int, nat>, m: nat, i: nat, j: nat) returns (x: nat, y: nat)
    requires i < m <= j < |PlacedOrder(pool, seated)|
    requires PlacedOrder(pool, seated)[i].entry.session == PlacedOrder(pool, seated)[j].entry.session
    ensures x < y < |SessionRounds(pool, seated, PlacedOrder(pool, seated)[i].entry.session)|
    ensures SessionRounds(pool, seated, PlacedOrder(pool, seated)[i].entry.session)[x] == PlacedOrder(pool, seated)[i]
    ensures SessionRounds(pool, seated, PlacedOrder(pool, seated)[i].entry.session)[y] == PlacedOrder(pool, seated)[j]
  {
    var order := PlacedOrder(pool, seated);
    var head, tail, session := order[..m], order[m..], order[i].entry.session;
    var kept := SessionCut(pool, seated, m, session);
    assert head[i] == order[i] && tail[j - m] == order[j];
    x := RestrictHas(head, PlacedIn(session), i);
    y := RestrictHas(tail, PlacedIn(session), j - m);
    y := kept + y;
  }

  /** Within a session, nothing the first m leave out is better than anything
      they hold. */
  lemma VarietyKeepsTheBest(pool: seq<Entry>, seated: map<int, nat>, m: nat, kept: Entry, dropped: Entry)
    requires m <= |VarietyOrder(pool, seated)|
    requires kept in VarietyOrder(pool, seated)[..m] && dropped in VarietyOrder(pool, seated)[m..]
    requires kept.session == dropped.session
    ensures !Better(dropped.clip, kept.clip)
  {
    var order := VarietyOrder(pool, seated);
    var i :| 0 <= i < m && order[..m][i] == kept;
    var j :| 0 <= j < |order| - m && order[m..][j] == dropped;
    assert order[i] == kept && order[m + j] == dropped;
    var x, y := CutByRank(pool, seated, m, i, m + j);
    SessionQuality(pool, seated, kept.session, x, y);
  }

  lemma SessionQuality(pool: seq<Entry>, seated: map<int, nat>, session: int, x: nat, y: nat)
    requires x < y < |SessionRounds(pool, seated, session)|
    ensures NotAfter(QualityKey(SessionRounds(pool, seated, session)[x].entry),
                     QualityKey(SessionRounds(pool, seated, session)[y].entry))
  {
    SortedInOrder(Restrict(pool, InSession(session)), QualityKey);
  }

  lemma UnplacedRanked(members: seq<Entry>, start: int)
    ensures Unplaced(Ranked(members, start)) == members
  {
    forall i | 0 <= i < |members| ensures Unplaced(Ranked(members, start))[i] == members[i] {
      assert Ranked(members, start)[i].entry == members[i];
    }
  }

  lemma VarietyCount(pool: seq<Entry>, seated: map<int, nat>, e: Entry)
    ensures multiset(VarietyOrder(pool, seated))[e] == multiset(pool)[e]
  {
    var members := Restrict(pool, InSession(e.session));
    var sorted := Sorted(members, QualityKey);
    RestrictCount(VarietyOrder(pool, seated), InSession(e.session), e);
    RestrictUnplaced(PlacedOrder(pool, seated), e.session);
    OrderInSession(pool, seated, e.session);
    UnplacedRanked(sorted, Seat(seated, e.session));
    SortedPermutes(members, QualityKey);
    RestrictCount(pool, InSession(e.session), e);
  }

  lemma VarietyPermutes(pool: seq<Entry>, seated: map<int, nat>)
    ensures multiset(VarietyOrder(pool, seated)) == multiset(pool)
    ensures |VarietyOrder(pool, seated)| == |pool|
  {
    forall e: Entry ensures multiset(VarietyOrder(pool, seated))[e] == multiset(pool)[e] {
      VarietyCount(pool, seated, e);
    }
    assert |multiset(VarietyOrder(pool, seated))| == |VarietyOrder(pool, seated)|;
    assert |multiset(pool)| == |pool|;
  }

  // ---------- select_keep ----------

  function OfClass(short: bool): Entry -> bool {
    (e: Entry) => IsShort(e.clip) == short
  }

  predicate Guarded(e: Entry) {
    Protected(e.clip)
  }

  predicate Unguarded(e: Entry) {
    !Protected(e.clip)
  }

  function Take<T>(s: seq<T>, n: nat): seq<T> {
    if n <= |s| then s[..n] else s
  }

  /** How many clips each session already holds. */
  function CountSeated(guarded: seq<Entry>): map<int, nat> {
    if guarded == [] then map[]
    else
      var before, session := CountSeated(guarded[..|guarded| - 1]), guarded[|guarded| - 1].session;
      before[session := Seat(before, session) + 1]
  }

  function GuardedKeep(pool: seq<Entry>, cap: nat): seq<Entry> {
    Take(VarietyOrder(Restrict(pool, Guarded), map[]), cap)
  }

  function RestKeep(pool: seq<Entry>, cap: nat): seq<Entry> {
    var guarded := GuardedKeep(pool, cap);
    Take(VarietyOrder(Restrict(pool, Unguarded), CountSeated(guarded)), cap - |guarded|)
  }

  function ClassKeep(pool: seq<Entry>, cap: nat): seq<Entry> {
    GuardedKeep(pool, cap) + RestKeep(pool, cap)
  }

  function Entries(clips: seq<Clip>): seq<Entry> {
    seq(|clips|, i requires 0 <= i < |clips| => Entry(i, clips[i], S.Sessions(clips)[i]))
  }

  function Pool(clips: seq<Clip>, short: bool): seq<Entry> {
    Restrict(Entries(clips), OfClass(short))
  }

  function Indexes(entries: seq<Entry>): set<nat> {
    set e | e in entries :: e.index
  }

  function KeepSet(clips: seq<Clip>): set<nat> {
    Indexes(ClassKeep(Pool(clips, false), Cap(false))) + Indexes(ClassKeep(Pool(clips, true), Cap(true)))
  }

  function InKeep(keep: set<nat>): Entry -> bool {
    (e: Entry) => e.index in keep
  }

  function Clips(entries: seq<Entry>): seq<Clip> {
    seq(|entries|, i requires 0 <= i < |entries| => entries[i].clip)
  }

  /** The entries a bank keeps, in score order. */
  function KeptEntries(clips: seq<Clip>): seq<Entry> {
    Restrict(Sorted(Entries(clips), QualityKey), InKeep(KeepSet(clips)))
  }

  function SelectKeep(clips: seq<Clip>): seq<Clip> {
    Clips(KeptEntries(clips))
  }

  method CountSeats(guarded: seq<Entry>) returns (seated: map<int, nat>)
    ensures seated == CountSeated(guarded)
  {
    seated := map[];
    for i := 0 to |guarded|
      invariant seated == CountSeated(guarded[..i])
    {
      assert guarded[..i + 1][..i] == guarded[..i];
      seated := seated[guarded[i].session := Seat(seated, guarded[i].session) + 1];
    }
    assert guarded[..|guarded|] == guarded;
  }

  method KeepClass(pool: seq<Entry>, cap: nat) returns (kept: seq<Entry>)
    ensures kept == ClassKeep(pool, cap)
  {
    var order := OrderForVariety(Restrict(pool, Guarded), map[]);
    var guarded := Take(order, cap);
    var seated := CountSeats(guarded);
    var rest := OrderForVariety(Restrict(pool, Unguarded), seated);
    kept := guarded + Take(rest, cap - |guarded|);
  }

  method ChooseKeep(clips: seq<Clip>) returns (kept: seq<Clip>)
    ensures kept == SelectKeep(clips)
  {
    var sessions := S.ClipSessions(clips);
    var entries := seq(|clips|, i requires 0 <= i < |clips| => Entry(i, clips[i], sessions[i]));
    assert entries == Entries(clips);
    var long := KeepClass(Restrict(entries, OfClass(false)), KEEP_CLIPS);
    var short := KeepClass(Restrict(entries, OfClass(true)), KEEP_SHORT_CLIPS);
    var keep := Indexes(long) + Indexes(short);
    kept := Clips(Restrict(Sorted(entries, QualityKey), InKeep(keep)));
  }
}
