/** What select_keep promises (backend/anchors.py:260-297): exact counts per
    length class, protected clips first, fairness across sessions, the best
    clips within one, and idempotence. */
module RotationRules {
  import opened Bank
  import opened Sorting
  import opened Rotation

  function Min(a: nat, b: nat): nat {
    if a < b then a else b
  }

  // ---------- one class ----------

  lemma TakeVariety(pool: seq<Entry>, seated: map<int, nat>, n: nat)
    requires Distinct(pool)
    ensures |Take(VarietyOrder(pool, seated), n)| == Min(|pool|, n)
    ensures Distinct(Take(VarietyOrder(pool, seated), n))
    ensures forall e <- Take(VarietyOrder(pool, seated), n) :: e in pool
    ensures n >= |pool| ==> forall e <- pool :: e in Take(VarietyOrder(pool, seated), n)
  {
    var order := VarietyOrder(pool, seated);
    VarietyPermutes(pool, seated);
    DistinctCounts(pool);
    DistinctCounts(order);
    forall e ensures e in order <==> e in pool {
      assert e in multiset(order) <==> e in multiset(pool);
    }
  }

  /** The two kinds of a class, each distinct and its own. */
  lemma KindsOf(pool: seq<Entry>)
    requires Distinct(pool)
    ensures Distinct(Restrict(pool, Guarded)) && Distinct(Restrict(pool, Unguarded))
    ensures |Restrict(pool, Guarded)| + |Restrict(pool, Unguarded)| == |pool|
    ensures forall e <- Restrict(pool, Guarded) :: e in pool && Protected(e.clip)
    ensures forall e <- Restrict(pool, Unguarded) :: e in pool && !Protected(e.clip)
  {
    RestrictDistinct(pool, Guarded);
    RestrictDistinct(pool, Unguarded);
    RestrictMembers(pool, Guarded);
    RestrictMembers(pool, Unguarded);
    RestrictSplits(pool, Guarded, Unguarded);
  }

  lemma ClassKeepMembers(pool: seq<Entry>, cap: nat)
    requires Distinct(pool)
    ensures |ClassKeep(pool, cap)| == Min(|pool|, cap)
    ensures Distinct(ClassKeep(pool, cap))
    ensures forall e <- ClassKeep(pool, cap) :: e in pool
    ensures forall e <- GuardedKeep(pool, cap) :: Protected(e.clip)
    ensures forall e <- RestKeep(pool, cap) :: !Protected(e.clip)
    ensures |GuardedKeep(pool, cap)| <= cap
  {
    var guarded, rest := Restrict(pool, Guarded), Restrict(pool, Unguarded);
    KindsOf(pool);
    TakeVariety(guarded, map[], cap);
    TakeVariety(rest, CountSeated(GuardedKeep(pool, cap)), cap - |GuardedKeep(pool, cap)|);
    DistinctConcat(GuardedKeep(pool, cap), RestKeep(pool, cap));
  }

  lemma {:induction false} CountSeatedIs(guarded: seq<Entry>, session: int)
    ensures Seat(CountSeated(guarded), session) == |Restrict(guarded, InSession(session))|
  {
    if guarded != [] {
      CountSeatedIs(guarded[..|guarded| - 1], session);
    }
  }

  lemma DroppedBehindTheCut(pool: seq<Entry>, seated: map<int, nat>, n: nat, e: Entry)
    requires e in pool && e !in Take(VarietyOrder(pool, seated), n)
    ensures n < |VarietyOrder(pool, seated)|
    ensures e in VarietyOrder(pool, seated)[n..]
  {
    var order := VarietyOrder(pool, seated);
    VarietyPermutes(pool, seated);
    assert e in multiset(order);
    if n < |order| {
      assert order == order[..n] + order[n..];
    }
  }

  /** A protected clip is dropped only when more than cap protected clips share
      its class. */
  lemma {:induction false} ProtectedFirst(pool: seq<Entry>, cap: nat, e: Entry)
    requires Distinct(pool) && e in pool && Protected(e.clip) && e !in ClassKeep(pool, cap)
    ensures |Restrict(pool, Guarded)| > cap
    ensures forall kept <- ClassKeep(pool, cap) :: Protected(kept.clip)
  {
    ClassKeepMembers(pool, cap);
    RestrictMembers(pool, Guarded);
    DroppedBehindTheCut(Restrict(pool, Guarded), map[], cap, e);
    VarietyPermutes(Restrict(pool, Guarded), map[]);
  }

  /** If session t lost an unprotected clip and session s kept one, s holds at
      most one clip more than t. */
  lemma ClassFair(pool: seq<Entry>, cap: nat, kept: Entry, lost: Entry)
    requires Distinct(pool)
    requires kept in ClassKeep(pool, cap) && !Protected(kept.clip)
    requires lost in pool && lost !in ClassKeep(pool, cap) && !Protected(lost.clip)
    ensures |Restrict(ClassKeep(pool, cap), InSession(kept.session))|
            <= |Restrict(ClassKeep(pool, cap), InSession(lost.session))| + 1
  {
    ClassKeepMembers(pool, cap);
    RestrictMembers(pool, Unguarded);
    var guarded, rest := GuardedKeep(pool, cap), Restrict(pool, Unguarded);
    var seated, n := CountSeated(guarded), cap - |guarded|;
    DroppedBehindTheCut(rest, seated, n, lost);
    RestrictMembers(VarietyOrder(rest, seated)[..n], InSession(kept.session));
    RestrictMembers(VarietyOrder(rest, seated)[n..], InSession(lost.session));
    VarietyIsFair(rest, seated, n, kept.session, lost.session);
    CountSeatedIs(guarded, kept.session);
    CountSeatedIs(guarded, lost.session);
    RestrictConcat(guarded, RestKeep(pool, cap), InSession(kept.session));
    RestrictConcat(guarded, RestKeep(pool, cap), InSession(lost.session));
  }

  /** Past the cap protected clips compete among themselves by the same rule. */
  lemma GuardedFair(pool: seq<Entry>, cap: nat, kept: Entry, lost: Entry)
    requires Distinct(pool)
    requires kept in ClassKeep(pool, cap) && Protected(kept.clip)
    requires lost in pool && lost !in ClassKeep(pool, cap) && Protected(lost.clip)
    ensures |Restrict(ClassKeep(pool, cap), InSession(kept.session))|
            <= |Restrict(ClassKeep(pool, cap), InSession(lost.session))| + 1
  {
    ClassKeepMembers(pool, cap);
    RestrictMembers(pool, Guarded);
    var order := VarietyOrder(Restrict(pool, Guarded), map[]);
    DroppedBehindTheCut(Restrict(pool, Guarded), map[], cap, lost);
    RestrictMembers(order[..cap], InSession(kept.session));
    RestrictMembers(order[cap..], InSession(lost.session));
    VarietyIsFair(Restrict(pool, Guarded), map[], cap, kept.session, lost.session);
    assert RestKeep(pool, cap) == [];
    assert ClassKeep(pool, cap) == order[..cap];
  }

  /** Within a session, no kept clip is worse than a dropped one of its kind. */
  lemma ClassKeepsTheBest(pool: seq<Entry>, cap: nat, kept: Entry, lost: Entry)
    requires Distinct(pool)
    requires kept in ClassKeep(pool, cap) && lost in pool && lost !in ClassKeep(pool, cap)
    requires kept.session == lost.session && Protected(kept.clip) == Protected(lost.clip)
    ensures !Better(lost.clip, kept.clip)
  {
    ClassKeepMembers(pool, cap);
    RestrictMembers(pool, Guarded);
    RestrictMembers(pool, Unguarded);
    if Protected(kept.clip) {
      DroppedBehindTheCut(Restrict(pool, Guarded), map[], cap, lost);
      VarietyKeepsTheBest(Restrict(pool, Guarded), map[], cap, kept, lost);
    } else {
      var guarded := GuardedKeep(pool, cap);
      var seated, n := CountSeated(guarded), cap - |guarded|;
      DroppedBehindTheCut(Restrict(pool, Unguarded), seated, n, lost);
      VarietyKeepsTheBest(Restrict(pool, Unguarded), seated, n, kept, lost);
    }
  }

  // ---------- the whole bank ----------

  lemma EntriesDistinct(clips: seq<Clip>)
    ensures Distinct(Entries(clips))
    ensures forall e <- Entries(clips), f <- Entries(clips) | e.index == f.index :: e == f
  {
  }

  lemma PoolMembers(clips: seq<Clip>, short: bool)
    ensures Distinct(Pool(clips, short))
    ensures forall e :: e in Pool(clips, short) <==> e in Entries(clips) && IsShort(e.clip) == short
  {
    EntriesDistinct(clips);
    RestrictDistinct(Entries(clips), OfClass(short));
    RestrictMembers(Entries(clips), OfClass(short));
  }

  /** A clip is kept by the bank exactly when its own class keeps it. */
  lemma KeptIffClassKeeps(clips: seq<Clip>, e: Entry)
    requires e in Entries(clips)
    ensures e in KeptEntries(clips) <==> e in ClassKeep(Pool(clips, IsShort(e.clip)), Cap(IsShort(e.clip)))
  {
    EntriesDistinct(clips);
    SortedDistinct(Entries(clips), QualityKey);
    RestrictMembers(Sorted(Entries(clips), QualityKey), InKeep(KeepSet(clips)));
    forall short: bool ensures e.index in Indexes(ClassKeep(Pool(clips, short), Cap(short)))
                               <==> e in ClassKeep(Pool(clips, short), Cap(short))
    {
      PoolMembers(clips, short);
      ClassKeepMembers(Pool(clips, short), Cap(short));
    }
    PoolMembers(clips, !IsShort(e.clip));
    ClassKeepMembers(Pool(clips, !IsShort(e.clip)), Cap(!IsShort(e.clip)));
  }

  lemma KeptMembers(clips: seq<Clip>)
    ensures Distinct(KeptEntries(clips))
    ensures forall e <- KeptEntries(clips) :: e in Entries(clips)
  {
    EntriesDistinct(clips);
    SortedDistinct(Entries(clips), QualityKey);
    RestrictDistinct(Sorted(Entries(clips), QualityKey), InKeep(KeepSet(clips)));
    RestrictMembers(Sorted(Entries(clips), QualityKey), InKeep(KeepSet(clips)));
  }

  /** What the bank keeps of a class, filtered further, is as many clips as the
      class keeps of it. */
  lemma KeptOfClass(clips: seq<Clip>, short: bool, held: Entry -> bool, inClass: Entry -> bool)
    requires forall e <- Entries(clips) :: held(e) <==> IsShort(e.clip) == short && inClass(e)
    ensures |Restrict(KeptEntries(clips), held)|
            == |Restrict(ClassKeep(Pool(clips, short), Cap(short)), inClass)|
  {
    var kept, ofClass := KeptEntries(clips), ClassKeep(Pool(clips, short), Cap(short));
    KeptMembers(clips);
    PoolMembers(clips, short);
    ClassKeepMembers(Pool(clips, short), Cap(short));
    RestrictDistinct(kept, held);
    RestrictDistinct(ofClass, inClass);
    RestrictMembers(kept, held);
    RestrictMembers(ofClass, inClass);
    forall e ensures e in Restrict(kept, held) <==> e in Restrict(ofClass, inClass) {
      if e in Entries(clips) {
        KeptIffClassKeeps(clips, e);
      }
    }
    SameElementsSameLength(Restrict(kept, held), Restrict(ofClass, inClass));
  }

  /** Each length class keeps exactly min(its size, its cap) clips. */
  lemma RotationIsExact(clips: seq<Clip>, short: bool)
    ensures |Restrict(KeptEntries(clips), OfClass(short))| == Min(|Pool(clips, short)|, Cap(short))
  {
    var ofClass := ClassKeep(Pool(clips, short), Cap(short));
    KeptOfClass(clips, short, OfClass(short), (e: Entry) => true);
    RestrictAll(ofClass, (e: Entry) => true);
    PoolMembers(clips, short);
    ClassKeepMembers(Pool(clips, short), Cap(short));
  }

  /** A protected clip is dropped only when more than cap protected clips share
      its class, and then the class keeps nothing but protected clips. */
  lemma RotationProtects(clips: seq<Clip>, lost: Entry)
    requires lost in Entries(clips) && lost !in KeptEntries(clips) && Protected(lost.clip)
    ensures |Restrict(Pool(clips, IsShort(lost.clip)), Guarded)| > Cap(IsShort(lost.clip))
    ensures forall kept <- KeptEntries(clips) | IsShort(kept.clip) == IsShort(lost.clip) :: Protected(kept.clip)
  {
    var short := IsShort(lost.clip);
    PoolMembers(clips, short);
    KeptIffClassKeeps(clips, lost);
    ProtectedFirst(Pool(clips, short), Cap(short), lost);
    KeptMembers(clips);
    forall kept <- KeptEntries(clips) | IsShort(kept.clip) == short ensures Protected(kept.clip) {
      KeptIffClassKeeps(clips, kept);
    }
  }

  /** One session's clips of one class. */
  function OfSession(short: bool, session: int): Entry -> bool {
    (e: Entry) => IsShort(e.clip) == short && e.session == session
  }

  /** Fair across sessions: where session t lost a clip and session s kept one
      of the same class and kind, s holds at most one clip more than t. */
  lemma RotationIsFair(clips: seq<Clip>, kept: Entry, lost: Entry)
    requires kept in KeptEntries(clips) && lost in Entries(clips) && lost !in KeptEntries(clips)
    requires IsShort(kept.clip) == IsShort(lost.clip) && Protected(kept.clip) == Protected(lost.clip)
    ensures |Restrict(KeptEntries(clips), OfSession(IsShort(lost.clip), kept.session))|
            <= |Restrict(KeptEntries(clips), OfSession(IsShort(lost.clip), lost.session))| + 1
  {
    var short := IsShort(lost.clip);
    KeptMembers(clips);
    PoolMembers(clips, short);
    KeptIffClassKeeps(clips, kept);
    KeptIffClassKeeps(clips, lost);
    KeptOfClass(clips, short, OfSession(short, kept.session), InSession(kept.session));
    KeptOfClass(clips, short, OfSession(short, lost.session), InSession(lost.session));
    if Protected(lost.clip) {
      GuardedFair(Pool(clips, short), Cap(short), kept, lost);
    } else {
      ClassFair(Pool(clips, short), Cap(short), kept, lost);
    }
  }

  /** Within a session no kept clip is worse than a dropped one of its class and
      kind. */
  lemma RotationKeepsTheBest(clips: seq<Clip>, kept: Entry, lost: Entry)
    requires kept in KeptEntries(clips) && lost in Entries(clips) && lost !in KeptEntries(clips)
    requires IsShort(kept.clip) == IsShort(lost.clip) && Protected(kept.clip) == Protected(lost.clip)
    requires kept.session == lost.session
    ensures !Better(lost.clip, kept.clip)
  {
    var short := IsShort(lost.clip);
    KeptMembers(clips);
    PoolMembers(clips, short);
    KeptIffClassKeeps(clips, kept);
    KeptIffClassKeeps(clips, lost);
    ClassKeepsTheBest(Pool(clips, short), Cap(short), kept, lost);
  }

  /** Nothing leaves a bank within both caps; it only comes back in score
      order. */
  lemma WithinCapsKeepsAll(clips: seq<Clip>)
    requires forall short: bool :: |Pool(clips, short)| <= Cap(short)
    ensures KeptEntries(clips) == Sorted(Entries(clips), QualityKey)
  {
    EntriesDistinct(clips);
    SortedDistinct(Entries(clips), QualityKey);
    var sorted := Sorted(Entries(clips), QualityKey);
    forall e <- sorted ensures e.index in KeepSet(clips) {
      var short := IsShort(e.clip);
      PoolMembers(clips, short);
      ClassKeepMembers(Pool(clips, short), Cap(short));
      AllOfIt(ClassKeep(Pool(clips, short), Cap(short)), Pool(clips, short), e);
    }
    RestrictAll(sorted, InKeep(KeepSet(clips)));
  }

  /** A repeat-free part of a repeat-free whole, as long as the whole, has it all. */
  lemma AllOfIt<T(!new)>(part: seq<T>, whole: seq<T>, e: T)
    requires Distinct(part) && Distinct(whole) && |part| == |whole|
    requires forall x <- part :: x in whole
    requires e in whole
    ensures e in part
  {
    DistinctSize(part);
    DistinctSize(whole);
    var p, w := set x | x in part, set x | x in whole;
    if e !in part {
      assert p <= w - {e};
      SubsetSize(p, w - {e});
    }
  }

  lemma {:induction false} SubsetSize<T>(a: set<T>, b: set<T>)
    requires a <= b
    ensures |a| <= |b|
  {
    if a != {} {
      var x :| x in a;
      SubsetSize(a - {x}, b - {x});
    }
  }

  lemma ClipsInOrder(entries: seq<Entry>)
    requires InOrder(entries, QualityKey)
    ensures InOrder(Entries(Clips(entries)), QualityKey)
  {
    var again := Entries(Clips(entries));
    forall i, j | 0 <= i < j < |again| ensures NotAfter(QualityKey(again[i]), QualityKey(again[j])) {
      assert NotAfter(QualityKey(entries[i]), QualityKey(entries[j]));
    }
  }

  function ClipOfClass(short: bool): Clip -> bool {
    (c: Clip) => (c.millis <= 2000) == short
  }

  lemma {:induction false} ClassOfClips(entries: seq<Entry>, short: bool)
    ensures |Restrict(entries, OfClass(short))| == |Restrict(Clips(entries), ClipOfClass(short))|
  {
    if entries != [] {
      ClassOfClips(entries[..|entries| - 1], short);
      assert Clips(entries)[..|entries| - 1] == Clips(entries[..|entries| - 1]);
    }
  }

  /** A class's size, read off the clips themselves. */
  lemma PoolSize(clips: seq<Clip>, short: bool)
    ensures |Pool(clips, short)| == |Restrict(clips, ClipOfClass(short))|
  {
    ClassOfClips(Entries(clips), short);
    assert Clips(Entries(clips)) == clips;
  }

  // ---------- in terms of the clips ----------

  /** Each length class of a bank keeps min(its size, its cap) clips. */
  lemma KeptOfEachClass(clips: seq<Clip>, short: bool)
    ensures |Restrict(SelectKeep(clips), ClipOfClass(short))|
            == Min(|Restrict(clips, ClipOfClass(short))|, if short then 5 else 10)
  {
    RotationIsExact(clips, short);
    ClassOfClips(KeptEntries(clips), short);
    PoolSize(clips, short);
  }

  lemma EntryOf(clips: seq<Clip>, c: Clip) returns (e: Entry)
    requires c in clips
    ensures e in Entries(clips) && e.clip == c
    ensures e in KeptEntries(clips) ==> c in SelectKeep(clips)
  {
    var i :| 0 <= i < |clips| && clips[i] == c;
    e := Entries(clips)[i];
    if e in KeptEntries(clips) {
      var k :| 0 <= k < |KeptEntries(clips)| && KeptEntries(clips)[k] == e;
      assert SelectKeep(clips)[k] == c;
    }
  }

  lemma KeptFrom(clips: seq<Clip>)
    ensures forall c <- SelectKeep(clips) :: c in clips
  {
    KeptMembers(clips);
    forall k | 0 <= k < |KeptEntries(clips)| ensures KeptEntries(clips)[k].clip in clips {
      assert KeptEntries(clips)[k] in Entries(clips);
    }
  }

  /** A class that fits its cap loses nothing, whatever the other class does. */
  lemma ClassWithinItsCapStays(clips: seq<Clip>, c: Clip)
    requires c in clips && |Restrict(clips, ClipOfClass(IsShort(c)))| <= Cap(IsShort(c))
    ensures c in SelectKeep(clips)
  {
    var short := IsShort(c);
    var e := EntryOf(clips, c);
    PoolSize(clips, short);
    PoolMembers(clips, short);
    ClassKeepMembers(Pool(clips, short), Cap(short));
    AllOfIt(ClassKeep(Pool(clips, short), Cap(short)), Pool(clips, short), e);
    KeptIffClassKeeps(clips, e);
  }

  /** The answer is in score order. */
  lemma KeptInScoreOrder(clips: seq<Clip>, i: nat, j: nat)
    requires i < j < |SelectKeep(clips)|
    ensures !Better(SelectKeep(clips)[j], SelectKeep(clips)[i])
  {
    SortedInOrder(Entries(clips), QualityKey);
    RestrictInOrder(Sorted(Entries(clips), QualityKey), QualityKey, InKeep(KeepSet(clips)));
    assert NotAfter(QualityKey(KeptEntries(clips)[i]), QualityKey(KeptEntries(clips)[j]));
  }

  /** Rotation settles in one step: keeping again keeps the same clips, in the
      same order, even though dropping clips can split a session in two. */
  lemma RotationIsIdempotent(clips: seq<Clip>)
    ensures SelectKeep(SelectKeep(clips)) == SelectKeep(clips)
  {
    var kept := SelectKeep(clips);
    forall short: bool ensures |Pool(kept, short)| <= Cap(short) {
      RotationIsExact(clips, short);
      ClassOfClips(KeptEntries(clips), short);
      PoolSize(kept, short);
    }
    WithinCapsKeepsAll(kept);
    SortedInOrder(Entries(clips), QualityKey);
    RestrictInOrder(Sorted(Entries(clips), QualityKey), QualityKey, InKeep(KeepSet(clips)));
    ClipsInOrder(KeptEntries(clips));
    SortedUnchanged(Entries(kept), QualityKey);
    assert Clips(Entries(kept)) == kept;
  }
}
