/** What a bank gains and loses when it takes a clip (backend/anchors.py:
    settle_offer, add_clip's rotation). */
module SettleRule {
  import opened Wrappers
  import opened Bank
  import opened Ledger
  import opened Sorting
  import opened Store
  import opened Bijection
  import R = Rotation
  import Rules = RotationRules

  function ActiveOf(clips: seq<Clip>, short: bool): seq<Clip> {
    Restrict(ActiveClips(clips), Rules.ClipOfClass(short))
  }

  ghost predicate WithinCaps(clips: seq<Clip>) {
    forall short: bool :: |ActiveOf(clips, short)| <= Cap(short)
  }

  lemma OneFileDistinct(clips: seq<Clip>)
    requires OneFileEach(clips)
    ensures Distinct(clips)
  {
  }

  lemma ActiveOfMembers(clips: seq<Clip>, short: bool)
    requires OneFileEach(clips)
    ensures Distinct(ActiveOf(clips, short))
    ensures forall c :: c in ActiveOf(clips, short) <==> c in clips && Active(c) && IsShort(c) == short
  {
    OneFileDistinct(clips);
    RestrictMembers(clips, Active);
    RestrictDistinct(clips, Active);
    RestrictMembers(ActiveClips(clips), Rules.ClipOfClass(short));
    RestrictDistinct(ActiveClips(clips), Rules.ClipOfClass(short));
  }

  lemma OfferedMembers(clips: seq<Clip>, entry: Clip, victim: Option<Clip>)
    requires OneFileEach(clips) && entry.file !in Files(clips)
    requires victim.Some? ==> victim.value in clips
    ensures OneFileEach(Offered(clips, entry, victim))
    ensures forall c :: c in Offered(clips, entry, victim) <==> c == entry || (c in clips && Some(c) != victim)
  {
    OfferedOneFile(clips, entry, victim);
    if victim.Some? {
      RestrictMembers(clips, NotFile(victim.value.file));
      forall c | c in clips && c.file == victim.value.file ensures c == victim.value {
        OneFileSame(clips, c, victim.value);
      }
    }
  }

  lemma SwapSize(before: seq<Clip>, after: seq<Clip>, entry: Clip, victim: Option<Clip>)
    requires Distinct(before) && Distinct(after) && entry !in before
    requires victim.Some? ==> victim.value in before
    requires forall c :: c in after <==> c == entry || (c in before && Some(c) != victim)
    ensures |after| == |before| + if victim.None? then 1 else 0
  {
    DistinctSize(before);
    DistinctSize(after);
    SwapSets((set c | c in before), (set c | c in after), entry, victim);
  }

  lemma SwapSets(before: set<Clip>, after: set<Clip>, entry: Clip, victim: Option<Clip>)
    requires entry !in before && (victim.Some? ==> victim.value in before)
    requires forall c :: c in after <==> c == entry || (c in before && Some(c) != victim)
    ensures |after| == |before| + if victim.None? then 1 else 0
  {
    if victim.None? {
      assert after == before + {entry};
    } else {
      assert after == (before - {victim.value}) + {entry};
    }
  }

  /** One class of the bank, once the victim is out and the new clip in. */
  lemma OfferedClassSize(clips: seq<Clip>, entry: Clip, victim: Option<Clip>, short: bool)
    requires OneFileEach(clips) && entry.file !in Files(clips) && Active(entry)
    requires victim.Some? ==> victim.value in clips && Active(victim.value) && IsShort(victim.value) == IsShort(entry)
    ensures |ActiveOf(Offered(clips, entry, victim), short)|
            == |ActiveOf(clips, short)| + if IsShort(entry) == short && victim.None? then 1 else 0
  {
    var before, after := ActiveOf(clips, short), ActiveOf(Offered(clips, entry, victim), short);
    OfferedMembers(clips, entry, victim);
    ActiveOfMembers(clips, short);
    ActiveOfMembers(Offered(clips, entry, victim), short);
    assert entry in clips ==> entry.file in Files(clips);
    if IsShort(entry) == short {
      SwapSize(before, after, entry, victim);
    } else {
      SameElementsSameLength(before, after);
    }
  }

  lemma SameClips(sorted: seq<R.Entry>, entries: seq<R.Entry>, c: Clip)
    requires forall e :: e in sorted <==> e in entries
    ensures c in R.Clips(sorted) <==> c in R.Clips(entries)
  {
    if c in R.Clips(sorted) {
      var k :| 0 <= k < |sorted| && R.Clips(sorted)[k] == c;
      var i := IndexOf(entries, sorted[k]);
      assert R.Clips(entries)[i] == c;
    }
    if c in R.Clips(entries) {
      var k :| 0 <= k < |entries| && R.Clips(entries)[k] == c;
      var i := IndexOf(sorted, entries[k]);
      assert R.Clips(sorted)[i] == c;
    }
  }

  lemma IndexOf(entries: seq<R.Entry>, e: R.Entry) returns (i: nat)
    requires e in entries
    ensures i < |entries| && entries[i] == e
  {
    i :| 0 <= i < |entries| && entries[i] == e;
  }

  lemma WithinCapsKept(clips: seq<Clip>)
    requires WithinCaps(clips)
    ensures forall c :: c in R.SelectKeep(ActiveClips(clips)) <==> c in ActiveClips(clips)
  {
    var live := ActiveClips(clips);
    forall short: bool ensures |R.Pool(live, short)| <= Cap(short) {
      Rules.PoolSize(live, short);
      assert |ActiveOf(clips, short)| <= Cap(short);
    }
    KeptAll(live);
  }

  lemma SortedClips(live: seq<Clip>, sorted: seq<R.Entry>)
    requires sorted == Sorted(R.Entries(live), R.QualityKey)
    ensures forall c :: c in R.Clips(sorted) <==> c in live
  {
    Rules.EntriesDistinct(live);
    SortedDistinct(R.Entries(live), R.QualityKey);
    assert R.Clips(R.Entries(live)) == live;
    forall c ensures c in R.Clips(sorted) <==> c in live {
      SameClips(sorted, R.Entries(live), c);
    }
  }

  lemma KeptAll(live: seq<Clip>)
    requires forall short: bool :: |R.Pool(live, short)| <= Cap(short)
    ensures forall c :: c in R.SelectKeep(live) <==> c in live
  {
    Rules.WithinCapsKeepsAll(live);
    SortedClips(live, Sorted(R.Entries(live), R.QualityKey));
  }

  lemma TakenClipKept(clips: seq<Clip>, entry: Clip, now: nat, lastAt: Option<nat>, victim: Option<Clip>)
    requires OneFileEach(clips) && entry.file !in Files(clips) && Active(entry) && WithinCaps(clips)
    requires SettleOffer(clips, entry, now, lastAt) == Take(victim)
    ensures forall c :: c in KeptOfBank(Offered(clips, entry, victim))
                        <==> c == entry || (c in clips && Some(c) != victim)
    ensures victim.Some? ==>
              && victim.value in clips && Active(victim.value) && Automatic(victim.value)
              && IsShort(victim.value) == IsShort(entry)
              && forall c <- ActiveOf(clips, IsShort(entry)) | Automatic(c) :: !Better(victim.value, c)
    ensures WithinCaps(Offered(clips, entry, victim))
  {
    OfferChoosesWell(clips, entry, now, lastAt, victim);
    OfferedMembers(clips, entry, victim);
    var offered := Offered(clips, entry, victim);
    forall short: bool ensures |ActiveOf(offered, short)| <= Cap(short) {
      OfferedClassSize(clips, entry, victim, short);
      assert |ActiveOf(clips, short)| <= Cap(short);
    }
    WithinCapsKept(offered);
    RestrictMembers(offered, Active);
    RestrictMembers(offered, IsSetAside);
  }

  lemma OfferChoosesWell(clips: seq<Clip>, entry: Clip, now: nat, lastAt: Option<nat>, victim: Option<Clip>)
    requires SettleOffer(clips, entry, now, lastAt) == Take(victim)
    ensures victim.None? ==> |ActiveOf(clips, IsShort(entry))| < Cap(IsShort(entry))
    ensures victim.Some? ==>
              && victim.value in clips && Active(victim.value) && Automatic(victim.value)
              && IsShort(victim.value) == IsShort(entry)
              && forall c <- ActiveOf(clips, IsShort(entry)) | Automatic(c) :: !Better(victim.value, c)
  {
    var live := ActiveClips(clips);
    RestrictAlike(live, SameClass(entry), Rules.ClipOfClass(IsShort(entry)));
    RestrictMembers(clips, Active);
    RestrictMembers(live, SameClass(entry));
    RestrictMembers(Restrict(live, SameClass(entry)), Automatic);
  }

  lemma {:induction false} RestrictAlike<T>(s: seq<T>, p: T -> bool, q: T -> bool)
    requires forall e <- s :: p(e) <==> q(e)
    ensures Restrict(s, p) == Restrict(s, q)
  {
    if s != [] {
      RestrictAlike(s[..|s| - 1], p, q);
    }
  }

  function ProtectedOfClass(short: bool): Clip -> bool {
    (c: Clip) => IsShort(c) == short && Protected(c)
  }

  function GuardedOfClass(short: bool): R.Entry -> bool {
    (e: R.Entry) => IsShort(e.clip) == short && Protected(e.clip)
  }

  lemma {:induction false} GuardedSize(entries: seq<R.Entry>, short: bool)
    ensures |Restrict(entries, GuardedOfClass(short))| == |Restrict(R.Clips(entries), ProtectedOfClass(short))|
  {
    if entries != [] {
      GuardedSize(entries[..|entries| - 1], short);
      assert R.Clips(entries)[..|entries| - 1] == R.Clips(entries[..|entries| - 1]);
    }
  }

  lemma GuardedPoolSize(clips: seq<Clip>, short: bool)
    ensures |Restrict(R.Pool(clips, short), R.Guarded)| == |Restrict(clips, ProtectedOfClass(short))|
  {
    RestrictTwice(R.Entries(clips), R.OfClass(short), R.Guarded, GuardedOfClass(short));
    GuardedSize(R.Entries(clips), short);
    assert R.Clips(R.Entries(clips)) == clips;
  }

  lemma ProtectedClipKept(clips: seq<Clip>, entry: Clip, victim: Option<Clip>, c: Clip)
    requires OneFileEach(clips) && entry.file !in Files(clips) && Active(entry) && Automatic(entry)
    requires victim.Some? ==> victim.value in clips && Automatic(victim.value)
    requires c in clips && Active(c) && Protected(c)
    requires |Restrict(ActiveClips(clips), ProtectedOfClass(IsShort(c)))| <= Cap(IsShort(c))
    ensures c in KeptOfBank(Offered(clips, entry, victim))
  {
    var offered := Offered(clips, entry, victim);
    var live, kind := ActiveClips(offered), ProtectedOfClass(IsShort(c));
    OfferedMembers(clips, entry, victim);
    RestrictMembers(offered, Active);
    ProtectedNoMore(clips, entry, victim, kind, IsShort(c));
    GuardedPoolSize(live, IsShort(c));
    var i :| 0 <= i < |live| && live[i] == c;
    var e := R.Entries(live)[i];
    assert e in R.Entries(live);
    if e !in R.KeptEntries(live) {
      Rules.RotationProtects(live, e);
    }
    var k :| 0 <= k < |R.KeptEntries(live)| && R.KeptEntries(live)[k] == e;
    assert R.SelectKeep(live)[k] == c;
  }

  lemma ProtectedNoMore(clips: seq<Clip>, entry: Clip, victim: Option<Clip>, kind: Clip -> bool, short: bool)
    requires OneFileEach(clips) && entry.file !in Files(clips) && Automatic(entry)
    requires victim.Some? ==> victim.value in clips
    requires kind == ProtectedOfClass(short)
    ensures |Restrict(ActiveClips(Offered(clips, entry, victim)), kind)| <= |Restrict(ActiveClips(clips), kind)|
  {
    var after, before := ActiveClips(Offered(clips, entry, victim)), ActiveClips(clips);
    OfferedMembers(clips, entry, victim);
    OneFileDistinct(clips);
    OneFileDistinct(Offered(clips, entry, victim));
    RestrictMembers(clips, Active);
    RestrictMembers(Offered(clips, entry, victim), Active);
    RestrictDistinct(clips, Active);
    RestrictDistinct(Offered(clips, entry, victim), Active);
    RestrictMembers(before, kind);
    RestrictMembers(after, kind);
    RestrictDistinct(before, kind);
    RestrictDistinct(after, kind);
    DistinctSize(Restrict(before, kind));
    DistinctSize(Restrict(after, kind));
    Rules.SubsetSize(set d | d in Restrict(after, kind), set d | d in Restrict(before, kind));
  }

  // ---------- what add_clip does to the bank ----------

  predicate HeldAlready(s: State, p: PersonId, u: Utterance)
    requires p in s.people
  {
    u.dedupe && HeldCopy(s.disk, s.people[p].clips, u.sha).Some?
  }

  /** The automatic clip a full bank gives up for a new one: a weakest of its class. */
  ghost predicate WeakestAutomatic(victim: Clip, clips: seq<Clip>, short: bool) {
    && victim in clips && Active(victim) && Automatic(victim) && IsShort(victim) == short
    && forall c <- ActiveOf(clips, short) | Automatic(c) :: !Better(victim, c)
  }

  /** Rotation keeps a bank that is within its caps within them. */
  lemma KeptWithinCaps(clips: seq<Clip>)
    requires OneFileEach(clips) && OneFileEach(KeptOfBank(clips)) && WithinCaps(clips)
    requires forall c :: c in KeptOfBank(clips) <==> c in clips
    ensures WithinCaps(KeptOfBank(clips))
  {
    forall short: bool ensures |ActiveOf(KeptOfBank(clips), short)| <= Cap(short) {
      ActiveOfMembers(clips, short);
      ActiveOfMembers(KeptOfBank(clips), short);
      SameElementsSameLength(ActiveOf(KeptOfBank(clips), short), ActiveOf(clips, short));
      assert |ActiveOf(clips, short)| <= Cap(short);
    }
  }

  lemma NewFile(s: State, p: PersonId)
    requires InBijection(s) && p in s.people
    ensures s.nextFile !in Files(s.people[p].clips) && OneFileEach(s.people[p].clips)
  {
    FilesOf(s.people, p);
  }

  // ---------- when an established bank takes a clip ----------

  /** Is the last automatic clip taken long enough ago? */
  predicate WindowPassed(lastAt: Option<nat>, now: nat) {
    lastAt.None? || lastAt.value == 0 || now - lastAt.value >= SETTLE_WINDOW_S
  }

  /** Does no active clip of the bank come from the candidate's capture day? */
  ghost predicate NewDay(clips: seq<Clip>, entry: Clip) {
    forall c <- clips | Active(c) :: CaptureDay(c.addedAt) != CaptureDay(entry.addedAt)
  }

  /** Does the bank hold an active automatic clip of this class? */
  ghost predicate HasAutomatic(clips: seq<Clip>, short: bool) {
    exists c <- clips :: Active(c) && Automatic(c) && IsShort(c) == short
  }

  /** One that scores below the candidate? */
  ghost predicate HasAutomaticBelow(clips: seq<Clip>, short: bool, score: int) {
    exists c <- clips :: Active(c) && Automatic(c) && IsShort(c) == short && c.score < score
  }

  lemma OfferTakesExactly(clips: seq<Clip>, entry: Clip, now: nat, lastAt: Option<nat>)
    ensures SettleOffer(clips, entry, now, lastAt).Take?
            <==> WindowPassed(lastAt, now)
                 && (|ActiveOf(clips, IsShort(entry))| < Cap(IsShort(entry))
                     || (HasAutomatic(clips, IsShort(entry))
                         && (NewDay(clips, entry) || HasAutomaticBelow(clips, IsShort(entry), entry.score))))
  {
    var live := ActiveClips(clips);
    var same := Restrict(live, SameClass(entry));
    RestrictAlike(live, SameClass(entry), Rules.ClipOfClass(IsShort(entry)));
    RestrictMembers(clips, Active);
    RestrictMembers(live, SameClass(entry));
    RestrictMembers(same, Automatic);
    var automatic := Restrict(same, Automatic);
    assert forall c :: c in automatic <==> c in clips && Active(c) && Automatic(c) && IsShort(c) == IsShort(entry);
    assert CaptureDay(entry.addedAt) !in CaptureDays(live) <==> NewDay(clips, entry);
    if automatic != [] {
      assert automatic[0] in automatic;
      assert Weakest(automatic) in automatic;
      assert HasAutomaticBelow(clips, IsShort(entry), entry.score) <==> Weakest(automatic).score < entry.score;
    }
  }

  /** An automatic clip offered to an established bank is taken if and only if the
      settle window has passed, and its class has room, or holds an automatic clip
      and the day is new or one of them scores below it. */
  lemma AutomaticClipTakenExactly(s: State, p: PersonId, u: Utterance, now: nat, verdict: Option<bool>)
    requires p in s.people && u.passes && !HeldAlready(s, p, u)
    requires u.source != Introduction && u.source != Correction && u.stamp.None? && BankEstablished(s.people[p].clips, verdict)
    ensures
      var clips, entry := s.people[p].clips, NewClip(u, s.nextFile, now);
      AddClip(s, p, u, now, verdict).1
      <==> WindowPassed(s.people[p].settledAt, now)
           && (|ActiveOf(clips, IsShort(entry))| < Cap(IsShort(entry))
               || (HasAutomatic(clips, IsShort(entry))
                   && (NewDay(clips, entry) || HasAutomaticBelow(clips, IsShort(entry), entry.score))))
  {
    OfferTakesExactly(s.people[p].clips, NewClip(u, s.nextFile, now), now, s.people[p].settledAt);
  }

  // ---------- what is in a settled bank ----------

  lemma {:induction false} TotalAdds(a: seq<Clip>, b: seq<Clip>)
    ensures TotalMillis(a + b) == TotalMillis(a) + TotalMillis(b)
    ensures |b| == 1 ==> TotalMillis(b) == b[0].millis
  {
    if b == [] {
      assert a + b == a;
    } else {
      assert (a + b)[..|a + b| - 1] == a + b[..|b| - 1];
      TotalAdds(a, b[..|b| - 1]);
    }
  }

  lemma {:induction false} TwoDays(clips: seq<Clip>)
    ensures |CaptureDays(clips)| >= 2
            <==> exists c <- clips, d <- clips :: CaptureDay(c.addedAt) != CaptureDay(d.addedAt)
  {
    var days := CaptureDays(clips);
    if c, d :| c in clips && d in clips && CaptureDay(c.addedAt) != CaptureDay(d.addedAt) {
      var two := {CaptureDay(c.addedAt), CaptureDay(d.addedAt)};
      assert two <= days;
      Rules.SubsetSize(two, days);
    }
    if |days| >= 2 {
      var a :| a in days;
      assert |days - {a}| >= 1;
      var b :| b in days - {a};
      var c :| c in clips && CaptureDay(c.addedAt) == a;
      var d :| d in clips && CaptureDay(d.addedAt) == b;
    }
  }

  /** Without a verdict a bank has settled when its active clips are at least ten, six
      seconds in all, and not of one day; a verdict alone decides otherwise. */
  lemma EstablishedExactly(clips: seq<Clip>, verdict: Option<bool>)
    ensures BankEstablished(clips, verdict)
            <==> if verdict.Some? then verdict.value
                 else
                   && TotalMillis(ActiveClips(clips)) >= 6000 && |ActiveClips(clips)| >= 10
                   && exists c <- clips, d <- clips ::
                        Active(c) && Active(d) && CaptureDay(c.addedAt) != CaptureDay(d.addedAt)
  {
    TwoDays(ActiveClips(clips));
    RestrictMembers(clips, Active);
  }

  /** An automatic clip offered to an established bank that is within its caps: it
      is refused and nothing changes, or it is banked and survives rotation, the
      clip it replaces and no other leaves, a weakest automatic clip of its own
      class, or none while the class has room; and the bank is within its caps
      again. */
  lemma TakenClipReplacesItsVictim(s: State, p: PersonId, u: Utterance, now: nat, verdict: Option<bool>)
    returns (victim: Option<Clip>)
    requires InBijection(s) && p in s.people && WithinCaps(s.people[p].clips)
    requires u.passes && !HeldAlready(s, p, u)
    requires u.source != Introduction && u.source != Correction && u.stamp.None? && BankEstablished(s.people[p].clips, verdict)
    ensures
      var (s', taken) := AddClip(s, p, u, now, verdict);
      var clips, entry := s.people[p].clips, NewClip(u, s.nextFile, now);
      if !taken then s' == s
      else
        && (forall c :: c in s'.people[p].clips <==> c == entry || (c in clips && Some(c) != victim))
        && (victim.None? ==> |ActiveOf(clips, IsShort(entry))| < Cap(IsShort(entry)))
        && (victim.Some? ==> WeakestAutomatic(victim.value, clips, IsShort(entry)))
        && WithinCaps(s'.people[p].clips)
        && forall q <- s.people | q != p :: q in s'.people && s'.people[q] == s.people[q]
  {
    var person, entry := s.people[p], NewClip(u, s.nextFile, now);
    var offer := SettleOffer(person.clips, entry, now, person.settledAt);
    victim := if offer.Take? then offer.victim else None;
    if offer.Take? {
      SettledAdd(s, p, u, now, verdict, victim);
      NewFile(s, p);
      TakenBank(person.clips, entry, now, person.settledAt, victim);
    }
  }

  /** An accepted offer, as the bank and the others see it. */
  lemma SettledAdd(s: State, p: PersonId, u: Utterance, now: nat, verdict: Option<bool>, victim: Option<Clip>)
    requires p in s.people && u.passes && !HeldAlready(s, p, u)
    requires u.source != Introduction && u.source != Correction && u.stamp.None? && BankEstablished(s.people[p].clips, verdict)
    requires SettleOffer(s.people[p].clips, NewClip(u, s.nextFile, now), now, s.people[p].settledAt) == Take(victim)
    ensures
      var (s', taken) := AddClip(s, p, u, now, verdict);
      && taken && s'.people.Keys == s.people.Keys
      && s'.people[p].clips == KeptOfBank(Offered(s.people[p].clips, NewClip(u, s.nextFile, now), victim))
      && forall q <- s.people | q != p :: s'.people[q] == s.people[q]
  {}

  /** The bank after an accepted offer. */
  lemma TakenBank(clips: seq<Clip>, entry: Clip, now: nat, lastAt: Option<nat>, victim: Option<Clip>)
    requires OneFileEach(clips) && entry.file !in Files(clips) && Active(entry) && WithinCaps(clips)
    requires SettleOffer(clips, entry, now, lastAt) == Take(victim)
    ensures forall c :: c in KeptOfBank(Offered(clips, entry, victim))
                        <==> c == entry || (c in clips && Some(c) != victim)
    ensures victim.None? ==> |ActiveOf(clips, IsShort(entry))| < Cap(IsShort(entry))
    ensures victim.Some? ==> WeakestAutomatic(victim.value, clips, IsShort(entry))
    ensures WithinCaps(KeptOfBank(Offered(clips, entry, victim)))
  {
    OfferChoosesWell(clips, entry, now, lastAt, victim);
    TakenClipKept(clips, entry, now, lastAt, victim);
    OfferedMembers(clips, entry, victim);
    KeptOfOffer(clips, entry, victim);
    KeptWithinCaps(Offered(clips, entry, victim));
  }

  /** No clip that comes in unvouched for rotates out one a human stood behind,
      while the protected clips of its class fit the cap, whichever way the offer
      goes. */
  lemma AutomaticClipDisplacesNoProtected(s: State, p: PersonId, u: Utterance, now: nat, verdict: Option<bool>, c: Clip)
    requires InBijection(s) && p in s.people && !Vouching(u.source)
    requires c in s.people[p].clips && Active(c) && Protected(c)
    requires |Restrict(ActiveClips(s.people[p].clips), ProtectedOfClass(IsShort(c)))| <= Cap(IsShort(c))
    ensures p in AddClip(s, p, u, now, verdict).0.people && c in AddClip(s, p, u, now, verdict).0.people[p].clips
  {
    if u.passes && !HeldAlready(s, p, u) {
      var person, entry := s.people[p], NewClip(u, s.nextFile, now);
      NewFile(s, p);
      if !Settles(person, u, verdict) {
        ProtectedClipKept(person.clips, entry, None, c);
      } else {
        var offer := SettleOffer(person.clips, entry, now, person.settledAt);
        if offer.Take? {
          OfferChoosesWell(person.clips, entry, now, person.settledAt, offer.victim);
          ProtectedClipKept(person.clips, entry, offer.victim, c);
        }
      }
    }
  }
}
