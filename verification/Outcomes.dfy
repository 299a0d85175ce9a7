/** What each operation of the anchor store leaves in the banks and on disk
    (backend/anchors.py: AnchorStore), clip by clip. What it leaves in membro is in
    Leaving. */
module Outcomes {
  import opened Wrappers
  import opened Ledger
  import opened Bank
  import opened Sorting
  import opened Store
  import opened Bijection
  import opened Drops
  import opened SettleRule
  import R = Rotation
  import Rules = RotationRules

  // ---------- move, delete, retract ----------

  /** Nobody but these has changed, and these only their clips. */
  ghost predicate OnlyBanks(s: State, s': State, ps: set<PersonId>) {
    && s'.people.Keys == s.people.Keys && s'.nextFile == s.nextFile
    && (forall q <- s.people :: s'.people[q] == s.people[q].(clips := s'.people[q].clips))
    && forall q <- s.people | q !in ps :: s'.people[q].clips == s.people[q].clips
  }

  lemma {:induction false} FoundFirst(clips: seq<Clip>, file: FileName)
    ensures FindFile(clips, file).Some? <==> file in Files(clips)
  {
    if clips != [] && clips[0].file != file {
      FoundFirst(clips[1..], file);
      assert forall c :: c in clips <==> c == clips[0] || c in clips[1..];
    }
  }

  lemma MovedClip(s: State, p: PersonId, c: Clip, to: PersonId)
    requires InBijection(s) && p != to && p in s.people && to in s.people && c in s.people[p].clips
    ensures
      var (s', moved) := MoveClip(s, p, c.file, to);
      && moved && OnlyBanks(s, s', {p, to}) && s'.disk == s.disk
      && s'.people[to].clips == s.people[to].clips + [c.(quarantined := false, leftMembro := false, moved := true)]
      && s'.people[p].clips == Without(s.people[p].clips, c.file)
  {
    var found := HeldClip(s, p, c);
  }

  /** Nobody else's bank names the file, and no other clip of this one. */
  lemma OneOfTheFile(s: State, p: PersonId, c: Clip, to: PersonId)
    requires InBijection(s) && p != to && p in s.people && to in s.people && c in s.people[p].clips
    ensures forall d <- s.people[to].clips :: d.file != c.file
    ensures forall d :: d in Without(s.people[p].clips, c.file) <==> d in s.people[p].clips && d != c
  {
    RestrictMembers(s.people[p].clips, NotFile(c.file));
    forall d <- s.people[p].clips | d.file == c.file ensures d == c {
      OneFileSame(s.people[p].clips, c, d);
    }
    assert Files(s.people[p].clips) !! Files(s.people[to].clips);
    assert forall d <- s.people[to].clips :: d.file in Files(s.people[to].clips);
  }

  /** A clip refiled leaves its bank for the end of the other's, active and from now
      on protected; it is done exactly when both are people, and the clip is the
      first's. */
  lemma AMoveRefilesTheClip(s: State, p: PersonId, file: FileName, to: PersonId)
    requires InBijection(s)
    ensures
      var (s', moved) := MoveClip(s, p, file, to);
      && (moved <==> p != to && p in s.people && to in s.people && file in Files(s.people[p].clips))
      && (!moved ==> s' == s)
      && (moved ==>
            && OnlyBanks(s, s', {p, to}) && s'.disk == s.disk
            && exists c <- s.people[p].clips ::
                 && c.file == file
                 && s'.people[to].clips == s.people[to].clips + [c.(quarantined := false, leftMembro := false, moved := true)]
                 && forall d :: d in s'.people[p].clips <==> d in s.people[p].clips && d != c)
      && (moved ==> forall c <- s'.people[to].clips | c.file == file :: Active(c) && Protected(c) && !c.leftMembro)
  {
    if p != to && p in s.people && to in s.people {
      FoundFirst(s.people[p].clips, file);
      if FindFile(s.people[p].clips, file).Some? {
        var c := FindFile(s.people[p].clips, file).value;
        MovedClip(s, p, c, to);
        OneOfTheFile(s, p, c, to);
      }
    }
  }

  lemma ADeleteTakesTheClip(s: State, p: PersonId, file: FileName)
    requires InBijection(s)
    ensures
      var (s', deleted) := DeleteClip(s, p, file);
      && (deleted <==> p in s.people && file in Files(s.people[p].clips))
      && (!deleted ==> s' == s)
      && (deleted ==>
            && OnlyBanks(s, s', {p}) && s'.disk == s.disk - {file}
            && forall d :: d in s'.people[p].clips <==> d in s.people[p].clips && d.file != file)
  {
    if p in s.people {
      FoundFirst(s.people[p].clips, file);
      RestrictMembers(s.people[p].clips, NotFile(file));
    }
  }

  /** What one utterance banked goes: its automatic match captures, and nothing a
      human introduced or corrected. */
  lemma ARetractionTakesTheCaptures(s: State, p: PersonId, slices: set<FileName>)
    requires InBijection(s) && p in s.people
    ensures
      var (s', n) := Retract(s, p, slices);
      && OnlyBanks(s, s', {p})
      && n == |s.people[p].clips| - |s'.people[p].clips|
      && (forall d :: d in s'.people[p].clips
                      <==> d in s.people[p].clips
                           && !(d.file in slices && (d.source == Accumulated || d.source == HarvestedShort)))
      && forall f :: f in s'.disk <==> f in s.disk
                                       && !(exists d <- s.people[p].clips ::
                                              d.file == f && f in slices
                                              && (d.source == Accumulated || d.source == HarvestedShort))
  {
    var clips := s.people[p].clips;
    RestrictMembers(clips, IsContested(slices));
    RestrictMembers(clips, Uncontested(slices));
    RestrictSplits(clips, IsContested(slices), Uncontested(slices));
    var gone := Restrict(clips, IsContested(slices));
    if gone == [] {
      RestrictAll(clips, Uncontested(slices));
      forall d <- clips ensures !Contested(d, slices) {
        assert d !in gone;
      }
    }
  }

  // ---------- a rotated bank ----------

  // ---------- what they record, and a forget ----------

  /** A move is recorded last, under the next id and the hash membro knows the clip by. */
  lemma AMoveIsRecorded(s: State, p: PersonId, c: Clip, to: PersonId) returns (sha: Sha)
    requires InBijection(s) && p != to && p in s.people && to in s.people && c in s.people[p].clips
    ensures KnownAs(s.disk, c, sha)
    ensures MoveClip(s, p, c.file, to).0.book
            == Book(s.book.rows + [Move(s.book.next, p, None, to, sha)], s.book.next + 1)
  {
    var found := HeldClip(s, p, c);
    sha := Address(s.disk, c).value;
  }

  /** So is a delete. */
  lemma ADeleteIsRecorded(s: State, p: PersonId, c: Clip) returns (sha: Sha)
    requires InBijection(s) && p in s.people && c in s.people[p].clips
    ensures KnownAs(s.disk, c, sha)
    ensures DeleteClip(s, p, c.file).0.book
            == Book(s.book.rows + [Delete(s.book.next, p, None, sha, None)], s.book.next + 1)
  {
    var found := HeldClip(s, p, c);
    sha := Address(s.disk, c).value;
  }

  lemma HeldClip(s: State, p: PersonId, c: Clip) returns (found: Clip)
    requires InBijection(s) && p in s.people && c in s.people[p].clips
    ensures c.file in s.disk && FindFile(s.people[p].clips, c.file) == Some(found) && found == c
  {
    FoundFirst(s.people[p].clips, c.file);
    found := FindFile(s.people[p].clips, c.file).value;
    OneFileSame(s.people[p].clips, found, c);
    assert c.file in Held(s.people);
  }

  ghost predicate DeleteNoted(row: Row, cid: Cid, disk: Disk, p: PersonId, c: Clip) {
    row.Delete? && KnownAs(disk, c, row.sha) && row == Delete(cid, p, None, row.sha, None)
  }

  /** One delete row for each clip, in order, under the next ids, and no other. */
  ghost predicate DeletesFollow(book': Book, book: Book, disk: Disk, p: PersonId, clips: seq<Clip>) {
    && book.rows <= book'.rows && |book'.rows| == |book.rows| + |clips| && book'.next == book.next + |clips|
    && forall i: nat | i < |clips| :: DeleteNoted(book'.rows[|book.rows| + i], book.next + i, disk, p, clips[i])
  }

  lemma {:induction false} DeletesNoted(book: Book, disk: Disk, p: PersonId, clips: seq<Clip>)
    requires forall c <- clips :: c.file in disk
    ensures DeletesFollow(NoteDeletes(book, disk, p, clips), book, disk, p, clips)
  {
    if clips != [] {
      DeletesNoted(book, disk, p, clips[..|clips| - 1]);
    }
  }

  lemma BankOnDisk(s: State, p: PersonId)
    requires InBijection(s) && p in s.people
    ensures forall c <- s.people[p].clips :: c.file in s.disk
  {
    forall c <- s.people[p].clips ensures c.file in s.disk {
      assert c.file in Held(s.people);
    }
  }

  lemma RetractedBook(s: State, p: PersonId, slices: set<FileName>)
    requires p in s.people
    ensures Retract(s, p, slices).0.book
            == NoteDeletes(s.book, s.disk, p, Restrict(s.people[p].clips, IsContested(slices)))
  {}

  /** And every clip a retraction takes, one row each, in the bank's order. */
  lemma ARetractionIsRecorded(s: State, p: PersonId, slices: set<FileName>)
    requires InBijection(s) && p in s.people
    ensures DeletesFollow(Retract(s, p, slices).0.book, s.book, s.disk, p,
                          Restrict(s.people[p].clips, IsContested(slices)))
  {
    RetractedBook(s, p, slices);
    RestrictMembers(s.people[p].clips, IsContested(slices));
    BankOnDisk(s, p);
    DeletesNoted(s.book, s.disk, p, Restrict(s.people[p].clips, IsContested(slices)));
  }

  /** A forget takes the person and their files, settles the ledger, and is recorded last
      when it is asked to be and membro has the person to forget; nobody else changes. */
  lemma AForgetTakesThePerson(s: State, p: PersonId, record: bool)
    ensures
      var (s', forgotten) := ForgetPerson(s, p, record);
      && (forgotten <==> p in s.people)
      && (!forgotten ==> s' == s)
      && (forgotten ==>
            && s'.people.Keys == s.people.Keys - {p} && (forall q <- s'.people :: s'.people[q] == s.people[q])
            && s'.nextFile == s.nextFile
            && s'.disk.Keys == s.disk.Keys - Files(s.people[p].clips)
            && (forall f <- s'.disk :: s'.disk[f] == s.disk[f])
            && s'.book.rows == Settle(s.book.rows, p, s.people[p].slug, None).out
                               + if record && s.people[p].slug.Some?
                                 then [Forget(s.book.next, s.people[p].slug.value)] else [])
  {}

  lemma RotatedBank(live: seq<Clip>, aside: seq<Clip>)
    requires (forall c <- live :: Active(c)) && forall c <- aside :: IsSetAside(c)
    ensures ActiveClips(R.SelectKeep(live) + aside) == R.SelectKeep(live)
    ensures SetAside(R.SelectKeep(live) + aside) == aside
  {
    var kept := R.SelectKeep(live);
    Rules.KeptFrom(live);
    RestrictConcat(kept, aside, Active);
    RestrictConcat(kept, aside, IsSetAside);
    RestrictAll(kept, Active);
    RestrictNone(aside, Active);
    RestrictNone(kept, IsSetAside);
    RestrictAll(aside, IsSetAside);
    assert kept + [] == kept && [] + aside == aside;
  }

  lemma ProtectedClipLost(live: seq<Clip>, c: Clip)
    requires c in live && Protected(c) && c !in R.SelectKeep(live)
    ensures |Restrict(live, ProtectedOfClass(IsShort(c)))| > Cap(IsShort(c))
    ensures forall k <- R.SelectKeep(live) | IsShort(k) == IsShort(c) :: Protected(k)
  {
    var e := Rules.EntryOf(live, c);
    GuardedPoolSize(live, IsShort(c));
    Rules.RotationProtects(live, e);
    forall k <- R.SelectKeep(live) | IsShort(k) == IsShort(c) ensures Protected(k) {
      var i :| 0 <= i < |R.KeptEntries(live)| && R.SelectKeep(live)[i] == k;
      assert R.KeptEntries(live)[i] in R.KeptEntries(live);
    }
  }

  /** What rotation makes of the active clips `live` (see RotationRules): of each class as many as fit the
      cap; all of a class that fits; of the protected ones any goes only when they
      alone exceed it, and then nothing else of the class stays. */
  ghost predicate RotatedFrom(bank: seq<Clip>, live: seq<Clip>) {
    && ActiveClips(bank) == R.SelectKeep(live)
    && (forall c <- bank | Active(c) :: c in live)
    && (forall short: bool ::
          |ActiveOf(bank, short)| == Rules.Min(|Restrict(live, Rules.ClipOfClass(short))|, if short then 5 else 10))
    && (forall c <- live | |Restrict(live, Rules.ClipOfClass(IsShort(c)))| <= Cap(IsShort(c)) :: c in bank)
    && forall c <- live | Protected(c) && c !in bank ::
         && |Restrict(live, ProtectedOfClass(IsShort(c)))| > Cap(IsShort(c))
         && forall k <- bank | Active(k) && IsShort(k) == IsShort(c) :: Protected(k)
  }

  lemma RotationLeaves(live: seq<Clip>, aside: seq<Clip>)
    requires (forall c <- live :: Active(c)) && forall c <- aside :: IsSetAside(c)
    ensures RotatedFrom(R.SelectKeep(live) + aside, live)
    ensures SetAside(R.SelectKeep(live) + aside) == aside
  {
    var kept := R.SelectKeep(live);
    var bank := kept + aside;
    RotatedBank(live, aside);
    Rules.KeptFrom(live);
    forall c | c in bank && Active(c) ensures c in kept {}
    forall short: bool
      ensures |ActiveOf(bank, short)| == Rules.Min(|Restrict(live, Rules.ClipOfClass(short))|, if short then 5 else 10)
    {
      Rules.KeptOfEachClass(live, short);
    }
    forall c <- live | |Restrict(live, Rules.ClipOfClass(IsShort(c)))| <= Cap(IsShort(c)) ensures c in bank {
      Rules.ClassWithinItsCapStays(live, c);
    }
    forall c <- live | Protected(c) && c !in bank
      ensures |Restrict(live, ProtectedOfClass(IsShort(c)))| > Cap(IsShort(c))
      ensures forall k <- bank | Active(k) && IsShort(k) == IsShort(c) :: Protected(k)
    {
      assert c !in kept;
      ProtectedClipLost(live, c);
    }
  }

  // ---------- a clip banked ----------

  lemma {:induction false} HeldFirst(disk: Disk, clips: seq<Clip>, sha: Sha)
    ensures HeldCopy(disk, clips, sha).None? <==> forall c <- clips :: !(c.file in disk && disk[c.file] == sha)
    ensures var k := HeldCopy(disk, clips, sha);
            k.Some? ==> forall i | 0 <= i < k.value :: !(clips[i].file in disk && disk[clips[i].file] == sha)
  {
    if clips != [] {
      var init, last := clips[..|clips| - 1], clips[|clips| - 1];
      HeldFirst(disk, init, sha);
      assert forall c :: c in clips <==> c in init || c == last;
    }
  }

  /** The first clip of the bank with these bytes. */
  ghost predicate FirstCopy(disk: Disk, clips: seq<Clip>, sha: Sha, k: nat) {
    && k < |clips| && clips[k].file in disk && disk[clips[k].file] == sha
    && forall i | 0 <= i < k :: !(clips[i].file in disk && disk[clips[i].file] == sha)
  }

  /** A recording the bank holds already is accepted and not written again; a human
      who confirms it stands behind the first clip that holds it, if none did. */
  lemma AHeldRecordingIsVouched(s: State, p: PersonId, u: Utterance, now: nat, verdict: Option<bool>, k: nat)
    requires p in s.people && u.passes && u.dedupe && FirstCopy(s.disk, s.people[p].clips, u.sha, k)
    ensures
      var c := s.people[p].clips[k];
      AddClip(s, p, u, now, verdict)
      == (if (u.source == Introduction || u.source == Correction) && !Protected(c)
          then s.(people := s.people[p := s.people[p].(clips := s.people[p].clips[k := c.(source := u.source)])])
          else s, true)
  {
    HeldFirst(s.disk, s.people[p].clips, u.sha);
    assert s.people[p].clips[k] in s.people[p].clips;
    var held := HeldCopy(s.disk, s.people[p].clips, u.sha).value;
    assert held == k;
  }

  /** Nothing is banked for nobody, or of audio the gate refuses. */
  lemma ARefusedRecordingChangesNothing(s: State, p: PersonId, u: Utterance, now: nat, verdict: Option<bool>)
    requires !u.passes || p !in s.people
    ensures AddClip(s, p, u, now, verdict) == (s, false)
  {}

  /** How the new clip is stamped: the capture time given, unless it is missing, zero
      or in the future, and then now. */
  lemma ANewClipIsStamped(u: Utterance, file: FileName, now: nat)
    ensures
      var c := NewClip(u, file, now);
      && c.file == file && c.millis == u.millis && c.score == u.score && c.source == u.source && c.stamp == u.stamp
      && Active(c) && !c.moved && !c.leftMembro && c.addedAt <= now
      && (u.addedAt.Some? && 0 < u.addedAt.value <= now ==> c.addedAt == u.addedAt.value)
      && (u.addedAt.None? || u.addedAt.value == 0 || now < u.addedAt.value ==> c.addedAt == now)
  {}

  /** What banking a clip leaves beside the ledger, whichever clips the bank keeps. */
  lemma BankingLeaves(s: State, p: PersonId, u: Utterance, entry: Clip, replaced: Option<FileName>, kept: seq<Clip>)
    requires p in s.people
    ensures
      var s' := BankKeeping(s, p, u, entry, replaced, kept);
      && s'.people.Keys == s.people.Keys && (forall q <- s.people | q != p :: s'.people[q] == s.people[q])
      && s'.people[p] == s.people[p].(clips := kept)
      && (forall f :: f in s'.disk <==> (f in s.disk || f == entry.file)
                                        && !(f in Files(s.people[p].clips + [entry]) && f !in Files(kept)))
      && forall f <- s'.disk :: s'.disk[f] == if f == entry.file then u.sha else s.disk[f]
  {}

  /** The bank one more clip makes. */
  lemma BankedBank(clips: seq<Clip>, entry: Clip)
    requires Active(entry)
    ensures RotatedFrom(KeptOfBank(Offered(clips, entry, None)), ActiveClips(clips) + [entry])
    ensures SetAside(KeptOfBank(Offered(clips, entry, None))) == SetAside(clips)
  {
    RestrictSnoc(clips, entry, Active);
    RestrictSnoc(clips, entry, IsSetAside);
    RestrictMembers(clips, Active);
    RestrictMembers(clips, IsSetAside);
    RotationLeaves(ActiveClips(clips) + [entry], SetAside(clips));
  }

  lemma UnweighedIsBanked(s: State, p: PersonId, u: Utterance, now: nat, verdict: Option<bool>)
    requires p in s.people && u.passes && !HeldAlready(s, p, u)
    requires u.source == Introduction || u.source == Correction || u.stamp.Some? || !BankEstablished(s.people[p].clips, verdict)
    ensures var clips, entry := s.people[p].clips, NewClip(u, s.nextFile, now);
            AddClip(s, p, u, now, verdict)
            == (BankKeeping(s, p, u, entry, None, KeptOfBank(Offered(clips, entry, None))), true)
  {}

  /** A clip no settle rule weighs is banked under a new file and rotated in with the
      active clips; the set-aside ones stay, in order; and what the bank gives up
      leaves the disk. */
  lemma ANewClipIsRotatedIn(s: State, p: PersonId, u: Utterance, now: nat, verdict: Option<bool>)
    requires InBijection(s) && p in s.people && u.passes && !HeldAlready(s, p, u)
    requires u.source == Introduction || u.source == Correction || u.stamp.Some? || !BankEstablished(s.people[p].clips, verdict)
    ensures
      var (s', taken) := AddClip(s, p, u, now, verdict);
      var clips, entry := s.people[p].clips, NewClip(u, s.nextFile, now);
      && taken && s'.people.Keys == s.people.Keys
      && (forall q <- s.people | q != p :: s'.people[q] == s.people[q])
      && s'.people[p] == s.people[p].(clips := s'.people[p].clips)
      && RotatedFrom(s'.people[p].clips, ActiveClips(clips) + [entry])
      && SetAside(s'.people[p].clips) == SetAside(clips)
      && (forall f :: f in s'.disk <==> (f in s.disk || f == entry.file)
                                        && !(f in Files(clips + [entry]) && f !in Files(s'.people[p].clips)))
      && forall f <- s'.disk :: s'.disk[f] == if f == entry.file then u.sha else s.disk[f]
  {
    var clips, entry := s.people[p].clips, NewClip(u, s.nextFile, now);
    UnweighedIsBanked(s, p, u, now, verdict);
    BankedBank(clips, entry);
    BankingLeaves(s, p, u, entry, None, KeptOfBank(Offered(clips, entry, None)));
  }

  /** The clip the settle rule replaces by this offer, if it replaces one. */
  ghost function Victim(s: State, p: PersonId, u: Utterance, now: nat, verdict: Option<bool>): Option<Clip>
    requires p in s.people
  {
    var person := s.people[p];
    if u.source == Introduction || u.source == Correction || u.stamp.Some? || !BankEstablished(person.clips, verdict) then None
    else
      match SettleOffer(person.clips, NewClip(u, s.nextFile, now), now, person.settledAt)
      case Refuse => None
      case Take(victim) => victim
  }

  lemma VictimHeld(s: State, p: PersonId, u: Utterance, now: nat, verdict: Option<bool>)
    requires p in s.people
    ensures var victim := Victim(s, p, u, now, verdict); victim.Some? ==> victim.value in s.people[p].clips
  {
    var clips, entry := s.people[p].clips, NewClip(u, s.nextFile, now);
    if Victim(s, p, u, now, verdict).Some? {
      OfferChoosesWell(clips, entry, now, s.people[p].settledAt, Victim(s, p, u, now, verdict));
    }
  }

  /** An add leaves the ledger alone, or banks the clip beside what the bank keeps. */
  lemma AddBanks(s: State, p: PersonId, u: Utterance, now: nat, verdict: Option<bool>)
    requires p in s.people
    ensures
      var s' := AddClip(s, p, u, now, verdict).0;
      && p in s'.people
      && (s'.book == s.book
          || s'.book == BankKeeping(s, p, u, NewClip(u, s.nextFile, now), FileOf(Victim(s, p, u, now, verdict)),
                                    s'.people[p].clips).book)
  {}

  /** Every row an add records is the drop of a clip the bank gave up, by the settle rule
      when it is the clip that rule replaced and by rotation otherwise; and a clip that
      came from membro drops nothing. */
  lemma AnAddSaysWhatItDrops(s: State, p: PersonId, u: Utterance, now: nat, verdict: Option<bool>)
    requires InBijection(s) && p in s.people
    ensures
      var s', victim := AddClip(s, p, u, now, verdict).0, Victim(s, p, u, now, verdict);
      && p in s'.people
      && (u.stamp.Some? ==> s'.book == s.book)
      && forall row <- s'.book.rows | row !in s.book.rows ::
           exists c <- s.people[p].clips ::
             && c.file !in Files(s'.people[p].clips) && !c.leftMembro
             && NotedDrop(row, s.disk, p, c, if victim == Some(c) then BySettling else ByRotation)
  {
    AddBanks(s, p, u, now, verdict);
    if u.stamp.None? {
      NewFile(s, p);
      VictimHeld(s, p, u, now, verdict);
      BankingDrops(s, p, u, NewClip(u, s.nextFile, now), Victim(s, p, u, now, verdict),
                   AddClip(s, p, u, now, verdict).0.people[p].clips);
    }
  }

  lemma BankingDrops(s: State, p: PersonId, u: Utterance, entry: Clip, victim: Option<Clip>, kept: seq<Clip>)
    requires p in s.people && u.stamp.None? && OneFileEach(s.people[p].clips)
    requires forall c <- s.people[p].clips :: c.file != entry.file
    requires victim.Some? ==> victim.value in s.people[p].clips
    ensures forall row <- BankKeeping(s, p, u, entry, FileOf(victim), kept).book.rows | row !in s.book.rows ::
              exists c <- s.people[p].clips ::
                && c.file !in Files(kept) && !c.leftMembro
                && NotedDrop(row, s.disk, p, c, if victim == Some(c) then BySettling else ByRotation)
  {
    var clips, disk := s.people[p].clips, s.disk[entry.file := u.sha];
    DropsSayWhy(s.book, disk, p, s.people[p].slug.Some?, clips, Files(kept), FileOf(victim));
    forall row <- BankKeeping(s, p, u, entry, FileOf(victim), kept).book.rows | row !in s.book.rows
      ensures exists c <- clips ::
                && c.file !in Files(kept) && !c.leftMembro
                && NotedDrop(row, s.disk, p, c, if victim == Some(c) then BySettling else ByRotation)
    {
      var c :| c in clips && c.file !in Files(kept) && !c.leftMembro
               && NotedDrop(row, disk, p, c, if FileOf(victim) == Some(c.file) then BySettling else ByRotation);
      assert victim == Some(c) <==> FileOf(victim) == Some(c.file);
    }
  }

  lemma WeighedIsBanked(s: State, p: PersonId, u: Utterance, now: nat, verdict: Option<bool>)
    requires p in s.people && u.passes && !HeldAlready(s, p, u)
    requires !Vouching(u.source) && u.stamp.None? && BankEstablished(s.people[p].clips, verdict)
    ensures var person, entry := s.people[p], NewClip(u, s.nextFile, now);
            AddClip(s, p, u, now, verdict)
            == match SettleOffer(person.clips, entry, now, person.settledAt)
               case Refuse => (s, false)
               case Take(victim) =>
                 (BankKeeping(s.(people := s.people[p := person.(settledAt := Some(now))]), p, u, entry, FileOf(victim),
                              KeptOfBank(Offered(person.clips, entry, victim))), true)
  {}

  /** One of a settled bank goes the same way, once the rule has let it in and taken
      out the clip it replaces. */
  lemma ATakenClipIsOnDisk(s: State, p: PersonId, u: Utterance, now: nat, verdict: Option<bool>)
    requires InBijection(s) && p in s.people && u.passes && !HeldAlready(s, p, u)
    requires u.source != Introduction && u.source != Correction && u.stamp.None? && BankEstablished(s.people[p].clips, verdict)
    ensures
      var (s', taken) := AddClip(s, p, u, now, verdict);
      var clips, entry := s.people[p].clips, NewClip(u, s.nextFile, now);
      taken ==>
        && s'.people[p] == s.people[p].(clips := s'.people[p].clips, settledAt := Some(now))
        && (forall f :: f in s'.disk <==> (f in s.disk || f == entry.file)
                                          && !(f in Files(clips + [entry]) && f !in Files(s'.people[p].clips)))
        && forall f <- s'.disk :: s'.disk[f] == if f == entry.file then u.sha else s.disk[f]
  {
    var clips, entry := s.people[p].clips, NewClip(u, s.nextFile, now);
    var offer := SettleOffer(clips, entry, now, s.people[p].settledAt);
    WeighedIsBanked(s, p, u, now, verdict);
    if offer.Take? {
      var settled := s.(people := s.people[p := s.people[p].(settledAt := Some(now))]);
      BankingLeaves(settled, p, u, entry, FileOf(offer.victim), KeptOfBank(Offered(clips, entry, offer.victim)));
    }
  }

  // ---------- a merge ----------

  /** The first n of a list, or all of it. */
  function FirstOf(clips: seq<Clip>, n: nat): (r: seq<Clip>)
    ensures r <= clips && |r| == Rules.Min(|clips|, n)
  {
    if |clips| <= n then clips else clips[..n]
  }

  lemma MergedFiles(mine: seq<Clip>, theirs: seq<Clip>)
    ensures Files(mine + theirs) == Files(mine) + Files(theirs)
  {
    forall c <- mine ensures c in mine + theirs {}
    forall c <- theirs ensures c in mine + theirs {}
  }

  /** The bank two banks make. */
  lemma MergedBank(mine: Person, theirs: Person)
    ensures RotatedFrom(KeptOfMerge(mine, theirs), ActiveClips(mine.clips) + ActiveClips(theirs.clips))
    ensures SetAside(KeptOfMerge(mine, theirs)) == FirstOf(SetAside(mine.clips) + SetAside(theirs.clips), QUARANTINE_MAX)
  {
    var merged := mine.clips + theirs.clips;
    RestrictConcat(mine.clips, theirs.clips, Active);
    RestrictConcat(mine.clips, theirs.clips, IsSetAside);
    RestrictMembers(merged, Active);
    RestrictMembers(merged, IsSetAside);
    RotationLeaves(ActiveClips(merged), R.Take(SetAside(merged), QUARANTINE_MAX));
  }

  /** What a merge leaves beside the ledger, whichever clips the survivor keeps. */
  lemma MergeLeaves(s: State, survivor: PersonId, gone: PersonId, kept: seq<Clip>)
    requires survivor in s.people && gone in s.people && survivor != gone
    ensures
      var s' := MergeKeeping(s, survivor, gone, kept);
      && s'.people.Keys == s.people.Keys - {gone}
      && (forall q <- s'.people | q != survivor :: s'.people[q] == s.people[q])
      && s'.people[survivor] == s.people[survivor].(clips := kept)
      && (forall f :: f in s'.disk <==> f in s.disk
                                        && (f in Files(s.people[survivor].clips) || f in Files(s.people[gone].clips)
                                            ==> f in Files(kept)))
      && forall f <- s'.disk :: s'.disk[f] == s.disk[f]
  {
    MergedFiles(s.people[survivor].clips, s.people[gone].clips);
  }

  /** Two people become the older of them, whose bank is the rotation of both banks'
      active clips, and the first set-aside ones of both as far as they fit. */
  lemma AMergeJoinsTheBanks(s: State, a: PersonId, b: PersonId)
    requires a != b && a in s.people && b in s.people
    ensures
      var (s', who) := MergePeople(s, a, b);
      var survivor := if s.people[b].createdAt < s.people[a].createdAt then b else a;
      var gone := if survivor == a then b else a;
      var mine, theirs := s.people[survivor].clips, s.people[gone].clips;
      && who == Some(survivor) && s'.people.Keys == s.people.Keys - {gone}
      && (forall q <- s'.people | q != survivor :: s'.people[q] == s.people[q])
      && s'.people[survivor] == s.people[survivor].(clips := s'.people[survivor].clips)
      && RotatedFrom(s'.people[survivor].clips, ActiveClips(mine) + ActiveClips(theirs))
      && SetAside(s'.people[survivor].clips) == FirstOf(SetAside(mine) + SetAside(theirs), QUARANTINE_MAX)
      && (forall f :: f in s'.disk <==> f in s.disk
                                        && (f in Files(mine) || f in Files(theirs) ==>
                                              f in Files(s'.people[survivor].clips)))
      && forall f <- s'.disk :: s'.disk[f] == s.disk[f]
  {
    var survivor := if s.people[b].createdAt < s.people[a].createdAt then b else a;
    var gone := if survivor == a then b else a;
    MergedBank(s.people[survivor], s.people[gone]);
    MergeLeaves(s, survivor, gone, KeptOfMerge(s.people[survivor], s.people[gone]));
  }

  lemma NobodyToMerge(s: State, a: PersonId, b: PersonId)
    requires a == b || a !in s.people || b !in s.people
    ensures MergePeople(s, a, b) == (s, None)
  {}

  // ---------- the hygiene audit ----------

  /** A clip as an audit's verdict leaves it: set aside if and only if its file is
      named. Newly set aside it has lost its stamp and is marked as having left membro;
      one set aside before is as it was; one reinstated is no longer marked. */
  ghost predicate JudgedAs(c': Clip, c: Clip, bad: set<FileName>) {
    && c' == c.(quarantined := c'.quarantined, leftMembro := c'.leftMembro, stamp := c'.stamp)
    && (c'.quarantined <==> c.file in bad)
    && (c.file in bad && !c.quarantined ==> c'.leftMembro && c'.stamp.None?)
    && (c.file in bad && c.quarantined ==> c' == c)
    && (c.file !in bad ==> !c'.leftMembro && c'.stamp == c.stamp)
  }

  function Named(bad: set<FileName>): Clip -> bool {
    (c: Clip) => c.file in bad
  }

  /** A bank after its audit. Every clip left is one of the bank, judged; those gone
      were named, are no newer than any set-aside clip left, and are as many as do not
      fit. */
  ghost predicate AuditedFrom(bank': seq<Clip>, bank: seq<Clip>, bad: set<FileName>) {
    && (forall c' <- bank' :: exists c <- bank :: JudgedAs(c', c, bad))
    && (forall c <- bank | c.file !in Files(bank') ::
          c.file in bad && forall k <- bank' | IsSetAside(k) :: c.addedAt <= k.addedAt)
    && |SetAside(bank')| == Rules.Min(|Restrict(bank, Named(bad))|, QUARANTINE_MAX)
    && OneFileEach(bank')
  }

  lemma {:induction false} JudgedAsides(bank: seq<Clip>, bad: set<FileName>)
    ensures |SetAside(JudgeAll(bank, bad))| == |Restrict(bank, Named(bad))|
  {
    if bank != [] {
      var init, c := bank[..|bank| - 1], bank[|bank| - 1];
      JudgedAsides(init, bad);
      assert JudgeAll(bank, bad)[..|bank| - 1] == JudgeAll(init, bad);
      assert JudgeAll(bank, bad) == JudgeAll(init, bad) + [Judge(c, bad)];
      RestrictSnoc(JudgeAll(init, bad), Judge(c, bad), IsSetAside);
    }
  }

  lemma JudgedAll(bank: seq<Clip>, bad: set<FileName>, i: nat)
    requires i < |bank|
    ensures JudgedAs(JudgeAll(bank, bad)[i], bank[i], bad)
  {}

  /** The first n in order of age. */
  lemma TheOldest(aside: seq<Clip>, n: nat)
    requires Distinct(aside) && n <= |aside|
    ensures var oldest := R.Take(Sorted(aside, AgeKey), n);
            && |oldest| == n && Distinct(oldest) && (forall c <- oldest :: c in aside)
            && forall c <- oldest, k <- aside | k !in oldest :: c.addedAt <= k.addedAt
  {
    var sorted := Sorted(aside, AgeKey);
    SortedInOrder(aside, AgeKey);
    SortedDistinct(aside, AgeKey);
    SameElementsSameLength(aside, sorted);
    forall c <- sorted[..n], k <- aside | k !in sorted[..n] ensures c.addedAt <= k.addedAt {
      OldestFirst(sorted, n, c, k);
    }
  }

  /** The overflow: the oldest set-aside clips, and as many as do not fit. */
  lemma OverflowIsOldest(judged: seq<Clip>)
    requires OneFileEach(judged)
    ensures var evict, aside := Overflow(judged), SetAside(judged);
            && Distinct(evict) && (forall c <- evict :: c in aside)
            && |evict| == |aside| - Rules.Min(|aside|, QUARANTINE_MAX)
            && forall c <- evict, k <- aside | k !in evict :: c.addedAt <= k.addedAt
  {
    var aside := SetAside(judged);
    OneFileDistinct(judged);
    RestrictDistinct(judged, IsSetAside);
    if |aside| > QUARANTINE_MAX {
      TheOldest(aside, |aside| - QUARANTINE_MAX);
    }
  }

  lemma OldestFirst(sorted: seq<Clip>, n: nat, c: Clip, k: Clip)
    requires InOrder(sorted, AgeKey) && n <= |sorted|
    requires c in sorted[..n] && k in sorted && k !in sorted[..n]
    ensures c.addedAt <= k.addedAt
  {
    var i :| 0 <= i < n && sorted[i] == c;
    var j :| 0 <= j < |sorted| && sorted[j] == k;
    assert forall m | 0 <= m < n :: sorted[m] in sorted[..n];
    assert NotAfter(AgeKey(sorted[i]), AgeKey(sorted[j]));
  }

  /** Set-aside clips left: all but the overflow. */
  lemma AsidesLeft(judged: seq<Clip>)
    requires OneFileEach(judged)
    ensures
      var kept := Restrict(judged, NotIn(Files(Overflow(judged))));
      && OneFileEach(kept) && (forall c :: c in kept <==> c in judged && c !in Overflow(judged))
      && |SetAside(kept)| == Rules.Min(|SetAside(judged)|, QUARANTINE_MAX)
  {
    var evict, aside := Overflow(judged), SetAside(judged);
    var kept := Restrict(judged, NotIn(Files(evict)));
    OverflowIsOldest(judged);
    RestrictOneFile(judged, NotIn(Files(evict)));
    RestrictMembers(judged, IsSetAside);
    forall c <- judged ensures c.file in Files(evict) <==> c in evict {
      EvictedByFile(judged, evict, c);
    }
    RestrictMembers(kept, IsSetAside);
    OneFileDistinct(judged);
    OneFileDistinct(kept);
    RestrictDistinct(judged, IsSetAside);
    RestrictDistinct(kept, IsSetAside);
    LeftSize(aside, evict, SetAside(kept));
  }

  lemma EvictedByFile(judged: seq<Clip>, evict: seq<Clip>, c: Clip)
    requires OneFileEach(judged) && c in judged && forall d <- evict :: d in judged
    ensures c.file in Files(evict) <==> c in evict
  {
    if c.file in Files(evict) {
      var d :| d in evict && d.file == c.file;
      OneFileSame(judged, c, d);
    }
  }

  /** What is left of a judged bank without its overflow. */
  lemma JudgedLeft(bank: seq<Clip>, bad: set<FileName>, bank': seq<Clip>)
    requires OneFileEach(bank) && OneFileEach(JudgeAll(bank, bad))
    requires bank' == Restrict(JudgeAll(bank, bad), NotIn(Files(Overflow(JudgeAll(bank, bad)))))
    ensures AuditedFrom(bank', bank, bad)
  {
    var judged := JudgeAll(bank, bad);
    AsidesLeft(judged);
    JudgedAsides(bank, bad);
    OverflowIsOldest(judged);
    RestrictMembers(judged, IsSetAside);
    RestrictMembers(bank', IsSetAside);
    forall c' <- bank' ensures exists c <- bank :: JudgedAs(c', c, bad) {
      var i :| 0 <= i < |judged| && judged[i] == c';
      JudgedAll(bank, bad, i);
      assert bank[i] in bank;
    }
    forall c <- bank | c.file !in Files(bank')
      ensures c.file in bad && forall k <- bank' | IsSetAside(k) :: c.addedAt <= k.addedAt
    {
      var i :| 0 <= i < |bank| && bank[i] == c;
      JudgedAll(bank, bad, i);
      assert judged[i] in judged && judged[i] !in bank';
    }
  }

  lemma AnAuditJudgesTheBank(s: State, p: PersonId, bad: set<FileName>)
    requires InBijection(s) && p in s.people
    ensures
      var s' := AuditPerson(s, p, bad);
      && OnlyBanks(s, s', {p}) && AuditedFrom(s'.people[p].clips, s.people[p].clips, bad)
      && Files(s'.people[p].clips) <= Files(s.people[p].clips)
      && s'.disk == s.disk - (Files(s.people[p].clips) - Files(s'.people[p].clips))
  {
    var bank := s.people[p].clips;
    var judged := JudgeAll(bank, bad);
    var bank' := AuditPerson(s, p, bad).people[p].clips;
    SameFiles(bank, judged);
    JudgedLeft(bank, bad, bank');
    OverflowFrom(judged);
    assert Files(bank') == Files(judged) - Files(Overflow(judged)) by {
      forall d <- judged ensures d.file in Files(bank') <==> d.file !in Files(Overflow(judged)) {
        RestrictOneFile(judged, NotIn(Files(Overflow(judged))));
      }
    }
    assert Files(Overflow(judged)) == Files(bank) - Files(bank');
  }

  /** An audit over everyone in `order`: each is judged by their own verdict, once, and
      nobody else is touched. */
  lemma {:induction false} AnAuditJudgesEveryBank(s: State, quarantine: map<PersonId, set<FileName>>,
                                                  order: seq<PersonId>, p: PersonId)
    requires InBijection(s) && Distinct(order) && (forall q <- order :: q in s.people) && p in s.people
    ensures
      var s' := SetHygiene(s, quarantine, order);
      && InBijection(s') && s'.people.Keys == s.people.Keys
      && s'.people[p] == s.people[p].(clips := s'.people[p].clips)
      && (if p in order then AuditedFrom(s'.people[p].clips, s.people[p].clips, if p in quarantine then quarantine[p] else {})
          else s'.people[p] == s.people[p])
      && (forall c <- s.people[p].clips :: c.file in s'.disk <==> c.file in Files(s'.people[p].clips))
      && forall f <- s'.disk :: f in s.disk && s'.disk[f] == s.disk[f]
  {
    if order == [] {
      FilesOf(s.people, p);
    } else {
      var init, last := order[..|order| - 1], order[|order| - 1];
      var before := SetHygiene(s, quarantine, init);
      assert forall q :: q in order <==> q in init || q == last;
      assert last !in init;
      AnAuditJudgesEveryBank(s, quarantine, init, p);
      AnAuditJudgesEveryBank(s, quarantine, init, last);
      AnAuditJudgesTheBank(before, last, Verdict(quarantine, last));
      AuditKeepsBijection(before, last, Verdict(quarantine, last));
      BankFilesOnDisk(s, before, AuditPerson(before, last, Verdict(quarantine, last)), last, p);
    }
  }

  /** A clip's file is on disk exactly while its person holds it. */
  lemma BankFilesOnDisk(s: State, before: State, after: State, last: PersonId, p: PersonId)
    requires InBijection(before) && InBijection(after) && OnlyBanks(before, after, {last})
    requires p in before.people && last in before.people && p in s.people
    requires Files(after.people[last].clips) <= Files(before.people[last].clips)
    requires after.disk == before.disk - (Files(before.people[last].clips) - Files(after.people[last].clips))
    requires forall c <- s.people[p].clips :: c.file in before.disk <==> c.file in Files(before.people[p].clips)
    ensures forall c <- s.people[p].clips :: c.file in after.disk <==> c.file in Files(after.people[p].clips)
  {
    FilesOf(after.people, p);
    forall c <- s.people[p].clips ensures c.file in after.disk <==> c.file in Files(after.people[p].clips) {
      if p != last {
        assert Files(before.people[p].clips) !! Files(before.people[last].clips);
      }
    }
  }
}
