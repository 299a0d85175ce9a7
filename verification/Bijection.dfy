/** Disk and index in bijection, kept by every store operation: each clip file
    is named by exactly one clip of one person, and the reverse. */
module Bijection {
  import opened Wrappers
  import opened Ledger
  import opened Bank
  import opened Sorting
  import opened Store
  import R = Rotation
  import Rules = RotationRules

  ghost predicate OneFileEach(clips: seq<Clip>) {
    forall i, j | 0 <= i < j < |clips| :: clips[i].file != clips[j].file
  }

  ghost predicate OneHolderEach(people: People) {
    forall p <- people, q <- people | p != q :: Files(people[p].clips) !! Files(people[q].clips)
  }

  function Held(people: People): set<FileName> {
    set p, c | p in people && c in people[p].clips :: c.file
  }

  ghost predicate InBijection(s: State) {
    && (forall p <- s.people :: OneFileEach(s.people[p].clips))
    && OneHolderEach(s.people)
    && Held(s.people) == s.disk.Keys
    && (forall f <- s.disk :: f < s.nextFile)
  }

  lemma FilesOf(people: People, p: PersonId)
    requires p in people
    ensures Files(people[p].clips) <= Held(people)
  {
    forall f <- Files(people[p].clips) ensures f in Held(people) {
      var c :| c in people[p].clips && c.file == f;
    }
  }

  /** Everyone's files are one person's and the others'. */
  lemma HeldSplits(people: People, p: PersonId, f: FileName)
    requires p in people
    ensures f in Held(people) <==> f in Files(people[p].clips) || f in Held(people - {p})
  {
    if f in Held(people) && f !in Files(people[p].clips) {
      var q, c :| q in people && c in people[q].clips && c.file == f;
      assert q in people - {p} && c in (people - {p})[q].clips;
    }
    if f in Held(people - {p}) {
      var q, c :| q in people - {p} && c in (people - {p})[q].clips && c.file == f;
      assert c in people[q].clips;
    }
  }

  /** The others hold none of one person's files. */
  lemma OthersFiles(people: People, p: PersonId, f: FileName)
    requires OneHolderEach(people) && p in people && f in Held(people - {p})
    ensures f !in Files(people[p].clips)
  {
    var q, c :| q in people - {p} && c in (people - {p})[q].clips && c.file == f;
    assert f in Files(people[q].clips) && Files(people[q].clips) !! Files(people[p].clips);
  }

  lemma SwapKeepsHeld(s: State, s': State, p: PersonId, f: FileName)
    requires OneHolderEach(s.people) && Held(s.people) == s.disk.Keys
    requires p in s.people && p in s'.people && s'.people - {p} == s.people - {p}
    requires s'.disk.Keys == (s.disk.Keys - Files(s.people[p].clips)) + Files(s'.people[p].clips)
    ensures f in Held(s'.people) <==> f in s'.disk
  {
    HeldSplits(s.people, p, f);
    HeldSplits(s'.people, p, f);
    if f in Held(s.people - {p}) {
      OthersFiles(s.people, p, f);
    }
  }

  lemma SwapKeepsHolders(people: People, people': People, p: PersonId)
    requires OneHolderEach(people) && p in people && p in people' && people' == people[p := people'[p]]
    requires forall f <- Files(people'[p].clips) :: f in Files(people[p].clips) || f !in Held(people)
    ensures OneHolderEach(people')
  {
    forall q <- people | q != p ensures Files(people[q].clips) !! Files(people'[p].clips) {
      FilesOf(people, q);
      assert Files(people[q].clips) !! Files(people[p].clips);
    }
  }

  /** One person's bank replaced: files it gains must be new, and the disk gains
      and loses exactly what the bank does. */
  lemma SwapKeepsBijection(s: State, s': State, p: PersonId, clips: seq<Clip>)
    requires InBijection(s) && p in s.people && p in s'.people
    requires s'.people == s.people[p := s'.people[p]] && s'.people[p].clips == clips
    requires OneFileEach(clips)
    requires forall f <- Files(clips) :: f in Files(s.people[p].clips) || f !in s.disk
    requires s'.disk.Keys == (s.disk.Keys - Files(s.people[p].clips)) + Files(clips)
    requires s'.nextFile >= s.nextFile && forall f <- Files(clips) :: f < s'.nextFile
    ensures InBijection(s')
  {
    SwapKeepsHolders(s.people, s'.people, p);
    assert s'.people - {p} == s.people - {p};
    forall f ensures f in Held(s'.people) <==> f in s'.disk {
      SwapKeepsHeld(s, s', p, f);
    }
  }

  /** A person with no clips leaves no trace on disk. */
  lemma RemoveKeepsBijection(s: State, p: PersonId, book: Book)
    requires InBijection(s) && p in s.people && s.people[p].clips == []
    ensures InBijection(s.(people := s.people - {p}, book := book))
  {
    var people' := s.people - {p};
    forall f | f in Held(s.people) ensures f in Held(people') {
      var q, c :| q in s.people && c in s.people[q].clips && c.file == f;
      assert q in people' && c in people'[q].clips;
    }
    forall f | f in Held(people') ensures f in Held(s.people) {
      var q, c :| q in people' && c in people'[q].clips && c.file == f;
      assert c in s.people[q].clips;
    }
  }

  // ---------- banks rearranged ----------

  lemma OneFileSame(clips: seq<Clip>, c: Clip, d: Clip)
    requires OneFileEach(clips) && c in clips && d in clips && c.file == d.file
    ensures c == d
  {
  }

  lemma {:induction false} RestrictOneFile(clips: seq<Clip>, keep: Clip -> bool)
    requires OneFileEach(clips)
    ensures OneFileEach(Restrict(clips, keep))
    ensures forall c :: c in Restrict(clips, keep) <==> c in clips && keep(c)
    ensures forall c <- clips :: c.file in Files(Restrict(clips, keep)) <==> keep(c)
  {
    RestrictMembers(clips, keep);
    if clips != [] {
      RestrictOneFile(clips[..|clips| - 1], keep);
    }
    forall c <- clips | c.file in Files(Restrict(clips, keep)) ensures keep(c) {
      var d :| d in Restrict(clips, keep) && d.file == c.file;
      OneFileSame(clips, c, d);
    }
  }

  lemma ConcatOneFile(a: seq<Clip>, b: seq<Clip>)
    requires OneFileEach(a) && OneFileEach(b) && Files(a) !! Files(b)
    ensures OneFileEach(a + b)
    ensures Files(a + b) == Files(a) + Files(b)
  {
    var c := a + b;
    forall i, j | 0 <= i < j < |c| ensures c[i].file != c[j].file {
      if i < |a| <= j {
        assert a[i] in a && b[j - |a|] in b;
        assert a[i].file in Files(a) && b[j - |a|].file in Files(b);
      }
    }
  }

  /** Two entries of a bank are two files. */
  lemma EntriesApart(clips: seq<Clip>, d: R.Entry, e: R.Entry)
    requires OneFileEach(clips) && d != e
    requires d in R.Entries(clips) && e in R.Entries(clips)
    ensures d.clip.file != e.clip.file
  {
    Rules.EntriesDistinct(clips);
    assert d.index != e.index;
    var i, j := if d.index < e.index then d.index else e.index, if d.index < e.index then e.index else d.index;
    assert clips[i].file != clips[j].file;
  }

  lemma SelectKeepFrom(clips: seq<Clip>)
    requires OneFileEach(clips)
    ensures OneFileEach(R.SelectKeep(clips))
    ensures forall c <- R.SelectKeep(clips) :: c in clips
  {
    var kept := R.KeptEntries(clips);
    Rules.KeptMembers(clips);
    forall i | 0 <= i < |kept| ensures kept[i].clip in clips {
      assert kept[i] in R.Entries(clips);
    }
    forall i, j | 0 <= i < j < |kept| ensures kept[i].clip.file != kept[j].clip.file {
      assert kept[i] in R.Entries(clips) && kept[j] in R.Entries(clips);
      EntriesApart(clips, kept[i], kept[j]);
    }
  }

  /** A rotated bank, with some set-aside clips riding along. */
  lemma KeptOneFile(clips: seq<Clip>, aside: seq<Clip>)
    requires OneFileEach(clips) && OneFileEach(aside)
    requires forall c <- aside :: c in clips && c.quarantined
    ensures OneFileEach(R.SelectKeep(ActiveClips(clips)) + aside)
    ensures forall c <- R.SelectKeep(ActiveClips(clips)) + aside :: c in clips
    ensures Files(R.SelectKeep(ActiveClips(clips)) + aside) <= Files(clips)
  {
    RestrictOneFile(clips, Active);
    SelectKeepFrom(ActiveClips(clips));
    var kept := R.SelectKeep(ActiveClips(clips));
    forall c <- kept, d <- aside ensures c.file != d.file {
      if c.file == d.file {
        OneFileSame(clips, c, d);
      }
    }
    ConcatOneFile(kept, aside);
  }

  // ---------- every operation ----------

  /** The state with one clip taken out of a bank, file and all. */
  function TakenOut(s: State, p: PersonId, file: FileName): State
    requires p in s.people
  {
    s.(people := s.people[p := s.people[p].(clips := Without(s.people[p].clips, file))], disk := s.disk - {file})
  }

  lemma TakingOutKeepsBijection(s: State, p: PersonId, file: FileName)
    requires InBijection(s) && p in s.people && file in Files(s.people[p].clips)
    ensures InBijection(TakenOut(s, p, file))
    ensures Files(Without(s.people[p].clips, file)) == Files(s.people[p].clips) - {file}
  {
    var left := Without(s.people[p].clips, file);
    RestrictOneFile(s.people[p].clips, NotFile(file));
    assert Files(left) == Files(s.people[p].clips) - {file};
    FilesOf(s.people, p);
    SwapKeepsBijection(s, TakenOut(s, p, file), p, left);
  }

  lemma PuttingInKeepsBijection(s: State, s': State, p: PersonId, clip: Clip)
    requires InBijection(s) && p in s.people && clip.file !in s.disk && clip.file < s.nextFile
    requires s'.people == s.people[p := s.people[p].(clips := s.people[p].clips + [clip])]
    requires s'.disk.Keys == s.disk.Keys + {clip.file} && s'.nextFile == s.nextFile
    ensures InBijection(s')
  {
    FilesOf(s.people, p);
    assert Files([clip]) == {clip.file};
    ConcatOneFile(s.people[p].clips, [clip]);
    SwapKeepsBijection(s, s', p, s.people[p].clips + [clip]);
  }

  lemma MoveKeepsBijection(s: State, p: PersonId, file: FileName, to: PersonId)
    requires InBijection(s)
    ensures InBijection(MoveClip(s, p, file, to).0)
  {
    if p != to && p in s.people && to in s.people && FindFile(s.people[p].clips, file).Some? {
      var clip := FindFile(s.people[p].clips, file).value;
      FilesOf(s.people, p);
      assert file in s.disk;
      TakingOutKeepsBijection(s, p, file);
      PuttingInKeepsBijection(TakenOut(s, p, file), MoveClip(s, p, file, to).0, to,
                              clip.(quarantined := false, leftMembro := false, moved := true));
    }
  }

  lemma DeleteKeepsBijection(s: State, p: PersonId, file: FileName)
    requires InBijection(s)
    ensures InBijection(DeleteClip(s, p, file).0)
  {
    if p in s.people && FindFile(s.people[p].clips, file).Some? {
      TakingOutKeepsBijection(s, p, file);
    }
  }

  lemma RetractKeepsBijection(s: State, p: PersonId, slices: set<FileName>)
    requires InBijection(s)
    ensures InBijection(Retract(s, p, slices).0)
  {
    var s' := Retract(s, p, slices).0;
    if s' != s {
      var clips := s.people[p].clips;
      RestrictOneFile(clips, IsContested(slices));
      RestrictOneFile(clips, Uncontested(slices));
      var keep, gone := Restrict(clips, Uncontested(slices)), Restrict(clips, IsContested(slices));
      assert Files(keep) == Files(clips) - Files(gone);
      FilesOf(s.people, p);
      SwapKeepsBijection(s, s', p, keep);
    }
  }

  lemma ForgetKeepsBijection(s: State, p: PersonId, record: bool)
    requires InBijection(s)
    ensures InBijection(ForgetPerson(s, p, record).0)
  {
    if p in s.people {
      RemovingKeepsBijection(s, p);
    }
  }

  lemma MergeKeepsBijection(s: State, a: PersonId, b: PersonId)
    requires InBijection(s)
    ensures InBijection(MergePeople(s, a, b).0)
  {
    if a != b && a in s.people && b in s.people {
      var survivor := Survivor(s.people, a, b);
      MergeIntoKeepsBijection(s, survivor, if survivor == a then b else a);
    }
  }

  lemma MergedOneFile(s: State, survivor: PersonId, gone: PersonId)
    requires InBijection(s) && survivor in s.people && gone in s.people && survivor != gone
    ensures
      var merged := MergedClips(s.people[survivor], s.people[gone]);
      var kept := KeptOfMerge(s.people[survivor], s.people[gone]);
      && OneFileEach(merged) && OneFileEach(kept)
      && Files(merged) == Files(s.people[survivor].clips) + Files(s.people[gone].clips)
      && Files(kept) <= Files(merged)
      && forall c <- kept :: c in merged
  {
    var merged := MergedClips(s.people[survivor], s.people[gone]);
    ConcatOneFile(s.people[survivor].clips, s.people[gone].clips);
    RestrictOneFile(merged, IsSetAside);
    KeptOneFile(merged, R.Take(SetAside(merged), QUARANTINE_MAX));
  }

  /** The state with one person's clips and entry gone. */
  function Removed(s: State, p: PersonId): State
    requires p in s.people
  {
    s.(people := s.people - {p}, disk := s.disk - Files(s.people[p].clips))
  }

  lemma RemovingKeepsBijection(s: State, p: PersonId)
    requires InBijection(s) && p in s.people
    ensures InBijection(Removed(s, p))
    ensures Files(s.people[p].clips) <= s.disk.Keys
  {
    FilesOf(s.people, p);
    var mid := s.(people := s.people[p := s.people[p].(clips := [])], disk := s.disk - Files(s.people[p].clips));
    SwapKeepsBijection(s, mid, p, []);
    RemoveKeepsBijection(mid, p, s.book);
    assert mid.people - {p} == s.people - {p};
  }

  lemma MergeIntoKeepsBijection(s: State, survivor: PersonId, gone: PersonId)
    requires InBijection(s) && survivor in s.people && gone in s.people && survivor != gone
    ensures InBijection(MergeInto(s, survivor, gone))
  {
    var kept := KeptOfMerge(s.people[survivor], s.people[gone]);
    MergedOneFile(s, survivor, gone);
    FilesOf(s.people, survivor);
    RemovingKeepsBijection(s, gone);
    MergedDisk(s, survivor, gone, kept);
    SwapKeepsBijection(Removed(s, gone), MergeInto(s, survivor, gone), survivor, kept);
  }

  /** A merge is the removal of one bank and the rotated union in the other's place. */
  lemma MergedDisk(s: State, survivor: PersonId, gone: PersonId, kept: seq<Clip>)
    requires InBijection(s) && survivor in s.people && gone in s.people && survivor != gone
    requires Files(s.people[survivor].clips) <= s.disk.Keys
    requires Files(kept) <= Files(MergedClips(s.people[survivor], s.people[gone]))
    requires Files(MergedClips(s.people[survivor], s.people[gone]))
             == Files(s.people[survivor].clips) + Files(s.people[gone].clips)
    ensures MergeKeeping(s, survivor, gone, kept).disk.Keys
            == (Removed(s, gone).disk.Keys - Files(s.people[survivor].clips)) + Files(kept)
  {
    FilesOf(s.people, gone);
  }

  lemma OfferedOneFile(clips: seq<Clip>, entry: Clip, victim: Option<Clip>)
    requires OneFileEach(clips) && entry.file !in Files(clips)
    ensures OneFileEach(Offered(clips, entry, victim))
    ensures Files(Offered(clips, entry, victim)) <= Files(clips) + {entry.file}
    ensures forall c <- Offered(clips, entry, victim) :: c == entry || c in clips
  {
    if victim.Some? {
      RestrictOneFile(clips, NotFile(victim.value.file));
    }
    var rest := if victim.Some? then Without(clips, victim.value.file) else clips;
    assert Files([entry]) == {entry.file} && Files(rest) <= Files(clips);
    ConcatOneFile(rest, [entry]);
  }

  lemma KeptOfOffer(clips: seq<Clip>, entry: Clip, victim: Option<Clip>)
    requires OneFileEach(clips) && entry.file !in Files(clips)
    ensures OneFileEach(KeptOfBank(Offered(clips, entry, victim)))
    ensures Files(KeptOfBank(Offered(clips, entry, victim))) <= Files(clips) + {entry.file}
    ensures forall c <- KeptOfBank(Offered(clips, entry, victim)) :: c == entry || c in clips
  {
    var offered := Offered(clips, entry, victim);
    OfferedOneFile(clips, entry, victim);
    RestrictOneFile(offered, IsSetAside);
    KeptOneFile(offered, SetAside(offered));
  }

  lemma BankKeepingKeepsBijection(s: State, p: PersonId, u: Utterance, entry: Clip, replaced: Option<FileName>,
                                  kept: seq<Clip>)
    requires InBijection(s) && p in s.people && entry.file == s.nextFile
    requires OneFileEach(kept) && Files(kept) <= Files(s.people[p].clips) + {entry.file}
    ensures InBijection(BankKeeping(s, p, u, entry, replaced, kept))
  {
    var before := s.people[p].clips;
    FilesOf(s.people, p);
    assert Files(before + [entry]) == Files(before) + {entry.file};
    SwapKeepsBijection(s, BankKeeping(s, p, u, entry, replaced, kept), p, kept);
  }

  lemma BankClipKeepsBijection(s: State, p: PersonId, u: Utterance, entry: Clip, victim: Option<Clip>)
    requires InBijection(s) && p in s.people && entry.file == s.nextFile
    ensures InBijection(BankClip(s, p, u, entry, victim))
  {
    FilesOf(s.people, p);
    KeptOfOffer(s.people[p].clips, entry, victim);
    BankKeepingKeepsBijection(s, p, u, entry, FileOf(victim),
                              KeptOfBank(Offered(s.people[p].clips, entry, victim)));
  }

  /** A state in which the settle rule has just taken a clip. */
  function Stamped(s: State, p: PersonId, now: nat): State
    requires p in s.people
  {
    s.(people := s.people[p := s.people[p].(settledAt := Some(now))])
  }

  lemma StampKeepsBijection(s: State, p: PersonId, now: nat)
    requires InBijection(s) && p in s.people
    ensures InBijection(Stamped(s, p, now))
  {
    FilesOf(s.people, p);
    SwapKeepsBijection(s, Stamped(s, p, now), p, s.people[p].clips);
  }

  lemma UpgradeKeepsBijection(s: State, p: PersonId, u: Utterance, now: nat, verdict: Option<bool>)
    requires InBijection(s) && p in s.people && u.passes
    requires u.dedupe && HeldCopy(s.disk, s.people[p].clips, u.sha).Some?
    ensures InBijection(AddClip(s, p, u, now, verdict).0)
  {
    var clips, k := s.people[p].clips, HeldCopy(s.disk, s.people[p].clips, u.sha).value;
    if Vouching(u.source) && !Protected(clips[k]) {
      var upgraded := clips[k := clips[k].(source := u.source)];
      FilesOf(s.people, p);
      SameFiles(clips, upgraded);
      SwapKeepsBijection(s, AddClip(s, p, u, now, verdict).0, p, upgraded);
    }
  }

  lemma AddKeepsBijection(s: State, p: PersonId, u: Utterance, now: nat, verdict: Option<bool>)
    requires InBijection(s)
    ensures InBijection(AddClip(s, p, u, now, verdict).0)
  {
    if u.passes && p in s.people {
      var person, entry := s.people[p], NewClip(u, s.nextFile, now);
      if u.dedupe && HeldCopy(s.disk, person.clips, u.sha).Some? {
        UpgradeKeepsBijection(s, p, u, now, verdict);
      } else if !Settles(person, u, verdict) {
        BankClipKeepsBijection(s, p, u, entry, None);
      } else {
        var offer := SettleOffer(person.clips, entry, now, person.settledAt);
        if offer.Take? {
          StampKeepsBijection(s, p, now);
          BankClipKeepsBijection(Stamped(s, p, now), p, u, entry, offer.victim);
        }
      }
    }
  }

  /** Clips changed in place keep their files. */
  lemma SameFiles(a: seq<Clip>, b: seq<Clip>)
    requires |a| == |b| && forall i | 0 <= i < |a| :: a[i].file == b[i].file
    ensures Files(a) == Files(b)
    ensures OneFileEach(a) ==> OneFileEach(b)
  {
    forall f | f in Files(a) ensures f in Files(b) {
      var i :| 0 <= i < |a| && a[i].file == f;
      assert b[i] in b;
    }
    forall f | f in Files(b) ensures f in Files(a) {
      var i :| 0 <= i < |b| && b[i].file == f;
      assert a[i] in a;
    }
  }

  lemma AuditKeepsBijection(s: State, p: PersonId, bad: set<FileName>)
    requires InBijection(s) && p in s.people
    ensures InBijection(AuditPerson(s, p, bad))
  {
    var clips := s.people[p].clips;
    var judged := JudgeAll(clips, bad);
    var evict := Overflow(judged);
    SameFiles(clips, judged);
    FilesOf(s.people, p);
    RestrictOneFile(judged, NotIn(Files(evict)));
    OverflowFrom(judged);
    var kept := Restrict(judged, NotIn(Files(evict)));
    assert Files(kept) == Files(judged) - Files(evict);
    SwapKeepsBijection(s, AuditPerson(s, p, bad), p, kept);
  }

  lemma OverflowFrom(clips: seq<Clip>)
    ensures forall c <- Overflow(clips) :: c in clips && c.quarantined
  {
    RestrictMembers(clips, IsSetAside);
    SortedPermutes(SetAside(clips), AgeKey);
    forall c <- Overflow(clips) ensures c in SetAside(clips) {
      assert c in Sorted(SetAside(clips), AgeKey);
      assert c in multiset(Sorted(SetAside(clips), AgeKey));
    }
  }
}
