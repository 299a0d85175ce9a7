/** Whole runs of the anchor store and its sync: every allowed step keeps the
    store in step with membro, and a forget is complete at any point. */
module Runs {
  import opened Wrappers
  import opened Ledger
  import opened Bank
  import opened Sorting
  import opened Store
  import opened Bijection
  import opened InStep
  import opened Passes

  // ---------- the invariant ----------

  ghost predicate NamesOk(w: World) {
    && Injective(w.names)
    && w.names.Keys == w.s.people.Keys
    && forall p <- w.s.people ::
         if w.s.people[p].slug.Some? then w.s.people[p].slug.value == w.names[p]
         else w.names[p] !in w.remote.Values
  }

  ghost predicate AllPlaced(w: World)
    requires w.names.Keys == w.s.people.Keys
  {
    forall p <- w.s.people :: forall c <- w.s.people[p].clips ::
      Placed(c, p, w.s.disk, w.s.book.rows, w.names, w.remote)
  }

  /** The addresses a clip answers to: its bytes' hash and its membro stamp. */
  function Handles(disk: Disk, c: Clip): set<Sha> {
    (if c.file in disk then {disk[c.file]} else {}) + (if c.stamp.Some? then {c.stamp.value} else {})
  }

  ghost predicate Apart(s: State) {
    forall p <- s.people, q <- s.people ::
      forall c <- s.people[p].clips, d <- s.people[q].clips | c.file != d.file ::
        Handles(s.disk, c) !! Handles(s.disk, d)
  }

  ghost predicate KeptInStep(w: World) {
    && InBijection(w.s)
    && NamesOk(w)
    && LedgerOk(w.s.book.rows, w.names, w.remote)
    && AllPlaced(w)
    && Apart(w.s)
  }

  lemma NamesKept(w: World, s': State)
    requires NamesOk(w) && s'.people.Keys == w.s.people.Keys
    requires forall p <- s'.people :: s'.people[p].slug == w.s.people[p].slug
    ensures NamesOk(w.(s := s'))
  {
  }

  // ---------- one bank changing ----------

  ghost predicate FromBank(c': Clip, clips: seq<Clip>) {
    exists c <- clips :: ClipFrom(c', c)
  }

  lemma HandlesInherited(c': Clip, c: Clip, disk: Disk, disk': Disk)
    requires ClipFrom(c', c) && forall f <- disk' :: f in disk && disk'[f] == disk[f]
    ensures Handles(disk', c') <= Handles(disk, c)
  {
  }

  /** Where a clip of the changed store came from. */
  ghost predicate Inherits(s: State, s': State) {
    && (forall p <- s'.people :: p in s.people && forall c <- s'.people[p].clips :: FromBank(c, s.people[p].clips))
    && forall f <- s'.disk :: f in s.disk && s'.disk[f] == s.disk[f]
  }

  lemma InheritsApart(s: State, s': State)
    requires Apart(s) && Inherits(s, s')
    ensures Apart(s')
  {
    forall p <- s'.people, q <- s'.people
      ensures forall c <- s'.people[p].clips, d <- s'.people[q].clips | c.file != d.file ::
                Handles(s'.disk, c) !! Handles(s'.disk, d)
    {
      forall c <- s'.people[p].clips, d <- s'.people[q].clips | c.file != d.file
        ensures Handles(s'.disk, c) !! Handles(s'.disk, d)
      {
        var c0 :| c0 in s.people[p].clips && ClipFrom(c, c0);
        var d0 :| d0 in s.people[q].clips && ClipFrom(d, d0);
        HandlesInherited(c, c0, s.disk, s'.disk);
        HandlesInherited(d, d0, s.disk, s'.disk);
      }
    }
  }

  lemma OnDisk(s: State, p: PersonId, c: Clip)
    requires InBijection(s) && p in s.people && c in s.people[p].clips
    ensures c.file in s.disk
  {
    FilesOf(s.people, p);
    assert c.file in Files(s.people[p].clips);
  }

  /** Banks only lose clips or stamps, and the ledger only gains deletes. */
  lemma LosingKeepsInStep(w: World, s': State)
    requires KeptInStep(w) && InBijection(s') && Inherits(w.s, s')
    requires s'.people.Keys == w.s.people.Keys
    requires forall p <- s'.people :: s'.people[p].slug == w.s.people[p].slug
    requires LedgerOk(s'.book.rows, w.names, w.remote)
    requires Lessens(w.s.book.rows, s'.book.rows, w.names, w.remote)
    ensures KeptInStep(w.(s := s'))
  {
    InheritsApart(w.s, s');
    forall p <- s'.people, c' <- s'.people[p].clips
      ensures Placed(c', p, s'.disk, s'.book.rows, w.names, w.remote)
    {
      var c :| c in w.s.people[p].clips && ClipFrom(c', c);
      OnDisk(s', p, c');
      PlacedInherited(c', c, p, w.s.disk, s'.disk, w.s.book.rows, s'.book.rows, w.names, w.remote);
    }
  }

  lemma DeletedLedger(w: World, p: PersonId, c: Clip)
    requires InBijection(w.s) && w.names.Keys == w.s.people.Keys && AllPlaced(w)
    requires LedgerOk(w.s.book.rows, w.names, w.remote)
    requires p in w.s.people && c in w.s.people[p].clips
    ensures
      var rows := w.s.book.rows;
      var rows' := if Address(w.s.disk, c).Some? then rows + [Delete(w.s.book.next, p, None, Address(w.s.disk, c).value, None)]
                   else rows;
      LedgerOk(rows', w.names, w.remote) && Lessens(rows, rows', w.names, w.remote)
  {
    assert Placed(c, p, w.s.disk, w.s.book.rows, w.names, w.remote);
    if Address(w.s.disk, c).Some? {
      DeleteRowOk(w.s.book.rows, w.names, w.remote, w.s.book.next, p, Address(w.s.disk, c).value, None);
    }
  }

  lemma RestrictFromBank(clips: seq<Clip>, keep: Clip -> bool)
    ensures forall c <- Restrict(clips, keep) :: FromBank(c, clips)
  {
    RestrictMembers(clips, keep);
    forall c <- Restrict(clips, keep) ensures FromBank(c, clips) {
      assert ClipFrom(c, c);
    }
  }

  /** One bank replaced: the same people, under the same slugs. */
  lemma OneBankPeople(people: People, people': People, p: PersonId, clips: seq<Clip>)
    requires p in people && people' == people[p := people[p].(clips := clips)]
    ensures people'.Keys == people.Keys
    ensures forall q <- people' :: people'[q].slug == people[q].slug
  {}

  /** One bank only loses clips or stamps, and the ledger only gains deletes. */
  lemma BankLoses(w: World, s': State, p: PersonId, clips: seq<Clip>)
    requires KeptInStep(w) && p in w.s.people && InBijection(s')
    requires s'.people == w.s.people[p := w.s.people[p].(clips := clips)]
    requires forall c <- clips :: FromBank(c, w.s.people[p].clips)
    requires forall f <- s'.disk :: f in w.s.disk && s'.disk[f] == w.s.disk[f]
    requires LedgerOk(s'.book.rows, w.names, w.remote)
    requires Lessens(w.s.book.rows, s'.book.rows, w.names, w.remote)
    ensures KeptInStep(w.(s := s'))
  {
    OneBankPeople(w.s.people, s'.people, p, clips);
    OneBankInherits(w.s, s', p, clips);
    LosingKeepsInStep(w, s');
  }

  lemma OneBankInherits(s: State, s': State, p: PersonId, clips: seq<Clip>)
    requires p in s.people && s'.people == s.people[p := s.people[p].(clips := clips)]
    requires forall c <- clips :: FromBank(c, s.people[p].clips)
    requires forall f <- s'.disk :: f in s.disk && s'.disk[f] == s.disk[f]
    ensures Inherits(s, s')
  {
    forall q <- s'.people, c <- s'.people[q].clips ensures FromBank(c, s.people[q].clips) {
      if q != p {
        assert ClipFrom(c, c);
      }
    }
  }

  lemma DeleteKeepsInStep(w: World, p: PersonId, file: FileName)
    requires KeptInStep(w)
    ensures KeptInStep(w.(s := DeleteClip(w.s, p, file).0))
  {
    var s' := DeleteClip(w.s, p, file).0;
    DeleteKeepsBijection(w.s, p, file);
    if p in w.s.people && FindFile(w.s.people[p].clips, file).Some? {
      RestrictFromBank(w.s.people[p].clips, NotFile(file));
      DeletedLedger(w, p, FindFile(w.s.people[p].clips, file).value);
      BankLoses(w, s', p, s'.people[p].clips);
    }
  }

  lemma RetractKeepsInStep(w: World, p: PersonId, slices: set<FileName>)
    requires KeptInStep(w)
    ensures KeptInStep(w.(s := Retract(w.s, p, slices).0))
  {
    var s, s' := w.s, Retract(w.s, p, slices).0;
    RetractKeepsBijection(s, p, slices);
    if p in s.people && Restrict(s.people[p].clips, IsContested(slices)) != [] {
      RestrictMembers(s.people[p].clips, IsContested(slices));
      NoteDeletesOk(s.book, s.disk, p, Restrict(s.people[p].clips, IsContested(slices)), w.names, w.remote);
      RestrictFromBank(s.people[p].clips, Uncontested(slices));
      BankLoses(w, s', p, s'.people[p].clips);
    }
  }

  /** A judged clip, once the drops of the audit are noted. */
  lemma JudgedPlaced(w: World, p: PersonId, bad: set<FileName>, rows': seq<Row>, i: nat)
    requires InBijection(w.s) && w.names.Keys == w.s.people.Keys && AllPlaced(w)
    requires p in w.s.people && i < |w.s.people[p].clips| && Lessens(w.s.book.rows, rows', w.names, w.remote)
    ensures Placed(Judge(w.s.people[p].clips[i], bad), p, w.s.disk, rows', w.names, w.remote)
  {
    var c := w.s.people[p].clips[i];
    assert c in w.s.people[p].clips;
    OnDisk(w.s, p, c);
    PlacedInherited(Judge(c, bad), c, p, w.s.disk, w.s.disk, w.s.book.rows, rows', w.names, w.remote);
  }

  /** The drops of one person's audit: those of the judgement, then the overflow's. */
  lemma AuditLedger(w: World, p: PersonId, bad: set<FileName>)
    requires KeptInStep(w) && p in w.s.people
    requires CountDrops(w.s.book.rows) + 2 * |w.s.people[p].clips| <= DROP_ROWS_MAX
    ensures LedgerOk(AuditPerson(w.s, p, bad).book.rows, w.names, w.remote)
    ensures Lessens(w.s.book.rows, AuditPerson(w.s, p, bad).book.rows, w.names, w.remote)
  {
    var s, clips, known := w.s, w.s.people[p].clips, w.s.people[p].slug.Some?;
    var judged := JudgeAll(clips, bad);
    JudgeDropsOk(s.book, s.disk, p, known, clips, bad, w.names, w.remote);
    var mid := JudgeDrops(s.book, s.disk, p, known, clips, bad);
    OverflowFrom(judged);
    OverflowSize(judged);
    forall c' <- Overflow(judged) ensures Placed(c', p, s.disk, mid.rows, w.names, w.remote) {
      var i :| 0 <= i < |judged| && judged[i] == c';
      JudgedPlaced(w, p, bad, mid.rows, i);
    }
    DropMissingOk(mid, s.disk, p, known, Overflow(judged), {}, None, w.names, w.remote);
    LessensTransitive(s.book.rows, mid.rows, AuditPerson(s, p, bad).book.rows, w.names, w.remote);
  }

  lemma JudgedFromBank(clips: seq<Clip>, bad: set<FileName>)
    ensures forall c' <- JudgeAll(clips, bad) :: FromBank(c', clips)
  {
    forall c' <- JudgeAll(clips, bad) ensures FromBank(c', clips) {
      var i :| 0 <= i < |clips| && JudgeAll(clips, bad)[i] == c';
      assert ClipFrom(c', clips[i]);
    }
  }

  lemma AuditKeepsInStep(w: World, p: PersonId, bad: set<FileName>)
    requires KeptInStep(w) && p in w.s.people
    requires CountDrops(w.s.book.rows) + 2 * |w.s.people[p].clips| <= DROP_ROWS_MAX
    ensures KeptInStep(w.(s := AuditPerson(w.s, p, bad)))
  {
    var clips, s' := w.s.people[p].clips, AuditPerson(w.s, p, bad);
    var judged := JudgeAll(clips, bad);
    AuditKeepsBijection(w.s, p, bad);
    AuditLedger(w, p, bad);
    JudgedFromBank(clips, bad);
    RestrictMembers(judged, NotIn(Files(Overflow(judged))));
    BankLoses(w, s', p, s'.people[p].clips);
  }

  lemma OverflowSize(clips: seq<Clip>)
    ensures |Overflow(clips)| <= |clips|
  {
    RestrictSplits(clips, IsSetAside, Active);
    SortedPermutes(SetAside(clips), AgeKey);
  }

  lemma LessensTransitive(a: seq<Row>, b: seq<Row>, c: seq<Row>, names: Names, remote: Remote)
    requires Lessens(a, b, names, remote) && Lessens(b, c, names, remote)
    ensures Lessens(a, c, names, remote)
  {
    forall sha ensures End(c, names, remote, sha) == None
                       || End(c, names, remote, sha) == End(a, names, remote, sha)
    {
      assert End(b, names, remote, sha) == None || End(b, names, remote, sha) == End(a, names, remote, sha);
    }
  }

  // ---------- a clip banked ----------

  /** Neither the recording's bytes nor its stamp is one this clip answers to. */
  ghost predicate NewTo(u: Utterance, disk: Disk, c: Clip) {
    u.sha !in Handles(disk, c) && (u.stamp.Some? ==> u.stamp.value !in Handles(disk, c))
  }

  /** The recording's bytes are new to the store, and where membro will hold them
      it holds them under this very person; a clip pulled from membro and trimmed
      here has bytes membro never held. */
  ghost predicate NewRecording(w: World, p: PersonId, u: Utterance)
    requires p in w.names
  {
    && (forall q <- w.s.people, c <- w.s.people[q].clips :: NewTo(u, w.s.disk, c))
    && (u.stamp.Some? && u.stamp != Some(u.sha) ==> End(w.s.book.rows, w.names, w.remote, u.sha).None?)
    && var end := End(w.s.book.rows, w.names, w.remote, if u.stamp.Some? then u.stamp.value else u.sha);
       end.None? || end == Some(w.names[p])
  }

  /** The store with the new clip in the bank and nothing rotated yet. */
  function Unrotated(s: State, p: PersonId, u: Utterance, entry: Clip): State
    requires p in s.people
  {
    s.(people := s.people[p := s.people[p].(clips := s.people[p].clips + [entry])],
       disk := s.disk[entry.file := u.sha],
       nextFile := s.nextFile + 1)
  }

  lemma UnrotatedFrom(s: State, p: PersonId, u: Utterance, entry: Clip, q: PersonId, c: Clip)
    requires InBijection(s) && p in s.people && entry.file == s.nextFile
    requires q in s.people && c in Unrotated(s, p, u, entry).people[q].clips
    ensures (q == p && c == entry) || (c in s.people[q].clips && c.file in s.disk && c.file != entry.file)
  {
    assert entry.file !in s.disk;
    if c in s.people[q].clips {
      OnDisk(s, q, c);
    }
  }

  lemma UnrotatedPlaced(w: World, p: PersonId, u: Utterance, entry: Clip)
    requires InBijection(w.s) && w.names.Keys == w.s.people.Keys && AllPlaced(w)
    requires p in w.s.people && NewRecording(w, p, u)
    requires entry.file == w.s.nextFile && entry.stamp == u.stamp
    ensures AllPlaced(w.(s := Unrotated(w.s, p, u, entry)))
  {
    var s, s' := w.s, Unrotated(w.s, p, u, entry);
    forall q <- s'.people, c <- s'.people[q].clips
      ensures Placed(c, q, s'.disk, s'.book.rows, w.names, w.remote)
    {
      UnrotatedFrom(s, p, u, entry, q, c);
      if c != entry {
        assert Placed(c, q, s.disk, s.book.rows, w.names, w.remote);
      }
    }
  }

  /** The new clip answers to no address a held one answers to. */
  lemma NewClipApart(w: World, p: PersonId, u: Utterance, entry: Clip, q: PersonId, c: Clip)
    requires p in w.names && NewRecording(w, p, u) && entry.stamp == u.stamp
    requires q in w.s.people && c in w.s.people[q].clips && c.file in w.s.disk && c.file != entry.file
    ensures var disk' := w.s.disk[entry.file := u.sha];
            Handles(disk', c) == Handles(w.s.disk, c) && Handles(disk', entry) !! Handles(disk', c)
  {
    assert NewTo(u, w.s.disk, c);
  }

  lemma UnrotatedPairApart(w: World, p: PersonId, u: Utterance, entry: Clip, q: PersonId, r: PersonId, c: Clip, d: Clip)
    requires InBijection(w.s) && Apart(w.s) && p in w.s.people && p in w.names && NewRecording(w, p, u)
    requires entry.file == w.s.nextFile && entry.stamp == u.stamp
    requires q in w.s.people && c in Unrotated(w.s, p, u, entry).people[q].clips
    requires r in w.s.people && d in Unrotated(w.s, p, u, entry).people[r].clips && c.file != d.file
    ensures Handles(Unrotated(w.s, p, u, entry).disk, c) !! Handles(Unrotated(w.s, p, u, entry).disk, d)
  {
    UnrotatedFrom(w.s, p, u, entry, q, c);
    UnrotatedFrom(w.s, p, u, entry, r, d);
    if c.file != entry.file {
      NewClipApart(w, p, u, entry, q, c);
    }
    if d.file != entry.file {
      NewClipApart(w, p, u, entry, r, d);
    }
    assert c.file != entry.file && d.file != entry.file ==> Handles(w.s.disk, c) !! Handles(w.s.disk, d);
  }

  lemma UnrotatedApart(w: World, p: PersonId, u: Utterance, entry: Clip)
    requires InBijection(w.s) && Apart(w.s) && p in w.s.people && p in w.names && NewRecording(w, p, u)
    requires entry.file == w.s.nextFile && entry.stamp == u.stamp
    ensures Apart(Unrotated(w.s, p, u, entry))
  {
    var s' := Unrotated(w.s, p, u, entry);
    forall q <- s'.people, r <- s'.people, c <- s'.people[q].clips, d <- s'.people[r].clips | c.file != d.file
      ensures Handles(s'.disk, c) !! Handles(s'.disk, d)
    {
      UnrotatedPairApart(w, p, u, entry, q, r, c, d);
    }
  }

  lemma UnrotatedBijection(s: State, p: PersonId, u: Utterance, entry: Clip)
    requires InBijection(s) && p in s.people && entry.file == s.nextFile
    ensures InBijection(Unrotated(s, p, u, entry))
  {
    PuttingInKeepsBijection(s.(nextFile := s.nextFile + 1), Unrotated(s, p, u, entry), p, entry);
  }

  lemma UnrotatedInStep(w: World, p: PersonId, u: Utterance, entry: Clip)
    requires KeptInStep(w) && p in w.s.people && NewRecording(w, p, u)
    requires entry.file == w.s.nextFile && entry.stamp == u.stamp
    ensures KeptInStep(w.(s := Unrotated(w.s, p, u, entry)))
  {
    UnrotatedBijection(w.s, p, u, entry);
    NamesKept(w, Unrotated(w.s, p, u, entry));
    UnrotatedPlaced(w, p, u, entry);
    UnrotatedApart(w, p, u, entry);
  }

  lemma BankClipKeepsInStep(w: World, p: PersonId, u: Utterance, entry: Clip, victim: Option<Clip>)
    requires KeptInStep(w) && p in w.s.people && NewRecording(w, p, u)
    requires entry.file == w.s.nextFile && entry.stamp == u.stamp
    requires CountDrops(w.s.book.rows) + |w.s.people[p].clips| <= DROP_ROWS_MAX
    ensures KeptInStep(w.(s := BankClip(w.s, p, u, entry, victim)))
  {
    var s, mid := w.s, Unrotated(w.s, p, u, entry);
    var kept := KeptOfBank(Offered(s.people[p].clips, entry, victim));
    UnrotatedInStep(w, p, u, entry);
    BankClipKeepsBijection(s, p, u, entry, victim);
    FilesOf(s.people, p);
    KeptOfOffer(s.people[p].clips, entry, victim);
    BankKeepingKeepsInStep(w, p, u, entry, FileOf(victim), kept);
  }

  lemma BankKeepingKeepsInStep(w: World, p: PersonId, u: Utterance, entry: Clip, replaced: Option<FileName>,
                               kept: seq<Clip>)
    requires p in w.s.people && entry.file !in w.s.disk
    requires KeptInStep(w.(s := Unrotated(w.s, p, u, entry)))
    requires InBijection(BankKeeping(w.s, p, u, entry, replaced, kept))
    requires forall c <- kept :: c == entry || c in w.s.people[p].clips
    requires CountDrops(w.s.book.rows) + |w.s.people[p].clips| <= DROP_ROWS_MAX
    ensures KeptInStep(w.(s := BankKeeping(w.s, p, u, entry, replaced, kept)))
  {
    var mid, s' := Unrotated(w.s, p, u, entry), BankKeeping(w.s, p, u, entry, replaced, kept);
    BankKeepingLedger(w, p, u, entry, replaced, kept);
    forall c' <- kept ensures FromBank(c', mid.people[p].clips) {
      assert c' in mid.people[p].clips && ClipFrom(c', c');
    }
    assert s'.people == mid.people[p := mid.people[p].(clips := kept)];
    BankLoses(w.(s := mid), s', p, kept);
  }

  /** The drops of a rotation. */
  lemma BankKeepingLedger(w: World, p: PersonId, u: Utterance, entry: Clip, replaced: Option<FileName>, kept: seq<Clip>)
    requires p in w.s.people && KeptInStep(w.(s := Unrotated(w.s, p, u, entry)))
    requires CountDrops(w.s.book.rows) + |w.s.people[p].clips| <= DROP_ROWS_MAX
    ensures LedgerOk(BankKeeping(w.s, p, u, entry, replaced, kept).book.rows, w.names, w.remote)
    ensures Lessens(w.s.book.rows, BankKeeping(w.s, p, u, entry, replaced, kept).book.rows, w.names, w.remote)
  {
    var mid, before := Unrotated(w.s, p, u, entry), w.s.people[p].clips;
    forall c <- before ensures Placed(c, p, mid.disk, mid.book.rows, w.names, w.remote) {
      assert c in mid.people[p].clips;
    }
    DropMissingOk(mid.book, mid.disk, p, w.s.people[p].slug.Some?, before, Files(kept), replaced, w.names, w.remote);
  }

  /** A human confirming a turn the bank already holds. */
  lemma UpgradeKeepsInStep(w: World, p: PersonId, u: Utterance, now: nat, verdict: Option<bool>)
    requires KeptInStep(w) && p in w.s.people && u.passes
    requires u.dedupe && HeldCopy(w.s.disk, w.s.people[p].clips, u.sha).Some?
    ensures KeptInStep(w.(s := AddClip(w.s, p, u, now, verdict).0))
  {
    var clips := w.s.people[p].clips;
    AddKeepsBijection(w.s, p, u, now, verdict);
    var k := HeldCopy(w.s.disk, clips, u.sha).value;
    if Vouching(u.source) && !Protected(clips[k]) {
      RelabelKeepsInStep(w, AddClip(w.s, p, u, now, verdict).0, p, clips[k := clips[k].(source := u.source)]);
    }
  }

  lemma RelabelKeepsInStep(w: World, s': State, p: PersonId, clips: seq<Clip>)
    requires KeptInStep(w) && p in w.s.people && InBijection(s')
    requires s'.people == w.s.people[p := w.s.people[p].(clips := clips)]
    requires s'.book == w.s.book && s'.disk == w.s.disk
    requires |clips| == |w.s.people[p].clips|
    requires forall i | 0 <= i < |clips| :: ClipFrom(clips[i], w.s.people[p].clips[i])
    ensures KeptInStep(w.(s := s'))
  {
    AlikeFromBank(clips, w.s.people[p].clips);
    BankLoses(w, s', p, clips);
  }

  lemma AlikeFromBank(clips: seq<Clip>, before: seq<Clip>)
    requires |clips| == |before| && forall i | 0 <= i < |clips| :: ClipFrom(clips[i], before[i])
    ensures forall c' <- clips :: FromBank(c', before)
  {
    forall c' <- clips ensures FromBank(c', before) {
      var i :| 0 <= i < |clips| && clips[i] == c';
      assert before[i] in before;
    }
  }

  /** The store with the same banks, files and ledger: only a person's own fields
      differ. */
  ghost predicate SameBanks(s: State, s': State) {
    && s'.people.Keys == s.people.Keys && s'.book == s.book && s'.disk == s.disk
    && forall q <- s.people :: s'.people[q].clips == s.people[q].clips
  }

  lemma SameBanksApart(s: State, s': State)
    requires Apart(s) && SameBanks(s, s')
    ensures Apart(s')
  {
    forall p <- s'.people, q <- s'.people, c <- s'.people[p].clips, d <- s'.people[q].clips | c.file != d.file
      ensures Handles(s'.disk, c) !! Handles(s'.disk, d)
    {
      assert c in s.people[p].clips && d in s.people[q].clips;
    }
  }

  lemma SameBanksPlaced(w: World, s': State)
    requires w.names.Keys == w.s.people.Keys && AllPlaced(w) && SameBanks(w.s, s')
    ensures AllPlaced(w.(s := s'))
  {
    forall q <- s'.people, c <- s'.people[q].clips
      ensures Placed(c, q, s'.disk, s'.book.rows, w.names, w.remote)
    {
      assert c in w.s.people[q].clips;
    }
  }

  /** Stamping the settle rule's last take. */
  lemma StampKeepsInStep(w: World, p: PersonId, now: nat)
    requires KeptInStep(w) && p in w.s.people
    ensures KeptInStep(w.(s := Stamped(w.s, p, now)))
  {
    var s' := Stamped(w.s, p, now);
    StampKeepsBijection(w.s, p, now);
    NamesKept(w, s');
    SameBanksApart(w.s, s');
    SameBanksPlaced(w, s');
  }

  lemma AddKeepsInStep(w: World, p: PersonId, u: Utterance, now: nat, verdict: Option<bool>)
    requires KeptInStep(w)
    requires p in w.s.people ==>
               || NewRecording(w, p, u)
               || (u.dedupe && HeldCopy(w.s.disk, w.s.people[p].clips, u.sha).Some?)
    requires p in w.s.people ==> CountDrops(w.s.book.rows) + |w.s.people[p].clips| <= DROP_ROWS_MAX
    ensures KeptInStep(w.(s := AddClip(w.s, p, u, now, verdict).0))
  {
    if u.passes && p in w.s.people {
      var person := w.s.people[p];
      var entry := NewClip(u, w.s.nextFile, now);
      if u.dedupe && HeldCopy(w.s.disk, person.clips, u.sha).Some? {
        UpgradeKeepsInStep(w, p, u, now, verdict);
      } else if !Settles(person, u, verdict) {
        BankClipKeepsInStep(w, p, u, entry, None);
      } else {
        var offer := SettleOffer(person.clips, entry, now, person.settledAt);
        if offer.Take? {
          StampKeepsInStep(w, p, now);
          StillNew(w, p, u, now);
          BankClipKeepsInStep(w.(s := Stamped(w.s, p, now)), p, u, entry, offer.victim);
        }
      }
    }
  }

  lemma StillNew(w: World, p: PersonId, u: Utterance, now: nat)
    requires p in w.s.people && p in w.names && NewRecording(w, p, u)
    ensures NewRecording(w.(s := Stamped(w.s, p, now)), p, u)
  {
    var s' := Stamped(w.s, p, now);
    forall q <- s'.people, c <- s'.people[q].clips ensures NewTo(u, w.s.disk, c) {
      assert c in w.s.people[q].clips;
    }
  }

  // ---------- a clip moved ----------

  /** Each clip of the store after a move, traced back. */
  lemma MovedFrom(s: State, p: PersonId, file: FileName, to: PersonId, q: PersonId, c': Clip)
    returns (r: PersonId, c: Clip)
    requires InBijection(s) && p != to && p in s.people && to in s.people && FindFile(s.people[p].clips, file).Some?
    requires q in s.people && c' in MoveClip(s, p, file, to).0.people[q].clips
    ensures r in s.people && c in s.people[r].clips && c'.file == c.file && c'.stamp == c.stamp && c.file in s.disk
    ensures if c'.file == file then r == p && q == to else r == q && c' == c
  {
    RestrictMembers(s.people[p].clips, NotFile(file));
    var clip := FindFile(s.people[p].clips, file).value;
    OnDisk(s, p, clip);
    assert file in Files(s.people[p].clips);
    assert c' in s.people[q].clips ==> c'.file in Files(s.people[q].clips);
    if c'.file != file {
      r, c := q, c';
      OnDisk(s, q, c);
    } else {
      r, c := p, clip;
    }
  }

  lemma MoveRow(w: World, p: PersonId, file: FileName, to: PersonId) returns (sha: Sha)
    requires InBijection(w.s) && w.names.Keys == w.s.people.Keys && AllPlaced(w)
    requires LedgerOk(w.s.book.rows, w.names, w.remote)
    requires p != to && p in w.s.people && to in w.s.people && FindFile(w.s.people[p].clips, file).Some?
    ensures Address(w.s.disk, FindFile(w.s.people[p].clips, file).value) == Some(sha)
    ensures MoveClip(w.s, p, file, to).0.book.rows == w.s.book.rows + [Move(w.s.book.next, p, None, to, sha)]
    ensures LedgerOk(MoveClip(w.s, p, file, to).0.book.rows, w.names, w.remote)
    ensures forall h :: End(MoveClip(w.s, p, file, to).0.book.rows, w.names, w.remote, h)
                        == StepAt(Move(w.s.book.next, p, None, to, sha), w.names, h,
                                  End(w.s.book.rows, w.names, w.remote, h))
  {
    var clip := FindFile(w.s.people[p].clips, file).value;
    OnDisk(w.s, p, clip);
    sha := Address(w.s.disk, clip).value;
    assert Placed(clip, p, w.s.disk, w.s.book.rows, w.names, w.remote);
    OneMoreRow(w.s.book.rows, Move(w.s.book.next, p, None, to, sha), w.names, w.remote);
  }

  /** A move row leaves every clip but the moved one where it was. */
  lemma MovedPlacedOne(w: World, p: PersonId, file: FileName, to: PersonId, q: PersonId, c': Clip)
    requires KeptInStep(w)
    requires p != to && p in w.s.people && to in w.s.people && FindFile(w.s.people[p].clips, file).Some?
    requires q in w.s.people && c' in MoveClip(w.s, p, file, to).0.people[q].clips
    ensures Placed(c', q, w.s.disk, MoveClip(w.s, p, file, to).0.book.rows, w.names, w.remote)
  {
    var s, clip := w.s, FindFile(w.s.people[p].clips, file).value;
    var sha := MoveRow(w, p, file, to);
    var r, c := MovedFrom(s, p, file, to, q, c');
    assert Placed(c, r, s.disk, s.book.rows, w.names, w.remote);
    if c'.file == file {
      OneFileSame(s.people[p].clips, c, clip);
    } else {
      assert Handles(s.disk, clip) !! Handles(s.disk, c);
    }
    PlacedAfterMove(c, c', r, q, s.disk, s.book.rows, MoveClip(s, p, file, to).0.book.rows,
                    Move(s.book.next, p, None, to, sha), w.names, w.remote);
  }

  lemma PlacedAfterMove(c: Clip, c': Clip, r: PersonId, q: PersonId, disk: Disk, rows: seq<Row>, rows': seq<Row>,
                        row: Row, names: Names, remote: Remote)
    requires r in names && q in names && Placed(c, r, disk, rows, names, remote)
    requires c'.file == c.file && c'.stamp == c.stamp && row.Move? && row.src in names && row.srcSlug.None?
    requires c.file in disk
    requires forall h :: End(rows', names, remote, h) == StepAt(row, names, h, End(rows, names, remote, h))
    requires if Address(disk, c) == Some(row.sha) then r == row.src && q == row.dst
             else r == q && row.sha !in Handles(disk, c)
    ensures Placed(c', q, disk, rows', names, remote)
  {
  }

  lemma MovedPlaced(w: World, p: PersonId, file: FileName, to: PersonId)
    requires KeptInStep(w)
    requires p != to && p in w.s.people && to in w.s.people && FindFile(w.s.people[p].clips, file).Some?
    ensures AllPlaced(w.(s := MoveClip(w.s, p, file, to).0))
  {
    var s' := MoveClip(w.s, p, file, to).0;
    forall q <- s'.people, c' <- s'.people[q].clips
      ensures Placed(c', q, s'.disk, s'.book.rows, w.names, w.remote)
    {
      MovedPlacedOne(w, p, file, to, q, c');
    }
  }

  /** Two clips of the store after a move answer to no address in common. */
  lemma MovedPairApart(s: State, p: PersonId, file: FileName, to: PersonId, q: PersonId, r: PersonId, c': Clip, d': Clip)
    requires InBijection(s) && Apart(s)
    requires p != to && p in s.people && to in s.people && FindFile(s.people[p].clips, file).Some?
    requires q in s.people && c' in MoveClip(s, p, file, to).0.people[q].clips
    requires r in s.people && d' in MoveClip(s, p, file, to).0.people[r].clips && c'.file != d'.file
    ensures Handles(s.disk, c') !! Handles(s.disk, d')
  {
    var q0, c := MovedFrom(s, p, file, to, q, c');
    var r0, d := MovedFrom(s, p, file, to, r, d');
    assert Handles(s.disk, c) !! Handles(s.disk, d);
  }

  lemma MovedApart(w: World, p: PersonId, file: FileName, to: PersonId)
    requires InBijection(w.s) && Apart(w.s)
    requires p != to && p in w.s.people && to in w.s.people && FindFile(w.s.people[p].clips, file).Some?
    ensures Apart(MoveClip(w.s, p, file, to).0)
  {
    var s, s' := w.s, MoveClip(w.s, p, file, to).0;
    forall q <- s'.people, r <- s'.people, c' <- s'.people[q].clips, d' <- s'.people[r].clips | c'.file != d'.file
      ensures Handles(s'.disk, c') !! Handles(s'.disk, d')
    {
      MovedPairApart(s, p, file, to, q, r, c', d');
    }
  }

  lemma MovedPeople(s: State, p: PersonId, file: FileName, to: PersonId)
    requires p in s.people && to in s.people
    ensures var s' := MoveClip(s, p, file, to).0;
            s'.people.Keys == s.people.Keys && forall q <- s'.people :: s'.people[q].slug == s.people[q].slug
  {}

  lemma MoveKeepsInStep(w: World, p: PersonId, file: FileName, to: PersonId)
    requires KeptInStep(w)
    ensures KeptInStep(w.(s := MoveClip(w.s, p, file, to).0))
  {
    if p != to && p in w.s.people && to in w.s.people && FindFile(w.s.people[p].clips, file).Some? {
      MoveKeepsBijection(w.s, p, file, to);
      var sha := MoveRow(w, p, file, to);
      MovedPeople(w.s, p, file, to);
      NamesKept(w, MoveClip(w.s, p, file, to).0);
      MovedPlaced(w, p, file, to);
      MovedApart(w, p, file, to);
    }
  }

  // ---------- forget ----------

  lemma SoundLedger(w: World, rows: seq<Row>)
    requires NamesOk(w) && LedgerOk(rows, w.names, w.remote)
    ensures Sound(rows, w.names) && AllWellNamed(rows, w.names)
  {
    forall row <- rows ensures Lands(row, w.names) {
      assert WellNamed(row, w.names) && Nameable(row, w.names.Keys);
    }
  }

  /** What a forget leaves of the ledger. */
  lemma ForgetLedger(w: World, p: PersonId, record: bool)
    requires NamesOk(w) && p in w.s.people && LedgerOk(w.s.book.rows, w.names, w.remote)
    ensures
      var rows' := ForgetPerson(w.s, p, record).0.book.rows;
      && LedgerOk(rows', w.names - {p}, w.remote)
      && forall sha :: End(rows', w.names - {p}, w.remote, sha) == None
                       || End(rows', w.names - {p}, w.remote, sha) == End(w.s.book.rows, w.names, w.remote, sha)
  {
    var rows, slug, names' := w.s.book.rows, w.s.people[p].slug, w.names - {p};
    var out := Settle(rows, p, slug, None).out;
    SoundLedger(w, rows);
    SettledWellNamed(rows, w.names, p, slug, None);
    SettledRowsCanLand(rows, w.names.Keys, p, slug, None);
    assert names'.Keys == w.names.Keys - {p};
    forall sha
      ensures Followed(out, names', sha, At(w.remote, sha))
      ensures End(out, names', w.remote, sha) == None
              || End(out, names', w.remote, sha) == End(rows, w.names, w.remote, sha)
    {
      SettledForForgetFollows(rows, w.names, p, slug, sha, At(w.remote, sha));
      ForgottenWalkIs(rows, w.names, p, slug, sha, At(w.remote, sha));
    }
    if record && slug.Some? {
      GoneNameUnused(w.names, p);
      OneMoreRow(out, Forget(w.s.book.next, slug.value), names', w.remote);
    }
  }

  lemma ForgetPlaced(w: World, p: PersonId, record: bool)
    requires KeptInStep(w) && p in w.s.people && InBijection(ForgetPerson(w.s, p, record).0)
    ensures (w.names - {p}).Keys == ForgetPerson(w.s, p, record).0.people.Keys
    ensures AllPlaced(World(ForgetPerson(w.s, p, record).0, w.remote, w.names - {p}))
  {
    var s, s' := w.s, ForgetPerson(w.s, p, record).0;
    var names' := w.names - {p};
    ForgetLedger(w, p, record);
    assert names'.Keys == s'.people.Keys;
    forall q <- s'.people, c <- s'.people[q].clips
      ensures Placed(c, q, s'.disk, s'.book.rows, names', w.remote)
    {
      OnDisk(s', q, c);
      ForgetPlacedOne(w, c, q, p, s', names');
    }
  }

  lemma ForgetPlacedOne(w: World, c: Clip, q: PersonId, p: PersonId, s': State, names': Names)
    requires q in w.names && q in names' && names'[q] == w.names[q]
    requires Placed(c, q, w.s.disk, w.s.book.rows, w.names, w.remote)
    requires c.file in w.s.disk && c.file in s'.disk && s'.disk[c.file] == w.s.disk[c.file]
    requires forall sha :: End(s'.book.rows, names', w.remote, sha) == None
                           || End(s'.book.rows, names', w.remote, sha) == End(w.s.book.rows, w.names, w.remote, sha)
    ensures Placed(c, q, s'.disk, s'.book.rows, names', w.remote)
  {
  }

  lemma ForgetKeepsInStep(w: World, p: PersonId, record: bool)
    requires KeptInStep(w) && p in w.s.people
    ensures KeptInStep(World(ForgetPerson(w.s, p, record).0, w.remote, w.names - {p}))
  {
    var s, s' := w.s, ForgetPerson(w.s, p, record).0;
    ForgetKeepsBijection(s, p, record);
    ForgetLedger(w, p, record);
    ForgetPlaced(w, p, record);
    NamesLeft(w, p, s');
    forall q <- s'.people, c <- s'.people[q].clips ensures FromBank(c, s.people[q].clips) {
      assert ClipFrom(c, c);
    }
    InheritsApart(s, s');
  }

  lemma NamesLeft(w: World, p: PersonId, s': State)
    requires NamesOk(w) && p in w.s.people && s'.people.Keys == w.s.people.Keys - {p}
    requires forall q <- s'.people :: s'.people[q].slug == w.s.people[q].slug
    ensures NamesOk(World(s', w.remote, w.names - {p}))
  {
    var names' := w.names - {p};
    assert names'.Keys == s'.people.Keys;
    assert Injective(names');
  }

  /** The people a sync pass can see: those membro has given a slug. */
  function Known(w: World): Names {
    map p | p in w.names && p in w.s.people && w.s.people[p].slug.Some? :: w.names[p]
  }

  /** What a pass after the forget may see: everyone left whom membro knows, and
      perhaps some it learns of before. */
  ghost predicate Sees(w: World, p: PersonId, known: Names) {
    PartOf(known, w.names - {p}) && PartOf(Known(w) - {p}, known)
  }

  /** Once the forget has returned and a pass has replayed the settled ledger, no
      clip the person held is under any slug in membro, none of their files is on
      disk, and in membro nothing at all is left under them. */
  ghost predicate ForgottenCompletely(w: World, p: PersonId, known: Names)
    requires p in w.s.people && p in w.names
  {
    var s' := ForgetPerson(w.s, p, true).0;
    var remote' := Replay(w.remote, s'.book.rows, known);
    && (forall c <- w.s.people[p].clips ::
          c.file !in s'.disk && Address(w.s.disk, c).Some? && Address(w.s.disk, c).value !in remote')
    && forall sha <- remote' :: remote'[sha] != w.names[p]
  }

  /** The pass after the forget is careful: see Passes.Stranded. */
  ghost predicate CarefulForget(w: World, p: PersonId, known: Names) {
    forall sha :: Careful(ForgetPerson(w.s, p, true).0.book.rows, known, w.names - {p}, sha, At(w.remote, sha))
  }

  lemma ForgetIsComplete(w: World, p: PersonId, known: Names)
    requires KeptInStep(w) && p in w.s.people && Sees(w, p, known) && CarefulForget(w, p, known)
    ensures ForgottenCompletely(w, p, known)
  {
    var s' := ForgetPerson(w.s, p, true).0;
    var remote' := Replay(w.remote, s'.book.rows, known);
    forall sha <- remote' ensures remote'[sha] != w.names[p] {
      ReplayIsWalk(w.remote, s'.book.rows, known, sha);
      NothingUnderTheGone(w, p, known, sha);
    }
    forall c <- w.s.people[p].clips
      ensures c.file !in s'.disk && Address(w.s.disk, c).Some? && Address(w.s.disk, c).value !in remote'
    {
      OnDisk(w.s, p, c);
      assert c.file in Files(w.s.people[p].clips);
      assert Placed(c, p, w.s.disk, w.s.book.rows, w.names, w.remote);
      ReplayIsWalk(w.remote, s'.book.rows, known, Address(w.s.disk, c).value);
      ForgottenClip(w, p, known, Address(w.s.disk, c).value);
    }
  }

  lemma {:induction false} NeverUnder(rows: seq<Row>, known: Names, sha: Sha, at: Option<Slug>, g: Slug)
    requires g !in known.Values && at != Some(g)
    ensures Walk(rows, known, sha, at) != Some(g)
  {
    if rows != [] {
      NeverUnder(rows[..|rows| - 1], known, sha, at, g);
    }
  }

  lemma GoneUnknown(w: World, p: PersonId, known: Names)
    requires NamesOk(w) && p in w.s.people && PartOf(known, w.names - {p})
    ensures w.names[p] !in known.Values
  {
    GoneNameUnused(w.names, p);
    forall q <- known ensures known[q] != w.names[p] {
      assert (w.names - {p})[q] in (w.names - {p}).Values;
    }
  }

  lemma NotUnder(out: seq<Row>, cid: Cid, slug: Option<Slug>, known: Names, sha: Sha, at: Option<Slug>, g: Slug)
    requires slug == Some(g) || (slug.None? && g !in known.Values && at != Some(g))
    ensures Walk(out + ForgetRecord(cid, slug), known, sha, at) != Some(g)
  {
    if slug.Some? {
      WalkSnoc(out, Forget(cid, g), known, sha, at);
    } else {
      assert out + [] == out;
      NeverUnder(out, known, sha, at, g);
    }
  }

  lemma ForgottenRows(s: State, p: PersonId)
    requires p in s.people
    ensures ForgetPerson(s, p, true).0.book.rows
            == Settle(s.book.rows, p, s.people[p].slug, None).out + ForgetRecord(s.book.next, s.people[p].slug)
  {}

  /** After the forget no pass leaves a clip under the person. */
  lemma NothingUnderTheGone(w: World, p: PersonId, known: Names, sha: Sha)
    requires NamesOk(w) && p in w.s.people && PartOf(known, w.names - {p})
    ensures Walk(ForgetPerson(w.s, p, true).0.book.rows, known, sha, At(w.remote, sha)) != Some(w.names[p])
  {
    ForgottenRows(w.s, p);
    GoneUnknown(w, p, known);
    NotUnder(Settle(w.s.book.rows, p, w.s.people[p].slug, None).out, w.s.book.next, w.s.people[p].slug, known, sha,
             At(w.remote, sha), w.names[p]);
  }

  /** A person no pass has pushed has nothing in membro. */
  lemma NothingUnpushed(w: World, known: Names, names: Names, sha: Sha)
    requires NamesOk(w) && PartOf(names, w.names) && sha in w.remote
    requires forall q <- names | w.s.people[q].slug.Some? :: q in known
    ensures !Unpushed(w.remote[sha], known, names)
  {
    assert w.remote[sha] in w.remote.Values;
  }

  /** A clip that is the forgotten person's, or nobody's, is gone after the pass. */
  lemma ForgottenClip(w: World, p: PersonId, known: Names, sha: Sha)
    requires NamesOk(w) && LedgerOk(w.s.book.rows, w.names, w.remote) && p in w.s.people
    requires Sees(w, p, known) && CarefulForget(w, p, known)
    requires End(w.s.book.rows, w.names, w.remote, sha).None?
             || End(w.s.book.rows, w.names, w.remote, sha) == Some(w.names[p])
    ensures Walk(ForgetPerson(w.s, p, true).0.book.rows, known, sha, At(w.remote, sha)).None?
  {
    var rows', names' := ForgetPerson(w.s, p, true).0.book.rows, w.names - {p};
    ForgetLedger(w, p, true);
    NothingUnderTheGone(w, p, names', sha);
    assert End(rows', names', w.remote, sha).None?;
    if sha in w.remote {
      assert forall q <- names' | w.s.people[q].slug.Some? :: q in Known(w) - {p};
      NothingUnpushed(w, known, names', sha);
    }
    CarefulPassInHand(rows', known, names', sha, At(w.remote, sha));
  }

  /** A check on the settled ledger alone that the pass after a forget is careful. */
  lemma CheckedForgetIsCareful(w: World, p: PersonId, known: Names)
    requires KeptInStep(w) && p in w.s.people && Sees(w, p, known)
    requires NothingActsOnWaiting(ForgetPerson(w.s, p, true).0.book.rows, known, w.names - {p})
    ensures CarefulForget(w, p, known)
  {
    var rows', names' := ForgetPerson(w.s, p, true).0.book.rows, w.names - {p};
    ForgetLedger(w, p, true);
    forall sha ensures Careful(rows', known, names', sha, At(w.remote, sha)) {
      if sha in w.remote {
        assert forall q <- names' | w.s.people[q].slug.Some? :: q in Known(w) - {p};
        NothingUnpushed(w, known, names', sha);
      }
      LedgerCheckIsCareful(rows', known, names', sha, At(w.remote, sha));
    }
  }

  /** A pass that sees everyone left has nothing to be careful about. */
  lemma ForgetIsCompleteOnceAllAreKnown(w: World, p: PersonId)
    requires KeptInStep(w) && p in w.s.people
    ensures ForgottenCompletely(w, p, w.names - {p})
  {
    forall sha ensures Careful(ForgetPerson(w.s, p, true).0.book.rows, w.names - {p}, w.names - {p}, sha, At(w.remote, sha)) {
      EveryoneKnownIsCareful(ForgetPerson(w.s, p, true).0.book.rows, w.names - {p}, sha, At(w.remote, sha));
    }
    ForgetIsComplete(w, p, w.names - {p});
  }

  // ---------- merge ----------

  /** A merge the settlement can carry: no row takes out of the merged-away
      person a clip only a merge they won brought, and no drop row is trimmed. */
  ghost predicate Mergeable(w: World, survivor: PersonId, gone: PersonId, kept: seq<Clip>)
    requires survivor in w.s.people && gone in w.s.people
  {
    && survivor != gone
    && CountDrops(w.s.book.rows) + |w.s.people[survivor].clips| + |w.s.people[gone].clips| <= DROP_ROWS_MAX
    && forall sha :: StaysClear(MergeDrops(w.s, survivor, gone, Files(kept)).rows, w.names, gone, survivor,
                                sha, At(w.remote, sha))
  }

  lemma MergeDropsOk(w: World, survivor: PersonId, gone: PersonId, kept: set<FileName>)
    requires KeptInStep(w) && survivor in w.s.people && gone in w.s.people
    requires CountDrops(w.s.book.rows) + |w.s.people[survivor].clips| + |w.s.people[gone].clips| <= DROP_ROWS_MAX
    ensures LedgerOk(MergeDrops(w.s, survivor, gone, kept).rows, w.names, w.remote)
    ensures Lessens(w.s.book.rows, MergeDrops(w.s, survivor, gone, kept).rows, w.names, w.remote)
  {
    var s := w.s;
    var known := s.people[survivor].slug.Some?;
    var mid := DropMissing(s.book, s.disk, survivor, known, s.people[survivor].clips, kept, None);
    DropMissingOk(s.book, s.disk, survivor, known, s.people[survivor].clips, kept, None, w.names, w.remote);
    forall c <- s.people[gone].clips ensures Placed(c, gone, s.disk, mid.rows, w.names, w.remote) {
      PlacedLessens(c, gone, s.disk, s.book.rows, mid.rows, w.names, w.remote);
    }
    DropMissingOk(mid, s.disk, gone, true, s.people[gone].clips, kept, None, w.names, w.remote);
    LessensTransitive(s.book.rows, mid.rows, MergeDrops(s, survivor, gone, kept).rows, w.names, w.remote);
  }

  /** What settling for a merge leaves of the ledger. */
  lemma SettledLedger(w: World, rows: seq<Row>, survivor: PersonId, gone: PersonId)
    requires NamesOk(w) && survivor in w.s.people && gone in w.s.people && survivor != gone
    requires LedgerOk(rows, w.names, w.remote)
    requires forall sha :: StaysClear(rows, w.names, gone, survivor, sha, At(w.remote, sha))
    ensures LedgerOk(Settle(rows, gone, w.s.people[gone].slug, Some(survivor)).out, w.names - {gone}, w.remote)
  {
    var slug, names' := w.s.people[gone].slug, w.names - {gone};
    SoundLedger(w, rows);
    SettledWellNamed(rows, w.names, gone, slug, Some(survivor));
    SettledRowsCanLand(rows, w.names.Keys, gone, slug, Some(survivor));
    assert names'.Keys == w.names.Keys - {gone};
    forall sha ensures Followed(Settle(rows, gone, slug, Some(survivor)).out, names', sha, At(w.remote, sha)) {
      SettledForMergeFollows(rows, w.names, gone, slug, survivor, sha, At(w.remote, sha));
    }
  }

  /** What a merge leaves of the ledger. */
  lemma MergeLedger(w: World, book: Book, survivor: PersonId, gone: PersonId)
    requires NamesOk(w) && survivor in w.s.people && gone in w.s.people && survivor != gone
    requires LedgerOk(book.rows, w.names, w.remote)
    requires forall sha :: StaysClear(book.rows, w.names, gone, survivor, sha, At(w.remote, sha))
    ensures
      var rows' := SettledOnto(book, survivor, gone, w.s.people[gone].slug).rows;
      && LedgerOk(rows', w.names - {gone}, w.remote)
      && forall sha :: End(rows', w.names - {gone}, w.remote, sha)
                       == OriginalEnd(book.rows, w.names, gone, survivor, sha, At(w.remote, sha))
  {
    var slug, names' := w.s.people[gone].slug, w.names - {gone};
    var out := Settle(book.rows, gone, slug, Some(survivor)).out;
    SettledLedger(w, book.rows, survivor, gone);
    GoneNameUnused(w.names, gone);
    if slug.Some? {
      OneMoreRow(out, Merge(book.next, slug.value, survivor), names', w.remote);
    } else {
      assert out + [] == out;
    }
    forall sha ensures End(out + MergeRecord(book.next, slug, survivor), names', w.remote, sha)
                       == OriginalEnd(book.rows, w.names, gone, survivor, sha, At(w.remote, sha))
    {
      MergedEnd(w, book, survivor, gone, sha);
    }
  }

  lemma MergedEnd(w: World, book: Book, survivor: PersonId, gone: PersonId, sha: Sha)
    requires NamesOk(w) && survivor in w.s.people && gone in w.s.people && survivor != gone
    requires LedgerOk(book.rows, w.names, w.remote)
    requires StaysClear(book.rows, w.names, gone, survivor, sha, At(w.remote, sha))
    ensures SettledEnd(book.rows, w.names, gone, w.s.people[gone].slug, survivor, book.next, sha, At(w.remote, sha))
            == OriginalEnd(book.rows, w.names, gone, survivor, sha, At(w.remote, sha))
  {
    SoundLedger(w, book.rows);
    ClearKeepsTrack(book.rows, w.names, gone, survivor, sha, At(w.remote, sha));
    TrackedIsNotAstray(book.rows, w.names, gone, w.s.people[gone].slug, survivor, sha, At(w.remote, sha));
    ClipSettlesExactly(book.rows, w.names, gone, w.s.people[gone].slug, survivor, book.next, sha,
                       At(w.remote, sha));
  }

  /** In step, nothing needs supposing of the ledger for the merge to mean the same
      exactly when no clip is astray: whatever its drops, its rows follow their
      clips, and the rewritten ledger leaves membro as the ledger and the merge would. */
  lemma MergeMeansTheSameExactly(w: World, survivor: PersonId, gone: PersonId, kept: set<FileName>)
    requires KeptInStep(w) && survivor in w.s.people && gone in w.s.people && survivor != gone
    requires CountDrops(w.s.book.rows) + |w.s.people[survivor].clips| + |w.s.people[gone].clips| <= DROP_ROWS_MAX
    ensures
      var book, slug := MergeDrops(w.s, survivor, gone, kept), w.s.people[gone].slug;
      Replay(w.remote, SettledOnto(book, survivor, gone, slug).rows, w.names - {gone})
      == ApplyRow(Replay(w.remote, book.rows, w.names), Merge(book.next, w.names[gone], survivor), w.names)
      <==> forall sha :: !Astray(book.rows, w.names, gone, slug, survivor, sha, At(w.remote, sha))
  {
    var book, slug := MergeDrops(w.s, survivor, gone, kept), w.s.people[gone].slug;
    MergeDropsOk(w, survivor, gone, kept);
    SoundLedger(w, book.rows);
    MergeSettlementExact(w.remote, book.rows, w.names, gone, slug, survivor, book.next);
    var out := Settle(book.rows, gone, slug, Some(survivor)).out;
    assert out + [] == out;
  }

  /** One clip of either bank, once the two are one. */
  lemma MergedPlacedOne(w: World, rows: seq<Row>, rows': seq<Row>, disk': Disk, survivor: PersonId, gone: PersonId,
                        q: PersonId, r: PersonId, c: Clip)
    requires NamesOk(w) && survivor in w.names && gone in w.names && survivor != gone
    requires q in w.names && q != gone && r in w.names && (r == q || (r == gone && q == survivor))
    requires Placed(c, r, w.s.disk, rows, w.names, w.remote)
    requires c.file in w.s.disk && c.file in disk' && disk'[c.file] == w.s.disk[c.file]
    requires forall sha :: End(rows', w.names - {gone}, w.remote, sha)
                           == OriginalEnd(rows, w.names, gone, survivor, sha, At(w.remote, sha))
    ensures Placed(c, q, disk', rows', w.names - {gone}, w.remote)
  {
    assert r == q ==> w.names[q] != w.names[gone];
  }

  /** Whose clip it was before the merge. */
  lemma MergedFrom(w: World, survivor: PersonId, gone: PersonId, kept: seq<Clip>, q: PersonId, c: Clip)
    returns (r: PersonId)
    requires InBijection(w.s) && survivor in w.s.people && gone in w.s.people && survivor != gone
    requires forall c <- kept :: c in MergedClips(w.s.people[survivor], w.s.people[gone])
    requires q in w.s.people && q != gone && c in MergeKeeping(w.s, survivor, gone, kept).people[q].clips
    ensures r in w.s.people && c in w.s.people[r].clips && (r == q || (r == gone && q == survivor)) && c.file in w.s.disk
  {
    r := if q == survivor && c in w.s.people[gone].clips then gone else q;
    assert c in w.s.people[r].clips;
    OnDisk(w.s, r, c);
  }

  lemma MergedPlaced(w: World, survivor: PersonId, gone: PersonId, kept: seq<Clip>)
    requires KeptInStep(w) && survivor in w.s.people && gone in w.s.people && Mergeable(w, survivor, gone, kept)
    requires forall c <- kept :: c in MergedClips(w.s.people[survivor], w.s.people[gone])
    requires InBijection(MergeKeeping(w.s, survivor, gone, kept))
    ensures (w.names - {gone}).Keys == MergeKeeping(w.s, survivor, gone, kept).people.Keys
    ensures AllPlaced(World(MergeKeeping(w.s, survivor, gone, kept), w.remote, w.names - {gone}))
  {
    var s, s' := w.s, MergeKeeping(w.s, survivor, gone, kept);
    var dropped := MergeDrops(s, survivor, gone, Files(kept));
    MergeDropsOk(w, survivor, gone, Files(kept));
    MergeLedger(w, dropped, survivor, gone);
    assert (w.names - {gone}).Keys == s'.people.Keys;
    forall q <- s'.people, c <- s'.people[q].clips
      ensures Placed(c, q, s'.disk, s'.book.rows, w.names - {gone}, w.remote)
    {
      var r := MergedFrom(w, survivor, gone, kept, q, c);
      OnDisk(s', q, c);
      assert Placed(c, r, s.disk, s.book.rows, w.names, w.remote);
      PlacedLessens(c, r, s.disk, s.book.rows, dropped.rows, w.names, w.remote);
      MergedPlacedOne(w, dropped.rows, s'.book.rows, s'.disk, survivor, gone, q, r, c);
    }
  }

  lemma MergeKeepsInStep(w: World, survivor: PersonId, gone: PersonId)
    requires KeptInStep(w) && survivor in w.s.people && gone in w.s.people
    requires Mergeable(w, survivor, gone, KeptOfMerge(w.s.people[survivor], w.s.people[gone]))
    ensures KeptInStep(World(MergeInto(w.s, survivor, gone), w.remote, w.names - {gone}))
  {
    var kept := KeptOfMerge(w.s.people[survivor], w.s.people[gone]);
    MergedOneFile(w.s, survivor, gone);
    MergeIntoKeepsBijection(w.s, survivor, gone);
    MergeKeepingKeepsInStep(w, survivor, gone, kept);
  }

  lemma MergeKeepingKeepsInStep(w: World, survivor: PersonId, gone: PersonId, kept: seq<Clip>)
    requires KeptInStep(w) && survivor in w.s.people && gone in w.s.people && Mergeable(w, survivor, gone, kept)
    requires forall c <- kept :: c in MergedClips(w.s.people[survivor], w.s.people[gone])
    requires InBijection(MergeKeeping(w.s, survivor, gone, kept))
    ensures KeptInStep(World(MergeKeeping(w.s, survivor, gone, kept), w.remote, w.names - {gone}))
  {
    var s' := MergeKeeping(w.s, survivor, gone, kept);
    MergeDropsOk(w, survivor, gone, Files(kept));
    MergeLedger(w, MergeDrops(w.s, survivor, gone, Files(kept)), survivor, gone);
    MergedPlaced(w, survivor, gone, kept);
    NamesLeft(w, gone, s');
    MergedApart(w, survivor, gone, kept);
  }

  lemma MergedApart(w: World, survivor: PersonId, gone: PersonId, kept: seq<Clip>)
    requires InBijection(w.s) && Apart(w.s) && survivor in w.s.people && gone in w.s.people && survivor != gone
    requires forall c <- kept :: c in MergedClips(w.s.people[survivor], w.s.people[gone])
    ensures Apart(MergeKeeping(w.s, survivor, gone, kept))
  {
    var s, s' := w.s, MergeKeeping(w.s, survivor, gone, kept);
    forall q <- s'.people, r <- s'.people, c <- s'.people[q].clips, d <- s'.people[r].clips | c.file != d.file
      ensures Handles(s'.disk, c) !! Handles(s'.disk, d)
    {
      var q0 := if q == survivor && c in s.people[gone].clips then gone else q;
      var r0 := if r == survivor && d in s.people[gone].clips then gone else r;
      assert c in s.people[q0].clips && d in s.people[r0].clips;
      HandlesInherited(c, c, s.disk, s'.disk);
      HandlesInherited(d, d, s.disk, s'.disk);
    }
  }
}
