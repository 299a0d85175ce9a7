/** What every operation of the anchor store and its sync keeps whatever it is
    given: recurring bytes, trimmed drops, merges that lose track, passes that
    strand clips. It is less than being in step, and enough to say exactly what
    a forget leaves. */
module AnyRuns {
  import opened Wrappers
  import opened Ledger
  import opened Bank
  import opened Sorting
  import opened Store
  import opened Bijection
  import opened InStep
  import opened Passes
  import opened Runs
  import opened SyncPass

  /** Row ids rise, and stay below the next one to hand out. */
  ghost predicate CidsRise(rows: seq<Row>, next: Cid) {
    rows == []
    || (rows[|rows| - 1].cid < next && CidsRise(rows[..|rows| - 1], rows[|rows| - 1].cid))
  }

  /** Rows name living people by local id and departed ones by slug, and carry ids
      the book has handed out in order. */
  ghost predicate BookNamed(book: Book, names: Names) {
    && CidsRise(book.rows, book.next)
    && forall row <- book.rows :: WellNamed(row, names) && Nameable(row, names.Keys)
  }

  ghost predicate KeptNamed(w: World) {
    InBijection(w.s) && NamesOk(w) && BookNamed(w.s.book, w.names)
  }

  // ---------- the ledger ----------

  lemma {:induction false} CidsBelow(rows: seq<Row>, next: Cid)
    requires CidsRise(rows, next)
    ensures forall row <- rows :: row.cid < next
  {
    if rows != [] {
      CidsBelow(rows[..|rows| - 1], rows[|rows| - 1].cid);
    }
  }

  lemma CidsSnoc(rows: seq<Row>, row: Row, next: Cid)
    requires CidsRise(rows, row.cid) && row.cid < next
    ensures CidsRise(rows + [row], next)
  {
    assert (rows + [row])[..|rows|] == rows;
  }

  /** Fewer rows below a later id. */
  lemma CidsLater(rows: seq<Row>, next: Cid, later: Cid)
    requires CidsRise(rows, next) && next <= later
    ensures CidsRise(rows, later)
  {}

  lemma NoteNamed(book: Book, row: Row, names: Names)
    requires BookNamed(book, names) && WellNamed(row, names) && Nameable(row, names.Keys)
    ensures BookNamed(Note(book, row), names)
  {
    CidsSnoc(book.rows, row.(cid := book.next), book.next + 1);
  }

  lemma {:induction false} SkipDropsFrom(rows: seq<Row>, n: nat, next: Cid)
    requires CidsRise(rows, next)
    ensures forall row <- SkipDrops(rows, n) :: row in rows
    ensures CidsRise(SkipDrops(rows, n), next)
  {
    if rows != [] {
      var init, last := rows[..|rows| - 1], rows[|rows| - 1];
      SkipDropsFrom(init, n, last.cid);
      CidsSnoc(SkipDrops(init, n), last, next);
      CidsLater(SkipDrops(init, n), last.cid, next);
      assert SkipDrops(init, n) + [] == SkipDrops(init, n);
    }
  }

  lemma TrimmedNamed(book: Book, names: Names)
    requires BookNamed(book, names)
    ensures BookNamed(Book(TrimDrops(book.rows), book.next), names)
  {
    if CountDrops(book.rows) > DROP_ROWS_MAX {
      SkipDropsFrom(book.rows, CountDrops(book.rows) - DROP_ROWS_MAX, book.next);
    }
  }

  lemma RecordDropNamed(book: Book, disk: Disk, p: PersonId, known: bool, c: Clip, why: Why, names: Names)
    requires BookNamed(book, names) && p in names
    ensures BookNamed(RecordDrop(book, disk, p, known, c, why), names)
  {
    var sha := Address(disk, c);
    if sha.Some? {
      var row := Delete(0, p, None, sha.value, Some(why));
      NoteNamed(book, row, names);
      TrimmedNamed(Note(book, row), names);
    }
  }

  lemma {:induction false} DropMissingNamed(book: Book, disk: Disk, p: PersonId, known: bool, clips: seq<Clip>,
                                            kept: set<FileName>, replaced: Option<FileName>, names: Names)
    requires BookNamed(book, names) && p in names
    ensures BookNamed(DropMissing(book, disk, p, known, clips, kept, replaced), names)
  {
    if clips != [] {
      var c := clips[|clips| - 1];
      DropMissingNamed(book, disk, p, known, clips[..|clips| - 1], kept, replaced, names);
      RecordDropNamed(DropMissing(book, disk, p, known, clips[..|clips| - 1], kept, replaced), disk, p, known, c,
                      if Some(c.file) == replaced then BySettling else ByRotation, names);
    }
  }

  /** Where nothing leaves the bank nothing is recorded. */
  lemma {:induction false} NothingDropped(book: Book, disk: Disk, p: PersonId, known: bool, clips: seq<Clip>,
                                          kept: set<FileName>, replaced: Option<FileName>)
    requires Files(clips) <= kept
    ensures DropMissing(book, disk, p, known, clips, kept, replaced) == book
  {
    if clips != [] {
      assert forall c <- clips[..|clips| - 1] :: c in clips;
      assert clips[|clips| - 1].file in Files(clips);
      NothingDropped(book, disk, p, known, clips[..|clips| - 1], kept, replaced);
    }
  }

  lemma {:induction false} JudgeDropsNamed(book: Book, disk: Disk, p: PersonId, known: bool, clips: seq<Clip>,
                                           bad: set<FileName>, names: Names)
    requires BookNamed(book, names) && p in names
    ensures BookNamed(JudgeDrops(book, disk, p, known, clips, bad), names)
  {
    if clips != [] {
      JudgeDropsNamed(book, disk, p, known, clips[..|clips| - 1], bad, names);
      RecordDropNamed(JudgeDrops(book, disk, p, known, clips[..|clips| - 1], bad), disk, p, known,
                      clips[|clips| - 1], ByAudit, names);
    }
  }

  lemma {:induction false} NoteDeletesNamed(book: Book, disk: Disk, p: PersonId, clips: seq<Clip>, names: Names)
    requires BookNamed(book, names) && p in names
    ensures BookNamed(NoteDeletes(book, disk, p, clips), names)
  {
    if clips != [] {
      NoteDeletesNamed(book, disk, p, clips[..|clips| - 1], names);
      var sha := Address(disk, clips[|clips| - 1]);
      if sha.Some? {
        NoteNamed(NoteDeletes(book, disk, p, clips[..|clips| - 1]), Delete(0, p, None, sha.value, None), names);
      }
    }
  }

  lemma {:induction false} SettledCids(rows: seq<Row>, gone: PersonId, slug: Option<Slug>, into: Option<PersonId>, next: Cid)
    requires CidsRise(rows, next)
    ensures CidsRise(Settle(rows, gone, slug, into).out, next)
  {
    if rows != [] {
      var init, last := rows[..|rows| - 1], rows[|rows| - 1];
      var st := Settle(init, gone, slug, into);
      SettledCids(init, gone, slug, into, last.cid);
      CidsLater(st.out, last.cid, next);
      var sent := SettledRow(last, gone, slug, into, Home(st.carried, last));
      if sent.Some? {
        CidsSnoc(st.out, sent.value, next);
      } else {
        assert st.out + [] == st.out;
      }
    }
  }

  lemma {:induction false} WaitingCids(rows: seq<Row>, known: Names, next: Cid)
    requires CidsRise(rows, next)
    ensures CidsRise(Waiting(rows, known), next)
  {
    if rows != [] {
      var init, last := rows[..|rows| - 1], rows[|rows| - 1];
      WaitingCids(init, known, last.cid);
      CidsSnoc(Waiting(init, known), last, next);
      CidsLater(Waiting(init, known), last.cid, next);
      assert Waiting(init, known) + [] == Waiting(init, known);
    }
  }

  lemma SettledNamed(book: Book, names: Names, gone: PersonId, slug: Option<Slug>, into: Option<PersonId>)
    requires BookNamed(book, names) && Injective(names) && gone in names
    requires slug.Some? ==> slug == Some(names[gone])
    requires into.Some? ==> into.value in names && into.value != gone
    ensures BookNamed(book.(rows := Settle(book.rows, gone, slug, into).out), names - {gone})
  {
    SettledWellNamed(book.rows, names, gone, slug, into);
    SettledRowsCanLand(book.rows, names.Keys, gone, slug, into);
    SettledCids(book.rows, gone, slug, into, book.next);
    assert (names - {gone}).Keys == names.Keys - {gone};
  }

  // ---------- every operation ----------

  lemma AddBook(w: World, p: PersonId, u: Utterance, now: nat, verdict: Option<bool>)
    requires NamesOk(w) && BookNamed(w.s.book, w.names)
    ensures BookNamed(AddClip(w.s, p, u, now, verdict).0.book, w.names)
  {
    if u.passes && p in w.s.people {
      var person, entry := w.s.people[p], NewClip(u, w.s.nextFile, now);
      if u.dedupe && HeldCopy(w.s.disk, person.clips, u.sha).Some? {
        assert AddClip(w.s, p, u, now, verdict).0.book == w.s.book;
      } else if !Settles(person, u, verdict) {
        BankBook(w, p, u, entry, None);
      } else {
        var offer := SettleOffer(person.clips, entry, now, person.settledAt);
        if offer.Take? {
          BankBook(w.(s := Stamped(w.s, p, now)), p, u, entry, offer.victim);
        }
      }
    }
  }

  lemma BankBook(w: World, p: PersonId, u: Utterance, entry: Clip, victim: Option<Clip>)
    requires BookNamed(w.s.book, w.names) && p in w.s.people && p in w.names
    ensures BookNamed(BankClip(w.s, p, u, entry, victim).book, w.names)
  {
    var before := w.s.people[p].clips;
    DropMissingNamed(w.s.book, w.s.disk[entry.file := u.sha], p, w.s.people[p].slug.Some?, before,
                     Files(KeptOfBank(Offered(before, entry, victim))), FileOf(victim), w.names);
  }

  lemma AddSlugs(s: State, p: PersonId, u: Utterance, now: nat, verdict: Option<bool>)
    ensures var s' := AddClip(s, p, u, now, verdict).0;
            s'.people.Keys == s.people.Keys && forall q <- s'.people :: s'.people[q].slug == s.people[q].slug
  {}

  lemma AddKeepsNamed(w: World, p: PersonId, u: Utterance, now: nat, verdict: Option<bool>)
    requires KeptNamed(w)
    ensures KeptNamed(w.(s := AddClip(w.s, p, u, now, verdict).0))
  {
    AddKeepsBijection(w.s, p, u, now, verdict);
    AddSlugs(w.s, p, u, now, verdict);
    NamesKept(w, AddClip(w.s, p, u, now, verdict).0);
    AddBook(w, p, u, now, verdict);
  }

  lemma MoveKeepsNamed(w: World, p: PersonId, file: FileName, to: PersonId)
    requires KeptNamed(w)
    ensures KeptNamed(w.(s := MoveClip(w.s, p, file, to).0))
  {
    MoveKeepsBijection(w.s, p, file, to);
    if p != to && p in w.s.people && to in w.s.people && FindFile(w.s.people[p].clips, file).Some? {
      MovedPeople(w.s, p, file, to);
      NamesKept(w, MoveClip(w.s, p, file, to).0);
      var moved := FindFile(w.s.people[p].clips, file).value.(quarantined := false, leftMembro := false, moved := true);
      var sha := Address(w.s.disk, moved);
      if sha.Some? {
        NoteNamed(w.s.book, Move(0, p, None, to, sha.value), w.names);
      }
    }
  }

  lemma DeleteKeepsNamed(w: World, p: PersonId, file: FileName)
    requires KeptNamed(w)
    ensures KeptNamed(w.(s := DeleteClip(w.s, p, file).0))
  {
    DeleteKeepsBijection(w.s, p, file);
    if p in w.s.people && FindFile(w.s.people[p].clips, file).Some? {
      OneBankNames(w, DeleteClip(w.s, p, file).0, p);
      var sha := Address(w.s.disk, FindFile(w.s.people[p].clips, file).value);
      if sha.Some? {
        NoteNamed(w.s.book, Delete(0, p, None, sha.value, None), w.names);
      }
    }
  }

  /** One bank changes and nobody's slug does. */
  lemma OneBankNames(w: World, s': State, p: PersonId)
    requires NamesOk(w) && p in w.s.people && p in s'.people
    requires s'.people == w.s.people[p := w.s.people[p].(clips := s'.people[p].clips)]
    ensures NamesOk(w.(s := s'))
  {
    OneBankPeople(w.s.people, s'.people, p, s'.people[p].clips);
    NamesKept(w, s');
  }

  lemma RetractKeepsNamed(w: World, p: PersonId, slices: set<FileName>)
    requires KeptNamed(w)
    ensures KeptNamed(w.(s := Retract(w.s, p, slices).0))
  {
    RetractKeepsBijection(w.s, p, slices);
    if p in w.s.people && Retract(w.s, p, slices).0 != w.s {
      OneBankNames(w, Retract(w.s, p, slices).0, p);
      NoteDeletesNamed(w.s.book, w.s.disk, p, Restrict(w.s.people[p].clips, IsContested(slices)), w.names);
    }
  }

  lemma AuditKeepsNamed(w: World, p: PersonId, bad: set<FileName>)
    requires KeptNamed(w) && p in w.s.people
    ensures KeptNamed(w.(s := AuditPerson(w.s, p, bad)))
  {
    var clips, known := w.s.people[p].clips, w.s.people[p].slug.Some?;
    AuditKeepsBijection(w.s, p, bad);
    OneBankNames(w, AuditPerson(w.s, p, bad), p);
    JudgeDropsNamed(w.s.book, w.s.disk, p, known, clips, bad, w.names);
    DropMissingNamed(JudgeDrops(w.s.book, w.s.disk, p, known, clips, bad), w.s.disk, p, known,
                     Overflow(JudgeAll(clips, bad)), {}, None, w.names);
  }

  lemma ForgetKeepsNamed(w: World, p: PersonId, record: bool)
    requires KeptNamed(w) && p in w.s.people
    ensures KeptNamed(World(ForgetPerson(w.s, p, record).0, w.remote, w.names - {p}))
  {
    var slug := w.s.people[p].slug;
    var settled := w.s.book.(rows := Settle(w.s.book.rows, p, slug, None).out);
    ForgetKeepsBijection(w.s, p, record);
    NamesLeft(w, p, ForgetPerson(w.s, p, record).0);
    SettledNamed(w.s.book, w.names, p, slug, None);
    if record && slug.Some? {
      GoneNameUnused(w.names, p);
      NoteNamed(settled, Forget(0, slug.value), w.names - {p});
    }
  }

  lemma MergeBook(w: World, survivor: PersonId, gone: PersonId, kept: set<FileName>)
    requires NamesOk(w) && BookNamed(w.s.book, w.names)
    requires survivor in w.s.people && gone in w.s.people && survivor != gone
    ensures BookNamed(SettledOnto(MergeDrops(w.s, survivor, gone, kept), survivor, gone, w.s.people[gone].slug),
                      w.names - {gone})
  {
    var slug, known := w.s.people[gone].slug, w.s.people[survivor].slug.Some?;
    DropMissingNamed(w.s.book, w.s.disk, survivor, known, w.s.people[survivor].clips, kept, None, w.names);
    DropMissingNamed(DropMissing(w.s.book, w.s.disk, survivor, known, w.s.people[survivor].clips, kept, None),
                     w.s.disk, gone, true, w.s.people[gone].clips, kept, None, w.names);
    var book := MergeDrops(w.s, survivor, gone, kept);
    SettledNamed(book, w.names, gone, slug, Some(survivor));
    if slug.Some? {
      GoneNameUnused(w.names, gone);
      NoteNamed(book.(rows := Settle(book.rows, gone, slug, Some(survivor)).out), Merge(0, slug.value, survivor),
                w.names - {gone});
    }
  }

  lemma MergeKeepsNamed(w: World, survivor: PersonId, gone: PersonId)
    requires KeptNamed(w) && survivor in w.s.people && gone in w.s.people && survivor != gone
    ensures KeptNamed(World(MergeInto(w.s, survivor, gone), w.remote, w.names - {gone}))
  {
    MergeIntoKeepsBijection(w.s, survivor, gone);
    MergeKeepingKeepsNames(w, survivor, gone, KeptOfMerge(w.s.people[survivor], w.s.people[gone]));
  }

  lemma MergeKeepingKeepsNames(w: World, survivor: PersonId, gone: PersonId, kept: seq<Clip>)
    requires NamesOk(w) && BookNamed(w.s.book, w.names)
    requires survivor in w.s.people && gone in w.s.people && survivor != gone
    ensures NamesOk(World(MergeKeeping(w.s, survivor, gone, kept), w.remote, w.names - {gone}))
    ensures BookNamed(MergeKeeping(w.s, survivor, gone, kept).book, w.names - {gone})
  {
    NamesLeft(w, gone, MergeKeeping(w.s, survivor, gone, kept));
    MergeBook(w, survivor, gone, Files(kept));
  }

  lemma NewPersonKeepsNamed(w: World, p: PersonId, createdAt: int, slug: Option<Slug>, g: Slug)
    requires KeptNamed(w) && p !in w.s.people
    requires g !in w.names.Values && forall row <- w.s.book.rows :: !Mentions(row, p, g)
    requires slug == Some(g) || (slug.None? && g !in w.remote.Values)
    ensures KeptNamed(World(WithPerson(w.s, p, createdAt, slug), w.remote, w.names[p := g]))
  {
    NewPersonBijection(w.s, p, createdAt, slug);
    NewPersonNames(w, p, createdAt, slug, g);
    forall row <- w.s.book.rows ensures WellNamed(row, w.names[p := g]) && Nameable(row, w.names[p := g].Keys) {
      assert WellNamed(row, w.names) && Nameable(row, w.names.Keys) && !Mentions(row, p, g);
    }
  }

  lemma PushKeepsNamed(w: World, p: PersonId)
    requires KeptNamed(w) && p in w.s.people
    ensures KeptNamed(w.(s := Pushed(w.s, p, w.names[p])))
  {
    PushKeepsBijection(w.s, p, w.names[p]);
    PushKeepsNames(w, p);
  }

  lemma UploadKeepsNamed(w: World, p: PersonId, sha: Sha)
    requires KeptNamed(w) && p in w.s.people && w.s.people[p].slug.Some?
    ensures KeptNamed(w.(remote := w.remote[sha := w.names[p]]))
  {
    forall q <- w.s.people | w.s.people[q].slug.None? ensures w.names[q] !in w.remote[sha := w.names[p]].Values {
      assert q != p;
    }
  }

  lemma {:induction false} KnownOnly(rows: seq<Row>, known: Names, sha: Sha, at: Option<Slug>)
    ensures Walk(rows, known, sha, at).None? || Walk(rows, known, sha, at) == at
            || Walk(rows, known, sha, at).value in known.Values
  {
    if rows != [] {
      KnownOnly(rows[..|rows| - 1], known, sha, at);
    }
  }

  lemma UnpushedUnknown(w: World, p: PersonId)
    requires NamesOk(w) && p in w.s.people && w.s.people[p].slug.None?
    ensures w.names[p] !in Known(w).Values
  {
    forall q <- Known(w) ensures Known(w)[q] != w.names[p] {
      assert q in w.names && p in w.names;
    }
  }

  lemma ReplayKeepsNamed(w: World)
    requires KeptNamed(w)
    ensures KeptNamed(Replayed(w))
  {
    var remote' := Replayed(w).remote;
    WaitingRows(w.s.book.rows, Known(w));
    WaitingCids(w.s.book.rows, Known(w), w.s.book.next);
    forall p <- w.s.people | w.s.people[p].slug.None? ensures w.names[p] !in remote'.Values {
      UnpushedUnknown(w, p);
      forall sha <- remote' ensures remote'[sha] != w.names[p] {
        ReplayIsWalk(w.remote, w.s.book.rows, Known(w), sha);
        KnownOnly(w.s.book.rows, Known(w), sha, At(w.remote, sha));
        assert sha in w.remote ==> w.remote[sha] in w.remote.Values;
      }
    }
  }

  // ---------- exactly what a forget leaves ----------

  /** Is the clip somebody else's in the end, never having been brought to p? */
  ghost predicate Survives(w: World, p: PersonId, sha: Sha)
    requires p in w.names
  {
    var end := End(w.s.book.rows, w.names, w.remote, sha);
    end.Some? && end != Some(w.names[p]) && !Enters(w.s.book.rows, w.names, p, sha, At(w.remote, sha))
  }

  /** The same of a ledger, its settled form and one clip. */
  lemma ClipLeft(remote: Remote, rows: seq<Row>, names: Names, p: PersonId, slug: Option<Slug>, cid: Cid, sha: Sha)
    requires p in names && Injective(names) && AllWellNamed(rows, names)
    requires slug == Some(names[p]) || (slug.None? && At(remote, sha) != Some(names[p]))
    ensures At(Replay(remote, Settle(rows, p, slug, None).out + ForgetRecord(cid, slug), names - {p}), sha)
            == if Enters(rows, names, p, sha, At(remote, sha)) || End(rows, names, remote, sha) == Some(names[p]) then None
               else End(rows, names, remote, sha)
  {
    ReplayIsWalk(remote, Settle(rows, p, slug, None).out + ForgetRecord(cid, slug), names - {p}, sha);
    ForgottenEndIs(rows, names, p, slug, cid, sha, At(remote, sha));
  }

  /** What the forget leaves of each clip in membro, once everyone left is known:
      where it was going to be, if that is with somebody else and it never was
      brought to p on the way, and nowhere otherwise. */
  lemma ForgetLeavesExactly(w: World, p: PersonId, sha: Sha)
    requires KeptNamed(w) && p in w.s.people
    ensures At(Replay(w.remote, ForgetPerson(w.s, p, true).0.book.rows, w.names - {p}), sha)
            == if Survives(w, p, sha) then End(w.s.book.rows, w.names, w.remote, sha) else None
  {
    ForgottenRows(w.s, p);
    if sha in w.remote {
      assert w.remote[sha] in w.remote.Values;
    }
    assert AllWellNamed(w.s.book.rows, w.names);
    ClipLeft(w.remote, w.s.book.rows, w.names, p, w.s.people[p].slug, w.s.book.next, sha);
  }

  /** A forget is complete, whatever the store has been through, if and only if no
      clip of p's answers to an address that survives it. */
  lemma ForgetIsCompleteExactly(w: World, p: PersonId)
    requires KeptNamed(w) && p in w.s.people
    ensures ForgottenCompletely(w, p, w.names - {p})
            <==> forall c <- w.s.people[p].clips | Address(w.s.disk, c).Some? :: !Survives(w, p, Address(w.s.disk, c).value)
  {
    var remote' := Replay(w.remote, ForgetPerson(w.s, p, true).0.book.rows, w.names - {p});
    forall sha <- remote' ensures remote'[sha] != w.names[p] {
      ForgetLeavesExactly(w, p, sha);
    }
    forall c <- w.s.people[p].clips
      ensures c.file !in ForgetPerson(w.s, p, true).0.disk && Address(w.s.disk, c).Some?
      ensures Address(w.s.disk, c).value in remote' <==> Survives(w, p, Address(w.s.disk, c).value)
    {
      OnDisk(w.s, p, c);
      assert c.file in Files(w.s.people[p].clips);
      ForgetLeavesExactly(w, p, Address(w.s.disk, c).value);
    }
  }

  /** The pass after the forget sees only some of the people left: a clip is bound
      for where the settled ledger takes it, unless a row sets it adrift. */
  ghost function BoundFor(w: World, p: PersonId, known: Names, sha: Sha): Option<Slug>
    requires p in w.names
  {
    var drift := DriftAt(ForgetPerson(w.s, p, true).0.book.rows, known, w.names - {p}, sha, At(w.remote, sha));
    if drift.Some? then drift.value
    else if Survives(w, p, sha) then End(w.s.book.rows, w.names, w.remote, sha)
    else None
  }

  lemma ForgetInOrder(w: World, p: PersonId, known: Names, sha: Sha)
    requires KeptNamed(w) && p in w.s.people && Sees(w, p, known)
    ensures Passes.InOrder(ForgetPerson(w.s, p, true).0.book.rows, known, w.names - {p})
    ensures var at := At(w.remote, sha); at.Some? ==> !Unpushed(at.value, known, w.names - {p})
  {
    ForgetKeepsNamed(w, p, true);
    assert forall q <- w.names - {p} | w.s.people[q].slug.Some? :: q in Known(w) - {p};
    if sha in w.remote {
      NothingUnpushed(w, known, w.names - {p}, sha);
    }
  }

  /** Whomever membro knows by then: where the pass after a forget, and the rows it
      leaves waiting, leave each clip. */
  lemma AForgetAndAPassLeaveExactly(w: World, p: PersonId, known: Names, sha: Sha)
    requires KeptNamed(w) && p in w.s.people && Sees(w, p, known)
    ensures
      var rows', names' := ForgetPerson(w.s, p, true).0.book.rows, w.names - {p};
      At(Replay(Replay(w.remote, rows', known), Waiting(rows', known), names'), sha) == BoundFor(w, p, known, sha)
  {
    var rows', names' := ForgetPerson(w.s, p, true).0.book.rows, w.names - {p};
    ForgetInOrder(w, p, known, sha);
    PassMeansTheSameExactly(rows', known, names', sha, At(w.remote, sha));
    ReplayIsWalk(w.remote, rows', known, sha);
    ReplayIsWalk(Replay(w.remote, rows', known), Waiting(rows', known), names', sha);
    ReplayIsWalk(w.remote, rows', names', sha);
    ForgetLeavesExactly(w, p, sha);
  }

  /** A clip is gone after a pass exactly when it will be gone in the end. */
  lemma GoneAfterTheForget(w: World, p: PersonId, known: Names, sha: Sha)
    requires KeptNamed(w) && p in w.s.people && Sees(w, p, known)
    ensures
      var remote' := Replay(w.remote, ForgetPerson(w.s, p, true).0.book.rows, known);
      && (sha in remote' <==> BoundFor(w, p, known, sha).Some?)
      && (sha in remote' ==> remote'[sha] != w.names[p])
  {
    var rows' := ForgetPerson(w.s, p, true).0.book.rows;
    AForgetAndAPassLeaveExactly(w, p, known, sha);
    NothingUnderTheGone(w, p, known, sha);
    ForgetInOrder(w, p, known, sha);
    WaitingInOrder(rows', known, w.names - {p});
    ReplayIsWalk(w.remote, rows', known, sha);
    ReplayIsWalk(Replay(w.remote, rows', known), Waiting(rows', known), w.names - {p}, sha);
    OnlyTheFirstTakes(Waiting(rows', known), known, w.names - {p}, sha, Landed(rows', known, sha, At(w.remote, sha)));
  }

  /** So a forget is complete, whatever the store has been through and whomever membro
      knows by then, if and only if no clip of p's is bound for anywhere. */
  lemma AForgetAndAPassAreCompleteExactly(w: World, p: PersonId, known: Names)
    requires KeptNamed(w) && p in w.s.people && Sees(w, p, known)
    ensures ForgottenCompletely(w, p, known)
            <==> forall c <- w.s.people[p].clips | Address(w.s.disk, c).Some? ::
                   BoundFor(w, p, known, Address(w.s.disk, c).value).None?
  {
    var remote' := Replay(w.remote, ForgetPerson(w.s, p, true).0.book.rows, known);
    forall sha <- remote' ensures remote'[sha] != w.names[p] {
      GoneAfterTheForget(w, p, known, sha);
    }
    forall c <- w.s.people[p].clips
      ensures c.file !in ForgetPerson(w.s, p, true).0.disk && Address(w.s.disk, c).Some?
      ensures Address(w.s.disk, c).value in remote' <==> BoundFor(w, p, known, Address(w.s.disk, c).value).Some?
    {
      OnDisk(w.s, p, c);
      assert c.file in Files(w.s.people[p].clips);
      GoneAfterTheForget(w, p, known, Address(w.s.disk, c).value);
    }
  }

  /** And it means what the ledger and then the forget would, if and only if no
      clip passes through p to somebody else. */
  lemma ForgetMeansTheSameExactly(w: World, p: PersonId)
    requires KeptNamed(w) && p in w.s.people
    ensures Replay(w.remote, ForgetPerson(w.s, p, true).0.book.rows, w.names - {p})
            == ApplyRow(Replay(w.remote, w.s.book.rows, w.names), Forget(w.s.book.next, w.names[p]), w.names)
            <==> forall sha :: !PassesThrough(w.s.book.rows, w.names, p, sha, At(w.remote, sha))
  {
    ForgottenRows(w.s, p);
    assert AllWellNamed(w.s.book.rows, w.names);
    ForgetSettlementExact(w.remote, w.s.book.rows, w.names, p, w.s.people[p].slug, w.s.book.next);
  }

  // ---------- exactly when a pass means what the ledger does ----------

  /** A pass, and the rows it leaves waiting once everyone is known, leave membro as
      the whole ledger would if and only if no clip is adrift. */
  lemma PassIsMeantExactly(w: World)
    requires KeptNamed(w)
    ensures Replay(Replayed(w).remote, Replayed(w).s.book.rows, w.names) == Replay(w.remote, w.s.book.rows, w.names)
            <==> forall sha :: DriftAt(w.s.book.rows, Known(w), w.names, sha, At(w.remote, sha)).None?
  {
    var rows, remote' := w.s.book.rows, Replayed(w).remote;
    var passed, meant := Replay(remote', Waiting(rows, Known(w)), w.names), Replay(w.remote, rows, w.names);
    forall sha ensures At(passed, sha) == At(meant, sha)
                       <==> DriftAt(rows, Known(w), w.names, sha, At(w.remote, sha)).None?
    {
      ReplayIsWalk(w.remote, rows, Known(w), sha);
      ReplayIsWalk(remote', Waiting(rows, Known(w)), w.names, sha);
      ReplayIsWalk(w.remote, rows, w.names, sha);
      if sha in w.remote {
        NothingUnpushed(w, Known(w), w.names, sha);
      }
      PassMeansTheSameExactly(rows, Known(w), w.names, sha, At(w.remote, sha));
    }
    SameRemoteIff(passed, meant);
  }
}
