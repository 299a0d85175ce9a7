/** A merge in the middle of a replay pass (backend/anchors.py, backend/person_sync.py).
    It records the drops of both banks, settles the ledger and appends its own row,
    all before the pass removes the rows it has sent. When that is as good as a
    merge after the pass, and what it costs when it is not. */
module RacedMerges {
  import opened Wrappers
  import opened Ledger
  import opened Bank
  import opened Sorting
  import opened Store
  import opened InStep
  import opened Passes
  import opened Runs
  import opened SyncPass
  import opened AnyRuns
  import opened Races

  // ---------- the drops a merge records in the middle of a pass ----------

  lemma {:induction false} SkipNone(rows: seq<Row>, n: nat)
    requires n == 0 || CountDrops(rows) == 0
    ensures SkipDrops(rows, n) == rows
  {
    if rows != [] {
      var init, last := rows[..|rows| - 1], rows[|rows| - 1];
      assert rows == init + [last];
      RestrictSnoc(init, last, IsDrop);
      SkipNone(init, n);
    }
  }

  /** The drops the pass sends come before those that stay, as they must: every drop
      of the ledger it read lands. */
  predicate SentDropsFirst(rows: seq<Row>, done: set<Cid>) {
    rows == []
    || (SentDropsFirst(rows[..|rows| - 1], done)
        && (IsDrop(rows[|rows| - 1]) && rows[|rows| - 1].cid in done ==>
              CountDrops(Removed(rows[..|rows| - 1], done)) == 0))
  }

  function Past(n: int): nat {
    if n < 0 then 0 else n
  }

  /** How many drops of the ledger the pass sends. */
  function SentDrops(rows: seq<Row>, done: set<Cid>): int {
    CountDrops(rows) - CountDrops(Removed(rows, done))
  }

  lemma CountSnoc(rows: seq<Row>, row: Row)
    ensures CountDrops(rows + [row]) == CountDrops(rows) + if IsDrop(row) then 1 else 0
  {
    RestrictSnoc(rows, row, IsDrop);
  }

  lemma {:induction false} SentDropsCounted(rows: seq<Row>, done: set<Cid>)
    ensures SentDrops(rows, done) >= 0
  {
    if rows != [] {
      var init, last := rows[..|rows| - 1], rows[|rows| - 1];
      assert rows == init + [last];
      SentDropsCounted(init, done);
      RemovedSnoc(init, last, done);
      CountSnoc(init, last);
      CountSnoc(Removed(init, done), last);
      assert Removed(init, done) + [] == Removed(init, done);
    }
  }

  lemma SentDropsSnoc(rows: seq<Row>, row: Row, done: set<Cid>)
    ensures SentDrops(rows + [row], done) == SentDrops(rows, done) + if IsDrop(row) && row.cid in done then 1 else 0
  {
    CountSnoc(rows, row);
    CountSnoc(Removed(rows, done), row);
    RemovedSnoc(rows, row, done);
    assert Removed(rows, done) + [] == Removed(rows, done);
  }

  /** What skipping the n oldest drops and the removal make of one more row. */
  lemma SkippedThenRemovedSnoc(rows: seq<Row>, row: Row, n: nat, done: set<Cid>)
    requires IsDrop(row) && row.cid in done ==> CountDrops(Removed(rows, done)) == 0
    requires Removed(SkipDrops(rows, n), done) == SkipDrops(Removed(rows, done), Past(n - SentDrops(rows, done)))
    ensures Removed(SkipDrops(rows + [row], n), done)
            == SkipDrops(Removed(rows + [row], done), Past(n - SentDrops(rows + [row], done)))
  {
    var m := Past(n - SentDrops(rows, done));
    SkippedSnoc(rows, row, n);
    RemovedSnoc(rows, row, done);
    SentDropsSnoc(rows, row, done);
    RemovedSnoc(SkipDrops(rows, n), row, done);
    assert SkipDrops(rows, n) + [] == SkipDrops(rows, n) && Removed(rows, done) + [] == Removed(rows, done);
    if row.cid !in done {
      SentDropsCounted(rows, done);
      SkippedSnoc(Removed(rows, done), row, m);
      assert SkipDrops(Removed(rows, done), m) + [] == SkipDrops(Removed(rows, done), m);
    } else if IsDrop(row) {
      SkipNone(Removed(rows, done), m);
      SkipNone(Removed(rows, done), Past(n - SentDrops(rows + [row], done)));
    }
    assert Removed(SkipDrops(rows, n), done) + [] == Removed(SkipDrops(rows, n), done);
  }

  /** Skipping the oldest drops before the removal skips the sent ones first. */
  lemma {:induction false} SkippedThenRemoved(rows: seq<Row>, n: nat, done: set<Cid>)
    requires SentDropsFirst(rows, done)
    ensures Removed(SkipDrops(rows, n), done) == SkipDrops(Removed(rows, done), Past(n - SentDrops(rows, done)))
  {
    if rows != [] {
      var init, last := rows[..|rows| - 1], rows[|rows| - 1];
      assert rows == init + [last];
      SkippedThenRemoved(init, n, done);
      SkippedThenRemovedSnoc(init, last, n, done);
    }
  }

  lemma {:induction false} SkippedStaySentFirst(rows: seq<Row>, n: nat, done: set<Cid>)
    requires SentDropsFirst(rows, done)
    ensures SentDropsFirst(SkipDrops(rows, n), done)
  {
    if rows != [] {
      var init, last := rows[..|rows| - 1], rows[|rows| - 1];
      var skipped := SkipDrops(init, n);
      assert rows == init + [last];
      SkippedStaySentFirst(init, n, done);
      SkippedSnoc(init, last, n);
      assert skipped + [] == skipped && (skipped + [last])[..|skipped|] == skipped;
      if IsDrop(last) && last.cid in done {
        SkippedThenRemoved(init, n, done);
        SkipNone(Removed(init, done), Past(n - SentDrops(init, done)));
      }
    }
  }

  lemma SkippedSnoc(rows: seq<Row>, row: Row, n: nat)
    ensures SkipDrops(rows + [row], n)
            == SkipDrops(rows, n) + if IsDrop(row) && CountDrops(rows) < n then [] else [row]
  {
    assert (rows + [row])[..|rows|] == rows;
  }

  /** The ledger as the operation finds it, and as it would after the pass. */
  ghost predicate Twins(book: Book, left: Book, done: set<Cid>) {
    && left.rows == Removed(book.rows, done) && left.next == book.next
    && SentDropsFirst(book.rows, done) && forall cid <- done :: cid < book.next
  }

  lemma NotedTwins(book: Book, left: Book, done: set<Cid>, row: Row)
    requires Twins(book, left, done)
    ensures Twins(Note(book, row), Note(left, row), done)
  {
    RemovedSnoc(book.rows, row.(cid := book.next), done);
    assert (book.rows + [row.(cid := book.next)])[..|book.rows|] == book.rows;
  }

  lemma TrimSkipsPast(rows: seq<Row>, m: int)
    requires m == CountDrops(rows) - DROP_ROWS_MAX
    ensures SkipDrops(rows, Past(m)) == TrimDrops(rows)
  {
    if m <= 0 {
      SkipNone(rows, 0);
    }
  }

  /** Trimming before the removal or after it. */
  lemma TrimmedThenRemoved(rows: seq<Row>, done: set<Cid>)
    requires SentDropsFirst(rows, done)
    ensures Removed(TrimDrops(rows), done) == TrimDrops(Removed(rows, done))
  {
    var n := CountDrops(rows) - DROP_ROWS_MAX;
    SentDropsCounted(rows, done);
    TrimSkipsPast(rows, n);
    SkippedThenRemoved(rows, Past(n), done);
    assert Past(Past(n) - SentDrops(rows, done)) == Past(n - SentDrops(rows, done));
    TrimSkipsPast(Removed(rows, done), n - SentDrops(rows, done));
  }

  lemma TrimmedStaySentFirst(rows: seq<Row>, done: set<Cid>)
    requires SentDropsFirst(rows, done)
    ensures SentDropsFirst(TrimDrops(rows), done)
  {
    if CountDrops(rows) > DROP_ROWS_MAX {
      SkippedStaySentFirst(rows, CountDrops(rows) - DROP_ROWS_MAX, done);
    }
  }

  lemma TrimmedTwins(book: Book, left: Book, done: set<Cid>)
    requires Twins(book, left, done)
    ensures Twins(Book(TrimDrops(book.rows), book.next), Book(TrimDrops(left.rows), left.next), done)
  {
    TrimmedThenRemoved(book.rows, done);
    TrimmedStaySentFirst(book.rows, done);
  }

  lemma RecordedTwins(book: Book, left: Book, done: set<Cid>, disk: Disk, p: PersonId, known: bool, c: Clip, why: Why)
    requires Twins(book, left, done)
    requires SendsDrop(book.rows, disk, p, known, c) == SendsDrop(left.rows, disk, p, known, c)
    ensures Twins(RecordDrop(book, disk, p, known, c, why), RecordDrop(left, disk, p, known, c, why), done)
  {
    if SendsDrop(book.rows, disk, p, known, c) {
      var row := Delete(0, p, None, Address(disk, c).value, Some(why));
      NotedTwins(book, left, done, row);
      TrimmedTwins(Note(book, row), Note(left, row), done);
    }
  }

  lemma {:induction false} SkippedMovesStay(rows: seq<Row>, n: nat, p: PersonId, sha: Sha)
    ensures MovesInto(SkipDrops(rows, n), p, sha) <==> MovesInto(rows, p, sha)
  {
    if rows != [] {
      var init, last := rows[..|rows| - 1], rows[|rows| - 1];
      SkippedMovesStay(init, n, p, sha);
      MovesIntoSnoc(init, last, p, sha);
      MovesIntoSnoc(SkipDrops(init, n), last, p, sha);
      assert rows == init + [last] && SkipDrops(init, n) + [] == SkipDrops(init, n);
    }
  }

  lemma MovesIntoSnoc(rows: seq<Row>, row: Row, p: PersonId, sha: Sha)
    ensures MovesInto(rows + [row], p, sha) <==> MovesInto(rows, p, sha) || (row.Move? && row.dst == p && row.sha == sha)
  {
    assert row in rows + [row] && forall r <- rows :: r in rows + [row];
  }

  lemma TrimmedMovesStay(rows: seq<Row>, p: PersonId, sha: Sha)
    ensures MovesInto(TrimDrops(rows), p, sha) <==> MovesInto(rows, p, sha)
  {
    if CountDrops(rows) > DROP_ROWS_MAX {
      SkippedMovesStay(rows, CountDrops(rows) - DROP_ROWS_MAX, p, sha);
    }
  }

  lemma RecordedIs(book: Book, disk: Disk, p: PersonId, known: bool, c: Clip, why: Why)
    ensures RecordDrop(book, disk, p, known, c, why)
            == if SendsDrop(book.rows, disk, p, known, c) then
                 Book(TrimDrops(book.rows + [Delete(book.next, p, None, Address(disk, c).value, Some(why))]), book.next + 1)
               else book
  {}

  /** Recording a drop changes no move of the ledger. */
  lemma RecordedMovesStay(book: Book, disk: Disk, p: PersonId, known: bool, c: Clip, why: Why, q: PersonId, sha: Sha)
    ensures MovesInto(RecordDrop(book, disk, p, known, c, why).rows, q, sha) <==> MovesInto(book.rows, q, sha)
    ensures RecordDrop(book, disk, p, known, c, why).next
            == book.next + if SendsDrop(book.rows, disk, p, known, c) then 1 else 0
  {
    RecordedIs(book, disk, p, known, c, why);
    if SendsDrop(book.rows, disk, p, known, c) {
      var row := Delete(book.next, p, None, Address(disk, c).value, Some(why));
      MovesIntoSnoc(book.rows, row, q, sha);
      TrimmedMovesStay(book.rows + [row], q, sha);
    }
  }

  lemma {:induction false} DroppedMovesStay(book: Book, disk: Disk, p: PersonId, known: bool, clips: seq<Clip>,
                                            kept: set<FileName>, replaced: Option<FileName>, q: PersonId, sha: Sha)
    ensures MovesInto(DropMissing(book, disk, p, known, clips, kept, replaced).rows, q, sha)
            <==> MovesInto(book.rows, q, sha)
  {
    if clips != [] {
      var init, c := clips[..|clips| - 1], clips[|clips| - 1];
      DroppedMovesStay(book, disk, p, known, init, kept, replaced, q, sha);
      RecordedMovesStay(DropMissing(book, disk, p, known, init, kept, replaced), disk, p, known, c,
                        if Some(c.file) == replaced then BySettling else ByRotation, q, sha);
    }
  }

  /** A clip leaves a bank membro does not know, and a row the pass consumes moves it
      there while none that stays does: the drop is recorded before the removal and
      not after it. */
  predicate Forgoes(rows: seq<Row>, left: seq<Row>, disk: Disk, p: PersonId, known: bool, clips: seq<Clip>,
                    kept: set<FileName>)
  {
    exists c <- clips :: c.file !in kept && SendsDrop(rows, disk, p, known, c) && !SendsDrop(left, disk, p, known, c)
  }

  lemma DropMissingSnoc(book: Book, disk: Disk, p: PersonId, known: bool, clips: seq<Clip>, kept: set<FileName>,
                        replaced: Option<FileName>)
    requires clips != []
    ensures
      var c, before := clips[|clips| - 1], DropMissing(book, disk, p, known, clips[..|clips| - 1], kept, replaced);
      DropMissing(book, disk, p, known, clips, kept, replaced)
      == if c.file in kept then before
         else RecordDrop(before, disk, p, known, c, if Some(c.file) == replaced then BySettling else ByRotation)
  {}

  /** Does the drop of this clip get recorded at this point, as at the start? */
  lemma SendsAsAtFirst(book: Book, disk: Disk, p: PersonId, known: bool, clips: seq<Clip>, kept: set<FileName>,
                       replaced: Option<FileName>, c: Clip)
    ensures SendsDrop(DropMissing(book, disk, p, known, clips, kept, replaced).rows, disk, p, known, c)
            <==> SendsDrop(book.rows, disk, p, known, c)
  {
    if Address(disk, c).Some? {
      DroppedMovesStay(book, disk, p, known, clips, kept, replaced, p, Address(disk, c).value);
    }
  }

  lemma {:induction false} DroppedTwins(book: Book, left: Book, done: set<Cid>, disk: Disk, p: PersonId, known: bool,
                                        clips: seq<Clip>, kept: set<FileName>)
    requires Twins(book, left, done)
    requires forall c <- clips | c.file !in kept ::
               SendsDrop(book.rows, disk, p, known, c) == SendsDrop(left.rows, disk, p, known, c)
    ensures Twins(DropMissing(book, disk, p, known, clips, kept, None),
                  DropMissing(left, disk, p, known, clips, kept, None), done)
  {
    if clips != [] {
      var init, c := clips[..|clips| - 1], clips[|clips| - 1];
      assert c in clips && forall d <- init :: d in clips;
      DroppedTwins(book, left, done, disk, p, known, init, kept);
      DropMissingSnoc(book, disk, p, known, clips, kept, None);
      DropMissingSnoc(left, disk, p, known, clips, kept, None);
      if c.file !in kept {
        SendsAsAtFirst(book, disk, p, known, init, kept, None, c);
        SendsAsAtFirst(left, disk, p, known, init, kept, None, c);
        RecordedTwins(DropMissing(book, disk, p, known, init, kept, None),
                      DropMissing(left, disk, p, known, init, kept, None), done, disk, p, known, c, ByRotation);
      }
    }
  }

  /** One id is spent on every drop recorded, so a drop the removal forgoes shows. */
  lemma {:induction false} ForgoneDropsCount(book: Book, left: Book, disk: Disk, p: PersonId, known: bool,
                                             clips: seq<Clip>, kept: set<FileName>)
    requires forall c <- clips :: SendsDrop(left.rows, disk, p, known, c) ==> SendsDrop(book.rows, disk, p, known, c)
    requires left.next <= book.next
    ensures DropMissing(left, disk, p, known, clips, kept, None).next
            <= DropMissing(book, disk, p, known, clips, kept, None).next
    ensures left.next < book.next || Forgoes(book.rows, left.rows, disk, p, known, clips, kept) ==>
              DropMissing(left, disk, p, known, clips, kept, None).next
              < DropMissing(book, disk, p, known, clips, kept, None).next
  {
    if clips != [] {
      var init, c := clips[..|clips| - 1], clips[|clips| - 1];
      assert c in clips && forall d <- init :: d in clips;
      assert forall d <- clips :: d in init || d == c;
      ForgoneDropsCount(book, left, disk, p, known, init, kept);
      DropMissingSnoc(book, disk, p, known, clips, kept, None);
      DropMissingSnoc(left, disk, p, known, clips, kept, None);
      SendsAsAtFirst(book, disk, p, known, init, kept, None, c);
      SendsAsAtFirst(left, disk, p, known, init, kept, None, c);
      RecordedMovesStay(DropMissing(book, disk, p, known, init, kept, None), disk, p, known, c, ByRotation, p, 0);
      RecordedMovesStay(DropMissing(left, disk, p, known, init, kept, None), disk, p, known, c, ByRotation, p, 0);
    }
  }

  // ---------- a merge in the middle of a pass ----------

  /** A merge reads the ledger otherwise while the pass is under way than after it:
      the removal would have it forgo a drop, or a row that stays is misread. */
  predicate ReadsOtherwise(w: World, survivor: PersonId, gone: PersonId, kept: set<FileName>)
    requires survivor in w.s.people && gone in w.s.people
  {
    var rows, person := w.s.book.rows, w.s.people[survivor];
    || Forgoes(rows, Waiting(rows, Known(w)), w.s.disk, survivor, person.slug.Some?, person.clips, kept)
    || Misread(MergeDrops(w.s, survivor, gone, kept).rows, Done(rows, Known(w)), gone, w.s.people[gone].slug,
               Some(survivor))
  }

  lemma {:induction false} AllSentFirst(rows: seq<Row>, done: set<Cid>)
    requires forall row <- rows | IsDrop(row) :: row.cid in done
    ensures SentDropsFirst(rows, done) && CountDrops(Removed(rows, done)) == 0
  {
    if rows != [] {
      var init, last := rows[..|rows| - 1], rows[|rows| - 1];
      assert rows == init + [last] && forall row <- init :: row in rows;
      AllSentFirst(init, done);
      RemovedSnoc(init, last, done);
      CountSnoc(Removed(init, done), last);
      assert Removed(init, done) + [] == Removed(init, done);
    }
  }

  lemma TwinsAtFirst(w: World)
    requires KeptNamed(w)
    ensures Twins(w.s.book, Replayed(w).s.book, Done(w.s.book.rows, Known(w)))
  {
    PassRemoves(w);
    forall row <- w.s.book.rows | IsDrop(row) ensures row.cid in Done(w.s.book.rows, Known(w)) {
      assert Lands(row, Known(w));
    }
    AllSentFirst(w.s.book.rows, Done(w.s.book.rows, Known(w)));
  }

  lemma WaitingMovesAreMoves(rows: seq<Row>, known: Names, disk: Disk, p: PersonId, seen: bool, c: Clip)
    requires SendsDrop(Waiting(rows, known), disk, p, seen, c)
    ensures SendsDrop(rows, disk, p, seen, c)
  {
    WaitingRows(rows, known);
  }

  /** The drops of both banks, before the removal and after it. */
  lemma MergeDropsTwins(s: State, left: Book, survivor: PersonId, gone: PersonId, kept: set<FileName>, done: set<Cid>)
    requires survivor in s.people && gone in s.people && Twins(s.book, left, done)
    requires forall c <- s.people[survivor].clips ::
               SendsDrop(left.rows, s.disk, survivor, s.people[survivor].slug.Some?, c)
               ==> SendsDrop(s.book.rows, s.disk, survivor, s.people[survivor].slug.Some?, c)
    ensures
      var forgoes := Forgoes(s.book.rows, left.rows, s.disk, survivor, s.people[survivor].slug.Some?,
                             s.people[survivor].clips, kept);
      var book, left' := MergeDrops(s, survivor, gone, kept), MergeDrops(s.(book := left), survivor, gone, kept);
      if forgoes then left'.next < book.next else Twins(book, left', done)
  {
    var clips, known := s.people[survivor].clips, s.people[survivor].slug.Some?;
    var book := DropMissing(s.book, s.disk, survivor, known, clips, kept, None);
    var left' := DropMissing(left, s.disk, survivor, known, clips, kept, None);
    ForgoneDropsCount(s.book, left, s.disk, survivor, known, clips, kept);
    ForgoneDropsCount(book, left', s.disk, gone, true, s.people[gone].clips, kept);
    if !Forgoes(s.book.rows, left.rows, s.disk, survivor, known, clips, kept) {
      DroppedTwins(s.book, left, done, s.disk, survivor, known, clips, kept);
      DroppedTwins(book, left', done, s.disk, gone, true, s.people[gone].clips, kept);
    }
  }

  lemma SameBefore(a: seq<Row>, b: seq<Row>, row: Row)
    ensures a + [row] == b + [row] <==> a == b
  {
    assert (a + [row])[..|a|] == a && (b + [row])[..|b|] == b;
  }

  /** The ledger after the merge and the removal, in either order. */
  lemma SettledTwins(book: Book, left: Book, done: set<Cid>, survivor: PersonId, gone: PersonId, slug: Option<Slug>)
    requires Twins(book, left, done) && CidsRise(book.rows, book.next) && survivor != gone
    ensures
      var settled := SettledOnto(book, survivor, gone, slug);
      settled.(rows := Removed(settled.rows, done)) == SettledOnto(left, survivor, gone, slug)
      <==> !Misread(book.rows, done, gone, slug, Some(survivor))
  {
    var out, out' := Settle(book.rows, gone, slug, Some(survivor)).out, Settle(left.rows, gone, slug, Some(survivor)).out;
    SettlingDuringAPassExactly(book.rows, done, gone, slug, Some(survivor), book.next);
    if slug.Some? {
      var row := Merge(book.next, slug.value, survivor);
      RemovedSnoc(out, row, done);
      SameBefore(Removed(out, done), out', row);
    }
  }

  lemma MergeDropsNamed(w: World, survivor: PersonId, gone: PersonId, kept: set<FileName>)
    requires KeptNamed(w) && survivor in w.s.people && gone in w.s.people
    ensures CidsRise(MergeDrops(w.s, survivor, gone, kept).rows, MergeDrops(w.s, survivor, gone, kept).next)
  {
    var known := w.s.people[survivor].slug.Some?;
    DropMissingNamed(w.s.book, w.s.disk, survivor, known, w.s.people[survivor].clips, kept, None, w.names);
    DropMissingNamed(DropMissing(w.s.book, w.s.disk, survivor, known, w.s.people[survivor].clips, kept, None),
                     w.s.disk, gone, true, w.s.people[gone].clips, kept, None, w.names);
  }

  lemma MergeKeepingComesAfterExactly(w: World, survivor: PersonId, gone: PersonId, kept: seq<Clip>)
    requires KeptNamed(w) && survivor in w.s.people && gone in w.s.people && survivor != gone
    ensures
      PassedOver(w, MergeKeeping(w.s, survivor, gone, kept), w.names - {gone}).s
      == MergeKeeping(Replayed(w).s, survivor, gone, kept)
      <==> !ReadsOtherwise(w, survivor, gone, Files(kept))
  {
    var done, left, slug := Done(w.s.book.rows, Known(w)), Replayed(w).s.book, w.s.people[gone].slug;
    var book, left' := MergeDrops(w.s, survivor, gone, Files(kept)), MergeDrops(w.s.(book := left), survivor, gone, Files(kept));
    TwinsAtFirst(w);
    forall c <- w.s.people[survivor].clips | SendsDrop(left.rows, w.s.disk, survivor, w.s.people[survivor].slug.Some?, c)
      ensures SendsDrop(w.s.book.rows, w.s.disk, survivor, w.s.people[survivor].slug.Some?, c)
    {
      WaitingMovesAreMoves(w.s.book.rows, Known(w), w.s.disk, survivor, w.s.people[survivor].slug.Some?, c);
    }
    MergeDropsTwins(w.s, left, survivor, gone, Files(kept), done);
    if left'.next == book.next {
      MergeDropsNamed(w, survivor, gone, Files(kept));
      SettledTwins(book, left', done, survivor, gone, slug);
    }
  }

  /** Exactly when a merge in the middle of a pass leaves the world as a merge after
      it: if and only if it reads the ledger alike. Any rows, any banks, whomever
      membro knows. */
  lemma AMergeDuringAPassComesAfterItExactly(w: World, survivor: PersonId, gone: PersonId)
    requires KeptNamed(w) && survivor in w.s.people && gone in w.s.people && survivor != gone
    ensures
      var kept := KeptOfMerge(w.s.people[survivor], w.s.people[gone]);
      PassedOver(w, MergeInto(w.s, survivor, gone), w.names - {gone})
      == World(MergeInto(Replayed(w).s, survivor, gone), Replayed(w).remote, Replayed(w).names - {gone})
      <==> !ReadsOtherwise(w, survivor, gone, Files(kept))
  {
    MergeKeepingComesAfterExactly(w, survivor, gone, KeptOfMerge(w.s.people[survivor], w.s.people[gone]));
  }

  /** Then it leaves the store in step, if a merge after the pass does. */
  lemma AMergeDuringAPassKeepsInStep(w: World, survivor: PersonId, gone: PersonId)
    requires KeptInStep(w) && KeptNamed(w) && CarefulPass(w) && survivor in w.s.people && gone in w.s.people
    requires Mergeable(Replayed(w), survivor, gone, KeptOfMerge(w.s.people[survivor], w.s.people[gone]))
    requires !ReadsOtherwise(w, survivor, gone, Files(KeptOfMerge(w.s.people[survivor], w.s.people[gone])))
    ensures KeptInStep(PassedOver(w, MergeInto(w.s, survivor, gone), w.names - {gone}))
  {
    AMergeDuringAPassComesAfterItExactly(w, survivor, gone);
    ReplayKeepsInStep(w);
    MergeKeepsInStep(Replayed(w), survivor, gone);
  }

  // ---------- with everyone known and nothing lost ----------

  ghost predicate EveryoneKnown(w: World) {
    forall p <- w.s.people :: w.s.people[p].slug.Some?
  }

  lemma EveryRowLands(w: World)
    requires KeptNamed(w) && EveryoneKnown(w)
    ensures Known(w) == w.names
    ensures forall row <- w.s.book.rows :: Lands(row, w.names)
  {
    forall p <- w.names ensures p in Known(w) {
      assert p in w.s.people.Keys;
    }
    assert Known(w) == w.names;
    forall row <- w.s.book.rows ensures Lands(row, w.names) {
      assert WellNamed(row, w.names) && Nameable(row, w.names.Keys);
    }
  }

  /** Does the merge keep every clip of both banks? */
  ghost predicate LosesNothing(s: State, survivor: PersonId, gone: PersonId)
    requires survivor in s.people && gone in s.people
  {
    Files(MergedClips(s.people[survivor], s.people[gone])) <= Files(KeptOfMerge(s.people[survivor], s.people[gone]))
  }

  lemma NoDropsInMerge(s: State, survivor: PersonId, gone: PersonId, kept: set<FileName>)
    requires survivor in s.people && gone in s.people
    requires Files(MergedClips(s.people[survivor], s.people[gone])) <= kept
    ensures MergeDrops(s, survivor, gone, kept) == s.book
    ensures forall c <- s.people[survivor].clips :: c.file in kept
  {
    var merged := MergedClips(s.people[survivor], s.people[gone]);
    forall c | c in s.people[survivor].clips || c in s.people[gone].clips ensures c.file in kept {
      assert c in merged && c.file in Files(merged);
    }
    NothingDropped(s.book, s.disk, survivor, s.people[survivor].slug.Some?, s.people[survivor].clips, kept, None);
    NothingDropped(s.book, s.disk, gone, true, s.people[gone].clips, kept, None);
  }

  lemma AllReadRight(w: World, survivor: PersonId, gone: PersonId, kept: set<FileName>)
    requires KeptNamed(w) && EveryoneKnown(w) && survivor in w.s.people && gone in w.s.people
    requires Files(MergedClips(w.s.people[survivor], w.s.people[gone])) <= kept
    ensures !ReadsOtherwise(w, survivor, gone, kept)
  {
    EveryRowLands(w);
    PassRemoves(w);
    NoDropsInMerge(w.s, survivor, gone, kept);
    NothingMisread(w.s.book.rows, Done(w.s.book.rows, Known(w)), gone, w.s.people[gone].slug, Some(survivor));
  }

  /** With everyone known and nothing lost to rotation a merge in the middle of a pass
      leaves the world as a merge after it. */
  lemma AMergeDuringAPassComesAfterIt(w: World, survivor: PersonId, gone: PersonId)
    requires KeptNamed(w) && survivor in w.s.people && gone in w.s.people && survivor != gone
    requires EveryoneKnown(w) && LosesNothing(w.s, survivor, gone)
    ensures
      PassedOver(w, MergeInto(w.s, survivor, gone), w.names - {gone})
      == World(MergeInto(Replayed(w).s, survivor, gone), Replayed(w).remote, Replayed(w).names - {gone})
  {
    AllReadRight(w, survivor, gone, Files(KeptOfMerge(w.s.people[survivor], w.s.people[gone])));
    AMergeDuringAPassComesAfterItExactly(w, survivor, gone);
  }

  /** And so the store is in step. */
  lemma OnceAllAreKnownAMergeDuringAPassKeepsInStep(w: World, survivor: PersonId, gone: PersonId)
    requires KeptInStep(w) && KeptNamed(w) && survivor in w.s.people && gone in w.s.people && survivor != gone
    requires EveryoneKnown(w) && LosesNothing(w.s, survivor, gone)
    requires |w.s.people[survivor].clips| + |w.s.people[gone].clips| <= DROP_ROWS_MAX
    ensures KeptInStep(PassedOver(w, MergeInto(w.s, survivor, gone), w.names - {gone}))
  {
    var kept := KeptOfMerge(w.s.people[survivor], w.s.people[gone]);
    AllReadRight(w, survivor, gone, Files(kept));
    EveryRowLands(w);
    forall sha ensures Careful(w.s.book.rows, Known(w), w.names, sha, At(w.remote, sha)) {
      EveryoneKnownIsCareful(w.s.book.rows, w.names, sha, At(w.remote, sha));
    }
    EveryoneKnownNeverDrifts(w.s.book.rows, w.names, 0, None);
    NoDropsInMerge(Replayed(w).s, survivor, gone, Files(kept));
    assert Mergeable(Replayed(w), survivor, gone, kept);
    AMergeDuringAPassKeepsInStep(w, survivor, gone);
  }

  // ---------- what it can cost ----------

  function RaceNames(): Names {
    map[1 := 11, 2 := 12, 3 := 13]
  }

  /** The pass knows persons 1 and 2. */
  function RaceKnown(): Names {
    map[1 := 11, 2 := 12]
  }

  /** The names left once 2 is merged into 1. */
  function RaceLeft(): Names {
    map[1 := 11, 3 := 13]
  }

  /** The ledger after person 2 is merged into 1. */
  function Merged(rows: seq<Row>): seq<Row> {
    Settle(rows, 2, Some(12), Some(1)).out + MergeRecord(2, Some(12), 1)
  }

  lemma OneSent(row: Row, known: Names, at: Slug)
    requires Lands(row, known)
    ensures Done([] + [row], known) == {row.cid}
    ensures Walk([] + [row], known, 100, Some(at)) == StepAt(row, known, 100, Some(at))
  {
    WalkSnoc([], row, known, 100, Some(at));
    assert row in [] + [row];
  }

  /** One row and the merge, from under slug 12, once everyone left is known. */
  lemma RowThenMerge(row: Row)
    ensures Walk([] + [row] + [Merge(2, 12, 1)], RaceLeft(), 100, Some(12))
            == StepAt(Merge(2, 12, 1), RaceLeft(), 100, StepAt(row, RaceLeft(), 100, Some(12)))
  {
    var start: seq<Row> := [];
    WalkSnoc(start, row, RaceLeft(), 100, Some(12));
    WalkSnoc(start + [row], Merge(2, 12, 1), RaceLeft(), 100, Some(12));
  }

  // ---------- a drop lost ----------

  function MoveOn(dst: PersonId): Row {
    Move(0, 3, None, dst, 100)
  }

  /** The drop of clip 100 as recorded, and as a merge of person 2 into 1 rewrites
      it with and without the move ahead of it. */
  function Drop(src: PersonId, srcSlug: Option<Slug>): Row {
    Delete(1, src, srcSlug, 100, Some(ByRotation))
  }

  /** The ledger of the race, settled and with the sent row removed. */
  lemma RacedDrop()
    ensures Removed(Merged([] + [MoveOn(2)] + [Drop(2, None)]), {0}) == [] + [Drop(1, None)] + [Merge(2, 12, 1)]
  {
    var start: seq<Row> := [];
    SettleSnoc(start, MoveOn(2), 2, Some(12), Some(1));
    SettleSnoc(start + [MoveOn(2)], Drop(2, None), 2, Some(12), Some(1));
    RemovedSnoc(start, MoveOn(1), {0});
    RemovedSnoc(start + [MoveOn(1)], Drop(1, None), {0});
    RemovedSnoc(start + [MoveOn(1)] + [Drop(1, None)], Merge(2, 12, 1), {0});
  }

  /** The ledger of the merge after the pass. */
  lemma DropAfter()
    ensures Merged([] + [Drop(2, None)]) == [] + [Drop(2, Some(12))] + [Merge(2, 12, 1)]
  {
    SettleSnoc([], Drop(2, None), 2, Some(12), Some(1));
  }

  lemma RacedDropEnds()
    ensures Walk(Removed(Merged([] + [MoveOn(2)] + [Drop(2, None)]), {0}), RaceLeft(), 100, Some(12)) == Some(11)
  {
    RacedDrop();
    RowThenMerge(Drop(1, None));
  }

  lemma DropAfterEnds()
    ensures Walk(Merged([] + [Drop(2, None)]), RaceLeft(), 100, Some(12)) == None
  {
    DropAfter();
    RowThenMerge(Drop(2, Some(12)));
  }

  /** A merge that drops a clip in the middle of a pass loses the drop. The pass
      sends the move of clip 100 from person 3 to 2; meanwhile 2 merges into 1 and
      the clip is dropped. `carried` takes the move as rewritten, so the drop looks
      for the clip under 1; the pass left it under 2, and the merge then brings it
      to 1. With the merge after the pass the clip is gone. */
  lemma AMergeDuringAPassCanLoseADrop()
    ensures
      var sent := [] + [MoveOn(2)];
      && Walk(sent, RaceNames(), 100, Some(13)) == Some(12)
      && Walk(Removed(Merged(sent + [Drop(2, None)]), Done(sent, RaceNames())), RaceLeft(), 100, Some(12)) == Some(11)
      && Walk(Merged([] + [Drop(2, None)]), RaceLeft(), 100, Some(12)) == None
  {
    OneSent(MoveOn(2), RaceNames(), 13);
    RacedDropEnds();
    DropAfterEnds();
  }

  // ---------- a move lost ----------

  /** Person 1's clip 100 is moved to 2, and on to 3, who has no slug yet. */
  function ToTwo(): Row {
    Move(0, 1, None, 2, 100)
  }

  function OnToThree(src: PersonId, srcSlug: Option<Slug>): Row {
    Move(1, src, srcSlug, 3, 100)
  }

  lemma RacedMove()
    ensures Removed(Merged([] + [ToTwo()] + [OnToThree(2, None)]), {0}) == [] + [OnToThree(1, None)] + [Merge(2, 12, 1)]
  {
    var start: seq<Row> := [];
    SettleSnoc(start, ToTwo(), 2, Some(12), Some(1));
    SettleSnoc(start + [ToTwo()], OnToThree(2, None), 2, Some(12), Some(1));
    RemovedSnoc(start, OnToThree(1, None), {0});
    RemovedSnoc(start + [OnToThree(1, None)], Merge(2, 12, 1), {0});
  }

  lemma MoveAfter()
    ensures Merged([] + [OnToThree(2, None)]) == [] + [OnToThree(2, Some(12))] + [Merge(2, 12, 1)]
  {
    SettleSnoc([], OnToThree(2, None), 2, Some(12), Some(1));
  }

  lemma MoveAfterEnds()
    ensures Walk(Merged([] + [OnToThree(2, None)]), RaceLeft(), 100, Some(12)) == Some(13)
  {
    MoveAfter();
    RowThenMerge(OnToThree(2, Some(12)));
  }

  lemma FirstMoveSent()
    ensures var rows := [] + [ToTwo()] + [OnToThree(2, None)];
            && Done(rows, RaceKnown()) == {0} && Waiting(rows, RaceKnown()) == [] + [OnToThree(2, None)]
            && Walk(rows, RaceKnown(), 100, Some(11)) == Some(12)
  {
    var start: seq<Row> := [];
    var one, rows := start + [ToTwo()], start + [ToTwo()] + [OnToThree(2, None)];
    WalkSnoc(start, ToTwo(), RaceKnown(), 100, Some(11));
    WalkSnoc(one, OnToThree(2, None), RaceKnown(), 100, Some(11));
    ConsumedRow(start, ToTwo(), RaceKnown());
    assert rows[..1] == one && rows[1] == OnToThree(2, None);
    PassSnoc(rows, RaceKnown(), RaceNames(), 100, Some(11));
    assert forall row <- rows :: row == ToTwo() || row == OnToThree(2, None);
    assert ToTwo() in rows;
  }

  lemma EntersSnoc(rows: seq<Row>, row: Row, names: Names, gone: PersonId, sha: Sha, at: Option<Slug>)
    requires gone in names
    ensures Enters(rows + [row], names, gone, sha, at)
            <==> Enters(rows, names, gone, sha, at)
                 || (Walk(rows, names, sha, at) != Some(names[gone])
                     && Walk(rows + [row], names, sha, at) == Some(names[gone]))
  {
    assert (rows + [row])[..|rows|] == rows;
  }

  /** The raced rows never bring the clip to person 3. */
  lemma NeverThree()
    ensures !Enters([] + [OnToThree(1, None)] + [Merge(2, 12, 1)], RaceLeft(), 3, 100, Some(12))
    ensures Walk([] + [OnToThree(1, None)] + [Merge(2, 12, 1)], RaceLeft(), 100, Some(12)) == Some(11)
  {
    var start: seq<Row> := [];
    WalkSnoc(start, OnToThree(1, None), RaceLeft(), 100, Some(12));
    EntersSnoc(start, OnToThree(1, None), RaceLeft(), 3, 100, Some(12));
    EntersSnoc(start + [OnToThree(1, None)], Merge(2, 12, 1), RaceLeft(), 3, 100, Some(12));
    RowThenMerge(OnToThree(1, None));
  }

  /** Forgetting person 3 does not find the clip either. */
  lemma TheForgetAfterTheRace()
    ensures ForgottenEnd([] + [OnToThree(1, None)] + [Merge(2, 12, 1)], RaceLeft(), 3, Some(13), 3, 100, Some(12))
            == Some(11)
  {
    var rows := [] + [OnToThree(1, None)] + [Merge(2, 12, 1)];
    assert forall row <- rows :: row == OnToThree(1, None) || row == Merge(2, 12, 1);
    NeverThree();
    ForgottenEndIs(rows, RaceLeft(), 3, Some(13), 3, 100, Some(12));
  }

  /** With a row waiting, a merge in the middle of a pass that drops nothing can lose a
      move. The pass sends the move to person 2 and keeps the one on to 3; meanwhile
      2 merges into 1, and the first move, dropped as one onto itself, leaves word
      that the clip is under 1. The pass left it under 2, so the move on to 3 misses
      it; it ends under 1, and a forget of person 3 leaves it there. With the merge
      after the pass it is person 3's. */
  lemma AMergeDuringAPassCanLoseAMove()
    ensures
      var rows := [] + [ToTwo()] + [OnToThree(2, None)];
      var raced := Removed(Merged(rows), Done(rows, RaceKnown()));
      && Walk(rows, RaceKnown(), 100, Some(11)) == Some(12)
      && Walk(raced, RaceLeft(), 100, Some(12)) == Some(11)
      && Walk(Merged(Waiting(rows, RaceKnown())), RaceLeft(), 100, Some(12)) == Some(13)
      && ForgottenEnd(raced, RaceLeft(), 3, Some(13), 3, 100, Some(12)) == Some(11)
  {
    FirstMoveSent();
    RacedMove();
    MoveAfterEnds();
    RowThenMerge(OnToThree(1, None));
    TheForgetAfterTheRace();
  }
}
