/** Runs of the anchor store and its sync with membro: what every step keeps,
    and why a forget is complete after any run.

    A world is the store, membro, and the slug each living person has in membro
    or will have once pushed. Local ids, slugs and file names are never reused.
    Being in step also supposes that no two held clips share bytes; what holds
    without that is in AnyRuns. */
module InStep {
  import opened Wrappers
  import opened Ledger
  import opened Bank
  import opened Sorting
  import opened Store

  datatype World = World(s: State, remote: Remote, names: Names)

  // ---------- the ledger ----------

  /** Every pending row is well named, can land, and follows each clip it names. */
  ghost predicate LedgerOk(rows: seq<Row>, names: Names, remote: Remote) {
    && (forall row <- rows :: WellNamed(row, names) && Nameable(row, names.Keys))
    && forall sha :: Followed(rows, names, sha, At(remote, sha))
  }

  function End(rows: seq<Row>, names: Names, remote: Remote, sha: Sha): Option<Slug> {
    Walk(rows, names, sha, At(remote, sha))
  }

  /** After more rows each clip ends where it did, or nowhere. */
  ghost predicate Lessens(rows: seq<Row>, rows': seq<Row>, names: Names, remote: Remote) {
    forall sha :: End(rows', names, remote, sha) == None
                  || End(rows', names, remote, sha) == End(rows, names, remote, sha)
  }

  lemma FollowedSnoc(rows: seq<Row>, row: Row, names: Names, sha: Sha, at: Option<Slug>)
    requires Followed(rows, names, sha, at)
    requires Names?(row, sha) ==>
               Walk(rows, names, sha, at).None? || Walk(rows, names, sha, at) == Source(row, names)
    ensures Followed(rows + [row], names, sha, at)
  {
    assert (rows + [row])[..|rows|] == rows;
  }

  lemma OneMoreRow(rows: seq<Row>, row: Row, names: Names, remote: Remote)
    requires LedgerOk(rows, names, remote)
    requires WellNamed(row, names) && Nameable(row, names.Keys)
    requires row.Move? || row.Delete? ==>
               End(rows, names, remote, row.sha).None? || End(rows, names, remote, row.sha) == Source(row, names)
    ensures LedgerOk(rows + [row], names, remote)
    ensures forall sha :: End(rows + [row], names, remote, sha)
                          == StepAt(row, names, sha, End(rows, names, remote, sha))
  {
    forall sha ensures Followed(rows + [row], names, sha, At(remote, sha)) {
      FollowedSnoc(rows, row, names, sha, At(remote, sha));
    }
    forall sha ensures End(rows + [row], names, remote, sha)
                       == StepAt(row, names, sha, End(rows, names, remote, sha))
    {
      WalkSnoc(rows, row, names, sha, At(remote, sha));
    }
  }

  /** A delete row for a clip its own person holds. */
  lemma DeleteRowOk(rows: seq<Row>, names: Names, remote: Remote, cid: Cid, p: PersonId, sha: Sha, why: Option<Why>)
    requires LedgerOk(rows, names, remote) && p in names
    requires End(rows, names, remote, sha).None? || End(rows, names, remote, sha) == Some(names[p])
    ensures LedgerOk(rows + [Delete(cid, p, None, sha, why)], names, remote)
    ensures Lessens(rows, rows + [Delete(cid, p, None, sha, why)], names, remote)
  {
    OneMoreRow(rows, Delete(cid, p, None, sha, why), names, remote);
  }

  // ---------- where clips stand ----------

  /** Membro holds the clip under its own person, or not at all; and it never
      holds the trimmed bytes of a clip pulled from there. */
  ghost predicate Placed(c: Clip, p: PersonId, disk: Disk, rows: seq<Row>, names: Names, remote: Remote)
    requires p in names
  {
    && (Address(disk, c).Some? ==>
          var end := End(rows, names, remote, Address(disk, c).value);
          end.None? || end == Some(names[p]))
    && (c.stamp.Some? && c.file in disk && c.stamp.value != disk[c.file] ==>
          End(rows, names, remote, disk[c.file]).None?)
  }

  /** The same clip, perhaps without its stamp. */
  predicate ClipFrom(c': Clip, c: Clip) {
    c'.file == c.file && (c'.stamp == c.stamp || c'.stamp == None)
  }

  lemma PlacedInherited(c': Clip, c: Clip, p: PersonId, disk: Disk, disk': Disk,
                        rows: seq<Row>, rows': seq<Row>, names: Names, remote: Remote)
    requires p in names && Placed(c, p, disk, rows, names, remote) && ClipFrom(c', c)
    requires c.file in disk && c.file in disk' && disk'[c.file] == disk[c.file]
    requires Lessens(rows, rows', names, remote)
    ensures Placed(c', p, disk', rows', names, remote)
  {
  }

  lemma PlacedLessens(c: Clip, p: PersonId, disk: Disk, rows: seq<Row>, rows': seq<Row>, names: Names,
                      remote: Remote)
    requires p in names && Placed(c, p, disk, rows, names, remote) && Lessens(rows, rows', names, remote)
    ensures Placed(c, p, disk, rows', names, remote)
  {
    forall sha ensures End(rows', names, remote, sha) == None
                       || End(rows', names, remote, sha) == End(rows, names, remote, sha) {}
  }

  // ---------- drops ----------

  lemma CountSnoc(rows: seq<Row>, row: Row)
    ensures CountDrops(rows + [row]) == CountDrops(rows) + if IsDrop(row) then 1 else 0
  {
    RestrictSnoc(rows, row, IsDrop);
  }

  lemma RecordDropOk(book: Book, disk: Disk, p: PersonId, known: bool, c: Clip, why: Why, names: Names,
                     remote: Remote)
    requires LedgerOk(book.rows, names, remote) && p in names
    requires Placed(c, p, disk, book.rows, names, remote)
    requires CountDrops(book.rows) < DROP_ROWS_MAX
    ensures
      var book' := RecordDrop(book, disk, p, known, c, why);
      && LedgerOk(book'.rows, names, remote)
      && Lessens(book.rows, book'.rows, names, remote)
      && CountDrops(book'.rows) <= CountDrops(book.rows) + 1
  {
    var sha := Address(disk, c);
    if sha.Some? {
      CountSnoc(book.rows, Delete(book.next, p, None, sha.value, Some(why)));
      DeleteRowOk(book.rows, names, remote, book.next, p, sha.value, Some(why));
    }
  }

  /** What trimming a drop row can cost: person 1's clip was dropped, and its bytes
      banked again for person 2 and moved on to 3. With the drop row gone the clip
      stays in membro under person 1, and the move misses it. */
  lemma ATrimmedDropMisplaces()
    ensures
      var names: Names := map[1 := 11, 2 := 12, 3 := 13];
      var drop, on := Delete(0, 1, None, 100, Some(ByRotation)), Move(1, 2, None, 3, 100);
      && Followed([] + [drop] + [on], names, 100, Some(11)) && Walk([] + [drop] + [on], names, 100, Some(11)) == None
      && !Followed([] + [on], names, 100, Some(11)) && Walk([] + [on], names, 100, Some(11)) == Some(11)
  {
    var names: Names := map[1 := 11, 2 := 12, 3 := 13];
    var start: seq<Row> := [];
    var drop, on := Delete(0, 1, None, 100, Some(ByRotation)), Move(1, 2, None, 3, 100);
    WalkSnoc(start, drop, names, 100, Some(11));
    WalkSnoc(start + [drop], on, names, 100, Some(11));
    WalkSnoc(start, on, names, 100, Some(11));
    FollowedSnoc(start, drop, names, 100, Some(11));
    FollowedSnoc(start + [drop], on, names, 100, Some(11));
    assert (start + [on])[..0] == start && (start + [on])[0] == on;
  }

  lemma {:induction false} DropMissingOk(book: Book, disk: Disk, p: PersonId, known: bool, clips: seq<Clip>,
                                         kept: set<FileName>, replaced: Option<FileName>,
                                         names: Names, remote: Remote)
    requires LedgerOk(book.rows, names, remote) && p in names
    requires forall c <- clips :: Placed(c, p, disk, book.rows, names, remote)
    requires CountDrops(book.rows) + |clips| <= DROP_ROWS_MAX
    ensures
      var book' := DropMissing(book, disk, p, known, clips, kept, replaced);
      && LedgerOk(book'.rows, names, remote)
      && Lessens(book.rows, book'.rows, names, remote)
      && CountDrops(book'.rows) <= CountDrops(book.rows) + |clips|
  {
    if clips != [] {
      var init, c := clips[..|clips| - 1], clips[|clips| - 1];
      DropMissingOk(book, disk, p, known, init, kept, replaced, names, remote);
      if c.file !in kept {
        var before := DropMissing(book, disk, p, known, init, kept, replaced);
        PlacedLessens(c, p, disk, book.rows, before.rows, names, remote);
        RecordDropOk(before, disk, p, known, c,
                     if Some(c.file) == replaced then BySettling else ByRotation, names, remote);
      }
    }
  }

  lemma {:induction false} JudgeDropsOk(book: Book, disk: Disk, p: PersonId, known: bool, clips: seq<Clip>,
                                        bad: set<FileName>, names: Names, remote: Remote)
    requires LedgerOk(book.rows, names, remote) && p in names
    requires forall c <- clips :: Placed(c, p, disk, book.rows, names, remote)
    requires CountDrops(book.rows) + |clips| <= DROP_ROWS_MAX
    ensures
      var book' := JudgeDrops(book, disk, p, known, clips, bad);
      && LedgerOk(book'.rows, names, remote)
      && Lessens(book.rows, book'.rows, names, remote)
      && CountDrops(book'.rows) <= CountDrops(book.rows) + |clips|
  {
    if clips != [] {
      var init, c := clips[..|clips| - 1], clips[|clips| - 1];
      JudgeDropsOk(book, disk, p, known, init, bad, names, remote);
      if c.file in bad && !c.quarantined {
        PlacedLessens(c, p, disk, book.rows, JudgeDrops(book, disk, p, known, init, bad).rows, names, remote);
        RecordDropOk(JudgeDrops(book, disk, p, known, init, bad), disk, p, known, c, ByAudit, names, remote);
      }
    }
  }

  lemma {:induction false} NoteDeletesOk(book: Book, disk: Disk, p: PersonId, clips: seq<Clip>,
                                         names: Names, remote: Remote)
    requires LedgerOk(book.rows, names, remote) && p in names
    requires forall c <- clips :: Placed(c, p, disk, book.rows, names, remote)
    ensures
      var book' := NoteDeletes(book, disk, p, clips);
      && LedgerOk(book'.rows, names, remote)
      && Lessens(book.rows, book'.rows, names, remote)
  {
    if clips != [] {
      var init, c := clips[..|clips| - 1], clips[|clips| - 1];
      NoteDeletesOk(book, disk, p, init, names, remote);
      var before := NoteDeletes(book, disk, p, init);
      PlacedLessens(c, p, disk, book.rows, before.rows, names, remote);
      if Address(disk, c).Some? {
        DeleteRowOk(before.rows, names, remote, before.next, p, Address(disk, c).value, None);
      }
    }
  }

  // ---------- settling ----------

  lemma GoneNameUnused(names: Names, gone: PersonId)
    requires gone in names && Injective(names)
    ensures names[gone] !in (names - {gone}).Values
  {
    var rest := names - {gone};
    forall p <- rest ensures rest[p] != names[gone] {
      assert p in names;
    }
  }

  /** The settled form of one row follows its clip. */
  lemma SentRowFollows(row: Row, names: Names, gone: PersonId, slug: Option<Slug>, into: PersonId, sha: Sha,
                       original: Option<Slug>, settled: Option<Slug>, home: Option<PersonId>, brought: bool)
    requires gone in names && into in names && gone != into && Injective(names)
    requires slug == Some(names[gone]) || slug.None?
    requires WellNamed(row, names) && Names?(row, sha)
    requires original.None? || original == Source(row, names)
    requires row.src == gone && brought ==> home.Some?
    requires home.Some? ==> home.value == into
    requires Carries(names, gone, slug, into, original, settled, home.Some? || brought)
    ensures
      var sent := SettledRow(row, gone, slug, Some(into), home);
      sent.Some? ==> Names?(sent.value, sha)
                     && (settled.None? || settled == Source(sent.value, names - {gone}))
  {
    assert names[gone] != names[into];
  }

  /** A ledger settled for a merge is in order for the people left. */
  lemma {:induction false} SettledForMergeFollows(rows: seq<Row>, names: Names, gone: PersonId, slug: Option<Slug>,
                                                  into: PersonId, sha: Sha, at: Option<Slug>)
    requires gone in names && into in names && gone != into && Sound(rows, names)
    requires slug == Some(names[gone]) || (slug.None? && at != Some(names[gone]))
    requires Followed(rows, names, sha, at) && StaysClear(rows, names, gone, into, sha, at)
    ensures Followed(Settle(rows, gone, slug, Some(into)).out, names - {gone}, sha, at)
  {
    if rows != [] {
      var init, row := rows[..|rows| - 1], rows[|rows| - 1];
      SettledForMergeFollows(init, names, gone, slug, into, sha, at);
      ClearKeepsTrack(init, names, gone, into, sha, at);
      SettledWalkCarries(init, names, gone, slug, into, sha, at);
      CarriedExactly(init, gone, slug, into, sha);
      var st := Settle(init, gone, slug, Some(into));
      var home := Home(st.carried, row);
      var sent := SettledRow(row, gone, slug, Some(into), home);
      assert WellNamed(row, names);
      if Names?(row, sha) {
        SentRowFollows(row, names, gone, slug, into, sha, Walk(init, names, sha, at),
                       Walk(st.out, names - {gone}, sha, at), home, Brought(init, names, gone, sha, at));
      }
      if sent.Some? {
        FollowedSnoc(st.out, sent.value, names - {gone}, sha, at);
      } else {
        assert st.out + [] == st.out;
      }
    }
  }

  lemma FollowedSent(out: seq<Row>, sent: Option<Row>, names: Names, sha: Sha, at: Option<Slug>)
    requires Followed(out, names, sha, at)
    requires sent.Some? && Names?(sent.value, sha) ==>
               Walk(out, names, sha, at).None? || Walk(out, names, sha, at) == Source(sent.value, names)
    ensures Followed(out + if sent.Some? then [sent.value] else [], names, sha, at)
  {
    if sent.Some? {
      FollowedSnoc(out, sent.value, names, sha, at);
    } else {
      assert out + [] == out;
    }
  }

  lemma ForgottenRowFollows(row: Row, names: Names, gone: PersonId, slug: Option<Slug>, sha: Sha,
                            original: Option<Slug>, settled: Option<Slug>)
    requires gone in names && Injective(names) && WellNamed(row, names)
    requires slug == Some(names[gone]) || slug.None?
    requires Names?(row, sha) ==> original.None? || original == Source(row, names)
    requires settled.None? || settled == original
    requires slug.None? ==> settled != Some(names[gone])
    ensures var sent := SettledRow(row, gone, slug, None, None);
            sent.Some? && Names?(sent.value, sha) ==> settled.None? || settled == Source(sent.value, names - {gone})
  {}

  lemma {:induction false} SettledForForgetFollows(rows: seq<Row>, names: Names, gone: PersonId, slug: Option<Slug>,
                                                   sha: Sha, at: Option<Slug>)
    requires gone in names && Injective(names) && AllWellNamed(rows, names)
    requires slug == Some(names[gone]) || (slug.None? && at != Some(names[gone]))
    requires Followed(rows, names, sha, at)
    ensures Followed(Settle(rows, gone, slug, None).out, names - {gone}, sha, at)
  {
    if rows != [] {
      var init, row := rows[..|rows| - 1], rows[|rows| - 1];
      SettledForForgetFollows(init, names, gone, slug, sha, at);
      ForgottenWalkIs(init, names, gone, slug, sha, at);
      NothingCarried(init, gone, slug);
      var out := Settle(init, gone, slug, None).out;
      assert row in rows;
      ForgottenRowFollows(row, names, gone, slug, sha, Walk(init, names, sha, at), Walk(out, names - {gone}, sha, at));
      FollowedSent(out, SettledRow(row, gone, slug, None, None), names - {gone}, sha, at);
    }
  }

  lemma {:induction false} SettledWellNamed(rows: seq<Row>, names: Names, gone: PersonId, slug: Option<Slug>,
                                            into: Option<PersonId>)
    requires gone in names && Injective(names) && AllWellNamed(rows, names)
    requires slug.Some? ==> slug == Some(names[gone])
    requires into.Some? ==> into.value in names && into.value != gone
    ensures AllWellNamed(Settle(rows, gone, slug, into).out, names - {gone})
    ensures forall s <- Settle(rows, gone, slug, into).carried ::
              into.Some? && Settle(rows, gone, slug, into).carried[s] == into.value
  {
    if rows != [] {
      SettledWellNamed(rows[..|rows| - 1], names, gone, slug, into);
      assert WellNamed(rows[|rows| - 1], names);
      GoneNameUnused(names, gone);
    }
  }
}
