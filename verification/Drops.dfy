/** The drop rows of the ledger (backend/anchors.py: _record_drop): when one is
    recorded and what it says, which go past their cap, and that settling and
    replaying make no more of them. What they come to in membro is in Leaving. */
module Drops {
  import opened Wrappers
  import opened Ledger
  import opened Bank
  import opened Sorting
  import opened Store

  // ---------- which drops go ----------

  predicate NotDrop(row: Row) {
    !IsDrop(row)
  }

  lemma CountSnoc(rows: seq<Row>, row: Row)
    ensures CountDrops(rows + [row]) == CountDrops(rows) + if IsDrop(row) then 1 else 0
  {
    RestrictSnoc(rows, row, IsDrop);
  }

  lemma {:induction false} SkipsTheOldest(rows: seq<Row>, n: nat) returns (k: nat)
    requires n <= CountDrops(rows)
    ensures k <= |rows| && CountDrops(rows[..k]) == n
    ensures SkipDrops(rows, n) == Restrict(rows[..k], NotDrop) + rows[k..]
  {
    k := 0;
    if rows != [] {
      var init, last := rows[..|rows| - 1], rows[|rows| - 1];
      assert rows == init + [last];
      CountSnoc(init, last);
      if n <= CountDrops(init) {
        k := SkipsTheOldest(init, n);
        assert rows[..k] == init[..k] && rows[k..] == init[k..] + [last];
      } else {
        k := SkipsTheOldest(init, CountDrops(init));
        SkipAll(init, n);
        SkipAll(init, CountDrops(init));
        k := |rows|;
        RestrictSnoc(init, last, NotDrop);
        assert rows[..k] == rows;
      }
    }
  }

  lemma {:induction false} SkipAll(rows: seq<Row>, n: nat)
    requires n >= CountDrops(rows)
    ensures SkipDrops(rows, n) == Restrict(rows, NotDrop)
  {
    if rows != [] {
      var init, last := rows[..|rows| - 1], rows[|rows| - 1];
      assert rows == init + [last];
      CountSnoc(init, last);
      SkipAll(init, n);
      RestrictSnoc(init, last, NotDrop);
    }
  }

  /** Past the cap the oldest drops go, as many as are over it, and no other row:
      up to some row all drops are gone, and behind it every row stays. */
  lemma TrimTakesTheOldestDrops(rows: seq<Row>) returns (k: nat)
    ensures k <= |rows| && TrimDrops(rows) == Restrict(rows[..k], NotDrop) + rows[k..]
    ensures CountDrops(rows[..k]) == if CountDrops(rows) > 500 then CountDrops(rows) - 500 else 0
  {
    if CountDrops(rows) <= DROP_ROWS_MAX {
      k := 0;
      assert rows[..0] == [] && [] + rows[0..] == rows;
    } else {
      k := SkipsTheOldest(rows, CountDrops(rows) - DROP_ROWS_MAX);
    }
  }

  lemma TrimFrom(rows: seq<Row>)
    ensures forall row <- TrimDrops(rows) :: row in rows
  {
    var k := TrimTakesTheOldestDrops(rows);
    RestrictMembers(rows[..k], NotDrop);
  }

  /** A drop noted for a clip of p's: it takes that clip from p under its address, and
      says why the clip left. */
  ghost predicate NotedDrop(row: Row, disk: Disk, p: PersonId, c: Clip, why: Why) {
    row.Delete? && row.src == p && row.srcSlug.None? && KnownAs(disk, c, row.sha) && row.why == Some(why)
  }

  /** When a clip that leaves a bank is sent on: it has not left membro before, and membro
      knows the person or a pending move into them names the clip. Its drop is then the
      last row, and the oldest make room. */
  lemma ADropIsRecordedExactly(book: Book, disk: Disk, p: PersonId, known: bool, c: Clip, why: Why)
    requires c.file in disk
    ensures
      var book' := RecordDrop(book, disk, p, known, c, why);
      if !c.leftMembro && (known || exists row <- book.rows :: row.Move? && row.dst == p && KnownAs(disk, c, row.sha)) then
        && book'.rows != [] && book'.next == book.next + 1
        && var last := book'.rows[|book'.rows| - 1];
           && last.cid == book.next && NotedDrop(last, disk, p, c, why)
           && book'.rows == TrimDrops(book.rows + [last])
      else book' == book
  {
    var sha := Address(disk, c).value;
    var rows := book.rows + [Delete(book.next, p, None, sha, Some(why))];
    assert MovesInto(book.rows, p, sha) <==> exists row <- book.rows :: row.Move? && row.dst == p && KnownAs(disk, c, row.sha);
    TrimKeepsTheLast(book.rows, rows[|book.rows|]);
  }

  lemma TrimKeepsTheLast(rows: seq<Row>, row: Row)
    requires IsDrop(row)
    ensures var trimmed := TrimDrops(rows + [row]); trimmed != [] && trimmed[|trimmed| - 1] == row
  {
    var k := TrimTakesTheOldestDrops(rows + [row]);
    CountSnoc(rows, row);
    assert (rows + [row])[..|rows| + 1] == rows + [row];
  }

  /** The rows a bank's drops add: one for each clip it gives up at most, which says
      whether the settle rule replaced it or rotation crowded it out. */
  lemma {:induction false} DropsSayWhy(book: Book, disk: Disk, p: PersonId, known: bool, clips: seq<Clip>,
                                       kept: set<FileName>, replaced: Option<FileName>)
    ensures forall row <- DropMissing(book, disk, p, known, clips, kept, replaced).rows | row !in book.rows ::
              exists c <- clips :: c.file !in kept && !c.leftMembro
                && NotedDrop(row, disk, p, c, if replaced == Some(c.file) then BySettling else ByRotation)
  {
    if clips != [] {
      var init, c := clips[..|clips| - 1], clips[|clips| - 1];
      var before := DropMissing(book, disk, p, known, init, kept, replaced);
      DropsSayWhy(book, disk, p, known, init, kept, replaced);
      RecordedFrom(before, disk, p, known, c, if Some(c.file) == replaced then BySettling else ByRotation);
    }
  }

  lemma RecordedFrom(book: Book, disk: Disk, p: PersonId, known: bool, c: Clip, why: Why)
    ensures forall row <- RecordDrop(book, disk, p, known, c, why).rows | row !in book.rows ::
              !c.leftMembro && NotedDrop(row, disk, p, c, why)
  {
    if Address(disk, c).Some? {
      TrimFrom(Note(book, Delete(0, p, None, Address(disk, c).value, Some(why))).rows);
    }
  }

  /** Those of an audit's verdict name what it newly set aside. */
  lemma {:induction false} VerdictDropsSayWhy(book: Book, disk: Disk, p: PersonId, known: bool, clips: seq<Clip>,
                                              bad: set<FileName>)
    ensures forall row <- JudgeDrops(book, disk, p, known, clips, bad).rows | row !in book.rows ::
              exists c <- clips :: c.file in bad && !c.quarantined && !c.leftMembro && NotedDrop(row, disk, p, c, ByAudit)
  {
    if clips != [] {
      var init, c := clips[..|clips| - 1], clips[|clips| - 1];
      VerdictDropsSayWhy(book, disk, p, known, init, bad);
      RecordedFrom(JudgeDrops(book, disk, p, known, init, bad), disk, p, known, c, ByAudit);
    }
  }

  // ---------- the cap on drops ----------

  ghost predicate Capped(book: Book) {
    CountDrops(book.rows) <= DROP_ROWS_MAX
  }

  lemma CountConcat(a: seq<Row>, b: seq<Row>)
    ensures CountDrops(a + b) == CountDrops(a) + CountDrops(b)
  {
    RestrictConcat(a, b, IsDrop);
  }

  lemma {:induction false} NoDropsAmong(rows: seq<Row>)
    ensures CountDrops(Restrict(rows, NotDrop)) == 0
  {
    if rows != [] {
      var init, last := rows[..|rows| - 1], rows[|rows| - 1];
      NoDropsAmong(init);
      CountSnoc(Restrict(init, NotDrop), last);
    }
  }

  lemma TrimmedIsCapped(rows: seq<Row>)
    ensures CountDrops(TrimDrops(rows)) <= DROP_ROWS_MAX
  {
    var k := TrimTakesTheOldestDrops(rows);
    assert rows == rows[..k] + rows[k..];
    CountConcat(rows[..k], rows[k..]);
    CountConcat(Restrict(rows[..k], NotDrop), rows[k..]);
    NoDropsAmong(rows[..k]);
  }

  lemma RecordedIsCapped(book: Book, disk: Disk, p: PersonId, known: bool, c: Clip, why: Why)
    requires Capped(book)
    ensures Capped(RecordDrop(book, disk, p, known, c, why))
  {
    if Address(disk, c).Some? {
      TrimmedIsCapped(Note(book, Delete(0, p, None, Address(disk, c).value, Some(why))).rows);
    }
  }

  lemma {:induction false} DroppedIsCapped(book: Book, disk: Disk, p: PersonId, known: bool, clips: seq<Clip>,
                                           kept: set<FileName>, replaced: Option<FileName>)
    requires Capped(book)
    ensures Capped(DropMissing(book, disk, p, known, clips, kept, replaced))
  {
    if clips != [] {
      var init, c := clips[..|clips| - 1], clips[|clips| - 1];
      DroppedIsCapped(book, disk, p, known, init, kept, replaced);
      RecordedIsCapped(DropMissing(book, disk, p, known, init, kept, replaced), disk, p, known, c,
                       if Some(c.file) == replaced then BySettling else ByRotation);
    }
  }

  lemma {:induction false} JudgedIsCapped(book: Book, disk: Disk, p: PersonId, known: bool, clips: seq<Clip>,
                                          bad: set<FileName>)
    requires Capped(book)
    ensures Capped(JudgeDrops(book, disk, p, known, clips, bad))
  {
    if clips != [] {
      var init, c := clips[..|clips| - 1], clips[|clips| - 1];
      JudgedIsCapped(book, disk, p, known, init, bad);
      RecordedIsCapped(JudgeDrops(book, disk, p, known, init, bad), disk, p, known, c, ByAudit);
    }
  }

  lemma NotedIsCapped(book: Book, row: Row)
    requires Capped(book) && !IsDrop(row)
    ensures Capped(Note(book, row))
  {
    CountSnoc(book.rows, row.(cid := book.next));
  }

  lemma {:induction false} DeletedIsCapped(book: Book, disk: Disk, p: PersonId, clips: seq<Clip>)
    requires Capped(book)
    ensures Capped(NoteDeletes(book, disk, p, clips))
  {
    if clips != [] {
      var before := NoteDeletes(book, disk, p, clips[..|clips| - 1]);
      DeletedIsCapped(book, disk, p, clips[..|clips| - 1]);
      var sha := Address(disk, clips[|clips| - 1]);
      if sha.Some? {
        NotedIsCapped(before, Delete(0, p, None, sha.value, None));
      }
    }
  }

  /** Settling makes no drop of what was none. */
  lemma {:induction false} SettlingAddsNoDrop(rows: seq<Row>, gone: PersonId, slug: Option<Slug>, into: Option<PersonId>)
    ensures CountDrops(Settle(rows, gone, slug, into).out) <= CountDrops(rows)
  {
    if rows != [] {
      var init, row := rows[..|rows| - 1], rows[|rows| - 1];
      SettlingAddsNoDrop(init, gone, slug, into);
      var st := Settle(init, gone, slug, into);
      var sent := SettledRow(row, gone, slug, into, Home(st.carried, row));
      assert rows == init + [row];
      CountSnoc(init, row);
      if sent.Some? {
        CountSnoc(st.out, sent.value);
      } else {
        assert st.out + [] == st.out;
      }
    }
  }

  lemma {:induction false} WaitingAddsNoDrop(rows: seq<Row>, known: Names)
    ensures CountDrops(Waiting(rows, known)) <= CountDrops(rows)
  {
    if rows != [] {
      var init, row := rows[..|rows| - 1], rows[|rows| - 1];
      WaitingAddsNoDrop(init, known);
      assert rows == init + [row];
      CountSnoc(init, row);
      CountSnoc(Waiting(init, known), row);
      assert Waiting(init, known) + [] == Waiting(init, known);
    }
  }
}
