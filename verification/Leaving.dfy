/** What leaves membro when a clip leaves a bank (backend/anchors.py: _record_drop and
    its callers, remove_clip, retract_utterance_clips): where each clip ends once the
    ledger has landed. */
module Leaving {
  import opened Wrappers
  import opened Ledger
  import opened Bank
  import opened Sorting
  import opened Store
  import opened Bijection
  import opened InStep
  import opened Runs
  import opened RacedMerges

  // ---------- one row ----------

  /** A clip p's delete takes: gone if it would end under p, and otherwise untouched. */
  function Taken(end: Option<Slug>, names: Names, p: PersonId): Option<Slug>
    requires p in names
  {
    if end == Some(names[p]) then None else end
  }

  lemma DeleteEnds(rows: seq<Row>, cid: Cid, p: PersonId, gone: Sha, why: Option<Why>, names: Names, remote: Remote,
                   sha: Sha)
    requires p in names
    ensures End(rows + [Delete(cid, p, None, gone, why)], names, remote, sha)
            == if sha == gone then Taken(End(rows, names, remote, sha), names, p) else End(rows, names, remote, sha)
  {
    WalkSnoc(rows, Delete(cid, p, None, gone, why), names, sha, At(remote, sha));
  }

  // ---------- what the owner deletes and what is retracted ----------

  ghost predicate Named(clips: seq<Clip>, disk: Disk, sha: Sha) {
    exists c <- clips :: Address(disk, c) == Some(sha)
  }

  lemma {:induction false} NotedEnds(book: Book, disk: Disk, p: PersonId, clips: seq<Clip>, names: Names, remote: Remote,
                                     sha: Sha)
    requires p in names
    ensures End(NoteDeletes(book, disk, p, clips).rows, names, remote, sha)
            == if Named(clips, disk, sha) then Taken(End(book.rows, names, remote, sha), names, p)
               else End(book.rows, names, remote, sha)
  {
    if clips != [] {
      var init, c := clips[..|clips| - 1], clips[|clips| - 1];
      var before := NoteDeletes(book, disk, p, init);
      NotedEnds(book, disk, p, init, names, remote, sha);
      assert forall d :: d in clips <==> d in init || d == c;
      if Address(disk, c).Some? {
        DeleteEnds(before.rows, before.next, p, Address(disk, c).value, None, names, remote, sha);
      }
    }
  }

  /** A clip the owner deletes leaves membro. */
  lemma ADeletedClipLeavesMembro(w: World, p: PersonId, c: Clip)
    requires KeptInStep(w) && p in w.s.people && c in w.s.people[p].clips
    ensures Address(w.s.disk, c).Some? && KnownAs(w.s.disk, c, Address(w.s.disk, c).value)
    ensures End(DeleteClip(w.s, p, c.file).0.book.rows, w.names, w.remote, Address(w.s.disk, c).value).None?
  {
    OnDisk(w.s, p, c);
    assert c.file in Files(w.s.people[p].clips);
    var d := FindFile(w.s.people[p].clips, c.file).value;
    OneFileSame(w.s.people[p].clips, c, d);
    assert Placed(c, p, w.s.disk, w.s.book.rows, w.names, w.remote);
    DeleteEnds(w.s.book.rows, w.s.book.next, p, Address(w.s.disk, c).value, None, w.names, w.remote,
               Address(w.s.disk, c).value);
  }

  lemma ARetractedClipLeavesMembro(w: World, p: PersonId, slices: set<FileName>, c: Clip)
    requires KeptInStep(w) && p in w.s.people && c in w.s.people[p].clips && Contested(c, slices)
    ensures Address(w.s.disk, c).Some? && KnownAs(w.s.disk, c, Address(w.s.disk, c).value)
    ensures End(Retract(w.s, p, slices).0.book.rows, w.names, w.remote, Address(w.s.disk, c).value).None?
  {
    var gone := Restrict(w.s.people[p].clips, IsContested(slices));
    OnDisk(w.s, p, c);
    RestrictMembers(w.s.people[p].clips, IsContested(slices));
    assert c in gone && Placed(c, p, w.s.disk, w.s.book.rows, w.names, w.remote);
    NotedEnds(w.s.book, w.s.disk, p, gone, w.names, w.remote, Address(w.s.disk, c).value);
  }

  // ---------- drops ----------

  ghost predicate SentOn(rows: seq<Row>, disk: Disk, p: PersonId, known: bool, clips: seq<Clip>, kept: set<FileName>,
                         sha: Sha)
  {
    exists c <- clips :: c.file !in kept && Address(disk, c) == Some(sha) && SendsDrop(rows, disk, p, known, c)
  }

  lemma RecordedEnds(book: Book, disk: Disk, p: PersonId, known: bool, c: Clip, why: Why, names: Names, remote: Remote,
                     sha: Sha)
    requires p in names && CountDrops(book.rows) < DROP_ROWS_MAX
    ensures
      var book' := RecordDrop(book, disk, p, known, c, why);
      && CountDrops(book'.rows) <= CountDrops(book.rows) + 1
      && End(book'.rows, names, remote, sha)
         == if SendsDrop(book.rows, disk, p, known, c) && Address(disk, c) == Some(sha)
            then Taken(End(book.rows, names, remote, sha), names, p)
            else End(book.rows, names, remote, sha)
  {
    if SendsDrop(book.rows, disk, p, known, c) {
      var row := Delete(book.next, p, None, Address(disk, c).value, Some(why));
      InStep.CountSnoc(book.rows, row);
      DeleteEnds(book.rows, book.next, p, Address(disk, c).value, Some(why), names, remote, sha);
    }
  }

  /** Where the drops of a bank leave each clip, while none is trimmed: what is sent on
      leaves p, and nothing else changes. */
  lemma {:induction false} DropsEnd(book: Book, disk: Disk, p: PersonId, known: bool, clips: seq<Clip>,
                                    kept: set<FileName>, replaced: Option<FileName>, names: Names, remote: Remote,
                                    sha: Sha)
    requires p in names && CountDrops(book.rows) + |clips| <= DROP_ROWS_MAX
    ensures
      var book' := DropMissing(book, disk, p, known, clips, kept, replaced);
      && CountDrops(book'.rows) <= CountDrops(book.rows) + |clips|
      && End(book'.rows, names, remote, sha)
         == if SentOn(book.rows, disk, p, known, clips, kept, sha) then Taken(End(book.rows, names, remote, sha), names, p)
            else End(book.rows, names, remote, sha)
  {
    if clips != [] {
      var init, c := clips[..|clips| - 1], clips[|clips| - 1];
      var before := DropMissing(book, disk, p, known, init, kept, replaced);
      DropsEnd(book, disk, p, known, init, kept, replaced, names, remote, sha);
      DropMissingSnoc(book, disk, p, known, clips, kept, replaced);
      SendsAsAtFirst(book, disk, p, known, init, kept, replaced, c);
      assert forall d :: d in clips <==> d in init || d == c;
      RecordedEnds(before, disk, p, known, c, if Some(c.file) == replaced then BySettling else ByRotation, names, remote,
                   sha);
    }
  }

  ghost predicate SetAsideNow(rows: seq<Row>, disk: Disk, p: PersonId, known: bool, clips: seq<Clip>, bad: set<FileName>,
                              sha: Sha)
  {
    exists c <- clips :: c.file in bad && !c.quarantined && Address(disk, c) == Some(sha) && SendsDrop(rows, disk, p, known, c)
  }

  lemma {:induction false} JudgedMovesStay(book: Book, disk: Disk, p: PersonId, known: bool, clips: seq<Clip>,
                                           bad: set<FileName>, q: PersonId, sha: Sha)
    ensures MovesInto(JudgeDrops(book, disk, p, known, clips, bad).rows, q, sha) <==> MovesInto(book.rows, q, sha)
  {
    if clips != [] {
      var init, c := clips[..|clips| - 1], clips[|clips| - 1];
      JudgedMovesStay(book, disk, p, known, init, bad, q, sha);
      RecordedMovesStay(JudgeDrops(book, disk, p, known, init, bad), disk, p, known, c, ByAudit, q, sha);
    }
  }

  /** The same of the drops an audit's verdict records. */
  lemma {:induction false} JudgedEnd(book: Book, disk: Disk, p: PersonId, known: bool, clips: seq<Clip>, bad: set<FileName>,
                                     names: Names, remote: Remote, sha: Sha)
    requires p in names && CountDrops(book.rows) + |clips| <= DROP_ROWS_MAX
    ensures
      var book' := JudgeDrops(book, disk, p, known, clips, bad);
      && CountDrops(book'.rows) <= CountDrops(book.rows) + |clips|
      && End(book'.rows, names, remote, sha)
         == if SetAsideNow(book.rows, disk, p, known, clips, bad, sha)
            then Taken(End(book.rows, names, remote, sha), names, p)
            else End(book.rows, names, remote, sha)
  {
    if clips != [] {
      var init, c := clips[..|clips| - 1], clips[|clips| - 1];
      var before := JudgeDrops(book, disk, p, known, init, bad);
      JudgedEnd(book, disk, p, known, init, bad, names, remote, sha);
      assert forall d :: d in clips <==> d in init || d == c;
      if Address(disk, c).Some? {
        JudgedMovesStay(book, disk, p, known, init, bad, p, Address(disk, c).value);
      }
      RecordedEnds(before, disk, p, known, c, ByAudit, names, remote, sha);
    }
  }

  // ---------- and what a drop leaves behind ----------

  /** The last row that takes the clip anywhere is a merge p won. */
  ghost predicate ComesByMerge(rows: seq<Row>, names: Names, p: PersonId, sha: Sha, at: Option<Slug>) {
    rows != []
    && var init, row := rows[..|rows| - 1], rows[|rows| - 1];
       if Walk(rows, names, sha, at) == Walk(init, names, sha, at) then ComesByMerge(init, names, p, sha, at)
       else row.Merge? && row.winner == p
  }

  lemma StepTo(row: Row, names: Names, p: PersonId, sha: Sha, at: Option<Slug>)
    requires Injective(names) && p in names
    requires StepAt(row, names, sha, at) != at
    ensures StepAt(row, names, sha, at) == Some(names[p])
            <==> (row.Merge? && row.winner == p) || (row.Move? && row.dst == p && row.sha == sha && at != Some(names[p]))
  {
  }

  /** A clip bound for somebody membro does not know comes by a pending move, which
      names it, or by a merge they won, which does not. */
  lemma {:induction false} ComesSomehow(rows: seq<Row>, names: Names, p: PersonId, sha: Sha, at: Option<Slug>)
    requires Injective(names) && p in names && at != Some(names[p])
    ensures Walk(rows, names, sha, at) == Some(names[p]) ==> ComesByMerge(rows, names, p, sha, at) || MovesInto(rows, p, sha)
    ensures ComesByMerge(rows, names, p, sha, at) ==> Walk(rows, names, sha, at) == Some(names[p])
  {
    if rows != [] {
      var init, row := rows[..|rows| - 1], rows[|rows| - 1];
      ComesSomehow(init, names, p, sha, at);
      assert rows == init + [row];
      MovesIntoSnoc(init, row, p, sha);
      if Walk(rows, names, sha, at) != Walk(init, names, sha, at) {
        StepTo(row, names, p, sha, Walk(init, names, sha, at));
      }
    }
  }

  /** Where a clip of p's that is dropped and not sent on stays: nowhere but with p, and
      there exactly when a merge p won brings it, membro does not know p, and no pending
      move names it. */
  ghost predicate StaysBehind(w: World, p: PersonId, c: Clip)
    requires p in w.s.people && Address(w.s.disk, c).Some?
  {
    var sha := Address(w.s.disk, c).value;
    && w.s.people[p].slug.None? && !MovesInto(w.s.book.rows, p, sha)
    && ComesByMerge(w.s.book.rows, w.names, p, sha, At(w.remote, sha))
  }

  lemma StaysBehindExactly(w: World, p: PersonId, c: Clip)
    requires KeptInStep(w) && p in w.s.people && c in w.s.people[p].clips && Address(w.s.disk, c).Some?
    ensures
      var sha := Address(w.s.disk, c).value;
      var known := w.s.people[p].slug.Some?;
      StaysBehind(w, p, c)
      <==> End(w.s.book.rows, w.names, w.remote, sha).Some?
           && !(known || MovesInto(w.s.book.rows, p, sha))
  {
    var sha := Address(w.s.disk, c).value;
    assert Placed(c, p, w.s.disk, w.s.book.rows, w.names, w.remote);
    if w.s.people[p].slug.None? {
      if sha in w.remote {
        assert w.remote[sha] in w.remote.Values;
      }
      ComesSomehow(w.s.book.rows, w.names, p, sha, At(w.remote, sha));
    }
  }

  /** No other clip answers to the address. */
  lemma OwnAddress(w: World, p: PersonId, q: PersonId, c: Clip, d: Clip, sha: Sha)
    requires KeptInStep(w) && p in w.s.people && q in w.s.people
    requires c in w.s.people[p].clips && d in w.s.people[q].clips
    requires sha in Handles(w.s.disk, c) && sha in Handles(w.s.disk, d)
    ensures c.file == d.file && (p == q ==> c == d)
  {
    if p == q && c.file == d.file {
      OneFileSame(w.s.people[p].clips, c, d);
    }
  }

  /** Has no other clip of the bank this address? */
  ghost predicate AddressedAlone(disk: Disk, clips: seq<Clip>, c: Clip, sha: Sha) {
    c in clips && Address(disk, c) == Some(sha) && forall d <- clips | Address(disk, d) == Some(sha) :: d == c
  }

  lemma OwnAddressAlone(w: World, disk: Disk, p: PersonId, c: Clip)
    requires KeptInStep(w) && p in w.s.people && c in w.s.people[p].clips && Address(w.s.disk, c).Some?
    requires forall d <- w.s.people[p].clips :: Address(disk, d) == Address(w.s.disk, d)
    ensures AddressedAlone(disk, w.s.people[p].clips, c, Address(w.s.disk, c).value)
  {
    var sha := Address(w.s.disk, c).value;
    forall d <- w.s.people[p].clips | Address(disk, d) == Some(sha) ensures d == c {
      OwnAddress(w, p, p, c, d, sha);
    }
  }

  /** Then nothing but its own drop takes the address from p. */
  lemma SentOnAlone(rows: seq<Row>, disk: Disk, p: PersonId, known: bool, clips: seq<Clip>, kept: set<FileName>, c: Clip,
                    sha: Sha)
    requires AddressedAlone(disk, clips, c, sha) && c.file !in kept
    ensures SentOn(rows, disk, p, known, clips, kept, sha) <==> SendsDrop(rows, disk, p, known, c)
  {}

  lemma SetAsideAlone(rows: seq<Row>, disk: Disk, p: PersonId, known: bool, clips: seq<Clip>, bad: set<FileName>, c: Clip,
                      sha: Sha)
    requires AddressedAlone(disk, clips, c, sha) && c.file in bad && !c.quarantined
    ensures SetAsideNow(rows, disk, p, known, clips, bad, sha) <==> SendsDrop(rows, disk, p, known, c)
  {}

  /** A clip that leaves a bank leaves membro, or was not there, unless it stays behind.
      `disk` is what the operation has written by then. */
  lemma ADropLeavesMembroExactly(w: World, disk: Disk, p: PersonId, kept: set<FileName>, replaced: Option<FileName>,
                                 c: Clip)
    requires KeptInStep(w) && p in w.s.people && c in w.s.people[p].clips && c.file !in kept && !c.leftMembro
    requires forall d <- w.s.people[p].clips :: Address(disk, d) == Address(w.s.disk, d)
    requires CountDrops(w.s.book.rows) + |w.s.people[p].clips| <= DROP_ROWS_MAX
    ensures Address(w.s.disk, c).Some? && KnownAs(w.s.disk, c, Address(w.s.disk, c).value)
    ensures
      var book' := DropMissing(w.s.book, disk, p, w.s.people[p].slug.Some?, w.s.people[p].clips, kept, replaced);
      End(book'.rows, w.names, w.remote, Address(w.s.disk, c).value).None? <==> !StaysBehind(w, p, c)
  {
    OnDisk(w.s, p, c);
    var sha, known := Address(w.s.disk, c).value, w.s.people[p].slug.Some?;
    DropsEnd(w.s.book, disk, p, known, w.s.people[p].clips, kept, replaced, w.names, w.remote, sha);
    StaysBehindExactly(w, p, c);
    assert Placed(c, p, w.s.disk, w.s.book.rows, w.names, w.remote);
    OwnAddressAlone(w, disk, p, c);
    SentOnAlone(w.s.book.rows, disk, p, known, w.s.people[p].clips, kept, c, sha);
  }

  /** The drops an add records: none, or those of the clips its bank gives up. */
  lemma AddDrops(s: State, p: PersonId, u: Utterance, now: nat, verdict: Option<bool>) returns (replaced: Option<FileName>)
    requires p in s.people && u.stamp.None?
    ensures
      var s' := AddClip(s, p, u, now, verdict).0;
      && p in s'.people
      && ((s'.book == s.book && Files(s'.people[p].clips) == Files(s.people[p].clips))
          || s'.book == DropMissing(s.book, s.disk[s.nextFile := u.sha], p, s.people[p].slug.Some?, s.people[p].clips,
                                    Files(s'.people[p].clips), replaced))
  {
    var clips, person, entry := s.people[p].clips, s.people[p], NewClip(u, s.nextFile, now);
    replaced := None;
    if !u.passes {
    } else if u.dedupe && HeldCopy(s.disk, clips, u.sha).Some? {
      var k := HeldCopy(s.disk, clips, u.sha).value;
      SameFiles(clips, clips[k := clips[k].(source := u.source)]);
    } else if Settles(person, u, verdict) {
      var offer := SettleOffer(clips, entry, now, person.settledAt);
      replaced := if offer.Take? then FileOf(offer.victim) else None;
    }
  }

  /** So it is for what `add_clip` rotates out. */
  lemma ARotatedClipLeavesMembroExactly(w: World, p: PersonId, u: Utterance, now: nat, verdict: Option<bool>, c: Clip)
    requires KeptInStep(w) && p in w.s.people && c in w.s.people[p].clips && !c.leftMembro && u.stamp.None?
    requires CountDrops(w.s.book.rows) + |w.s.people[p].clips| <= DROP_ROWS_MAX
    requires var s' := AddClip(w.s, p, u, now, verdict).0; p in s'.people && c.file !in Files(s'.people[p].clips)
    ensures Address(w.s.disk, c).Some? && KnownAs(w.s.disk, c, Address(w.s.disk, c).value)
    ensures End(AddClip(w.s, p, u, now, verdict).0.book.rows, w.names, w.remote, Address(w.s.disk, c).value).None?
            <==> !StaysBehind(w, p, c)
  {
    assert c.file in Files(w.s.people[p].clips);
    forall d <- w.s.people[p].clips ensures Address(w.s.disk[w.s.nextFile := u.sha], d) == Address(w.s.disk, d) {
      OnDisk(w.s, p, d);
    }
    var replaced := AddDrops(w.s, p, u, now, verdict);
    ADropLeavesMembroExactly(w, w.s.disk[w.s.nextFile := u.sha], p,
                             Files(AddClip(w.s, p, u, now, verdict).0.people[p].clips), replaced, c);
  }

  /** For what an audit newly sets aside. */
  lemma ASetAsideClipLeavesMembroExactly(w: World, p: PersonId, bad: set<FileName>, c: Clip)
    requires KeptInStep(w) && p in w.s.people && c in w.s.people[p].clips
    requires c.file in bad && !c.quarantined && !c.leftMembro
    requires CountDrops(w.s.book.rows) + 2 * |w.s.people[p].clips| <= DROP_ROWS_MAX
    ensures Address(w.s.disk, c).Some? && KnownAs(w.s.disk, c, Address(w.s.disk, c).value)
    ensures End(AuditPerson(w.s, p, bad).book.rows, w.names, w.remote, Address(w.s.disk, c).value).None?
            <==> !StaysBehind(w, p, c)
  {
    OnDisk(w.s, p, c);
    var clips, sha, known := w.s.people[p].clips, Address(w.s.disk, c).value, w.s.people[p].slug.Some?;
    var judged := JudgeAll(clips, bad);
    var mid := JudgeDrops(w.s.book, w.s.disk, p, known, clips, bad);
    JudgedEnd(w.s.book, w.s.disk, p, known, clips, bad, w.names, w.remote, sha);
    StaysBehindExactly(w, p, c);
    assert Placed(c, p, w.s.disk, w.s.book.rows, w.names, w.remote);
    OwnAddressAlone(w, w.s.disk, p, c);
    SetAsideAlone(w.s.book.rows, w.s.disk, p, known, clips, bad, c, sha);
    OverflowSize(judged);
    DropsEnd(mid, w.s.disk, p, known, Overflow(judged), {}, None, w.names, w.remote, sha);
    if SentOn(mid.rows, w.s.disk, p, known, Overflow(judged), {}, sha) {
      OverflowSpares(w, p, bad, c, mid.rows);
    }
  }

  lemma JudgedAddress(disk: Disk, d: Clip, bad: set<FileName>)
    requires d.file in disk
    ensures Address(disk, Judge(d, bad)).Some? && Address(disk, Judge(d, bad)).value in Handles(disk, d)
    ensures d.file in bad && !d.quarantined ==> Judge(d, bad).leftMembro
  {}

  /** The overflow of the same audit sends on no clip newly set aside: it has gone. */
  lemma OverflowSpares(w: World, p: PersonId, bad: set<FileName>, c: Clip, rows: seq<Row>)
    requires KeptInStep(w) && p in w.s.people && c in w.s.people[p].clips
    requires c.file in bad && !c.quarantined && Address(w.s.disk, c).Some?
    ensures !SentOn(rows, w.s.disk, p, w.s.people[p].slug.Some?, Overflow(JudgeAll(w.s.people[p].clips, bad)), {},
                    Address(w.s.disk, c).value)
  {
    var clips, sha := w.s.people[p].clips, Address(w.s.disk, c).value;
    var judged := JudgeAll(clips, bad);
    OverflowFrom(judged);
    forall d' <- Overflow(judged) | Address(w.s.disk, d') == Some(sha)
      ensures d'.leftMembro
    {
      var i :| 0 <= i < |judged| && judged[i] == d';
      assert clips[i] in clips;
      OnDisk(w.s, p, clips[i]);
      JudgedAddress(w.s.disk, clips[i], bad);
      OwnAddress(w, p, p, c, clips[i], sha);
    }
  }

  /** For what a merge drops: the merged-away person's clips always leave. */
  lemma AMergedAwayDropLeavesMembro(w: World, survivor: PersonId, gone: PersonId, kept: set<FileName>, c: Clip)
    requires KeptInStep(w) && survivor in w.s.people && gone in w.s.people && survivor != gone
    requires c in w.s.people[gone].clips && c.file !in kept && !c.leftMembro
    requires CountDrops(w.s.book.rows) + |w.s.people[survivor].clips| + |w.s.people[gone].clips| <= DROP_ROWS_MAX
    ensures Address(w.s.disk, c).Some? && KnownAs(w.s.disk, c, Address(w.s.disk, c).value)
    ensures End(MergeDrops(w.s, survivor, gone, kept).rows, w.names, w.remote, Address(w.s.disk, c).value).None?
  {
    OnDisk(w.s, gone, c);
    var sha, known := Address(w.s.disk, c).value, w.s.people[survivor].slug.Some?;
    var mid := DropMissing(w.s.book, w.s.disk, survivor, known, w.s.people[survivor].clips, kept, None);
    assert Placed(c, gone, w.s.disk, w.s.book.rows, w.names, w.remote);
    DropsEnd(w.s.book, w.s.disk, survivor, known, w.s.people[survivor].clips, kept, None, w.names, w.remote, sha);
    DropsEnd(mid, w.s.disk, gone, true, w.s.people[gone].clips, kept, None, w.names, w.remote, sha);
    assert SendsDrop(mid.rows, w.s.disk, gone, true, c);
    assert SentOn(mid.rows, w.s.disk, gone, true, w.s.people[gone].clips, kept, sha);
  }

  /** The survivor's leave unless they stay behind. */
  lemma ASurvivorsDropLeavesMembroExactly(w: World, survivor: PersonId, gone: PersonId, kept: set<FileName>, c: Clip)
    requires KeptInStep(w) && survivor in w.s.people && gone in w.s.people && survivor != gone
    requires c in w.s.people[survivor].clips && c.file !in kept && !c.leftMembro
    requires CountDrops(w.s.book.rows) + |w.s.people[survivor].clips| + |w.s.people[gone].clips| <= DROP_ROWS_MAX
    ensures Address(w.s.disk, c).Some? && KnownAs(w.s.disk, c, Address(w.s.disk, c).value)
    ensures End(MergeDrops(w.s, survivor, gone, kept).rows, w.names, w.remote, Address(w.s.disk, c).value).None?
            <==> !StaysBehind(w, survivor, c)
  {
    OnDisk(w.s, survivor, c);
    var sha, known := Address(w.s.disk, c).value, w.s.people[survivor].slug.Some?;
    var mid := DropMissing(w.s.book, w.s.disk, survivor, known, w.s.people[survivor].clips, kept, None);
    ADropLeavesMembroExactly(w, w.s.disk, survivor, kept, None, c);
    DropsEnd(w.s.book, w.s.disk, survivor, known, w.s.people[survivor].clips, kept, None, w.names, w.remote, sha);
    DropsEnd(mid, w.s.disk, gone, true, w.s.people[gone].clips, kept, None, w.names, w.remote, sha);
    assert Placed(c, survivor, w.s.disk, w.s.book.rows, w.names, w.remote);
    assert w.names[survivor] != w.names[gone];
  }

  // ---------- the clip that stays ----------

  /** Person 2, known to membro with clip 100, merged into person 1, who has no slug
      yet; then the clip is rotated out. No move names it, so it is not sent on, and
      once person 1 is pushed and the merge lands membro holds it under them. */
  lemma AMergedClipDroppedEarlyStays(disk: Disk, c: Clip)
    requires Address(disk, c) == Some(100) && !c.leftMembro
    ensures
      var names: Names := map[1 := 11];
      var book := Book([] + [Merge(0, 12, 1)], 1);
      && RecordDrop(book, disk, 1, false, c, ByRotation) == book
      && Walk(book.rows, names, 100, Some(12)) == Some(11)
      && ComesByMerge(book.rows, names, 1, 100, Some(12))
  {
    var names: Names := map[1 := 11];
    var start: seq<Row> := [];
    WalkSnoc(start, Merge(0, 12, 1), names, 100, Some(12));
    assert (start + [Merge(0, 12, 1)])[..0] == start;
  }
}
