/** The durable anchor store (backend/anchors.py: AnchorStore): people, clip
    files and the correction ledger, changed in place by each operation.

    Every method is proved against the function of the same name in Store.dfy,
    and keeps `Valid`: disk and index are in bijection. */
module AnchorStore {
  import opened Wrappers
  import opened Ledger
  import opened Bank
  import opened Sorting
  import opened Store
  import opened Bijection
  import R = Rotation

  class AnchorStore {
    var people: People
    var book: Book
    var disk: Disk
    var nextFile: FileName

    function View(): State
      reads this
    {
      State(people, book, disk, nextFile)
    }

    ghost predicate Valid()
      reads this
    {
      InBijection(View())
    }

    constructor ()
      ensures Valid() && View() == State(map[], Book([], 0), map[], 0)
    {
      people, book, disk, nextFile := map[], Book([], 0), map[], 0;
    }

    method RecordCorrection(row: Row)
      modifies this`book
      ensures book == Note(old(book), row)
    {
      book := Book(book.rows + [row.(cid := book.next)], book.next + 1);
    }

    method RecordDropRow(p: PersonId, c: Clip, why: Why, always: bool)
      modifies this`book
      ensures book == RecordDrop(old(book), disk, p, always || (p in people && people[p].slug.Some?), c, why)
    {
      if c.leftMembro {
        return;
      }
      var sha := Address(disk, c);
      if sha.None? {
        return;
      }
      if !(always || (p in people && people[p].slug.Some?) || MovesInto(book.rows, p, sha.value)) {
        return;
      }
      RecordCorrection(Delete(0, p, None, sha.value, Some(why)));
      var drops := CountDrops(book.rows);
      if drops > DROP_ROWS_MAX {
        book := book.(rows := SkipDrops(book.rows, drops - DROP_ROWS_MAX));
      }
    }

    method DropLost(p: PersonId, clips: seq<Clip>, kept: set<FileName>, replaced: Option<FileName>, always: bool)
      modifies this`book
      ensures book == DropMissing(old(book), disk, p, always || (p in people && people[p].slug.Some?), clips, kept,
                                  replaced)
    {
      ghost var known := always || (p in people && people[p].slug.Some?);
      for i := 0 to |clips|
        invariant book == DropMissing(old(book), disk, p, known, clips[..i], kept, replaced)
      {
        assert clips[..i + 1][..i] == clips[..i];
        if clips[i].file !in kept {
          RecordDropRow(p, clips[i], if Some(clips[i].file) == replaced then BySettling else ByRotation, always);
        }
      }
      assert clips[..|clips|] == clips;
    }

    method DeleteFiles(clips: seq<Clip>, kept: set<FileName>)
      modifies this`disk
      ensures disk == old(disk) - (Files(clips) - kept)
    {
      for i := 0 to |clips|
        invariant disk == old(disk) - (Files(clips[..i]) - kept)
      {
        assert clips[..i + 1] == clips[..i] + [clips[i]];
        assert Files(clips[..i + 1]) == Files(clips[..i]) + {clips[i].file};
        if clips[i].file !in kept {
          disk := disk - {clips[i].file};
        }
      }
      assert clips[..|clips|] == clips;
    }

    method MoveClip(p: PersonId, file: FileName, to: PersonId) returns (done: bool)
      requires Valid()
      modifies this
      ensures Valid() && (View(), done) == Store.MoveClip(old(View()), p, file, to)
    {
      MoveKeepsBijection(View(), p, file, to);
      if p == to || p !in people || to !in people {
        return false;
      }
      var found := FindFile(people[p].clips, file);
      if found.None? {
        return false;
      }
      var clip := found.value.(quarantined := false, leftMembro := false, moved := true);
      people := people[p := people[p].(clips := Without(people[p].clips, file))];
      people := people[to := people[to].(clips := people[to].clips + [clip])];
      var sha := Address(disk, clip);
      if sha.Some? {
        RecordCorrection(Move(0, p, None, to, sha.value));
      }
      done := true;
    }

    method DeleteClip(p: PersonId, file: FileName) returns (done: bool)
      requires Valid()
      modifies this
      ensures Valid() && (View(), done) == Store.DeleteClip(old(View()), p, file)
    {
      DeleteKeepsBijection(View(), p, file);
      if p !in people {
        return false;
      }
      var found := FindFile(people[p].clips, file);
      if found.None? {
        return false;
      }
      people := people[p := people[p].(clips := Without(people[p].clips, file))];
      var sha := Address(disk, found.value);
      if sha.Some? {
        RecordCorrection(Delete(0, p, None, sha.value, None));
      }
      disk := disk - {file};
      done := true;
      assert View() == Store.DeleteClip(old(View()), p, file).0;
    }

    method RetractUtteranceClips(p: PersonId, slices: set<FileName>) returns (count: nat)
      requires Valid()
      modifies this
      ensures Valid() && (View(), count) == Retract(old(View()), p, slices)
    {
      RetractKeepsBijection(View(), p, slices);
      if p !in people {
        return 0;
      }
      var keep, gone := PartContested(people[p].clips, slices);
      if gone == [] {
        return 0;
      }
      people := people[p := people[p].(clips := keep)];
      RecordDeletes(p, gone);
      assert Files(gone) - {} == Files(gone);
      DeleteFiles(gone, {});
      count := |gone|;
      assert View() == Retract(old(View()), p, slices).0;
    }

    method PartContested(clips: seq<Clip>, slices: set<FileName>) returns (keep: seq<Clip>, gone: seq<Clip>)
      ensures gone == Restrict(clips, IsContested(slices)) && keep == Restrict(clips, Uncontested(slices))
    {
      keep, gone := [], [];
      for i := 0 to |clips|
        invariant gone == Restrict(clips[..i], IsContested(slices))
        invariant keep == Restrict(clips[..i], Uncontested(slices))
      {
        assert clips[..i + 1][..i] == clips[..i];
        if Contested(clips[i], slices) {
          gone := gone + [clips[i]];
        } else {
          keep := keep + [clips[i]];
        }
      }
      assert clips[..|clips|] == clips;
    }

    method RecordDeletes(p: PersonId, gone: seq<Clip>)
      modifies this`book
      ensures book == NoteDeletes(old(book), disk, p, gone)
    {
      for i := 0 to |gone|
        invariant book == NoteDeletes(old(book), disk, p, gone[..i])
      {
        assert gone[..i + 1][..i] == gone[..i];
        var sha := Address(disk, gone[i]);
        if sha.Some? {
          RecordCorrection(Delete(0, p, None, sha.value, None));
        }
      }
      assert gone[..|gone|] == gone;
    }

    method Forget(p: PersonId, record: bool) returns (done: bool)
      requires Valid()
      modifies this
      ensures Valid() && (View(), done) == ForgetPerson(old(View()), p, record)
    {
      ForgetKeepsBijection(View(), p, record);
      if p !in people {
        return false;
      }
      var person := people[p];
      people := people - {p};
      var settled := SettleCorrections(book.rows, p, person.slug, None);
      book := book.(rows := settled);
      if record && person.slug.Some? {
        RecordCorrection(Row.Forget(0, person.slug.value));
      }
      assert Files(person.clips) - {} == Files(person.clips);
      DeleteFiles(person.clips, {});
      done := true;
    }

    method MergePeople(a: PersonId, b: PersonId) returns (survived: Option<PersonId>)
      requires Valid()
      modifies this
      ensures Valid() && (View(), survived) == Store.MergePeople(old(View()), a, b)
    {
      MergeKeepsBijection(View(), a, b);
      if a == b || a !in people || b !in people {
        return None;
      }
      var survivorId, goneId := a, b;
      if people[b].createdAt < people[a].createdAt {
        survivorId, goneId := b, a;
      }
      FoldInto(survivorId, goneId);
      survived := Some(survivorId);
    }

    method FoldInto(survivorId: PersonId, goneId: PersonId)
      requires survivorId in people && goneId in people && survivorId != goneId
      modifies this
      ensures View() == MergeInto(old(View()), survivorId, goneId)
    {
      var merged := MergedClips(people[survivorId], people[goneId]);
      var kept := R.ChooseKeep(ActiveClips(merged));
      FoldKeeping(survivorId, goneId, kept + R.Take(SetAside(merged), QUARANTINE_MAX));
    }

    method FoldKeeping(survivorId: PersonId, goneId: PersonId, kept: seq<Clip>)
      requires survivorId in people && goneId in people && survivorId != goneId
      modifies this
      ensures View() == MergeKeeping(old(View()), survivorId, goneId, kept)
    {
      var survivor, gone := people[survivorId], people[goneId];
      people := people - {goneId};
      DropLost(survivorId, survivor.clips, Files(kept), None, false);
      DropLost(goneId, gone.clips, Files(kept), None, true);
      people := people[survivorId := survivor.(clips := kept)];
      SettleOnto(survivorId, goneId, gone.slug);
      DeleteFiles(MergedClips(survivor, gone), Files(kept));
    }

    method SettleOnto(survivorId: PersonId, goneId: PersonId, slug: Option<Slug>)
      modifies this`book
      ensures book == SettledOnto(old(book), survivorId, goneId, slug)
    {
      var settled := SettleCorrections(book.rows, goneId, slug, Some(survivorId));
      book := book.(rows := settled);
      if slug.Some? {
        RecordCorrection(Merge(0, slug.value, survivorId));
      }
    }

    method AddClip(p: PersonId, u: Utterance, now: nat, verdict: Option<bool>) returns (accepted: bool)
      requires Valid()
      modifies this
      ensures Valid() && (View(), accepted) == Store.AddClip(old(View()), p, u, now, verdict)
    {
      AddKeepsBijection(View(), p, u, now, verdict);
      if !u.passes || p !in people {
        return false;
      }
      var clips := people[p].clips;
      if u.dedupe {
        var held := HeldCopy(disk, clips, u.sha);
        if held.Some? {
          var c := clips[held.value];
          if Vouching(u.source) && !Protected(c) {
            people := people[p := people[p].(clips := clips[held.value := c.(source := u.source)])];
          }
          return true;
        }
      }
      var entry := NewClip(u, nextFile, now);
      var victim: Option<Clip> := None;
      if Settles(people[p], u, verdict) {
        var offer := SettleOffer(clips, entry, now, people[p].settledAt);
        if offer.Refuse? {
          return false;
        }
        victim := offer.victim;
        people := people[p := people[p].(settledAt := Some(now))];
      }
      Bank(p, u, entry, victim);
      accepted := true;
    }

    method Bank(p: PersonId, u: Utterance, entry: Clip, victim: Option<Clip>)
      requires p in people
      modifies this
      ensures View() == BankClip(old(View()), p, u, entry, victim)
    {
      var offered := Offered(people[p].clips, entry, victim);
      var kept := R.ChooseKeep(ActiveClips(offered));
      BankKept(p, u, entry, FileOf(victim), kept + SetAside(offered));
    }

    method BankKept(p: PersonId, u: Utterance, entry: Clip, replaced: Option<FileName>, kept: seq<Clip>)
      requires p in people
      modifies this
      ensures View() == BankKeeping(old(View()), p, u, entry, replaced, kept)
    {
      var before := people[p].clips;
      disk, nextFile := disk[entry.file := u.sha], nextFile + 1;
      people := people[p := people[p].(clips := kept)];
      if u.stamp.None? {
        DropLost(p, before, Files(kept), replaced, false);
      }
      DeleteFiles(before + [entry], Files(kept));
    }

    /** One audit's verdicts, person by person in the index's order. */
    method SetHygiene(quarantine: map<PersonId, set<FileName>>, order: seq<PersonId>)
      requires Valid() && Distinct(order) && forall p :: p in order <==> p in people
      modifies this
      ensures Valid() && View() == Store.SetHygiene(old(View()), quarantine, order)
    {
      for k := 0 to |order|
        invariant Valid() && View() == Store.SetHygiene(old(View()), quarantine, order[..k])
      {
        HygieneNext(old(View()), quarantine, order, k);
        AuditOne(order[k], Verdict(quarantine, order[k]));
      }
      assert order[..|order|] == order;
    }

    method AuditOne(p: PersonId, bad: set<FileName>)
      requires Valid() && p in people
      modifies this
      ensures Valid() && View() == AuditPerson(old(View()), p, bad)
    {
      AuditKeepsBijection(View(), p, bad);
      var judged := JudgeBank(p, bad);
      var evict := Overflow(judged);
      assert Files(evict) - {} == Files(evict);
      DropLost(p, evict, {}, None, false);
      people := people[p := people[p].(clips := Restrict(judged, NotIn(Files(evict))))];
      DeleteFiles(evict, {});
      assert View() == AuditPerson(old(View()), p, bad);
    }

    method JudgeBank(p: PersonId, bad: set<FileName>) returns (judged: seq<Clip>)
      requires p in people
      modifies this`book
      ensures judged == JudgeAll(people[p].clips, bad)
      ensures book == JudgeDrops(old(book), disk, p, people[p].slug.Some?, people[p].clips, bad)
    {
      var clips := people[p].clips;
      judged := [];
      for i := 0 to |clips|
        invariant judged == JudgeAll(clips, bad)[..i]
        invariant book == JudgeDrops(old(book), disk, p, people[p].slug.Some?, clips[..i], bad)
      {
        assert clips[..i + 1][..i] == clips[..i];
        if clips[i].file in bad && !clips[i].quarantined {
          RecordDropRow(p, clips[i], ByAudit, false);
        }
        judged := judged + [Judge(clips[i], bad)];
      }
      assert clips[..|clips|] == clips;
    }
  }

  lemma HygieneNext(s: State, quarantine: map<PersonId, set<FileName>>, order: seq<PersonId>, k: nat)
    requires k < |order| && forall p <- order :: p in s.people
    ensures order[k] in Store.SetHygiene(s, quarantine, order[..k]).people
    ensures Store.SetHygiene(s, quarantine, order[..k + 1])
            == AuditPerson(Store.SetHygiene(s, quarantine, order[..k]), order[k], Verdict(quarantine, order[k]))
  {
    assert order[..k + 1][..k] == order[..k];
    var p, before := order[k], Store.SetHygiene(s, quarantine, order[..k]);
    assert before.people.Keys == s.people.Keys;
    assert p in s.people && p in before.people;
  }
}
