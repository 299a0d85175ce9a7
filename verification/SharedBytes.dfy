/** The same recording banked under two people, as a spoken introduction and then
    the owner's correction do (backend/voice_ask.py, backend/routers/room.py):
    forgetting the first leaves it in membro under the second. */
module SharedBytes {
  import opened Wrappers
  import opened Ledger
  import opened Bank
  import opened Sorting
  import opened Store
  import opened InStep
  import opened Runs
  import opened AnyRuns
  import opened History
  import S = SettleRule

  /** A bank with room for the clip keeps it and loses none. */
  lemma RoomKeepsAll(clips: seq<Clip>)
    requires S.WithinCaps(clips)
    ensures forall c :: c in KeptOfBank(clips) <==> c in clips
  {
    S.WithinCapsKept(clips);
    RestrictMembers(clips, Active);
    RestrictMembers(clips, IsSetAside);
  }

  /** A vouched clip of new bytes is never weighed by the settle rule. */
  lemma VouchedGoesIn(s: State, p: PersonId, u: Utterance, now: nat, verdict: Option<bool>)
    requires p in s.people && u.passes && Vouching(u.source)
    requires u.dedupe ==> HeldCopy(s.disk, s.people[p].clips, u.sha).None?
    ensures AddClip(s, p, u, now, verdict).0
            == BankKeeping(s, p, u, NewClip(u, s.nextFile, now), None,
                           KeptOfBank(Offered(s.people[p].clips, NewClip(u, s.nextFile, now), None)))
  {}

  /** What the store is once a bank has taken a clip and lost none. */
  ghost predicate Banked(s: State, s': State, p: PersonId, entry: Clip, sha: Sha)
    requires p in s.people
  {
    && p in s'.people && entry in s'.people[p].clips && s'.people[p].slug == s.people[p].slug
    && (forall q <- s.people | q != p :: q in s'.people && s'.people[q] == s.people[q])
    && s'.book == s.book && s'.nextFile == s.nextFile + 1
    && entry.file in s'.disk && s'.disk[entry.file] == sha
    && forall f <- s.disk | f != entry.file :: f in s'.disk && s'.disk[f] == s.disk[f]
  }

  lemma BankKeepsAll(s: State, p: PersonId, u: Utterance, entry: Clip, kept: seq<Clip>)
    requires p in s.people && entry.file == s.nextFile
    requires forall c :: c in kept <==> c in s.people[p].clips + [entry]
    ensures Banked(s, BankKeeping(s, p, u, entry, None, kept), p, entry, u.sha)
  {
    var before := s.people[p].clips;
    assert entry in before + [entry] && forall c <- before :: c in before + [entry];
    assert Files(before) <= Files(kept) && Files(before + [entry]) - Files(kept) == {};
    NothingDropped(s.book, s.disk[entry.file := u.sha], p, s.people[p].slug.Some?, before, Files(kept), None);
  }

  /** A vouched clip of new bytes into a bank with room: banked, and nothing else
      changes. */
  lemma VouchedClipBanked(s: State, p: PersonId, u: Utterance, now: nat, verdict: Option<bool>)
    requires p in s.people && u.passes && Vouching(u.source)
    requires u.dedupe ==> HeldCopy(s.disk, s.people[p].clips, u.sha).None?
    requires S.WithinCaps(s.people[p].clips + [NewClip(u, s.nextFile, now)])
    ensures Banked(s, AddClip(s, p, u, now, verdict).0, p, NewClip(u, s.nextFile, now), u.sha)
  {
    var entry := NewClip(u, s.nextFile, now);
    RoomKeepsAll(s.people[p].clips + [entry]);
    VouchedGoesIn(s, p, u, now, verdict);
    BankKeepsAll(s, p, u, entry, KeptOfBank(Offered(s.people[p].clips, entry, None)));
  }

  lemma ForgetRecordStays(cid: Cid, slug: Option<Slug>, known: Names, sha: Sha, at: Slug)
    requires slug != Some(at)
    ensures Walk(ForgetRecord(cid, slug), known, sha, Some(at)) == Some(at)
  {
    if slug.Some? {
      assert [Forget(cid, slug.value)][..0] == [];
    }
  }

  /** Nothing waits, and membro holds an address of p's under somebody else: no
      forget of p is complete, whoever membro knows by then. */
  lemma HeldElsewhereSurvives(w: World, p: PersonId, sha: Sha, known: Names)
    requires NamesOk(w) && p in w.s.people && w.s.book.rows == []
    requires exists c <- w.s.people[p].clips :: Address(w.s.disk, c) == Some(sha)
    requires sha in w.remote && w.remote[sha] != w.names[p]
    ensures !ForgottenCompletely(w, p, known)
  {
    var slug := w.s.people[p].slug;
    var rows' := ForgetPerson(w.s, p, true).0.book.rows;
    ForgottenRows(w.s, p);
    assert [] + ForgetRecord(w.s.book.next, slug) == ForgetRecord(w.s.book.next, slug);
    ReplayIsWalk(w.remote, rows', known, sha);
    ForgetRecordStays(w.s.book.next, slug, known, sha, w.remote[sha]);
    assert sha in Replay(w.remote, rows', known);
  }

  /** With the clip the bank is within both caps, so rotation drops nothing. */
  ghost predicate HasRoom(w: World, p: PersonId, u: Utterance, file: FileName, now: nat)
    requires p in w.s.people
  {
    S.WithinCaps(w.s.people[p].clips + [NewClip(u, file, now)])
  }

  /** The same as a step of a history. */
  lemma AddBanks(w: World, p: PersonId, u: Utterance, now: nat, verdict: Option<bool>)
    requires KeptNamed(w) && p in w.s.people && u.passes && Vouching(u.source)
    requires u.dedupe ==> HeldCopy(w.s.disk, w.s.people[p].clips, u.sha).None?
    requires HasRoom(w, p, u, w.s.nextFile, now)
    ensures
      var banked := Step(w, Add(p, u, now, verdict));
      && KeptNamed(banked) && banked.names == w.names && banked.remote == w.remote
      && Banked(w.s, banked.s, p, NewClip(u, w.s.nextFile, now), u.sha)
  {
    VouchedClipBanked(w.s, p, u, now, verdict);
    StepKeepsNamed(w, Add(p, u, now, verdict));
  }

  /** An introduction banks a turn under p, and the owner corrects it to q: two
      people hold clips of the same bytes. */
  lemma BankedTwice(w: World, p: PersonId, q: PersonId, u: Utterance, now: nat, later: nat, verdict: Option<bool>)
    requires KeptNamed(w) && p != q && p in w.s.people && q in w.s.people
    requires u.passes && u.source == Introduction && u.stamp.None?
    requires HeldCopy(w.s.disk, w.s.people[p].clips, u.sha).None?
    requires HasRoom(w, p, u, w.s.nextFile, now)
    requires HasRoom(w, q, u.(source := Correction, dedupe := false), w.s.nextFile + 1, later)
    ensures
      var told := u.(source := Correction, dedupe := false);
      var corrected := Step(Step(w, Add(p, u, now, verdict)), Add(q, told, later, verdict));
      var c, d := NewClip(u, w.s.nextFile, now), NewClip(told, w.s.nextFile + 1, later);
      && KeptNamed(corrected) && corrected.names == w.names && corrected.remote == w.remote
      && corrected.s.book == w.s.book && p in corrected.s.people && q in corrected.s.people
      && corrected.s.people[q].slug == w.s.people[q].slug
      && c in corrected.s.people[p].clips && Address(corrected.s.disk, c) == Some(u.sha)
      && d in corrected.s.people[q].clips && d.file in corrected.s.disk && corrected.s.disk[d.file] == u.sha
  {
    var told := u.(source := Correction, dedupe := false);
    var banked := Step(w, Add(p, u, now, verdict));
    AddBanks(w, p, u, now, verdict);
    AddBanks(banked, q, told, later, verdict);
  }

  /** An introduction banks a turn under p, the owner corrects it to q, and a sync
      uploads q's clip: forgetting p leaves p's recording in membro, whoever membro
      knows by then. */
  lemma ACorrectedIntroductionSurvivesAForget(w: World, p: PersonId, q: PersonId, u: Utterance, now: nat, later: nat,
                                              verdict: Option<bool>, known: Names)
    requires KeptNamed(w) && p != q && p in w.s.people && q in w.s.people && w.s.book.rows == []
    requires u.passes && u.source == Introduction && u.stamp.None? && w.s.people[q].slug.Some?
    requires HeldCopy(w.s.disk, w.s.people[p].clips, u.sha).None?
    requires HasRoom(w, p, u, w.s.nextFile, now)
    requires HasRoom(w, q, u.(source := Correction, dedupe := false), w.s.nextFile + 1, later)
    ensures
      var told := u.(source := Correction, dedupe := false);
      var corrected := Step(Step(w, Add(p, u, now, verdict)), Add(q, told, later, verdict));
      var c, d := NewClip(u, w.s.nextFile, now), NewClip(told, w.s.nextFile + 1, later);
      var synced := Step(corrected, UploadClip(q, d));
      && KeptNamed(synced) && p in synced.s.people && p in synced.names
      && c in synced.s.people[p].clips && Address(synced.s.disk, c) == Some(u.sha)
      && !ForgottenCompletely(synced, p, known)
  {
    var told := u.(source := Correction, dedupe := false);
    var corrected := Step(Step(w, Add(p, u, now, verdict)), Add(q, told, later, verdict));
    var d := NewClip(told, w.s.nextFile + 1, later);
    BankedTwice(w, p, q, u, now, later, verdict);
    StepKeepsNamed(corrected, UploadClip(q, d));
    var synced := Step(corrected, UploadClip(q, d));
    assert synced.remote == w.remote[u.sha := w.names[q]] && w.names[p] != w.names[q];
    HeldElsewhereSurvives(synced, p, u.sha, known);
  }
}
