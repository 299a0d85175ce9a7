/** The steps of a sync pass (backend/person_sync.py) in a run of the anchor
    store: new people, pushes, uploads, and replay passes made while membro
    knows only some of the people. Each keeps the store in step with membro. */
module SyncPass {
  import opened Wrappers
  import opened Ledger
  import opened Bank
  import opened Store
  import opened Bijection
  import opened InStep
  import opened Passes
  import opened Runs

  // ---------- people ----------

  /** Names of people no row mentions change no replay. */
  lemma {:induction false} UnmentionedName(rows: seq<Row>, names: Names, p: PersonId, g: Slug, sha: Sha,
                                           at: Option<Slug>)
    requires p !in names && forall row <- rows :: Nameable(row, names.Keys)
    ensures Walk(rows, names[p := g], sha, at) == Walk(rows, names, sha, at)
    ensures Followed(rows, names, sha, at) ==> Followed(rows, names[p := g], sha, at)
  {
    if rows != [] {
      UnmentionedName(rows[..|rows| - 1], names, p, g, sha, at);
      assert Nameable(rows[|rows| - 1], names.Keys);
    }
  }

  predicate Mentions(row: Row, p: PersonId, g: Slug) {
    match row
    case Move(_, src, srcSlug, _, _) => src == p || srcSlug == Some(g)
    case Delete(_, src, srcSlug, _, _) => src == p || srcSlug == Some(g)
    case Merge(_, loser, _) => loser == g
    case Forget(_, slug) => slug == g
  }

  function WithPerson(s: State, p: PersonId, createdAt: int, slug: Option<Slug>): State {
    s.(people := s.people[p := Person(createdAt, slug, [], None)])
  }

  lemma NewPersonInStep(w: World, p: PersonId, createdAt: int, slug: Option<Slug>, g: Slug)
    requires KeptInStep(w) && p !in w.s.people
    requires g !in w.names.Values && forall row <- w.s.book.rows :: !Mentions(row, p, g)
    requires slug == Some(g) || (slug.None? && g !in w.remote.Values)
    ensures KeptInStep(World(WithPerson(w.s, p, createdAt, slug), w.remote, w.names[p := g]))
  {
    NewPersonBijection(w.s, p, createdAt, slug);
    NewPersonNames(w, p, createdAt, slug, g);
    NewPersonLedger(w, p, g);
    NewPersonPlaced(w, p, createdAt, slug, g);
  }

  lemma NewPersonNames(w: World, p: PersonId, createdAt: int, slug: Option<Slug>, g: Slug)
    requires NamesOk(w) && p !in w.s.people && g !in w.names.Values
    requires slug == Some(g) || (slug.None? && g !in w.remote.Values)
    ensures NamesOk(World(WithPerson(w.s, p, createdAt, slug), w.remote, w.names[p := g]))
  {
    var s', names' := WithPerson(w.s, p, createdAt, slug), w.names[p := g];
    assert names'.Keys == s'.people.Keys;
    forall q <- names', r <- names' | names'[q] == names'[r] ensures q == r {
      assert q != p ==> names'[q] in w.names.Values;
      assert r != p ==> names'[r] in w.names.Values;
    }
  }

  lemma NewPersonLedger(w: World, p: PersonId, g: Slug)
    requires LedgerOk(w.s.book.rows, w.names, w.remote) && p !in w.names
    requires forall row <- w.s.book.rows :: !Mentions(row, p, g)
    ensures LedgerOk(w.s.book.rows, w.names[p := g], w.remote)
    ensures forall sha :: End(w.s.book.rows, w.names[p := g], w.remote, sha) == End(w.s.book.rows, w.names, w.remote, sha)
  {
    var names' := w.names[p := g];
    forall row <- w.s.book.rows ensures WellNamed(row, names') && Nameable(row, names'.Keys) {
      assert WellNamed(row, w.names) && Nameable(row, w.names.Keys) && !Mentions(row, p, g);
    }
    forall sha
      ensures Followed(w.s.book.rows, names', sha, At(w.remote, sha))
      ensures End(w.s.book.rows, names', w.remote, sha) == End(w.s.book.rows, w.names, w.remote, sha)
    {
      UnmentionedName(w.s.book.rows, w.names, p, g, sha, At(w.remote, sha));
    }
  }

  lemma NewPersonPlaced(w: World, p: PersonId, createdAt: int, slug: Option<Slug>, g: Slug)
    requires w.names.Keys == w.s.people.Keys && AllPlaced(w) && p !in w.s.people
    requires forall sha :: End(w.s.book.rows, w.names[p := g], w.remote, sha) == End(w.s.book.rows, w.names, w.remote, sha)
    ensures w.names[p := g].Keys == WithPerson(w.s, p, createdAt, slug).people.Keys
    ensures AllPlaced(World(WithPerson(w.s, p, createdAt, slug), w.remote, w.names[p := g]))
  {
    var s' := WithPerson(w.s, p, createdAt, slug);
    forall q <- s'.people, c <- s'.people[q].clips
      ensures Placed(c, q, s'.disk, s'.book.rows, w.names[p := g], w.remote)
    {
      assert Placed(c, q, w.s.disk, w.s.book.rows, w.names, w.remote);
    }
  }

  lemma NewPersonBijection(s: State, p: PersonId, createdAt: int, slug: Option<Slug>)
    requires InBijection(s) && p !in s.people
    ensures InBijection(WithPerson(s, p, createdAt, slug))
  {
    var s' := WithPerson(s, p, createdAt, slug);
    forall f ensures f in Held(s'.people) <==> f in Held(s.people) {
      if f in Held(s.people) {
        var q, c :| q in s.people && c in s.people[q].clips && c.file == f;
        assert c in s'.people[q].clips;
      }
      if f in Held(s'.people) {
        var q, c :| q in s'.people && c in s'.people[q].clips && c.file == f;
        assert c in s.people[q].clips;
      }
    }
  }

  function Pushed(s: State, p: PersonId, slug: Slug): State
    requires p in s.people
  {
    s.(people := s.people[p := s.people[p].(slug := Some(slug))])
  }

  lemma PushKeepsInStep(w: World, p: PersonId)
    requires KeptInStep(w) && p in w.s.people
    ensures KeptInStep(w.(s := Pushed(w.s, p, w.names[p])))
  {
    var s' := Pushed(w.s, p, w.names[p]);
    PushKeepsBijection(w.s, p, w.names[p]);
    PushKeepsNames(w, p);
    SameBanksApart(w.s, s');
    SameBanksPlaced(w, s');
  }

  lemma PushKeepsBijection(s: State, p: PersonId, slug: Slug)
    requires InBijection(s) && p in s.people
    ensures InBijection(Pushed(s, p, slug))
  {
    FilesOf(s.people, p);
    SwapKeepsBijection(s, Pushed(s, p, slug), p, s.people[p].clips);
  }

  lemma PushKeepsNames(w: World, p: PersonId)
    requires NamesOk(w) && p in w.s.people
    ensures NamesOk(w.(s := Pushed(w.s, p, w.names[p])))
  {
  }

  // ---------- replay passes ----------

  /** A pass over the ledger: what it can see lands, and the rest waits. */
  function Replayed(w: World): World {
    w.(s := w.s.(book := w.s.book.(rows := Waiting(w.s.book.rows, Known(w)))),
       remote := Replay(w.remote, w.s.book.rows, Known(w)))
  }

  /** No row of the ledger strands a clip an earlier row, still waiting, has to carry on. */
  ghost predicate CarefulPass(w: World) {
    forall sha :: Careful(w.s.book.rows, Known(w), w.names, sha, At(w.remote, sha))
  }

  /** What a careful pass leaves of one clip. */
  lemma ReplayedClip(w: World, sha: Sha)
    requires NamesOk(w) && LedgerOk(w.s.book.rows, w.names, w.remote)
    requires Careful(w.s.book.rows, Known(w), w.names, sha, At(w.remote, sha))
    ensures
      var w' := Replayed(w);
      var end := End(w'.s.book.rows, w'.names, w'.remote, sha);
      && Followed(w'.s.book.rows, w'.names, sha, At(w'.remote, sha))
      && (end.None? || end == End(w.s.book.rows, w.names, w.remote, sha))
      && (sha in w'.remote ==> !Unpushed(w'.remote[sha], Known(w), w.names))
  {
    if sha in w.remote {
      NothingUnpushed(w, Known(w), w.names, sha);
    }
    CarefulPassInHand(w.s.book.rows, Known(w), w.names, sha, At(w.remote, sha));
    ReplayIsWalk(w.remote, w.s.book.rows, Known(w), sha);
  }

  lemma ReplayedLedger(w: World)
    requires NamesOk(w) && LedgerOk(w.s.book.rows, w.names, w.remote) && CarefulPass(w)
    ensures LedgerOk(Replayed(w).s.book.rows, w.names, Replayed(w).remote)
    ensures NamesOk(Replayed(w))
  {
    var w' := Replayed(w);
    WaitingRows(w.s.book.rows, Known(w));
    forall sha ensures Followed(w'.s.book.rows, w.names, sha, At(w'.remote, sha)) {
      ReplayedClip(w, sha);
    }
    forall p <- w'.s.people | w'.s.people[p].slug.None? ensures w.names[p] !in w'.remote.Values {
      forall sha <- w'.remote ensures w'.remote[sha] != w.names[p] {
        ReplayedClip(w, sha);
        assert p !in Known(w);
      }
    }
  }

  lemma ReplayedPlaced(w: World, p: PersonId, c: Clip)
    requires NamesOk(w) && LedgerOk(w.s.book.rows, w.names, w.remote) && CarefulPass(w)
    requires p in w.names && Placed(c, p, w.s.disk, w.s.book.rows, w.names, w.remote)
    ensures Placed(c, p, w.s.disk, Replayed(w).s.book.rows, w.names, Replayed(w).remote)
  {
    if Address(w.s.disk, c).Some? {
      ReplayedClip(w, Address(w.s.disk, c).value);
    }
    if c.file in w.s.disk {
      ReplayedClip(w, w.s.disk[c.file]);
    }
  }

  /** A pass keeps the store in step even while membro does not know everyone. */
  lemma ReplayKeepsInStep(w: World)
    requires KeptInStep(w) && CarefulPass(w)
    ensures KeptInStep(Replayed(w))
  {
    ReplayedLedger(w);
    forall p <- w.s.people, c <- w.s.people[p].clips
      ensures Placed(c, p, w.s.disk, Replayed(w).s.book.rows, w.names, Replayed(w).remote)
    {
      ReplayedPlaced(w, p, c);
    }
  }

  /** A check on the ledger alone that a pass is careful. */
  lemma CheckedPassIsCareful(w: World)
    requires KeptInStep(w) && NothingActsOnWaiting(w.s.book.rows, Known(w), w.names)
    ensures CarefulPass(w)
  {
    forall sha ensures Careful(w.s.book.rows, Known(w), w.names, sha, At(w.remote, sha)) {
      if sha in w.remote {
        NothingUnpushed(w, Known(w), w.names, sha);
      }
      LedgerCheckIsCareful(w.s.book.rows, Known(w), w.names, sha, At(w.remote, sha));
    }
  }

  // ---------- uploads ----------

  /** An upload the push makes: an unstamped active clip membro lacks. */
  ghost predicate Uploadable(w: World, p: PersonId, c: Clip) {
    && p in w.s.people && c in w.s.people[p].clips && p in w.names
    && Active(c) && c.stamp.None? && c.file in w.s.disk && w.s.people[p].slug.Some?
    && w.s.disk[c.file] !in w.remote
    && forall row <- w.s.book.rows :: !Names?(row, w.s.disk[c.file])
  }

  lemma {:induction false} UnnamedClipStays(rows: seq<Row>, names: Names, sha: Sha, slug: Slug)
    requires slug in names.Values && AllWellNamed(rows, names)
    requires forall row <- rows :: !Names?(row, sha)
    ensures Walk(rows, names, sha, Some(slug)) == Some(slug)
    ensures Followed(rows, names, sha, Some(slug))
  {
    if rows != [] {
      UnnamedClipStays(rows[..|rows| - 1], names, sha, slug);
      assert WellNamed(rows[|rows| - 1], names) && !Names?(rows[|rows| - 1], sha);
    }
  }

  /** No other clip answers to the uploaded bytes. */
  lemma UploadedPlacedOne(w: World, p: PersonId, c: Clip, q: PersonId, d: Clip)
    requires InBijection(w.s) && Apart(w.s) && w.names.Keys == w.s.people.Keys && AllPlaced(w)
    requires Uploadable(w, p, c) && AllWellNamed(w.s.book.rows, w.names)
    requires q in w.s.people && d in w.s.people[q].clips
    ensures Placed(d, q, w.s.disk, w.s.book.rows, w.names, w.remote[w.s.disk[c.file] := w.names[p]])
  {
    assert Placed(d, q, w.s.disk, w.s.book.rows, w.names, w.remote);
    if d.file == c.file {
      assert d.file in Files(w.s.people[q].clips) && c.file in Files(w.s.people[p].clips);
      OneFileSame(w.s.people[p].clips, c, d);
      UnnamedClipStays(w.s.book.rows, w.names, w.s.disk[c.file], w.names[p]);
    } else {
      OnDisk(w.s, q, d);
      assert Handles(w.s.disk, c) !! Handles(w.s.disk, d);
    }
  }

  lemma UploadedLedger(w: World, p: PersonId, c: Clip)
    requires NamesOk(w) && LedgerOk(w.s.book.rows, w.names, w.remote) && Uploadable(w, p, c)
    ensures LedgerOk(w.s.book.rows, w.names, w.remote[w.s.disk[c.file] := w.names[p]])
    ensures AllWellNamed(w.s.book.rows, w.names)
  {
    var h, rows := w.s.disk[c.file], w.s.book.rows;
    SoundLedger(w, rows);
    UnnamedClipStays(rows, w.names, h, w.names[p]);
    var remote' := w.remote[h := w.names[p]];
    forall sha ensures Followed(rows, w.names, sha, At(remote', sha)) {
      assert sha != h ==> At(remote', sha) == At(w.remote, sha);
    }
  }

  lemma UploadKeepsInStep(w: World, p: PersonId, c: Clip)
    requires KeptInStep(w) && Uploadable(w, p, c)
    ensures KeptInStep(w.(remote := w.remote[w.s.disk[c.file] := w.names[p]]))
  {
    var remote' := w.remote[w.s.disk[c.file] := w.names[p]];
    UploadedLedger(w, p, c);
    forall q <- w.s.people, d <- w.s.people[q].clips
      ensures Placed(d, q, w.s.disk, w.s.book.rows, w.names, remote')
    {
      UploadedPlacedOne(w, p, c, q, d);
    }
    forall q <- w.s.people | w.s.people[q].slug.None? ensures w.names[q] !in remote'.Values {
      assert q != p;
    }
  }
}
