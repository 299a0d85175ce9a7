/** A replay pass is not one step: it reads the rows and the slugs, sends the rows
    over the network, and then removes the rows that landed by their ids
    (backend/person_sync.py). A forget or a merge that comes in between rewrites
    the rows under the same ids. */
module Races {
  import opened Wrappers
  import opened Ledger
  import opened Sorting
  import opened Store
  import opened InStep
  import opened Runs
  import opened SyncPass
  import opened AnyRuns

  /** The ids a pass over these rows removes. */
  function Done(rows: seq<Row>, known: Names): set<Cid> {
    set row | row in rows && Lands(row, known) :: row.cid
  }

  function NotDone(done: set<Cid>): Row -> bool {
    (row: Row) => row.cid !in done
  }

  /** `remove_corrections`. */
  function Removed(rows: seq<Row>, done: set<Cid>): seq<Row> {
    Restrict(rows, NotDone(done))
  }

  /** The world once a pass that began in `w` has ended, when an operation in
      between left the store as `s'` and the people as `names'`. */
  function PassedOver(w: World, s': State, names': Names): World {
    World(s'.(book := s'.book.(rows := Removed(s'.book.rows, Done(w.s.book.rows, Known(w))))),
          Replay(w.remote, w.s.book.rows, Known(w)), names')
  }

  lemma RemovedSnoc(rows: seq<Row>, row: Row, done: set<Cid>)
    ensures Removed(rows + [row], done) == Removed(rows, done) + if row.cid in done then [] else [row]
  {
    RestrictSnoc(rows, row, NotDone(done));
  }

  /** With one id a row, a row's id is removed exactly when the row lands. */
  lemma {:induction false} DoneExactly(rows: seq<Row>, known: Names, next: Cid, row: Row)
    requires CidsRise(rows, next) && row in rows
    ensures row.cid in Done(rows, known) <==> Lands(row, known)
  {
    if row.cid in Done(rows, known) {
      var other :| other in rows && Lands(other, known) && other.cid == row.cid;
      OneRowEach(rows, next, row, other);
    }
  }

  lemma {:induction false} OneRowEach(rows: seq<Row>, next: Cid, a: Row, b: Row)
    requires CidsRise(rows, next) && a in rows && b in rows && a.cid == b.cid
    ensures a == b
  {
    var init, last := rows[..|rows| - 1], rows[|rows| - 1];
    CidsBelow(init, last.cid);
    assert forall row <- rows :: row in init || row == last;
    if a != last && b != last {
      OneRowEach(init, last.cid, a, b);
    }
  }

  lemma {:induction false} RemovedIsWaiting(rows: seq<Row>, known: Names, done: set<Cid>)
    requires forall row <- rows :: row.cid in done <==> Lands(row, known)
    ensures Removed(rows, done) == Waiting(rows, known)
  {
    if rows != [] {
      assert forall row <- rows[..|rows| - 1] :: row in rows;
      RemovedIsWaiting(rows[..|rows| - 1], known, done);
      assert rows == rows[..|rows| - 1] + [rows[|rows| - 1]];
      RemovedSnoc(rows[..|rows| - 1], rows[|rows| - 1], done);
    }
  }

  /** An uninterrupted pass removes what landed and leaves what waits. */
  lemma PassRemoves(w: World)
    requires KeptNamed(w)
    ensures Removed(w.s.book.rows, Done(w.s.book.rows, Known(w))) == Waiting(w.s.book.rows, Known(w))
    ensures forall cid <- Done(w.s.book.rows, Known(w)) :: cid < w.s.book.next
    ensures forall row <- w.s.book.rows :: row.cid in Done(w.s.book.rows, Known(w)) <==> Lands(row, Known(w))
  {
    var rows, known := w.s.book.rows, Known(w);
    CidsBelow(rows, w.s.book.next);
    forall row <- rows ensures row.cid in Done(rows, known) <==> Lands(row, known) {
      DoneExactly(rows, known, w.s.book.next, row);
    }
    RemovedIsWaiting(rows, known, Done(rows, known));
  }

  // ---------- settling in the middle of a pass ----------

  /** Is the clip the row names carried to the survivor by these rows? */
  predicate CarriedBy(rows: seq<Row>, row: Row, gone: PersonId, into: Option<PersonId>)
    requires row.Move? || row.Delete?
  {
    into.Some? && Carried(rows, gone, into.value, row.sha)
  }

  lemma CarriedByExactly(rows: seq<Row>, row: Row, gone: PersonId, slug: Option<Slug>, into: Option<PersonId>)
    requires row.Move? || row.Delete?
    ensures CarriedBy(rows, row, gone, into) <==> row.sha in Settle(rows, gone, slug, into).carried
  {
    if into.Some? {
      CarriedExactly(rows, gone, slug, into.value, row.sha);
    } else {
      CarriedTo(rows, gone, slug, into);
    }
  }

  /** The last row stays, is out of the merged-away person, and its clip is carried
      to the survivor by the rows before it but not by those of them that stay, or
      the reverse. A move to the survivor of a person who has no slug is dropped
      either way. */
  predicate ReadsWrong(rows: seq<Row>, done: set<Cid>, gone: PersonId, slug: Option<Slug>, into: Option<PersonId>)
    requires rows != []
  {
    var init, row := rows[..|rows| - 1], rows[|rows| - 1];
    && row.cid !in done && (row.Move? || row.Delete?) && row.src == gone
    && !(row.Move? && (row.dst == gone || (slug.None? && into == Some(row.dst))))
    && CarriedBy(init, row, gone, into) != CarriedBy(Removed(init, done), row, gone, into)
  }

  predicate Misread(rows: seq<Row>, done: set<Cid>, gone: PersonId, slug: Option<Slug>, into: Option<PersonId>) {
    rows != []
    && (Misread(rows[..|rows| - 1], done, gone, slug, into) || ReadsWrong(rows, done, gone, slug, into))
  }

  lemma {:induction false} CarriedTo(rows: seq<Row>, gone: PersonId, slug: Option<Slug>, into: Option<PersonId>)
    ensures forall sha <- Settle(rows, gone, slug, into).carried ::
              into.Some? && Settle(rows, gone, slug, into).carried[sha] == into.value
  {
    if rows != [] {
      CarriedTo(rows[..|rows| - 1], gone, slug, into);
    }
  }

  /** A row is rewritten alike by two settlements if and only if both carry its clip,
      or neither does, or it makes no difference. */
  lemma SettledAlike(row: Row, gone: PersonId, slug: Option<Slug>, into: Option<PersonId>,
                     home: Option<PersonId>, home': Option<PersonId>)
    requires into != Some(gone)
    requires home.Some? ==> (row.Move? || row.Delete?) && home == into
    requires home'.Some? ==> (row.Move? || row.Delete?) && home' == into
    ensures SettledRow(row, gone, slug, into, home) == SettledRow(row, gone, slug, into, home')
            <==> !((row.Move? || row.Delete?) && row.src == gone
                   && !(row.Move? && (row.dst == gone || (slug.None? && into == Some(row.dst))))
                   && home.Some? != home'.Some?)
  {}

  /** What settling makes of one row, given where its clip is carried. */
  function Sent(row: Row, gone: PersonId, slug: Option<Slug>, into: Option<PersonId>, home: Option<PersonId>): seq<Row> {
    var sent := SettledRow(row, gone, slug, into, home);
    if sent.Some? then [sent.value] else []
  }

  lemma RemovedSent(out: seq<Row>, row: Row, gone: PersonId, slug: Option<Slug>, into: Option<PersonId>,
                    home: Option<PersonId>, done: set<Cid>)
    ensures Removed(out + Sent(row, gone, slug, into, home), done)
            == Removed(out, done) + if row.cid in done then [] else Sent(row, gone, slug, into, home)
  {
    var sent := SettledRow(row, gone, slug, into, home);
    if sent.Some? {
      RemovedSnoc(out, sent.value, done);
    } else {
      assert out + [] == out && Removed(out, done) + [] == Removed(out, done);
    }
  }

  lemma LaterIdAtTheEnd(a: seq<Row>, x: seq<Row>, cid: Cid, k: nat)
    requires (forall row <- a :: row.cid < cid) && (forall row <- x :: row.cid == cid) && k < |a + x|
    ensures (a + x)[k].cid == cid <==> k >= |a|
  {
    if k < |a| {
      assert (a + x)[k] == a[k] && a[k] in a;
    } else {
      assert (a + x)[k] == x[k - |a|] && x[k - |a|] in x;
    }
  }

  /** Two lists of earlier ids, each perhaps with a row of one later id at the end. */
  lemma SameWithOneMore(a: seq<Row>, b: seq<Row>, x: seq<Row>, y: seq<Row>, cid: Cid)
    requires (forall row <- a :: row.cid < cid) && forall row <- b :: row.cid < cid
    requires (forall row <- x :: row.cid == cid) && forall row <- y :: row.cid == cid
    ensures a + x == b + y <==> a == b && x == y
  {
    if a + x == b + y {
      var k := if |a| < |b| then |a| else |b|;
      if k < |a + x| {
        LaterIdAtTheEnd(a, x, cid, k);
        LaterIdAtTheEnd(b, y, cid, k);
      }
      assert |a| == |b|;
      assert a == (a + x)[..|a|] && b == (b + y)[..|b|];
      assert x == (a + x)[|a|..] && y == (b + y)[|b|..];
    }
  }

  lemma {:induction false} RemovedRise(rows: seq<Row>, done: set<Cid>, next: Cid)
    requires CidsRise(rows, next)
    ensures CidsRise(Removed(rows, done), next)
  {
    if rows != [] {
      var init, last := rows[..|rows| - 1], rows[|rows| - 1];
      RemovedRise(init, done, last.cid);
      assert rows == init + [last];
      RemovedSnoc(init, last, done);
      if last.cid in done {
        assert Removed(init, done) + [] == Removed(init, done);
        CidsLater(Removed(init, done), last.cid, next);
      } else {
        CidsSnoc(Removed(init, done), last, next);
      }
    }
  }

  /** One more row that the pass removes changes neither ledger. */
  lemma OneMoreGone(init: seq<Row>, row: Row, done: set<Cid>, gone: PersonId, slug: Option<Slug>, into: Option<PersonId>)
    requires row.cid in done
    ensures Removed(Settle(init + [row], gone, slug, into).out, done) == Removed(Settle(init, gone, slug, into).out, done)
    ensures Removed(init + [row], done) == Removed(init, done)
  {
    var whole := Settle(init, gone, slug, into);
    SettleSnoc(init, row, gone, slug, into);
    RemovedSent(whole.out, row, gone, slug, into, Home(whole.carried, row), done);
    RemovedSnoc(init, row, done);
    assert Removed(whole.out, done) + [] == Removed(whole.out, done) && Removed(init, done) + [] == Removed(init, done);
  }

  /** One more row that stays, settled with all the earlier ones. */
  lemma OneMoreStays(init: seq<Row>, row: Row, done: set<Cid>, gone: PersonId, slug: Option<Slug>, into: Option<PersonId>)
    requires row.cid !in done
    ensures Removed(Settle(init + [row], gone, slug, into).out, done)
            == Removed(Settle(init, gone, slug, into).out, done)
               + Sent(row, gone, slug, into, Home(Settle(init, gone, slug, into).carried, row))
    ensures Removed(init + [row], done) == Removed(init, done) + [row]
  {
    var whole := Settle(init, gone, slug, into);
    SettleSnoc(init, row, gone, slug, into);
    RemovedSent(whole.out, row, gone, slug, into, Home(whole.carried, row), done);
    RemovedSnoc(init, row, done);
  }

  lemma OneMoreSent(rows: seq<Row>, row: Row, gone: PersonId, slug: Option<Slug>, into: Option<PersonId>)
    ensures Settle(rows + [row], gone, slug, into).out
            == Settle(rows, gone, slug, into).out + Sent(row, gone, slug, into, Home(Settle(rows, gone, slug, into).carried, row))
  {
    SettleSnoc(rows, row, gone, slug, into);
  }

  /** Both ledgers so far have ids below the next row's. */
  lemma BothBelow(rows: seq<Row>, done: set<Cid>, gone: PersonId, slug: Option<Slug>, into: Option<PersonId>, next: Cid)
    requires CidsRise(rows, next)
    ensures forall row <- Removed(Settle(rows, gone, slug, into).out, done) :: row.cid < next
    ensures forall row <- Settle(Removed(rows, done), gone, slug, into).out :: row.cid < next
  {
    SettledCids(rows, gone, slug, into, next);
    RemovedRise(Settle(rows, gone, slug, into).out, done, next);
    CidsBelow(Removed(Settle(rows, gone, slug, into).out, done), next);
    RemovedRise(rows, done, next);
    SettledCids(Removed(rows, done), gone, slug, into, next);
    CidsBelow(Settle(Removed(rows, done), gone, slug, into).out, next);
  }

  lemma SentKeepsId(row: Row, gone: PersonId, slug: Option<Slug>, into: Option<PersonId>, home: Option<PersonId>)
    ensures forall sent <- Sent(row, gone, slug, into, home) :: sent.cid == row.cid
  {}

  /** The two ledgers agree on one more row that stays if and only if they did so far
      and rewrite it alike. */
  lemma OneMoreAlike(init: seq<Row>, left: seq<Row>, row: Row, done: set<Cid>, gone: PersonId, slug: Option<Slug>,
                     into: Option<PersonId>)
    requires CidsRise(init, row.cid) && left == Removed(init, done) && row.cid !in done
    ensures
      Removed(Settle(init + [row], gone, slug, into).out, done) == Settle(left + [row], gone, slug, into).out
      <==> Removed(Settle(init, gone, slug, into).out, done) == Settle(left, gone, slug, into).out
           && Sent(row, gone, slug, into, Home(Settle(init, gone, slug, into).carried, row))
              == Sent(row, gone, slug, into, Home(Settle(left, gone, slug, into).carried, row))
  {
    var home, home' := Home(Settle(init, gone, slug, into).carried, row), Home(Settle(left, gone, slug, into).carried, row);
    OneMoreStays(init, row, done, gone, slug, into);
    OneMoreSent(left, row, gone, slug, into);
    BothBelow(init, done, gone, slug, into, row.cid);
    SentKeepsId(row, gone, slug, into, home);
    SentKeepsId(row, gone, slug, into, home');
    SameWithOneMore(Removed(Settle(init, gone, slug, into).out, done), Settle(left, gone, slug, into).out,
                    Sent(row, gone, slug, into, home), Sent(row, gone, slug, into, home'), row.cid);
  }

  /** A row that stays is rewritten alike exactly when it is not misread. */
  lemma SentAlike(rows: seq<Row>, done: set<Cid>, gone: PersonId, slug: Option<Slug>, into: Option<PersonId>)
    requires rows != [] && into != Some(gone) && rows[|rows| - 1].cid !in done
    ensures
      var init, row := rows[..|rows| - 1], rows[|rows| - 1];
      Sent(row, gone, slug, into, Home(Settle(init, gone, slug, into).carried, row))
      == Sent(row, gone, slug, into, Home(Settle(Removed(init, done), gone, slug, into).carried, row))
      <==> !ReadsWrong(rows, done, gone, slug, into)
  {
    var init, row := rows[..|rows| - 1], rows[|rows| - 1];
    CarriedTo(init, gone, slug, into);
    CarriedTo(Removed(init, done), gone, slug, into);
    if row.Move? || row.Delete? {
      CarriedByExactly(init, row, gone, slug, into);
      CarriedByExactly(Removed(init, done), row, gone, slug, into);
    }
    SettledAlike(row, gone, slug, into, Home(Settle(init, gone, slug, into).carried, row),
                 Home(Settle(Removed(init, done), gone, slug, into).carried, row));
  }

  /** Exactly when it does not matter whether the ledger is settled before the pass
      removes its rows or after: if and only if no row that stays is misread. Any
      rows, and any of them removed. */
  lemma {:induction false} SettlingDuringAPassExactly(rows: seq<Row>, done: set<Cid>, gone: PersonId, slug: Option<Slug>,
                                                      into: Option<PersonId>, next: Cid)
    requires CidsRise(rows, next) && into != Some(gone)
    ensures Removed(Settle(rows, gone, slug, into).out, done) == Settle(Removed(rows, done), gone, slug, into).out
            <==> !Misread(rows, done, gone, slug, into)
  {
    if rows != [] {
      var init, row := rows[..|rows| - 1], rows[|rows| - 1];
      assert rows == init + [row];
      SettlingDuringAPassExactly(init, done, gone, slug, into, row.cid);
      if row.cid in done {
        OneMoreGone(init, row, done, gone, slug, into);
      } else {
        OneMoreStays(init, row, done, gone, slug, into);
        OneMoreAlike(init, Removed(init, done), row, done, gone, slug, into);
        SentAlike(rows, done, gone, slug, into);
      }
    }
  }

  lemma {:induction false} NothingMisread(rows: seq<Row>, done: set<Cid>, gone: PersonId, slug: Option<Slug>,
                                          into: Option<PersonId>)
    requires into.None? || forall row <- rows :: row.cid in done
    ensures !Misread(rows, done, gone, slug, into)
  {
    if rows != [] {
      var init := rows[..|rows| - 1];
      assert forall row <- init :: row in rows;
      NothingMisread(init, done, gone, slug, into);
      CarriedTo(init, gone, slug, into);
      CarriedTo(Removed(init, done), gone, slug, into);
      assert rows[|rows| - 1] in rows;
    }
  }

  // ---------- a check on the ledger alone ----------

  /** Does the row name this clip into or out of the person? */
  predicate Touches(row: Row, sha: Sha, gone: PersonId) {
    Names?(row, sha) && (row.src == gone || (row.Move? && row.dst == gone))
  }

  /** No row the pass sends is followed by one that stays and takes the same clip out
      of the merged-away person. */
  predicate NothingSentOnward(rows: seq<Row>, done: set<Cid>, gone: PersonId) {
    forall i, j | 0 <= i < j < |rows| && rows[i].cid in done && rows[j].cid !in done ::
      !((rows[j].Move? || rows[j].Delete?) && rows[j].src == gone && Touches(rows[i], rows[j].sha, gone))
  }

  /** Whether a clip is carried after a row depends on that clip, and on rows that
      touch it. */
  lemma CarriedOn(carried: map<Sha, PersonId>, carried': map<Sha, PersonId>, row: Row, gone: PersonId,
                  into: Option<PersonId>, sha: Sha)
    requires sha in carried <==> sha in carried'
    requires sha in carried ==> carried[sha] == carried'[sha]
    ensures sha in CarriedAfter(carried, row, gone, into) <==> sha in CarriedAfter(carried', row, gone, into)
    ensures !Touches(row, sha, gone) ==> (sha in CarriedAfter(carried, row, gone, into) <==> sha in carried)
  {}

  lemma {:induction false} CarriedByWhatStays(rows: seq<Row>, done: set<Cid>, gone: PersonId, slug: Option<Slug>,
                                              into: Option<PersonId>, sha: Sha)
    requires forall row <- rows | row.cid in done :: !Touches(row, sha, gone)
    ensures sha in Settle(rows, gone, slug, into).carried <==> sha in Settle(Removed(rows, done), gone, slug, into).carried
  {
    if rows != [] {
      var init, row := rows[..|rows| - 1], rows[|rows| - 1];
      assert rows == init + [row] && forall r <- init :: r in rows;
      CarriedByWhatStays(init, done, gone, slug, into, sha);
      CarriedTo(init, gone, slug, into);
      CarriedTo(Removed(init, done), gone, slug, into);
      var left := Removed(init, done);
      SettleSnoc(init, row, gone, slug, into);
      CarriedOn(Settle(init, gone, slug, into).carried, Settle(left, gone, slug, into).carried, row, gone, into, sha);
      RemovedSnoc(init, row, done);
      if row.cid in done {
        assert left + [] == left;
      } else {
        SettleSnoc(left, row, gone, slug, into);
      }
    }
  }

  /** The check is enough. */
  lemma {:induction false} LedgerCheckReadsRight(rows: seq<Row>, done: set<Cid>, gone: PersonId, slug: Option<Slug>,
                                                 into: Option<PersonId>)
    requires NothingSentOnward(rows, done, gone)
    ensures !Misread(rows, done, gone, slug, into)
  {
    if rows != [] {
      var init, row := rows[..|rows| - 1], rows[|rows| - 1];
      LedgerCheckReadsRight(init, done, gone, slug, into);
      if row.cid !in done && (row.Move? || row.Delete?) && row.src == gone {
        forall r <- init | r.cid in done ensures !Touches(r, row.sha, gone) {
          var i :| 0 <= i < |init| && init[i] == r;
          assert rows[i] == r && rows[|rows| - 1] == row;
        }
        CarriedByWhatStays(init, done, gone, slug, into, row.sha);
        CarriedByExactly(init, row, gone, slug, into);
        CarriedByExactly(Removed(init, done), row, gone, slug, into);
      }
    }
  }

  // ---------- a forget in the middle of a pass ----------

  /** A forget that comes in the middle of a pass leaves the world as a forget after
      it, whomever membro knows and whatever the rows: it carries nothing. */
  lemma AForgetDuringAPassComesAfterIt(w: World, p: PersonId)
    requires KeptNamed(w) && p in w.s.people
    ensures
      var after := ForgetPerson(Replayed(w).s, p, true).0;
      PassedOver(w, ForgetPerson(w.s, p, true).0, w.names - {p})
      == World(after, Replayed(w).remote, Replayed(w).names - {p})
  {
    PassRemoves(w);
    ForgottenBookLeft(w.s.book, Done(w.s.book.rows, Known(w)), p, w.s.people[p].slug);
    ForgottenRows(w.s, p);
    ForgottenRows(Replayed(w).s, p);
  }

  /** The forget's ledger and the pass's removal. */
  lemma ForgottenBookLeft(book: Book, done: set<Cid>, p: PersonId, slug: Option<Slug>)
    requires CidsRise(book.rows, book.next) && forall cid <- done :: cid < book.next
    ensures Removed(Settle(book.rows, p, slug, None).out + ForgetRecord(book.next, slug), done)
            == Settle(Removed(book.rows, done), p, slug, None).out + ForgetRecord(book.next, slug)
  {
    var out := Settle(book.rows, p, slug, None).out;
    NothingMisread(book.rows, done, p, slug, None);
    SettlingDuringAPassExactly(book.rows, done, p, slug, None, book.next);
    if slug.Some? {
      RemovedSnoc(out, Forget(book.next, slug.value), done);
    } else {
      assert out + [] == out;
    }
  }

  /** So it leaves the store in step. */
  lemma AForgetDuringAPassKeepsInStep(w: World, p: PersonId)
    requires KeptInStep(w) && KeptNamed(w) && CarefulPass(w) && p in w.s.people
    ensures KeptInStep(PassedOver(w, ForgetPerson(w.s, p, true).0, w.names - {p}))
  {
    AForgetDuringAPassComesAfterIt(w, p);
    ReplayKeepsInStep(w);
    ForgetKeepsInStep(Replayed(w), p, true);
  }
}
