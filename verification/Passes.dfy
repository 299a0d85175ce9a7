/** A replay pass while membro does not know everyone (backend/person_sync.py).

    A pass resolves people through the slugs membro has given so far. A row whose
    target has none waits for a later pass, but the rows behind it are replayed
    all the same, and a row out of a person with no slug is consumed as nothing
    durable to fix. `names` also gives each such person the slug they will have
    once pushed; `known` is the part of it a pass can see. */
module Passes {
  import opened Wrappers
  import opened Ledger

  ghost predicate PartOf(known: Names, names: Names) {
    forall p <- known :: p in names && known[p] == names[p]
  }

  /** Is this the slug of someone membro does not know yet? */
  ghost predicate Unpushed(slug: Slug, known: Names, names: Names) {
    exists p <- names :: p !in known && names[p] == slug
  }

  /** Rows of a ledger in order, and the part of the names a pass can see. */
  ghost predicate InOrder(rows: seq<Row>, known: Names, names: Names) {
    && Injective(names) && PartOf(known, names)
    && forall row <- rows :: WellNamed(row, names) && Nameable(row, names.Keys)
  }

  /** Where the pass leaves a clip. */
  function Landed(rows: seq<Row>, known: Names, sha: Sha, at: Option<Slug>): Option<Slug> {
    Walk(rows, known, sha, at)
  }

  /** Where the rows that wait will take it from there, once everyone is known. */
  function Awaited(rows: seq<Row>, known: Names, names: Names, sha: Sha, at: Option<Slug>): Option<Slug> {
    Walk(Waiting(rows, known), names, sha, Landed(rows, known, sha, at))
  }

  /** The pass is safe for a clip: what waits will leave it where the whole ledger
      puts it, or nowhere. */
  ghost predicate Safe(rows: seq<Row>, known: Names, names: Names, sha: Sha, at: Option<Slug>) {
    var end := Awaited(rows, known, names, sha, at);
    end.None? || end == Walk(rows, names, sha, at)
  }

  /** The last row strands a clip that an earlier row, still waiting, has to carry
      on: it is out of the person that row brings the clip to, or it merges away
      the person the clip is held up under. */
  ghost predicate Stranded(rows: seq<Row>, known: Names, names: Names, sha: Sha, at: Option<Slug>)
    requires rows != []
  {
    var init, row := rows[..|rows| - 1], rows[|rows| - 1];
    var here, meant := Landed(init, known, sha, at), Walk(init, names, sha, at);
    && Lands(row, known) && here.Some? && here != meant
    && ((Names?(row, sha) && meant == Source(row, names)) || (row.Merge? && here == Some(row.loser)))
  }

  ghost predicate Careful(rows: seq<Row>, known: Names, names: Names, sha: Sha, at: Option<Slug>) {
    rows == []
    || (Careful(rows[..|rows| - 1], known, names, sha, at) && !Stranded(rows, known, names, sha, at))
  }

  // ---------- the rows that wait ----------

  /** The rows of a pass that wait name people who have no slug yet. */
  ghost predicate AllWait(rows: seq<Row>, known: Names, names: Names) {
    InOrder(rows, known, names) && forall row <- rows :: !Lands(row, known)
  }

  lemma {:induction false} WaitingRows(rows: seq<Row>, known: Names)
    ensures forall row <- Waiting(rows, known) :: row in rows && !Lands(row, known)
  {
    if rows != [] {
      WaitingRows(rows[..|rows| - 1], known);
    }
  }

  lemma WaitingInOrder(rows: seq<Row>, known: Names, names: Names)
    requires InOrder(rows, known, names)
    ensures AllWait(Waiting(rows, known), known, names)
  {
    WaitingRows(rows, known);
  }

  /** This row, still waiting, takes the clip on from `here` to `end`. */
  ghost predicate TakesOn(row: Row, names: Names, sha: Sha, here: Slug, end: Option<Slug>) {
    match row
    case Move(_, _, _, dst, s) => s == sha && Source(row, names) == Some(here) && end == Resolve(names, dst)
    case Merge(_, loser, winner) => loser == here && end == Resolve(names, winner)
    case _ => false
  }

  /** One row that waits moves a clip, if at all, to someone who has no slug yet;
      and from there none that waits moves it on. */
  lemma WaitingStep(row: Row, known: Names, names: Names, sha: Sha, here: Slug)
    requires Injective(names) && PartOf(known, names)
    requires WellNamed(row, names) && Nameable(row, names.Keys) && !Lands(row, known)
    ensures StepAt(row, names, sha, Some(here)).Some?
    ensures var end := StepAt(row, names, sha, Some(here));
            end != Some(here) ==> Unpushed(end.value, known, names) && TakesOn(row, names, sha, here, end)
    ensures Names?(row, sha) && Source(row, names) == Some(here) ==>
              StepAt(row, names, sha, Some(here)) != Some(here)
    ensures Unpushed(here, known, names) ==>
              StepAt(row, names, sha, Some(here)) == Some(here) && !(Names?(row, sha) && Source(row, names) == Some(here))
  {
  }

  /** The rows that wait leave a clip alone or take it to someone not yet known, in
      one step by one row; and they name it only if that row does. */
  lemma {:induction false} WaitingWalk(rows: seq<Row>, known: Names, names: Names, sha: Sha, here: Slug)
    requires AllWait(rows, known, names) && Followed(rows, names, sha, Some(here))
    requires !Unpushed(here, known, names)
    ensures
      var end := Walk(rows, names, sha, Some(here));
      && end.Some?
      && (end != Some(here) ==>
            Unpushed(end.value, known, names) && exists row <- rows :: TakesOn(row, names, sha, here, end))
      && forall row <- rows | Names?(row, sha) :: end != Some(here) && Source(row, names) == Some(here)
  {
    if rows != [] {
      var init, row := rows[..|rows| - 1], rows[|rows| - 1];
      WaitingWalk(init, known, names, sha, here);
      var mid := Walk(init, names, sha, Some(here)).value;
      WaitingStep(row, known, names, sha, mid);
      assert forall r <- rows :: r in init || r == row;
      if mid != here {
        var taker :| taker in init && TakesOn(taker, names, sha, here, Some(mid));
        assert taker in rows;
      }
    }
  }

  /** Rows that wait do nothing to a clip none of them finds. */
  lemma {:induction false} WaitingIdle(rows: seq<Row>, known: Names, names: Names, sha: Sha, here: Slug)
    requires AllWait(rows, known, names)
    requires forall row <- rows | Names?(row, sha) :: Source(row, names) != Some(here)
    requires forall row <- rows | row.Merge? :: row.loser != here
    ensures Walk(rows, names, sha, Some(here)) == Some(here)
    ensures (forall row <- rows :: !Names?(row, sha)) ==> Followed(rows, names, sha, Some(here))
  {
    if rows != [] {
      var init := rows[..|rows| - 1];
      assert forall row <- init :: row in rows;
      WaitingIdle(init, known, names, sha, here);
      assert !Lands(rows[|rows| - 1], known);
    }
  }

  lemma {:induction false} GoneStaysGone(rows: seq<Row>, names: Names, sha: Sha)
    ensures Walk(rows, names, sha, None) == None && Followed(rows, names, sha, None)
  {
    if rows != [] {
      GoneStaysGone(rows[..|rows| - 1], names, sha);
    }
  }

  // ---------- what a careful pass keeps ----------

  /** How a pass stands to one clip: the rows that wait still follow it, and if it
      is held up, then on its way to someone who has no slug yet. */
  ghost predicate InHand(rows: seq<Row>, known: Names, names: Names, sha: Sha, at: Option<Slug>) {
    var here, end := Landed(rows, known, sha, at), Awaited(rows, known, names, sha, at);
    && Followed(Waiting(rows, known), names, sha, here)
    && (end.None? || end == Walk(rows, names, sha, at))
    && (here.None? <==> end.None?)
    && (here.Some? ==> !Unpushed(here.value, known, names))
    && (end.Some? && here != end ==> Unpushed(end.value, known, names))
  }

  /** One more row, waiting or not, as the walks see it. */
  lemma PassSnoc(rows: seq<Row>, known: Names, names: Names, sha: Sha, at: Option<Slug>)
    requires rows != []
    ensures
      var init, row := rows[..|rows| - 1], rows[|rows| - 1];
      var here := Landed(init, known, sha, at);
      && Landed(rows, known, sha, at) == StepAt(row, known, sha, here)
      && (!Lands(row, known) ==>
            && StepAt(row, known, sha, here) == here
            && Waiting(rows, known) == Waiting(init, known) + [row]
            && Awaited(rows, known, names, sha, at) == StepAt(row, names, sha, Awaited(init, known, names, sha, at)))
      && (Lands(row, known) ==> Waiting(rows, known) == Waiting(init, known))
  {
    var init, row := rows[..|rows| - 1], rows[|rows| - 1];
    if Lands(row, known) {
      assert Waiting(init, known) + [] == Waiting(init, known);
    } else {
      WalkSnoc(Waiting(init, known), row, names, sha, Landed(init, known, sha, at));
    }
  }

  lemma {:induction false} WaitingKeepsInHand(rows: seq<Row>, known: Names, names: Names, sha: Sha, at: Option<Slug>)
    requires rows != [] && InOrder(rows, known, names) && Followed(rows, names, sha, at)
    requires InHand(rows[..|rows| - 1], known, names, sha, at) && !Lands(rows[|rows| - 1], known)
    ensures InHand(rows, known, names, sha, at)
  {
    var init, row := rows[..|rows| - 1], rows[|rows| - 1];
    var end := Awaited(init, known, names, sha, at);
    PassSnoc(rows, known, names, sha, at);
    assert (Waiting(init, known) + [row])[..|Waiting(init, known)|] == Waiting(init, known);
    if end.Some? {
      WaitingStep(row, known, names, sha, end.value);
    }
  }

  /** A row that lands on a clip nothing holds up does in the pass what it is meant to. */
  lemma LandsAsMeant(row: Row, known: Names, names: Names, sha: Sha, here: Slug)
    requires Injective(names) && PartOf(known, names)
    requires WellNamed(row, names) && Nameable(row, names.Keys) && Lands(row, known)
    requires !Unpushed(here, known, names) && (Names?(row, sha) ==> Source(row, names) == Some(here))
    ensures StepAt(row, known, sha, Some(here)) == StepAt(row, names, sha, Some(here))
    ensures var end := StepAt(row, known, sha, Some(here));
            end.Some? && end != Some(here) ==> end.value in names.Values && !Unpushed(end.value, known, names)
  {
  }

  lemma {:induction false} LandingFreeKeepsInHand(rows: seq<Row>, known: Names, names: Names, sha: Sha, at: Option<Slug>)
    requires rows != [] && InOrder(rows, known, names) && Followed(rows, names, sha, at)
    requires InHand(rows[..|rows| - 1], known, names, sha, at) && Lands(rows[|rows| - 1], known)
    requires Landed(rows[..|rows| - 1], known, sha, at) == Awaited(rows[..|rows| - 1], known, names, sha, at)
    ensures InHand(rows, known, names, sha, at)
  {
    var init, row := rows[..|rows| - 1], rows[|rows| - 1];
    var here, here' := Landed(init, known, sha, at), Landed(rows, known, sha, at);
    var waiting := Waiting(init, known);
    PassSnoc(rows, known, names, sha, at);
    GoneStaysGone(waiting, names, sha);
    WaitingInOrder(init, known, names);
    if here.Some? {
      LandsAsMeant(row, known, names, sha, here.value);
      if here'.Some? && here' != here {
        WaitingWalk(waiting, known, names, sha, here.value);
        forall r <- waiting | r.Merge? ensures r.loser != here'.value {
          assert WellNamed(r, names);
        }
        WaitingIdle(waiting, known, names, sha, here'.value);
      }
    }
  }

  lemma {:induction false} LandingHeldUpKeepsInHand(rows: seq<Row>, known: Names, names: Names, sha: Sha, at: Option<Slug>)
    requires rows != [] && InOrder(rows, known, names) && Followed(rows, names, sha, at)
    requires InHand(rows[..|rows| - 1], known, names, sha, at) && Lands(rows[|rows| - 1], known)
    requires Landed(rows[..|rows| - 1], known, sha, at) != Awaited(rows[..|rows| - 1], known, names, sha, at)
    requires !Stranded(rows, known, names, sha, at)
    ensures InHand(rows, known, names, sha, at)
  {
    var init, row := rows[..|rows| - 1], rows[|rows| - 1];
    PassSnoc(rows, known, names, sha, at);
    GoneStaysGone(Waiting(init, known), names, sha);
    assert WellNamed(row, names);
  }

  /** A careful pass has every clip in hand. */
  lemma {:induction false} CarefulPassInHand(rows: seq<Row>, known: Names, names: Names, sha: Sha, at: Option<Slug>)
    requires InOrder(rows, known, names) && Followed(rows, names, sha, at)
    requires at.Some? ==> !Unpushed(at.value, known, names)
    requires Careful(rows, known, names, sha, at)
    ensures InHand(rows, known, names, sha, at)
  {
    if rows != [] {
      var init := rows[..|rows| - 1];
      CarefulPassInHand(init, known, names, sha, at);
      if !Lands(rows[|rows| - 1], known) {
        WaitingKeepsInHand(rows, known, names, sha, at);
      } else if Landed(init, known, sha, at) == Awaited(init, known, names, sha, at) {
        LandingFreeKeepsInHand(rows, known, names, sha, at);
      } else {
        LandingHeldUpKeepsInHand(rows, known, names, sha, at);
      }
    }
  }

  // ---------- and exactly when ----------

  /** A consumed row out of someone not yet known leaves the clip where a waiting
      row will still bring it to them. */
  lemma {:induction false} StrandedByItsOwnRow(rows: seq<Row>, known: Names, names: Names, sha: Sha, at: Option<Slug>)
    requires rows != [] && InOrder(rows, known, names) && InHand(rows[..|rows| - 1], known, names, sha, at)
    requires Stranded(rows, known, names, sha, at) && Names?(rows[|rows| - 1], sha)
    ensures !Safe(rows, known, names, sha, at)
  {
    var row := rows[|rows| - 1];
    PassSnoc(rows, known, names, sha, at);
    assert WellNamed(row, names) && Nameable(row, names.Keys);
  }

  /** A merge that takes the person a clip is held up under takes it past the row
      that waits for it. */
  lemma {:induction false} StrandedByAMerge(rows: seq<Row>, known: Names, names: Names, sha: Sha, at: Option<Slug>)
    requires rows != [] && InOrder(rows, known, names) && InHand(rows[..|rows| - 1], known, names, sha, at)
    requires Stranded(rows, known, names, sha, at) && rows[|rows| - 1].Merge?
    ensures !Safe(rows, known, names, sha, at)
  {
    var init, row := rows[..|rows| - 1], rows[|rows| - 1];
    var here, waiting := Landed(init, known, sha, at).value, Waiting(init, known);
    PassSnoc(rows, known, names, sha, at);
    WaitingInOrder(init, known, names);
    WaitingWalk(waiting, known, names, sha, here);
    assert WellNamed(row, names) && Nameable(row, names.Keys);
    forall r <- waiting | r.Merge? ensures r.loser != names[row.winner] {
      assert WellNamed(r, names);
    }
    WaitingIdle(waiting, known, names, sha, names[row.winner]);
  }

  /** After a careful pass one more row is safe if and only if it strands no clip. */
  lemma {:induction false} OneMoreRowIsSafeExactly(rows: seq<Row>, known: Names, names: Names, sha: Sha, at: Option<Slug>)
    requires rows != [] && InOrder(rows, known, names) && Followed(rows, names, sha, at)
    requires at.Some? ==> !Unpushed(at.value, known, names)
    requires Careful(rows[..|rows| - 1], known, names, sha, at)
    ensures Safe(rows, known, names, sha, at) <==> !Stranded(rows, known, names, sha, at)
  {
    CarefulPassInHand(rows[..|rows| - 1], known, names, sha, at);
    if !Stranded(rows, known, names, sha, at) {
      CarefulPassInHand(rows, known, names, sha, at);
    } else if Names?(rows[|rows| - 1], sha) {
      StrandedByItsOwnRow(rows, known, names, sha, at);
    } else {
      StrandedByAMerge(rows, known, names, sha, at);
    }
  }

  lemma SafeThroughoutSnoc(rows: seq<Row>, known: Names, names: Names, sha: Sha, at: Option<Slug>)
    requires rows != []
    ensures var init := rows[..|rows| - 1];
            (forall k | 0 <= k <= |rows| :: Safe(rows[..k], known, names, sha, at))
            <==> (forall k | 0 <= k <= |init| :: Safe(init[..k], known, names, sha, at))
                 && Safe(rows, known, names, sha, at)
  {
    var init := rows[..|rows| - 1];
    assert rows[..|rows|] == rows;
    assert forall k | 0 <= k <= |init| :: rows[..k] == init[..k];
  }

  /** A pass is safe for a clip at every row of the ledger if and only if no row
      strands it. */
  lemma {:induction false} PassIsSafeExactly(rows: seq<Row>, known: Names, names: Names, sha: Sha, at: Option<Slug>)
    requires InOrder(rows, known, names) && Followed(rows, names, sha, at)
    requires at.Some? ==> !Unpushed(at.value, known, names)
    ensures (forall k | 0 <= k <= |rows| :: Safe(rows[..k], known, names, sha, at))
            <==> Careful(rows, known, names, sha, at)
  {
    if rows == [] {
      assert forall k | 0 <= k <= |rows| :: rows[..k] == rows;
    } else {
      var init := rows[..|rows| - 1];
      PassIsSafeExactly(init, known, names, sha, at);
      SafeThroughoutSnoc(rows, known, names, sha, at);
      if Careful(init, known, names, sha, at) {
        OneMoreRowIsSafeExactly(rows, known, names, sha, at);
      }
    }
  }

  // ---------- what the finished pass leaves ----------

  /** Where the first waiting row that acts on the clip takes it. */
  function TakenFrom(waiting: seq<Row>, names: Names, sha: Sha, here: Option<Slug>): Option<Slug> {
    if waiting == [] then here
    else
      var taken := TakenFrom(waiting[..|waiting| - 1], names, sha, here);
      if taken != here then taken else StepAt(waiting[|waiting| - 1], names, sha, here)
  }

  /** Only the first waiting row that acts on a clip matters: it takes the clip to
      someone who has no slug yet, and none that waits takes it on from there. */
  lemma {:induction false} OnlyTheFirstTakes(rows: seq<Row>, known: Names, names: Names, sha: Sha, here: Option<Slug>)
    requires AllWait(rows, known, names)
    ensures Walk(rows, names, sha, here) == TakenFrom(rows, names, sha, here)
    ensures TakenFrom(rows, names, sha, here) != here ==>
              here.Some? && TakenFrom(rows, names, sha, here).Some?
              && Unpushed(TakenFrom(rows, names, sha, here).value, known, names)
  {
    if rows != [] {
      var init, row := rows[..|rows| - 1], rows[|rows| - 1];
      assert forall r <- init :: r in rows;
      OnlyTheFirstTakes(init, known, names, sha, here);
      var taken := TakenFrom(init, names, sha, here);
      if taken.Some? {
        WaitingStep(row, known, names, sha, taken.value);
      }
    }
  }

  /** The last row sets a clip adrift that was on its way to where the ledger means
      it. It is out of someone an earlier row, still waiting, has yet to bring the
      clip to, and misses it. Or it takes the clip in the pass and a waiting row
      starts where it brings it, or none is left to bring the clip where one that
      held it up was going to. */
  predicate SetsAdrift(rows: seq<Row>, known: Names, names: Names, sha: Sha, at: Option<Slug>)
    requires rows != []
  {
    var init, row := rows[..|rows| - 1], rows[|rows| - 1];
    var here, here', meant := Landed(init, known, sha, at), Landed(rows, known, sha, at), Walk(init, names, sha, at);
    && Lands(row, known)
    && if here' == here then here != meant && meant.Some? && Names?(row, sha) && Source(row, names) == meant
       else TakenFrom(Waiting(init, known), names, sha, here') != if here == meant then here' else meant
  }

  /** Where a clip one row set adrift is bound for instead; None until then, and again
      once the ledger means it to be where it is bound. A row that takes the clip in
      the pass leaves it to the first waiting row that finds it there. */
  function DriftAt(rows: seq<Row>, known: Names, names: Names, sha: Sha, at: Option<Slug>): Option<Option<Slug>> {
    if rows == [] then None
    else
      var init, row := rows[..|rows| - 1], rows[|rows| - 1];
      var here, here' := Landed(init, known, sha, at), Landed(rows, known, sha, at);
      var drift := DriftAt(init, known, names, sha, at);
      if drift.None? && !SetsAdrift(rows, known, names, sha, at) then None
      else
        var bound := if drift.Some? then drift.value else Walk(init, names, sha, at);
        var end := if !Lands(row, known) then StepAt(row, names, sha, bound)
                   else if here' != here then TakenFrom(Waiting(init, known), names, sha, here')
                   else bound;
        if drift.Some? && end == Walk(rows, names, sha, at) then None else Some(end)
  }

  /** A pass never leaves a clip under someone membro does not know. */
  lemma {:induction false} LandedKnown(rows: seq<Row>, known: Names, names: Names, sha: Sha, at: Option<Slug>)
    requires Injective(names) && PartOf(known, names)
    requires at.Some? ==> !Unpushed(at.value, known, names)
    ensures var here := Landed(rows, known, sha, at); here.Some? ==> !Unpushed(here.value, known, names)
  {
    if rows != [] {
      LandedKnown(rows[..|rows| - 1], known, names, sha, at);
    }
  }

  /** A row that lands, as the pass and as the ledger means it: the two act on the
      clip alike, or the one on a clip held up and the other on where it is going. */
  lemma LandsOnOne(row: Row, known: Names, names: Names, sha: Sha, here: Option<Slug>, meant: Option<Slug>)
    requires Injective(names) && PartOf(known, names)
    requires WellNamed(row, names) && Nameable(row, names.Keys) && Lands(row, known)
    requires here.Some? ==> !Unpushed(here.value, known, names)
    requires here != meant ==> here.Some? && meant.Some? && Unpushed(meant.value, known, names)
    ensures here == meant ==> StepAt(row, names, sha, meant) == StepAt(row, known, sha, here)
    ensures here != meant ==> (StepAt(row, names, sha, meant) == meant
                               <==> !(Names?(row, sha) && Source(row, names) == meant))
    ensures here != meant && StepAt(row, known, sha, here) != here ==> StepAt(row, names, sha, meant) == meant
  {
  }

  /** One more row, after a pass that so far means what the ledger does. */
  lemma {:induction false} OneRowAdrift(rows: seq<Row>, known: Names, names: Names, sha: Sha, at: Option<Slug>)
    requires rows != [] && InOrder(rows, known, names)
    requires at.Some? ==> !Unpushed(at.value, known, names)
    requires Awaited(rows[..|rows| - 1], known, names, sha, at) == Walk(rows[..|rows| - 1], names, sha, at)
    ensures Awaited(rows, known, names, sha, at) == Walk(rows, names, sha, at)
            <==> !SetsAdrift(rows, known, names, sha, at)
  {
    var init, row := rows[..|rows| - 1], rows[|rows| - 1];
    var here, here', meant := Landed(init, known, sha, at), Landed(rows, known, sha, at), Walk(init, names, sha, at);
    PassSnoc(rows, known, names, sha, at);
    LandedKnown(init, known, names, sha, at);
    assert forall r <- init :: r in rows;
    WaitingInOrder(init, known, names);
    OnlyTheFirstTakes(Waiting(init, known), known, names, sha, here);
    OnlyTheFirstTakes(Waiting(init, known), known, names, sha, here');
    assert WellNamed(row, names) && Nameable(row, names.Keys);
    if Lands(row, known) {
      LandsOnOne(row, known, names, sha, here, meant);
    }
  }

  /** One more row, after a pass that has set the clip adrift. */
  lemma {:induction false} DriftsOn(rows: seq<Row>, known: Names, names: Names, sha: Sha, at: Option<Slug>)
    requires rows != [] && InOrder(rows, known, names)
    requires DriftAt(rows[..|rows| - 1], known, names, sha, at) == Some(Awaited(rows[..|rows| - 1], known, names, sha, at))
    ensures DriftAt(rows, known, names, sha, at)
            == if Awaited(rows, known, names, sha, at) == Walk(rows, names, sha, at) then None
               else Some(Awaited(rows, known, names, sha, at))
  {
    var init := rows[..|rows| - 1];
    assert forall r <- init :: r in rows;
    PassSnoc(rows, known, names, sha, at);
    WaitingInOrder(init, known, names);
    OnlyTheFirstTakes(Waiting(init, known), known, names, sha, Landed(rows, known, sha, at));
  }

  /** One more row, after a pass that so far means what the ledger does. */
  lemma {:induction false} DriftBegins(rows: seq<Row>, known: Names, names: Names, sha: Sha, at: Option<Slug>)
    requires rows != [] && InOrder(rows, known, names)
    requires at.Some? ==> !Unpushed(at.value, known, names)
    requires DriftAt(rows[..|rows| - 1], known, names, sha, at).None?
    requires Awaited(rows[..|rows| - 1], known, names, sha, at) == Walk(rows[..|rows| - 1], names, sha, at)
    ensures DriftAt(rows, known, names, sha, at)
            == if Awaited(rows, known, names, sha, at) == Walk(rows, names, sha, at) then None
               else Some(Awaited(rows, known, names, sha, at))
  {
    var init := rows[..|rows| - 1];
    assert forall r <- init :: r in rows;
    OneRowAdrift(rows, known, names, sha, at);
    PassSnoc(rows, known, names, sha, at);
    WaitingInOrder(init, known, names);
    OnlyTheFirstTakes(Waiting(init, known), known, names, sha, Landed(rows, known, sha, at));
  }

  /** Exactly when the finished pass means what the whole ledger does, for one clip:
      if and only if it is not adrift. Any rows, any clip, whomever membro knows. */
  lemma {:induction false} PassMeansTheSameExactly(rows: seq<Row>, known: Names, names: Names, sha: Sha, at: Option<Slug>)
    requires InOrder(rows, known, names)
    requires at.Some? ==> !Unpushed(at.value, known, names)
    ensures Awaited(rows, known, names, sha, at) == Walk(rows, names, sha, at)
            <==> DriftAt(rows, known, names, sha, at).None?
    ensures DriftAt(rows, known, names, sha, at).Some? ==>
              DriftAt(rows, known, names, sha, at).value == Awaited(rows, known, names, sha, at)
  {
    if rows != [] {
      var init := rows[..|rows| - 1];
      assert forall r <- init :: r in rows;
      PassMeansTheSameExactly(init, known, names, sha, at);
      if DriftAt(init, known, names, sha, at).None? {
        DriftBegins(rows, known, names, sha, at);
      } else {
        DriftsOn(rows, known, names, sha, at);
      }
    }
  }

  /** Once everyone is known nothing waits and nothing drifts. */
  lemma {:induction false} EveryoneKnownNeverDrifts(rows: seq<Row>, names: Names, sha: Sha, at: Option<Slug>)
    requires forall row <- rows :: Lands(row, names)
    ensures Waiting(rows, names) == [] && DriftAt(rows, names, names, sha, at).None?
  {
    if rows != [] {
      assert forall r <- rows[..|rows| - 1] :: r in rows;
      EveryoneKnownNeverDrifts(rows[..|rows| - 1], names, sha, at);
    }
  }

  /** The last row forgets someone under whom a clip is held up that an earlier row,
      still waiting, has to carry on. */
  ghost predicate Dropped(rows: seq<Row>, known: Names, names: Names, sha: Sha, at: Option<Slug>)
    requires rows != []
  {
    var init, row := rows[..|rows| - 1], rows[|rows| - 1];
    var here := Landed(init, known, sha, at);
    row.Forget? && here == Some(row.slug) && here != Walk(init, names, sha, at)
  }

  /** No row strands the clip or drops it. */
  ghost predicate Steady(rows: seq<Row>, known: Names, names: Names, sha: Sha, at: Option<Slug>) {
    rows == []
    || (Steady(rows[..|rows| - 1], known, names, sha, at)
        && !Stranded(rows, known, names, sha, at) && !Dropped(rows, known, names, sha, at))
  }

  lemma {:induction false} SteadyIsCareful(rows: seq<Row>, known: Names, names: Names, sha: Sha, at: Option<Slug>)
    requires Steady(rows, known, names, sha, at)
    ensures Careful(rows, known, names, sha, at)
  {
    if rows != [] {
      SteadyIsCareful(rows[..|rows| - 1], known, names, sha, at);
    }
  }

  lemma {:induction false} SteadyStep(rows: seq<Row>, known: Names, names: Names, sha: Sha, at: Option<Slug>)
    requires rows != [] && InOrder(rows, known, names) && Followed(rows, names, sha, at)
    requires InHand(rows[..|rows| - 1], known, names, sha, at) && InHand(rows, known, names, sha, at)
    requires Awaited(rows[..|rows| - 1], known, names, sha, at) == Walk(rows[..|rows| - 1], names, sha, at)
    requires !Stranded(rows, known, names, sha, at)
    ensures Awaited(rows, known, names, sha, at) == Walk(rows, names, sha, at) <==> !Dropped(rows, known, names, sha, at)
  {
    var init, row := rows[..|rows| - 1], rows[|rows| - 1];
    var here := Landed(init, known, sha, at);
    PassSnoc(rows, known, names, sha, at);
    assert WellNamed(row, names) && Nameable(row, names.Keys);
    if Lands(row, known) && here.Some? && here == Walk(init, names, sha, at) {
      LandsAsMeant(row, known, names, sha, here.value);
    }
  }

  /** After a steady pass one more row keeps the pass meaning what the ledger does if
      and only if it neither strands the clip nor drops it. */
  lemma {:induction false} OneMoreRowMeansExactly(rows: seq<Row>, known: Names, names: Names, sha: Sha, at: Option<Slug>)
    requires rows != [] && InOrder(rows, known, names) && Followed(rows, names, sha, at)
    requires at.Some? ==> !Unpushed(at.value, known, names)
    requires Steady(rows[..|rows| - 1], known, names, sha, at)
    ensures Awaited(rows, known, names, sha, at) == Walk(rows, names, sha, at)
            <==> !Stranded(rows, known, names, sha, at) && !Dropped(rows, known, names, sha, at)
    decreases |rows|, 0
  {
    SteadyMeansTheSame(rows[..|rows| - 1], known, names, sha, at);
    SteadyIsCareful(rows[..|rows| - 1], known, names, sha, at);
    OneMoreRowIsSafeExactly(rows, known, names, sha, at);
    if !Stranded(rows, known, names, sha, at) {
      CarefulPassInHand(rows[..|rows| - 1], known, names, sha, at);
      CarefulPassInHand(rows, known, names, sha, at);
      SteadyStep(rows, known, names, sha, at);
    }
  }

  lemma {:induction false} SteadyMeansTheSame(rows: seq<Row>, known: Names, names: Names, sha: Sha, at: Option<Slug>)
    requires InOrder(rows, known, names) && Followed(rows, names, sha, at)
    requires at.Some? ==> !Unpushed(at.value, known, names)
    requires Steady(rows, known, names, sha, at)
    ensures Awaited(rows, known, names, sha, at) == Walk(rows, names, sha, at)
    decreases |rows|, 1
  {
    if rows != [] {
      assert forall r <- rows[..|rows| - 1] :: r in rows;
      OneMoreRowMeansExactly(rows, known, names, sha, at);
    }
  }

  /** A pass means what the ledger does at every row of it if and only if no row
      strands the clip or drops it. */
  lemma {:induction false} PassMeansTheSameThroughoutExactly(rows: seq<Row>, known: Names, names: Names, sha: Sha,
                                                             at: Option<Slug>)
    requires InOrder(rows, known, names) && Followed(rows, names, sha, at)
    requires at.Some? ==> !Unpushed(at.value, known, names)
    ensures (forall k | 0 <= k <= |rows| ::
               Awaited(rows[..k], known, names, sha, at) == Walk(rows[..k], names, sha, at))
            <==> Steady(rows, known, names, sha, at)
  {
    if rows == [] {
      assert forall k | 0 <= k <= |rows| :: rows[..k] == rows;
    } else {
      var init := rows[..|rows| - 1];
      PassMeansTheSameThroughoutExactly(init, known, names, sha, at);
      assert forall k | 0 <= k <= |init| :: rows[..k] == init[..k];
      assert rows[..|rows|] == rows;
      if Steady(init, known, names, sha, at) {
        OneMoreRowMeansExactly(rows, known, names, sha, at);
      } else {
        var k :| 0 <= k <= |init| && Awaited(init[..k], known, names, sha, at) != Walk(init[..k], names, sha, at);
        assert rows[..k] == init[..k];
      }
    }
  }

  /** Once everyone is known every pass is careful. */
  lemma {:induction false} EveryoneKnownIsCareful(rows: seq<Row>, names: Names, sha: Sha, at: Option<Slug>)
    ensures Careful(rows, names, names, sha, at)
  {
    if rows != [] {
      EveryoneKnownIsCareful(rows[..|rows| - 1], names, sha, at);
    }
  }

  // ---------- a check on the ledger alone ----------

  /** Would the later row act on what the waiting one has still to bring? */
  predicate ActsOn(later: Row, waiting: Row, names: Names) {
    match waiting
    case Move(_, _, _, dst, sha) =>
      (Names?(later, sha) && later.src == dst) || (later.Merge? && Source(waiting, names) == Some(later.loser))
    case Merge(_, loser, winner) =>
      ((later.Move? || later.Delete?) && later.src == winner) || (later.Merge? && later.loser == loser)
    case _ => false
  }

  predicate NothingActsOnWaiting(rows: seq<Row>, known: Names, names: Names) {
    forall i, j | 0 <= i < j < |rows| && !Lands(rows[i], known) :: !ActsOn(rows[j], rows[i], names)
  }

  lemma StrandingActsOn(row: Row, waiting: Row, known: Names, names: Names, sha: Sha, here: Slug, end: Option<Slug>)
    requires Injective(names) && PartOf(known, names) && WellNamed(row, names) && end.Some?
    requires TakesOn(waiting, names, sha, here, end)
    requires (Names?(row, sha) && end == Source(row, names)) || (row.Merge? && row.loser == here)
    ensures ActsOn(row, waiting, names)
  {
  }

  /** Where a row strands a clip, it acts on what an earlier, waiting one has to bring. */
  lemma {:induction false} StrandedFailsTheCheck(rows: seq<Row>, known: Names, names: Names, sha: Sha, at: Option<Slug>)
    requires rows != [] && InOrder(rows, known, names) && InHand(rows[..|rows| - 1], known, names, sha, at)
    requires Stranded(rows, known, names, sha, at)
    ensures !NothingActsOnWaiting(rows, known, names)
  {
    var init, row := rows[..|rows| - 1], rows[|rows| - 1];
    var here, end := Landed(init, known, sha, at).value, Awaited(init, known, names, sha, at);
    WaitingInOrder(init, known, names);
    WaitingWalk(Waiting(init, known), known, names, sha, here);
    var waiting :| waiting in Waiting(init, known) && TakesOn(waiting, names, sha, here, end);
    WaitingRows(init, known);
    var i :| 0 <= i < |init| && init[i] == waiting;
    StrandingActsOn(row, waiting, known, names, sha, here, end);
    assert rows[i] == waiting && ActsOn(rows[|rows| - 1], rows[i], names);
  }

  /** The check is enough, for any clip and whatever membro holds. */
  lemma {:induction false} LedgerCheckIsCareful(rows: seq<Row>, known: Names, names: Names, sha: Sha, at: Option<Slug>)
    requires InOrder(rows, known, names) && Followed(rows, names, sha, at)
    requires at.Some? ==> !Unpushed(at.value, known, names)
    requires NothingActsOnWaiting(rows, known, names)
    ensures Careful(rows, known, names, sha, at)
  {
    if rows != [] {
      var init := rows[..|rows| - 1];
      LedgerCheckIsCareful(init, known, names, sha, at);
      CarefulPassInHand(init, known, names, sha, at);
      if Stranded(rows, known, names, sha, at) {
        StrandedFailsTheCheck(rows, known, names, sha, at);
      }
    }
  }

  /** Would the later row forget the person a clip waits under? */
  predicate ForgetsWaiting(later: Row, waiting: Row, names: Names) {
    match waiting
    case Move(_, _, _, _, _) => later.Forget? && Source(waiting, names) == Some(later.slug)
    case Merge(_, loser, _) => later.Forget? && later.slug == loser
    case _ => false
  }

  predicate NothingForgottenWhileWaiting(rows: seq<Row>, known: Names, names: Names) {
    forall i, j | 0 <= i < j < |rows| && !Lands(rows[i], known) :: !ForgetsWaiting(rows[j], rows[i], names)
  }

  lemma {:induction false} DroppedFailsTheCheck(rows: seq<Row>, known: Names, names: Names, sha: Sha, at: Option<Slug>)
    requires rows != [] && InOrder(rows, known, names) && InHand(rows[..|rows| - 1], known, names, sha, at)
    requires Awaited(rows[..|rows| - 1], known, names, sha, at) == Walk(rows[..|rows| - 1], names, sha, at)
    requires Dropped(rows, known, names, sha, at)
    ensures !NothingForgottenWhileWaiting(rows, known, names)
  {
    var init, row := rows[..|rows| - 1], rows[|rows| - 1];
    var here, end := Landed(init, known, sha, at).value, Awaited(init, known, names, sha, at);
    WaitingInOrder(init, known, names);
    WaitingWalk(Waiting(init, known), known, names, sha, here);
    var waiting :| waiting in Waiting(init, known) && TakesOn(waiting, names, sha, here, end);
    WaitingRows(init, known);
    var i :| 0 <= i < |init| && init[i] == waiting;
    assert rows[i] == waiting && ForgetsWaiting(rows[|rows| - 1], rows[i], names);
  }

  /** With both checks on the ledger a pass means what the ledger does, for every
      clip and whatever membro holds. */
  lemma {:induction false} LedgerCheckIsSteady(rows: seq<Row>, known: Names, names: Names, sha: Sha, at: Option<Slug>)
    requires InOrder(rows, known, names) && Followed(rows, names, sha, at)
    requires at.Some? ==> !Unpushed(at.value, known, names)
    requires NothingActsOnWaiting(rows, known, names) && NothingForgottenWhileWaiting(rows, known, names)
    ensures Steady(rows, known, names, sha, at)
  {
    if rows != [] {
      var init := rows[..|rows| - 1];
      LedgerCheckIsSteady(init, known, names, sha, at);
      SteadyMeansTheSame(init, known, names, sha, at);
      SteadyIsCareful(init, known, names, sha, at);
      CarefulPassInHand(init, known, names, sha, at);
      if Stranded(rows, known, names, sha, at) {
        StrandedFailsTheCheck(rows, known, names, sha, at);
      }
      if Dropped(rows, known, names, sha, at) {
        DroppedFailsTheCheck(rows, known, names, sha, at);
      }
    }
  }

  function OnwardNames(): Names {
    map[1 := 11, 2 := 12, 3 := 13]
  }

  function OnwardKnown(): Names {
    map[1 := 11, 3 := 13]
  }

  /** From person 1 to 2, who has no slug yet, and from 2 on to 3. */
  function Onward(): seq<Row> {
    [] + [Move(0, 1, None, 2, 100)] + [Move(1, 2, None, 3, 100)]
  }

  lemma OnwardFirst()
    ensures var one := [] + [Move(0, 1, None, 2, 100)];
            && Followed(one, OnwardNames(), 100, Some(11)) && Walk(one, OnwardNames(), 100, Some(11)) == Some(12)
            && Landed(one, OnwardKnown(), 100, Some(11)) == Some(11)
            && Awaited(one, OnwardKnown(), OnwardNames(), 100, Some(11)) == Some(12)
  {
    var start: seq<Row>, first := [], Move(0, 1, None, 2, 100);
    var one := start + [first];
    assert one[..0] == start && one[0] == first;
    WalkSnoc(start, first, OnwardNames(), 100, Some(11));
    PassSnoc(one, OnwardKnown(), OnwardNames(), 100, Some(11));
    assert Landed(start, OnwardKnown(), 100, Some(11)) == Some(11);
    assert Awaited(start, OnwardKnown(), OnwardNames(), 100, Some(11)) == Some(11);
  }

  lemma OnwardGoes()
    ensures && Walk(Onward(), OnwardNames(), 100, Some(11)) == Some(13)
            && Landed(Onward(), OnwardKnown(), 100, Some(11)) == Some(11)
            && Awaited(Onward(), OnwardKnown(), OnwardNames(), 100, Some(11)) == Some(12)
  {
    var one, on := [] + [Move(0, 1, None, 2, 100)], Move(1, 2, None, 3, 100);
    OnwardFirst();
    WalkSnoc(one, on, OnwardNames(), 100, Some(11));
    WalkSnoc(one, on, OnwardKnown(), 100, Some(11));
    ConsumedRow(one, on, OnwardKnown());
  }

  lemma ConsumedRow(rows: seq<Row>, row: Row, known: Names)
    requires Lands(row, known)
    ensures Waiting(rows + [row], known) == Waiting(rows, known)
  {
    assert (rows + [row])[..|rows|] == rows;
    assert Waiting(rows, known) + [] == Waiting(rows, known);
  }

  lemma OnwardStrands()
    ensures Followed(Onward(), OnwardNames(), 100, Some(11)) && Stranded(Onward(), OnwardKnown(), OnwardNames(), 100, Some(11))
  {
    var one, on := [] + [Move(0, 1, None, 2, 100)], Move(1, 2, None, 3, 100);
    assert Onward()[..1] == one && Onward()[1] == on;
    OnwardFirst();
  }

  /** A stranded clip can come back: moved on to person 3 it waits where the first
      row left it, and a move from 3 back to 2 makes it right by the end. */
  lemma AStrandedClipCanComeBack()
    ensures
      var rows := Onward() + [Move(2, 3, None, 2, 100)];
      && InOrder(rows, OnwardKnown(), OnwardNames()) && Followed(rows, OnwardNames(), 100, Some(11))
      && !Careful(rows, OnwardKnown(), OnwardNames(), 100, Some(11))
      && Awaited(rows, OnwardKnown(), OnwardNames(), 100, Some(11)) == Walk(rows, OnwardNames(), 100, Some(11)) == Some(12)
  {
    var back := Move(2, 3, None, 2, 100);
    var rows := Onward() + [back];
    OnwardGoes();
    OnwardStrands();
    assert rows[..2] == Onward() && rows[2] == back;
    assert forall r <- rows :: r == Move(0, 1, None, 2, 100) || r == Move(1, 2, None, 3, 100) || r == back;
    WalkSnoc(Onward(), back, OnwardNames(), 100, Some(11));
    PassSnoc(rows, OnwardKnown(), OnwardNames(), 100, Some(11));
  }

  /** From person 1, since gone, to 2, who has no slug yet; membro knows nobody left. */
  function OutOfOne(): Row {
    Move(0, 1, Some(11), 2, 100)
  }

  lemma OutOfOneWaits(names: Names, known: Names)
    requires names == map[2 := 12] && known == map[]
    ensures var one := [] + [OutOfOne()];
            && Walk(one, names, 100, Some(11)) == Some(12) && Landed(one, known, 100, Some(11)) == Some(11)
            && Followed(one, names, 100, Some(11)) && Careful(one, known, names, 100, Some(11))
  {
    var start: seq<Row> := [];
    var one := start + [OutOfOne()];
    assert one[..0] == start && one[0] == OutOfOne();
    WalkSnoc(start, OutOfOne(), names, 100, Some(11));
    WalkSnoc(start, OutOfOne(), known, 100, Some(11));
    assert Followed(start, names, 100, Some(11)) && Careful(start, known, names, 100, Some(11));
    assert !Lands(OutOfOne(), known);
  }

  lemma OneForgotten(names: Names, known: Names)
    requires names == map[2 := 12] && known == map[]
    ensures var rows := [] + [OutOfOne()] + [Forget(1, 11)];
            && Walk(rows, names, 100, Some(11)) == Some(12) && Awaited(rows, known, names, 100, Some(11)) == None
            && Followed(rows, names, 100, Some(11)) && Careful(rows, known, names, 100, Some(11))
  {
    var one, forget := [] + [OutOfOne()], Forget(1, 11);
    var rows := one + [forget];
    assert rows[..1] == one && rows[1] == forget;
    OutOfOneWaits(names, known);
    WalkSnoc(one, forget, names, 100, Some(11));
    PassSnoc(rows, known, names, 100, Some(11));
    GoneStaysGone(Waiting(rows, known), names, 100);
    assert Followed(rows, names, 100, Some(11)) && !Stranded(rows, known, names, 100, Some(11));
  }

  /** A forget takes what waits: a clip moved from person 1 to 2, who has no slug
      yet, and person 1 forgotten. The move waits, the forget lands, and membro
      loses a clip that is person 2's. */
  lemma AForgetTakesWhatWaits()
    ensures
      var names: Names := map[2 := 12];
      var rows := [] + [OutOfOne()] + [Forget(1, 11)];
      && InOrder(rows, map[], names) && Followed(rows, names, 100, Some(11))
      && Careful(rows, map[], names, 100, Some(11))
      && Walk(rows, names, 100, Some(11)) == Some(12)
      && Awaited(rows, map[], names, 100, Some(11)) == None
  {
    var names: Names := map[2 := 12];
    var rows := [] + [OutOfOne()] + [Forget(1, 11)];
    assert forall r <- rows :: r == OutOfOne() || r == Forget(1, 11);
    OneForgotten(names, map[]);
  }

  /** A pass does strand a clip: person 2 has no slug yet, the owner moves a clip
      from person 1 to 2 and from 2 on to 3. The first row waits, the second is
      consumed. The clip was person 3's; once 2 is pushed it is 2's, and a forget
      of person 3 before that leaves it under person 1. */
  lemma AWaitingMoveThenAMoveOnIsLost()
    ensures
      var names: Names := map[1 := 11, 2 := 12, 3 := 13];
      var known: Names := map[1 := 11, 3 := 13];
      var rows := [] + [Move(0, 1, None, 2, 100)] + [Move(1, 2, None, 3, 100)];
      && InOrder(rows, known, names) && Followed(rows, names, 100, Some(11))
      && Walk(rows, names, 100, Some(11)) == Some(13)
      && Waiting(rows, known) == [rows[0]] && Landed(rows, known, 100, Some(11)) == Some(11)
      && Awaited(rows, known, names, 100, Some(11)) == Some(12)
      && Walk(Settle(Waiting(rows, known), 3, Some(13), None).out + ForgetRecord(2, Some(13)), known - {3}, 100, Some(11))
         == Some(11)
  {
    var names: Names := map[1 := 11, 2 := 12, 3 := 13];
    var known: Names := map[1 := 11, 3 := 13];
    var first, on, start: seq<Row> := Move(0, 1, None, 2, 100), Move(1, 2, None, 3, 100), [];
    var rows := start + [first] + [on];
    assert rows[..1] == start + [first] && (start + [first])[..0] == start;
    assert rows[0] == first && rows[1] == on && (start + [first])[0] == first;
    assert Waiting(start + [first], known) == start + [first];
    assert Waiting(rows, known) == start + [first];
    WalkSnoc(start, first, names, 100, Some(11));
    WalkSnoc(start + [first], on, names, 100, Some(11));
    WalkSnoc(start, first, known, 100, Some(11));
    WalkSnoc(start + [first], on, known, 100, Some(11));
    SettleSnoc(start, first, 3, Some(13), None);
    WalkSnoc(start, first, known - {3}, 100, Some(11));
    WalkSnoc(start + [first], Forget(2, 13), known - {3}, 100, Some(11));
  }
}
