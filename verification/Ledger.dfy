/** The correction ledger (backend/anchors.py) and its replay against membro,
    the durable home (backend/person_sync.py).

    Every recursive function over rows peels off the LAST row, so a fact about
    a ledger extends by one row exactly when the code appends one. */
module Ledger {
  import opened Wrappers

  // Opaque identifiers: only equality is ever used on them.
  type PersonId = int  // a local id
  type Slug = int      // a person's name in membro
  type Sha = int       // a clip's content address
  type Cid = int       // a ledger row's own id

  /** Local id -> membro slug, for the people membro knows (membro_slugs). */
  type Names = map<PersonId, Slug>

  /** What membro holds: each stored clip sits under one slug. */
  type Remote = map<Sha, Slug>

  /** Why a clip left the kept set. */
  datatype Why = ByRotation | BySettling | ByAudit

  datatype Row =
    | Move(cid: Cid, src: PersonId, srcSlug: Option<Slug>, dst: PersonId, sha: Sha)
    | Delete(cid: Cid, src: PersonId, srcSlug: Option<Slug>, sha: Sha, why: Option<Why>)
    | Merge(cid: Cid, loser: Slug, winner: PersonId)
    | Forget(cid: Cid, slug: Slug)

  // ---------- replay ----------

  function Resolve(names: Names, p: PersonId): Option<Slug> {
    if p in names then Some(names[p]) else None
  }

  /** Where a move or delete looks for its clip: the slug on the row, else the
      source's own. None means there is nothing durable to fix. */
  function Source(row: Row, names: Names): Option<Slug>
    requires row.Move? || row.Delete?
  {
    if row.srcSlug.Some? then row.srcSlug else Resolve(names, row.src)
  }

  predicate Names?(row: Row, sha: Sha) {
    (row.Move? || row.Delete?) && row.sha == sha
  }

  /** One row replayed. A row whose source lacks the clip, or whose target or
      winner membro does not know yet, changes nothing; membro collapses a move
      onto bytes the target already holds into a delete. */
  function ApplyRow(remote: Remote, row: Row, names: Names): Remote {
    match row
    case Move(_, _, _, dst, sha) =>
      var src := Source(row, names);
      if src.None? || dst !in names || sha !in remote || remote[sha] != src.value then remote
      else if names[dst] == src.value then remote - {sha}
      else remote[sha := names[dst]]
    case Delete(_, _, _, sha, _) =>
      var src := Source(row, names);
      if src.None? || sha !in remote || remote[sha] != src.value then remote
      else remote - {sha}
    case Merge(_, loser, winner) =>
      if winner !in names then remote
      else map s | s in remote :: if remote[s] == loser then names[winner] else remote[s]
    case Forget(_, slug) =>
      map s | s in remote && remote[s] != slug :: remote[s]
  }

  function Replay(remote: Remote, rows: seq<Row>, names: Names): Remote {
    if rows == [] then remote
    else ApplyRow(Replay(remote, rows[..|rows| - 1], names), rows[|rows| - 1], names)
  }

  /** Does a replay consume this row? What names a person membro does not know
      yet as target or winner waits for a later pass. */
  predicate Lands(row: Row, names: Names) {
    match row
    case Move(_, _, _, dst, _) => Source(row, names).None? || dst in names
    case Delete(_, _, _, _, _) => true
    case Merge(_, _, winner) => winner in names
    case Forget(_, _) => true
  }

  function Waiting(rows: seq<Row>, names: Names): seq<Row> {
    if rows == [] then []
    else
      var row := rows[|rows| - 1];
      Waiting(rows[..|rows| - 1], names) + if Lands(row, names) then [] else [row]
  }

  method ReplayCorrections(before: Remote, rows: seq<Row>, names: Names)
    returns (remote: Remote, pending: seq<Row>)
    ensures remote == Replay(before, rows, names)
    ensures pending == Waiting(rows, names)
  {
    remote, pending := before, [];
    for i := 0 to |rows|
      invariant remote == Replay(before, rows[..i], names)
      invariant pending == Waiting(rows[..i], names)
    {
      assert rows[..i + 1][..i] == rows[..i];
      remote := ApplyRow(remote, rows[i], names);
      if !Lands(rows[i], names) {
        pending := pending + [rows[i]];
      }
    }
    assert rows[..|rows|] == rows;
  }

  // ---------- one clip at a time ----------

  function At(remote: Remote, sha: Sha): Option<Slug> {
    if sha in remote then Some(remote[sha]) else None
  }

  /** Where one row leaves one clip. Rows act on each clip separately, which is
      what lets a whole-remote claim be proved clip by clip. */
  function StepAt(row: Row, names: Names, sha: Sha, at: Option<Slug>): Option<Slug> {
    match row
    case Move(_, _, _, dst, s) =>
      if s != sha || at.None? || at != Source(row, names) || dst !in names then at
      else if Some(names[dst]) == at then None
      else Some(names[dst])
    case Delete(_, _, _, s, _) =>
      if s == sha && at.Some? && at == Source(row, names) then None else at
    case Merge(_, loser, winner) =>
      if at == Some(loser) && winner in names then Some(names[winner]) else at
    case Forget(_, slug) => if at == Some(slug) then None else at
  }

  function Walk(rows: seq<Row>, names: Names, sha: Sha, at: Option<Slug>): Option<Slug> {
    if rows == [] then at
    else StepAt(rows[|rows| - 1], names, sha, Walk(rows[..|rows| - 1], names, sha, at))
  }

  lemma {:induction false} ReplayIsWalk(remote: Remote, rows: seq<Row>, names: Names, sha: Sha)
    ensures At(Replay(remote, rows, names), sha) == Walk(rows, names, sha, At(remote, sha))
  {
    if rows != [] {
      ReplayIsWalk(remote, rows[..|rows| - 1], names, sha);
    }
  }

  /** What one row does in membro. It brings no clip there. A move or delete touches no
      clip but its own, and that one only where the row looks for it: a delete takes it
      away, a move hands it to its target once membro knows them, and a move home takes
      it away too. A merge hands over all the loser has, once membro knows the winner;
      a forget takes away all the slug has. What waits has done nothing. */
  lemma ARowReplayed(remote: Remote, row: Row, names: Names)
    ensures var r := ApplyRow(remote, row, names);
            && r.Keys <= remote.Keys
            && (!Lands(row, names) ==> r == remote && (row.Move? || row.Merge?)
                                       && (if row.Move? then row.dst else row.winner) !in names)
            && (row.Forget? ==> forall sha :: At(r, sha) == if At(remote, sha) == Some(row.slug) then None else At(remote, sha))
            && (row.Merge? && row.winner in names ==>
                  Lands(row, names)
                  && forall sha :: At(r, sha) == if At(remote, sha) == Some(row.loser) then Some(names[row.winner])
                                                 else At(remote, sha))
    ensures row.Move? || row.Delete? ==>
              var r, src := ApplyRow(remote, row, names), Source(row, names);
              && (forall sha | sha != row.sha :: At(r, sha) == At(remote, sha))
              && (At(remote, row.sha) != src ==> r == remote)
              && (src.None? ==> r == remote && Lands(row, names))
              && (src.Some? && At(remote, row.sha) == src ==>
                    if row.Delete? then row.sha !in r
                    else if row.dst !in names then r == remote && !Lands(row, names)
                    else At(r, row.sha) == if names[row.dst] == src.value then None else Some(names[row.dst]))
  {}

  lemma SameRemote(r1: Remote, r2: Remote)
    requires forall sha :: At(r1, sha) == At(r2, sha)
    ensures r1 == r2
  {
    forall sha ensures sha in r1 <==> sha in r2 {
      assert At(r1, sha) == At(r2, sha);
    }
    forall sha | sha in r1 ensures r1[sha] == r2[sha] {
      assert At(r1, sha) == At(r2, sha);
    }
  }

  lemma WalkSnoc(rows: seq<Row>, row: Row, names: Names, sha: Sha, at: Option<Slug>)
    ensures Walk(rows + [row], names, sha, at) == StepAt(row, names, sha, Walk(rows, names, sha, at))
  {
    assert (rows + [row])[..|rows|] == rows;
  }

  // ---------- settling the ledger when a local id goes ----------

  /** The settled form of one row for `gone`, whose membro name is `slug`, or
      None when nothing is left to send. `into` is the survivor of a merge, or
      None when the person is forgotten; `home` is where an earlier row left
      this row's clip. */
  function SettledRow(row: Row, gone: PersonId, slug: Option<Slug>, into: Option<PersonId>,
                      home: Option<PersonId>): Option<Row>
  {
    if row.Merge? && row.winner == gone then
      Some(if into.Some? then row.(winner := into.value) else Forget(row.cid, row.loser))
    else if row.Move? && row.dst == gone then
      if into.None? then Some(Delete(row.cid, row.src, row.srcSlug, row.sha, None))
      else if row.src == into.value then None
      else Some(row.(dst := into.value))
    else if (row.Move? || row.Delete?) && row.src == gone then
      if home.Some? then
        if row.Move? && row.dst == home.value then None
        else Some(row.(src := home.value, srcSlug := None))
      else if slug.Some? then Some(row.(srcSlug := slug))
      else None
    else Some(row)
  }

  /** Where the rows so far leave each clip they carried to the survivor. */
  function CarriedAfter(carried: map<Sha, PersonId>, row: Row, gone: PersonId, into: Option<PersonId>):
    map<Sha, PersonId>
  {
    if row.Move? && row.dst == gone then
      if into.Some? then carried[row.sha := into.value] else carried
    else if (row.Move? || row.Delete?) && row.src == gone && row.sha in carried then
      if row.Move? && row.dst == carried[row.sha] then carried else carried - {row.sha}
    else carried
  }

  datatype Settling = Settling(out: seq<Row>, carried: map<Sha, PersonId>)

  function Home(carried: map<Sha, PersonId>, row: Row): Option<PersonId> {
    if (row.Move? || row.Delete?) && row.sha in carried then Some(carried[row.sha]) else None
  }

  function SettleRow(st: Settling, row: Row, gone: PersonId, slug: Option<Slug>, into: Option<PersonId>): Settling {
    var sent := SettledRow(row, gone, slug, into, Home(st.carried, row));
    Settling(st.out + if sent.Some? then [sent.value] else [],
             CarriedAfter(st.carried, row, gone, into))
  }

  function Settle(rows: seq<Row>, gone: PersonId, slug: Option<Slug>, into: Option<PersonId>): Settling {
    if rows == [] then Settling([], map[])
    else SettleRow(Settle(rows[..|rows| - 1], gone, slug, into), rows[|rows| - 1], gone, slug, into)
  }

  method SettleCorrections(rows: seq<Row>, gone: PersonId, slug: Option<Slug>, into: Option<PersonId>)
    returns (out: seq<Row>)
    ensures out == Settle(rows, gone, slug, into).out
  {
    out := [];
    var carried: map<Sha, PersonId> := map[];
    for i := 0 to |rows|
      invariant Settling(out, carried) == Settle(rows[..i], gone, slug, into)
    {
      assert rows[..i + 1][..i] == rows[..i];
      var row := rows[i];
      if row.Merge? && row.winner == gone {
        if into.Some? {
          out := out + [row.(winner := into.value)];
        } else {
          out := out + [Forget(row.cid, row.loser)];
        }
      } else if row.Move? && row.dst == gone {
        if into.Some? {
          if row.src != into.value {
            out := out + [row.(dst := into.value)];
          }
          carried := carried[row.sha := into.value];
        } else {
          out := out + [Delete(row.cid, row.src, row.srcSlug, row.sha, None)];
        }
      } else if (row.Move? || row.Delete?) && row.src == gone {
        if row.sha in carried {
          var home := carried[row.sha];
          carried := carried - {row.sha};
          if row.Move? && row.dst == home {
            carried := carried[row.sha := home];
            continue;
          }
          out := out + [row.(src := home, srcSlug := None)];
        } else if slug.Some? {
          out := out + [row.(srcSlug := slug)];
        }
      } else {
        out := out + [row];
      }
    }
    assert rows[..|rows|] == rows;
  }

  // ---------- what the store keeps true of its rows ----------

  /** A row names living people by local id and departed ones by slug, and no
      row moves a clip onto its own holder. */
  ghost predicate WellNamed(row: Row, names: Names) {
    match row
    case Move(_, src, srcSlug, dst, _) =>
      && src != dst
      && (src in names ==> srcSlug.None?)
      && (srcSlug.Some? ==> srcSlug.value !in names.Values)
    case Delete(_, src, srcSlug, _, _) =>
      && (src in names ==> srcSlug.None?)
      && (srcSlug.Some? ==> srcSlug.value !in names.Values)
    case Merge(_, loser, _) => loser !in names.Values
    case Forget(_, slug) => slug !in names.Values
  }

  ghost predicate AllWellNamed(rows: seq<Row>, names: Names) {
    forall row <- rows :: WellNamed(row, names)
  }

  ghost predicate Injective(names: Names) {
    forall p <- names, q <- names | names[p] == names[q] :: p == q
  }

  /** Every row that names this clip finds it under the row's own source, or
      finds that membro does not hold it. */
  ghost predicate Followed(rows: seq<Row>, names: Names, sha: Sha, at: Option<Slug>) {
    rows == [] ||
    var init, row := rows[..|rows| - 1], rows[|rows| - 1];
    && Followed(init, names, sha, at)
    && (Names?(row, sha) ==>
          var here := Walk(init, names, sha, at);
          here.None? || here == Source(row, names))
  }

  /** Did a merge that `gone` won, and no row since, put membro's copy of this
      clip under `gone`? */
  ghost predicate Brought(rows: seq<Row>, names: Names, gone: PersonId, sha: Sha, at: Option<Slug>) {
    rows != [] &&
    var init, row := rows[..|rows| - 1], rows[|rows| - 1];
    && Walk(rows, names, sha, at) == Resolve(names, gone)
    && (Brought(init, names, gone, sha, at)
        || (row.Merge? && row.winner == gone && Walk(init, names, sha, at) == Some(row.loser)))
  }

  /** Does the row take this clip out of `gone`, and not to the survivor? */
  predicate TakesOn(row: Row, gone: PersonId, into: PersonId, sha: Sha) {
    Names?(row, sha) && row.src == gone && !(row.Move? && row.dst == into)
  }

  predicate BringsTo(row: Row, gone: PersonId, sha: Sha) {
    row.Move? && row.dst == gone && row.sha == sha
  }

  /** Has some row moved this clip to `gone`, and none since taken it on to anybody but
      the survivor? */
  predicate Carried(rows: seq<Row>, gone: PersonId, into: PersonId, sha: Sha) {
    rows != []
    && var init, row := rows[..|rows| - 1], rows[|rows| - 1];
       BringsTo(row, gone, sha) || (Carried(init, gone, into, sha) && !TakesOn(row, gone, into, sha))
  }

  ghost predicate BroughtAt(rows: seq<Row>, k: int, gone: PersonId, into: PersonId, sha: Sha) {
    0 <= k < |rows| && BringsTo(rows[k], gone, sha) && forall j | k < j < |rows| :: !TakesOn(rows[j], gone, into, sha)
  }

  lemma {:induction false} CarriedFrom(rows: seq<Row>, gone: PersonId, into: PersonId, sha: Sha) returns (k: int)
    requires Carried(rows, gone, into, sha)
    ensures BroughtAt(rows, k, gone, into, sha)
  {
    var last := |rows| - 1;
    k := last;
    if !BringsTo(rows[last], gone, sha) {
      k := CarriedFrom(rows[..last], gone, into, sha);
      forall j | k < j < |rows| ensures !TakesOn(rows[j], gone, into, sha) {
        assert j < last ==> rows[j] == rows[..last][j];
      }
    }
  }

  lemma {:induction false} BroughtIsCarried(rows: seq<Row>, k: int, gone: PersonId, into: PersonId, sha: Sha)
    requires BroughtAt(rows, k, gone, into, sha)
    ensures Carried(rows, gone, into, sha)
  {
    if k < |rows| - 1 {
      BroughtIsCarried(rows[..|rows| - 1], k, gone, into, sha);
    }
  }

  lemma CarriedMeans(rows: seq<Row>, gone: PersonId, into: PersonId, sha: Sha)
    ensures Carried(rows, gone, into, sha) <==> exists k :: BroughtAt(rows, k, gone, into, sha)
  {
    if Carried(rows, gone, into, sha) {
      var k := CarriedFrom(rows, gone, into, sha);
    }
    if k :| BroughtAt(rows, k, gone, into, sha) {
      BroughtIsCarried(rows, k, gone, into, sha);
    }
  }

  /** What the settlement's `carried` knows, read off the rows alone. */
  lemma {:induction false} CarriedExactly(rows: seq<Row>, gone: PersonId, slug: Option<Slug>, into: PersonId, sha: Sha)
    ensures var carried := Settle(rows, gone, slug, Some(into)).carried;
            && (sha in carried <==> Carried(rows, gone, into, sha))
            && (sha in carried ==> carried[sha] == into)
  {
    if rows != [] {
      CarriedExactly(rows[..|rows| - 1], gone, slug, into, sha);
    }
  }

  /** The last row takes out of `gone` a clip that only a merge they won brought
      there, so no carried entry says where the settled rows left it. A move on
      to the survivor is harmless: the settled rows left it exactly there. */
  ghost predicate LosesTrack(rows: seq<Row>, names: Names, gone: PersonId, into: PersonId,
                             sha: Sha, at: Option<Slug>)
    requires rows != []
  {
    var init, row := rows[..|rows| - 1], rows[|rows| - 1];
    && TakesOn(row, gone, into, sha)
    && Brought(init, names, gone, sha, at)
    && !Carried(init, gone, into, sha)
  }

  ghost predicate KeepsTrack(rows: seq<Row>, names: Names, gone: PersonId, into: PersonId,
                             sha: Sha, at: Option<Slug>)
  {
    rows == []
    || (KeepsTrack(rows[..|rows| - 1], names, gone, into, sha, at)
        && !LosesTrack(rows, names, gone, into, sha, at))
  }

  /** Stricter, for whole runs: no row at all, harmless or not, takes out of
      `gone` a clip only a merge they won brought there. */
  ghost predicate StaysClear(rows: seq<Row>, names: Names, gone: PersonId, into: PersonId,
                             sha: Sha, at: Option<Slug>)
  {
    rows == [] ||
    var init, row := rows[..|rows| - 1], rows[|rows| - 1];
    && StaysClear(init, names, gone, into, sha, at)
    && (Names?(row, sha) && row.src == gone && Brought(init, names, gone, sha, at) ==>
          Carried(init, gone, into, sha))
  }

  lemma {:induction false} ClearKeepsTrack(rows: seq<Row>, names: Names, gone: PersonId, into: PersonId,
                                           sha: Sha, at: Option<Slug>)
    requires StaysClear(rows, names, gone, into, sha, at)
    ensures KeepsTrack(rows, names, gone, into, sha, at)
  {
    if rows != [] {
      ClearKeepsTrack(rows[..|rows| - 1], names, gone, into, sha, at);
    }
  }

  /** A check on the ledger alone: no row out of `gone` follows a merge they won. */
  predicate NoRowOutAfterWin(rows: seq<Row>, gone: PersonId) {
    forall i, j | 0 <= i < j < |rows| && rows[i].Merge? && rows[i].winner == gone ::
      !((rows[j].Move? || rows[j].Delete?) && rows[j].src == gone)
  }

  /** The ledger check is enough, whatever membro holds. */
  lemma {:induction false} LedgerCheckStaysClear(rows: seq<Row>, names: Names, gone: PersonId, into: PersonId,
                                                 sha: Sha, at: Option<Slug>)
    requires NoRowOutAfterWin(rows, gone)
    ensures StaysClear(rows, names, gone, into, sha, at)
    ensures Brought(rows, names, gone, sha, at) ==> exists i | 0 <= i < |rows| :: rows[i].Merge? && rows[i].winner == gone
  {
    if rows != [] {
      var init, row := rows[..|rows| - 1], rows[|rows| - 1];
      LedgerCheckStaysClear(init, names, gone, into, sha, at);
      if Brought(init, names, gone, sha, at) {
        var i :| 0 <= i < |init| && init[i].Merge? && init[i].winner == gone;
        assert rows[i] == init[i];
      }
    }
  }

  // ---------- merge settlement preserves meaning ----------

  /** How a settled replay stands to the original one, for one clip: equal
      away from `gone`, and at `gone` either still there or already carried. */
  ghost predicate Carries(names: Names, gone: PersonId, slug: Option<Slug>, into: PersonId,
                          original: Option<Slug>, settled: Option<Slug>, moved: bool)
    requires gone in names && into in names
  {
    && (original != Some(names[gone]) ==> settled == original)
    && (original == Some(names[gone]) ==> settled == Some(if moved then names[into] else names[gone]))
    && (original == Some(names[gone]) && slug.None? ==> moved)
  }

  /** What one settled row does to one clip; nothing is sent for it when None. */
  function SentStep(sent: Option<Row>, names: Names, sha: Sha, at: Option<Slug>): Option<Slug> {
    if sent.Some? then StepAt(sent.value, names, sha, at) else at
  }

  /** One row keeps the two replays in that relation. */
  lemma CarriesStep(row: Row, names: Names, gone: PersonId, slug: Option<Slug>, into: PersonId, sha: Sha,
                    original: Option<Slug>, settled: Option<Slug>, home: Option<PersonId>, brought: bool)
    requires gone in names && into in names && gone != into && Injective(names)
    requires slug == Some(names[gone]) || slug.None?
    requires WellNamed(row, names) && Lands(row, names)
    requires Names?(row, sha) ==> original.None? || original == Source(row, names)
    requires Names?(row, sha) && row.src == gone && !(row.Move? && row.dst == into) ==> !brought || home.Some?
    requires brought ==> original == Some(names[gone])
    requires home.Some? ==> home.value == into
    requires Carries(names, gone, slug, into, original, settled, home.Some? || brought)
    ensures
      var sent := SettledRow(row, gone, slug, Some(into), if Names?(row, sha) then home else None);
      var original' := StepAt(row, names, sha, original);
      var settled' := SentStep(sent, names - {gone}, sha, settled);
      var carried' := CarriedAfter(if home.Some? then map[sha := home.value] else map[], row, gone, Some(into));
      var brought' := original' == Some(names[gone])
                      && (brought || (row.Merge? && row.winner == gone && original == Some(row.loser)));
      Carries(names, gone, slug, into, original', settled', sha in carried' || brought')
  {
    assert names[gone] != names[into];
  }

  /** What the settlement lemmas suppose of the ledger and of membro's names:
      rows and people are well named, and membro knows every target, as it does
      once a sync pass has pushed the people. */
  ghost predicate Sound(rows: seq<Row>, names: Names) {
    && Injective(names)
    && forall row <- rows :: WellNamed(row, names) && Lands(row, names)
  }

  lemma WalkSent(out: seq<Row>, sent: Option<Row>, names: Names, sha: Sha, at: Option<Slug>)
    ensures Walk(out + if sent.Some? then [sent.value] else [], names, sha, at)
            == SentStep(sent, names, sha, Walk(out, names, sha, at))
  {
    if sent.Some? {
      WalkSnoc(out, sent.value, names, sha, at);
    } else {
      assert out + [] == out;
    }
  }

  /** Where a row's own clip was left is nothing to any other clip. */
  lemma OtherClipsHome(row: Row, gone: PersonId, slug: Option<Slug>, into: Option<PersonId>, home: Option<PersonId>,
                       names: Names, sha: Sha, at: Option<Slug>)
    requires !Names?(row, sha)
    ensures SentStep(SettledRow(row, gone, slug, into, home), names, sha, at)
            == SentStep(SettledRow(row, gone, slug, into, None), names, sha, at)
  {}

  /** The settled replay of one more row, seen from one clip: only what was
      carried for that clip matters. */
  lemma SettledWalkStep(rows: seq<Row>, names: Names, gone: PersonId, slug: Option<Slug>,
                        into: Option<PersonId>, sha: Sha, at: Option<Slug>)
    requires rows != []
    ensures
      var init, row := rows[..|rows| - 1], rows[|rows| - 1];
      var home := if Names?(row, sha) then Home(Settle(init, gone, slug, into).carried, row) else None;
      Walk(Settle(rows, gone, slug, into).out, names, sha, at)
      == SentStep(SettledRow(row, gone, slug, into, home), names, sha,
                  Walk(Settle(init, gone, slug, into).out, names, sha, at))
  {
    var init, row := rows[..|rows| - 1], rows[|rows| - 1];
    SettledWalkFrom(Settle(init, gone, slug, into), row, names, gone, slug, into, sha, at);
  }

  lemma SettledWalkFrom(st: Settling, row: Row, names: Names, gone: PersonId, slug: Option<Slug>,
                        into: Option<PersonId>, sha: Sha, at: Option<Slug>)
    ensures
      var home := if Names?(row, sha) then Home(st.carried, row) else None;
      Walk(SettleRow(st, row, gone, slug, into).out, names, sha, at)
      == SentStep(SettledRow(row, gone, slug, into, home), names, sha, Walk(st.out, names, sha, at))
  {
    var home := Home(st.carried, row);
    WalkSent(st.out, SettledRow(row, gone, slug, into, home), names, sha, at);
    if !Names?(row, sha) {
      OtherClipsHome(row, gone, slug, into, home, names, sha, Walk(st.out, names, sha, at));
    }
  }

  lemma SettledWalkCarries(rows: seq<Row>, names: Names, gone: PersonId, slug: Option<Slug>, into: PersonId,
                           sha: Sha, at: Option<Slug>)
    requires gone in names && into in names && gone != into && Sound(rows, names)
    requires slug == Some(names[gone]) || (slug.None? && at != Some(names[gone]))
    requires Followed(rows, names, sha, at) && KeepsTrack(rows, names, gone, into, sha, at)
    ensures
      var st := Settle(rows, gone, slug, Some(into));
      Carries(names, gone, slug, into, Walk(rows, names, sha, at), Walk(st.out, names - {gone}, sha, at),
              sha in st.carried || Brought(rows, names, gone, sha, at))
  {
    TrackedIsNotAstray(rows, names, gone, slug, into, sha, at);
    SettledStands(rows, names, gone, slug, into, sha, at);
  }

  /** The row merge_people records when membro knows the merged-away person. */
  function MergeRecord(cid: Cid, slug: Option<Slug>, into: PersonId): seq<Row> {
    if slug.Some? then [Merge(cid, slug.value, into)] else []
  }

  /** Where the settled ledger and the recorded merge leave one clip. */
  function SettledEnd(rows: seq<Row>, names: Names, gone: PersonId, slug: Option<Slug>, into: PersonId, cid: Cid,
                      sha: Sha, at: Option<Slug>): Option<Slug>
  {
    Walk(Settle(rows, gone, slug, Some(into)).out + MergeRecord(cid, slug, into), names - {gone}, sha, at)
  }

  /** Where the original rows, then the merge itself, leave one clip. */
  function OriginalEnd(rows: seq<Row>, names: Names, gone: PersonId, into: PersonId, sha: Sha, at: Option<Slug>):
    Option<Slug>
    requires gone in names && into in names
  {
    var end := Walk(rows, names, sha, at);
    if end == Some(names[gone]) then Some(names[into]) else end
  }

  lemma SettledEndIs(rows: seq<Row>, names: Names, gone: PersonId, slug: Option<Slug>, into: PersonId, cid: Cid,
                     sha: Sha, at: Option<Slug>)
    requires gone in names && into in names && gone != into
    ensures
      var settled := Walk(Settle(rows, gone, slug, Some(into)).out, names - {gone}, sha, at);
      SettledEnd(rows, names, gone, slug, into, cid, sha, at)
      == if slug.Some? && settled == slug then Some(names[into]) else settled
  {
    var out := Settle(rows, gone, slug, Some(into)).out;
    if slug.Some? {
      WalkSnoc(out, Merge(cid, slug.value, into), names - {gone}, sha, at);
    } else {
      assert out + [] == out;
    }
  }

  /** Merge settlement preserves meaning: the settled ledger and its merge row
      leave membro as the original rows followed by the merge would, for any
      chain of moves, deletes and merges through either person whose rows follow
      their clips. */
  lemma {:induction false} MergeSettlementPreserves(remote: Remote, rows: seq<Row>, names: Names, gone: PersonId,
                                                    slug: Option<Slug>, into: PersonId, cid: Cid)
    requires gone in names && into in names && gone != into && Sound(rows, names)
    requires slug == Some(names[gone]) || (slug.None? && names[gone] !in remote.Values)
    requires forall sha :: Followed(rows, names, sha, At(remote, sha))
    requires forall sha :: KeepsTrack(rows, names, gone, into, sha, At(remote, sha))
    ensures Replay(remote, Settle(rows, gone, slug, Some(into)).out + MergeRecord(cid, slug, into), names - {gone})
            == ApplyRow(Replay(remote, rows, names), Merge(cid, names[gone], into), names)
  {
    forall sha
      ensures !Astray(rows, names, gone, slug, into, sha, At(remote, sha))
    {
      TrackedIsNotAstray(rows, names, gone, slug, into, sha, At(remote, sha));
    }
    MergeSettlementExact(remote, rows, names, gone, slug, into, cid);
  }

  /** A row that loses track moves or deletes the clip in the original replay,
      and misses it in the settled one, which already has it at the survivor. */
  lemma LostRowDiverges(row: Row, names: Names, gone: PersonId, slug: Option<Slug>, into: PersonId, sha: Sha)
    requires gone in names && into in names && gone != into && Injective(names)
    requires slug == Some(names[gone]) || slug.None?
    requires WellNamed(row, names) && Lands(row, names)
    requires Names?(row, sha) && row.src == gone && !(row.Move? && row.dst == into)
    ensures
      var sent := SettledRow(row, gone, slug, Some(into), None);
      var original := StepAt(row, names, sha, Some(names[gone]));
      var settled := if sent.Some? then StepAt(sent.value, names - {gone}, sha, Some(names[into]))
                     else Some(names[into]);
      original != Some(names[gone]) && original != Some(names[into]) && settled == Some(names[into])
  {
    assert names[gone] != names[into];
  }

  // ---------- and exactly when ----------

  /** Where the settled replay holds a clip that a row lost track of, while the
      original replay has it elsewhere; None once the two agree again. While the
      original rows hold the clip the stray copy stays at the survivor; once they
      have deleted it, only the stray copy is left to follow the settled rows. */
  ghost function StrayAt(rows: seq<Row>, names: Names, gone: PersonId, slug: Option<Slug>, into: PersonId,
                         sha: Sha, at: Option<Slug>): Option<Slug>
    requires gone in names && into in names
  {
    if rows == [] then None
    else
      var init, row := rows[..|rows| - 1], rows[|rows| - 1];
      var stray, here := StrayAt(init, names, gone, slug, into, sha, at), Walk(rows, names, sha, at);
      if stray.None? then
        if LosesTrack(rows, names, gone, into, sha, at) then Some(names[into]) else None
      else if Walk(init, names, sha, at).None? then
        var home := if Names?(row, sha) && Carried(init, gone, into, sha) then Some(into) else None;
        SentStep(SettledRow(row, gone, slug, Some(into), home), names - {gone}, sha, stray)
      else if here == Some(names[gone]) || here == Some(names[into]) then None
      else stray
  }

  ghost predicate Astray(rows: seq<Row>, names: Names, gone: PersonId, slug: Option<Slug>, into: PersonId,
                         sha: Sha, at: Option<Slug>)
    requires gone in names && into in names
  {
    StrayAt(rows, names, gone, slug, into, sha, at).Some?
  }

  /** One row from astray: the settled copy stays at the survivor, and a row that
      brings the original back to `gone` leaves word of it. */
  lemma AstrayStep(row: Row, names: Names, gone: PersonId, slug: Option<Slug>, into: PersonId, sha: Sha,
                   original: Option<Slug>, home: Option<PersonId>)
    requires gone in names && into in names && gone != into && Injective(names)
    requires slug == Some(names[gone]) || slug.None?
    requires WellNamed(row, names) && Lands(row, names)
    requires original != Some(names[gone]) && original != Some(names[into])
    requires Names?(row, sha) ==> original.Some? && original == Source(row, names)
    ensures SentStep(SettledRow(row, gone, slug, Some(into), home), names - {gone}, sha, Some(names[into]))
            == Some(names[into])
    ensures StepAt(row, names, sha, original) == Some(names[gone]) ==>
              || (row.Move? && row.dst == gone && row.sha == sha)
              || (row.Merge? && row.winner == gone && original == Some(row.loser))
  {
    assert names[gone] != names[into];
  }

  /** How the two replays stand at one point of the ledger, for one clip. */
  ghost predicate StandsAt(names: Names, gone: PersonId, slug: Option<Slug>, into: PersonId, original: Option<Slug>,
                           settled: Option<Slug>, stray: Option<Slug>, moved: bool)
    requires gone in names && into in names
  {
    if stray.Some? then
      && settled == stray && settled != Some(names[gone])
      && (original.Some? ==>
            original != Some(names[gone]) && original != Some(names[into]) && settled == Some(names[into]))
    else Carries(names, gone, slug, into, original, settled, moved)
  }

  ghost predicate Stands(rows: seq<Row>, names: Names, gone: PersonId, slug: Option<Slug>, into: PersonId,
                         sha: Sha, at: Option<Slug>)
    requires gone in names && into in names
  {
    var st := Settle(rows, gone, slug, Some(into));
    StandsAt(names, gone, slug, into, Walk(rows, names, sha, at), Walk(st.out, names - {gone}, sha, at),
             StrayAt(rows, names, gone, slug, into, sha, at),
             sha in st.carried || Brought(rows, names, gone, sha, at))
  }

  /** Whether a clip is carried after a row depends on that clip alone. */
  lemma CarriedAlone(carried: map<Sha, PersonId>, row: Row, gone: PersonId, into: PersonId, sha: Sha)
    requires sha in carried ==> carried[sha] == into
    ensures sha in CarriedAfter(carried, row, gone, Some(into)) <==>
            sha in CarriedAfter(if sha in carried then map[sha := into] else map[], row, gone, Some(into))
  {}

  lemma {:induction false} LostStep(rows: seq<Row>, names: Names, gone: PersonId, slug: Option<Slug>, into: PersonId,
                                    sha: Sha, at: Option<Slug>)
    requires rows != [] && gone in names && into in names && gone != into && Sound(rows, names)
    requires slug == Some(names[gone]) || slug.None?
    requires Stands(rows[..|rows| - 1], names, gone, slug, into, sha, at)
    requires !Astray(rows[..|rows| - 1], names, gone, slug, into, sha, at) && LosesTrack(rows, names, gone, into, sha, at)
    ensures Stands(rows, names, gone, slug, into, sha, at)
  {
    var init, row := rows[..|rows| - 1], rows[|rows| - 1];
    CarriedExactly(init, gone, slug, into, sha);
    SettledWalkStep(rows, names - {gone}, gone, slug, Some(into), sha, at);
    LostRowDiverges(row, names, gone, slug, into, sha);
  }

  lemma {:induction false} NormalStep(rows: seq<Row>, names: Names, gone: PersonId, slug: Option<Slug>, into: PersonId,
                                      sha: Sha, at: Option<Slug>)
    requires rows != [] && gone in names && into in names && gone != into && Sound(rows, names)
    requires slug == Some(names[gone]) || slug.None?
    requires Followed(rows, names, sha, at)
    requires Stands(rows[..|rows| - 1], names, gone, slug, into, sha, at)
    requires !Astray(rows[..|rows| - 1], names, gone, slug, into, sha, at) && !LosesTrack(rows, names, gone, into, sha, at)
    ensures Stands(rows, names, gone, slug, into, sha, at)
  {
    var init, row := rows[..|rows| - 1], rows[|rows| - 1];
    CarriedExactly(init, gone, slug, into, sha);
    SettledWalkStep(rows, names - {gone}, gone, slug, Some(into), sha, at);
    var st := Settle(init, gone, slug, Some(into));
    CarriedAlone(st.carried, row, gone, into, sha);
    CarriesStep(row, names, gone, slug, into, sha, Walk(init, names, sha, at), Walk(st.out, names - {gone}, sha, at),
                if sha in st.carried then Some(into) else None, Brought(init, names, gone, sha, at));
  }

  /** A row never brings a clip under someone whose name the replay does not know. */
  lemma SentElsewhere(sent: Option<Row>, names: Names, gone: PersonId, sha: Sha, at: Option<Slug>)
    requires gone in names && Injective(names) && at != Some(names[gone])
    ensures SentStep(sent, names - {gone}, sha, at) != Some(names[gone])
  {}

  /** Once the original rows have deleted a clip that is astray, only the stray copy moves. */
  lemma {:induction false} StrayAloneMoves(rows: seq<Row>, names: Names, gone: PersonId, slug: Option<Slug>,
                                           into: PersonId, sha: Sha, at: Option<Slug>)
    requires rows != [] && gone in names && into in names && Injective(names)
    requires Astray(rows[..|rows| - 1], names, gone, slug, into, sha, at)
    requires StrayAt(rows[..|rows| - 1], names, gone, slug, into, sha, at) != Some(names[gone])
    requires Walk(Settle(rows[..|rows| - 1], gone, slug, Some(into)).out, names - {gone}, sha, at)
             == StrayAt(rows[..|rows| - 1], names, gone, slug, into, sha, at)
    requires Walk(rows[..|rows| - 1], names, sha, at).None?
    ensures Walk(Settle(rows, gone, slug, Some(into)).out, names - {gone}, sha, at)
            == StrayAt(rows, names, gone, slug, into, sha, at) != Some(names[gone])
  {
    var init, row := rows[..|rows| - 1], rows[|rows| - 1];
    var st := Settle(init, gone, slug, Some(into));
    var home := if Names?(row, sha) then Home(st.carried, row) else None;
    CarriedExactly(init, gone, slug, into, sha);
    SettledWalkStep(rows, names - {gone}, gone, slug, Some(into), sha, at);
    SentElsewhere(SettledRow(row, gone, slug, Some(into), home), names, gone, sha,
                  StrayAt(init, names, gone, slug, into, sha, at));
  }

  lemma StandsNowhere(names: Names, gone: PersonId, slug: Option<Slug>, into: PersonId, settled: Option<Slug>, moved: bool)
    requires gone in names && into in names && settled != Some(names[gone])
    ensures StandsAt(names, gone, slug, into, None, settled, settled, moved)
  {}

  lemma {:induction false} AstrayGoesOn(rows: seq<Row>, names: Names, gone: PersonId, slug: Option<Slug>, into: PersonId,
                                        sha: Sha, at: Option<Slug>)
    requires rows != [] && gone in names && into in names && gone != into && Sound(rows, names)
    requires slug == Some(names[gone]) || slug.None?
    requires Followed(rows, names, sha, at)
    requires Stands(rows[..|rows| - 1], names, gone, slug, into, sha, at)
    requires Astray(rows[..|rows| - 1], names, gone, slug, into, sha, at)
    requires Walk(rows[..|rows| - 1], names, sha, at).Some?
    ensures Stands(rows, names, gone, slug, into, sha, at)
  {
    var init, row := rows[..|rows| - 1], rows[|rows| - 1];
    var st := Settle(init, gone, slug, Some(into));
    SettledWalkStep(rows, names - {gone}, gone, slug, Some(into), sha, at);
    AstrayStep(row, names, gone, slug, into, sha, Walk(init, names, sha, at),
               if Names?(row, sha) then Home(st.carried, row) else None);
  }

  lemma {:induction false} SettledStands(rows: seq<Row>, names: Names, gone: PersonId, slug: Option<Slug>, into: PersonId,
                                         sha: Sha, at: Option<Slug>)
    requires gone in names && into in names && gone != into && Sound(rows, names)
    requires slug == Some(names[gone]) || (slug.None? && at != Some(names[gone]))
    requires Followed(rows, names, sha, at)
    ensures Stands(rows, names, gone, slug, into, sha, at)
  {
    if rows != [] {
      var init := rows[..|rows| - 1];
      SettledStands(init, names, gone, slug, into, sha, at);
      if Astray(init, names, gone, slug, into, sha, at) {
        if Walk(init, names, sha, at).None? {
          var st := Settle(rows, gone, slug, Some(into));
          StrayAloneMoves(rows, names, gone, slug, into, sha, at);
          assert Walk(rows, names, sha, at) == None;
          StandsNowhere(names, gone, slug, into, Walk(st.out, names - {gone}, sha, at),
                        sha in st.carried || Brought(rows, names, gone, sha, at));
        } else {
          AstrayGoesOn(rows, names, gone, slug, into, sha, at);
        }
      } else if LosesTrack(rows, names, gone, into, sha, at) {
        LostStep(rows, names, gone, slug, into, sha, at);
      } else {
        NormalStep(rows, names, gone, slug, into, sha, at);
      }
    }
  }

  /** One clip settles like the original if and only if it is not astray at the end. */
  lemma {:induction false} ClipSettlesExactly(rows: seq<Row>, names: Names, gone: PersonId, slug: Option<Slug>,
                                              into: PersonId, cid: Cid, sha: Sha, at: Option<Slug>)
    requires gone in names && into in names && gone != into && Sound(rows, names)
    requires slug == Some(names[gone]) || (slug.None? && at != Some(names[gone]))
    requires Followed(rows, names, sha, at)
    ensures SettledEnd(rows, names, gone, slug, into, cid, sha, at) == OriginalEnd(rows, names, gone, into, sha, at)
            <==> !Astray(rows, names, gone, slug, into, sha, at)
  {
    SettledStands(rows, names, gone, slug, into, sha, at);
    SettledEndIs(rows, names, gone, slug, into, cid, sha, at);
    assert names[gone] != names[into];
  }

  /** Exactly when the settlement means the same: for any ledger whose rows follow
      their clips, the settled ledger and its merge row leave membro as the
      original rows and the merge would if and only if no clip is astray. */
  lemma {:induction false} MergeSettlementExact(remote: Remote, rows: seq<Row>, names: Names, gone: PersonId,
                                                slug: Option<Slug>, into: PersonId, cid: Cid)
    requires gone in names && into in names && gone != into && Sound(rows, names)
    requires slug == Some(names[gone]) || (slug.None? && names[gone] !in remote.Values)
    requires forall sha :: Followed(rows, names, sha, At(remote, sha))
    ensures Replay(remote, Settle(rows, gone, slug, Some(into)).out + MergeRecord(cid, slug, into), names - {gone})
            == ApplyRow(Replay(remote, rows, names), Merge(cid, names[gone], into), names)
            <==> forall sha :: !Astray(rows, names, gone, slug, into, sha, At(remote, sha))
  {
    var settled := Replay(remote, Settle(rows, gone, slug, Some(into)).out + MergeRecord(cid, slug, into), names - {gone});
    var wanted := ApplyRow(Replay(remote, rows, names), Merge(cid, names[gone], into), names);
    forall sha ensures At(settled, sha) == At(wanted, sha)
                       <==> !Astray(rows, names, gone, slug, into, sha, At(remote, sha))
    {
      ReplaysAgreeAt(remote, rows, names, gone, slug, into, cid, sha);
    }
    SameRemoteIff(settled, wanted);
  }

  lemma {:induction false} ReplaysAgreeAt(remote: Remote, rows: seq<Row>, names: Names, gone: PersonId,
                                          slug: Option<Slug>, into: PersonId, cid: Cid, sha: Sha)
    requires gone in names && into in names && gone != into && Sound(rows, names)
    requires slug == Some(names[gone]) || (slug.None? && names[gone] !in remote.Values)
    requires Followed(rows, names, sha, At(remote, sha))
    ensures At(Replay(remote, Settle(rows, gone, slug, Some(into)).out + MergeRecord(cid, slug, into), names - {gone}), sha)
            == At(ApplyRow(Replay(remote, rows, names), Merge(cid, names[gone], into), names), sha)
            <==> !Astray(rows, names, gone, slug, into, sha, At(remote, sha))
  {
    ReplayIsWalk(remote, Settle(rows, gone, slug, Some(into)).out + MergeRecord(cid, slug, into), names - {gone}, sha);
    ReplayIsWalk(remote, rows, names, sha);
    ClipSettlesExactly(rows, names, gone, slug, into, cid, sha, At(remote, sha));
  }

  lemma SameRemoteIff(r1: Remote, r2: Remote)
    ensures r1 == r2 <==> forall sha :: At(r1, sha) == At(r2, sha)
  {
    if forall sha :: At(r1, sha) == At(r2, sha) {
      SameRemote(r1, r2);
    }
  }

  /** A ledger that keeps track of a clip never has it astray. */
  lemma {:induction false} TrackedIsNotAstray(rows: seq<Row>, names: Names, gone: PersonId, slug: Option<Slug>,
                                              into: PersonId, sha: Sha, at: Option<Slug>)
    requires gone in names && into in names && KeepsTrack(rows, names, gone, into, sha, at)
    ensures !Astray(rows, names, gone, slug, into, sha, at)
  {
    if rows != [] {
      TrackedIsNotAstray(rows[..|rows| - 1], names, gone, slug, into, sha, at);
    }
  }

  /** The settlement does lose a clip: person 2 wins a merge of slug 13, a clip
      of theirs is deleted, and person 2 merges into person 1. The owner deleted
      the clip; the settled ledger leaves it under person 1. */
  lemma AWonMergeThenADeleteIsLost()
    ensures
      var names: Names := map[1 := 11, 2 := 12];
      var rows := [Merge(0, 13, 2), Delete(1, 2, None, 100, None)];
      && OriginalEnd(rows, names, 2, 1, 100, Some(13)) == None
      && SettledEnd(rows, names, 2, Some(12), 1, 2, 100, Some(13)) == Some(11)
  {
    var names: Names := map[1 := 11, 2 := 12];
    var won, out := Merge(0, 13, 2), Delete(1, 2, None, 100, None);
    var rows := [won] + [out];
    assert rows == [won, out] && rows[..1] == [won] && [won][..0] == [];
    WalkSnoc([won], out, names, 100, Some(13));
    assert Walk([won], names, 100, Some(13)) == Some(12);
    assert Settle([won], 2, Some(12), Some(1)) == Settling([Merge(0, 13, 1)], map[]);
    assert Walk([Merge(0, 13, 1)], names - {2}, 100, Some(13)) == Some(11) by {
      assert [Merge(0, 13, 1)][..0] == [];
    }
    SettledWalkStep(rows, names - {2}, 2, Some(12), Some(1), 100, Some(13));
    SettledEndIs(rows, names, 2, Some(12), 1, 2, 100, Some(13));
  }

  /** Every row has to find its clip under its own source. Here a move to person 2
      names a clip that already sits under person 1, so the original rows leave it
      there; but `carried` takes the move at its word, and once person 2 merges
      into person 1 the delete that followed it takes person 1's clip. No won
      merge is involved. */
  lemma ARowThatMissesItsClipIsNotSettledSafely()
    ensures
      var names: Names := map[1 := 11, 2 := 12, 3 := 13];
      var rows := [] + [Move(0, 3, None, 2, 100)] + [Delete(1, 2, None, 100, None)];
      && Sound(rows, names) && KeepsTrack(rows, names, 2, 1, 100, Some(11))
      && !Followed(rows, names, 100, Some(11))
      && OriginalEnd(rows, names, 2, 1, 100, Some(11)) == Some(11)
      && SettledEnd(rows, names, 2, Some(12), 1, 2, 100, Some(11)) == None
  {
    var names: Names := map[1 := 11, 2 := 12, 3 := 13];
    var missed, out := Move(0, 3, None, 2, 100), Delete(1, 2, None, 100, None);
    var start: seq<Row> := [];
    var rows := start + [missed] + [out];
    assert rows[..1] == start + [missed] && (start + [missed])[..0] == start;
    assert rows[1] == out && (start + [missed])[0] == missed;
    WalkSnoc(start, missed, names, 100, Some(11));
    WalkSnoc(start + [missed], out, names, 100, Some(11));
    SettleSnoc(start, missed, 2, Some(12), Some(1));
    SettleSnoc(start + [missed], out, 2, Some(12), Some(1));
    assert KeepsTrack(start, names, 2, 1, 100, Some(11)) && KeepsTrack(start + [missed], names, 2, 1, 100, Some(11));
    assert !Brought(start + [missed], names, 2, 100, Some(11));
    var missed', out' := Move(0, 3, None, 1, 100), Delete(1, 1, None, 100, None);
    assert Settle(rows, 2, Some(12), Some(1)).out == start + [missed'] + [out'];
    WalkSnoc(start, missed', names - {2}, 100, Some(11));
    WalkSnoc(start + [missed'], out', names - {2}, 100, Some(11));
    SettledEndIs(rows, names, 2, Some(12), 1, 2, 100, Some(11));
  }

  // ---------- forget settlement ----------

  /** Does some row bring the clip under `gone`, from wherever else it was? */
  ghost predicate Enters(rows: seq<Row>, names: Names, gone: PersonId, sha: Sha, at: Option<Slug>)
    requires gone in names
  {
    rows != [] &&
    var init := rows[..|rows| - 1];
    || Enters(init, names, gone, sha, at)
    || (Walk(init, names, sha, at) != Some(names[gone]) && Walk(rows, names, sha, at) == Some(names[gone]))
  }

  /** One row of a ledger settled for a forget: what brings a clip to `gone`
      deletes it, and every other row does what it did. */
  lemma ForgottenStep(row: Row, names: Names, gone: PersonId, slug: Option<Slug>, sha: Sha, original: Option<Slug>,
                      entered: bool)
    requires gone in names && Injective(names) && WellNamed(row, names)
    requires slug == Some(names[gone]) || slug.None?
    requires slug.None? ==> entered || original != Some(names[gone])
    ensures
      var original' := StepAt(row, names, sha, original);
      var entered' := entered || (original != Some(names[gone]) && original' == Some(names[gone]));
      && (slug.None? ==> entered' || original' != Some(names[gone]))
      && SentStep(SettledRow(row, gone, slug, None, None), names - {gone}, sha, if entered then None else original)
         == if entered' then None else original'
  {}

  /** The settled rows leave a clip nowhere once a row has brought it to `gone`,
      wherever the original rows take it from there; and else just where the
      original rows do. */
  lemma {:induction false} ForgottenWalkIs(rows: seq<Row>, names: Names, gone: PersonId, slug: Option<Slug>,
                                           sha: Sha, at: Option<Slug>)
    requires gone in names && Injective(names) && AllWellNamed(rows, names)
    requires slug == Some(names[gone]) || (slug.None? && at != Some(names[gone]))
    ensures Walk(Settle(rows, gone, slug, None).out, names - {gone}, sha, at)
            == if Enters(rows, names, gone, sha, at) then None else Walk(rows, names, sha, at)
    ensures slug.None? ==> Enters(rows, names, gone, sha, at) || Walk(rows, names, sha, at) != Some(names[gone])
  {
    if rows != [] {
      var init, row := rows[..|rows| - 1], rows[|rows| - 1];
      ForgottenWalkIs(init, names, gone, slug, sha, at);
      NothingCarried(init, gone, slug);
      SettledWalkStep(rows, names - {gone}, gone, slug, None, sha, at);
      ForgottenStep(row, names, gone, slug, sha, Walk(init, names, sha, at), Enters(init, names, gone, sha, at));
    }
  }

  lemma {:induction false} NothingCarried(rows: seq<Row>, gone: PersonId, slug: Option<Slug>)
    ensures Settle(rows, gone, slug, None).carried == map[]
  {
    if rows != [] {
      NothingCarried(rows[..|rows| - 1], gone, slug);
    }
  }

  function ForgetRecord(cid: Cid, slug: Option<Slug>): seq<Row> {
    if slug.Some? then [Forget(cid, slug.value)] else []
  }

  /** Where the settled ledger and the recorded forget leave one clip. */
  function ForgottenEnd(rows: seq<Row>, names: Names, gone: PersonId, slug: Option<Slug>, cid: Cid,
                        sha: Sha, at: Option<Slug>): Option<Slug>
  {
    Walk(Settle(rows, gone, slug, None).out + ForgetRecord(cid, slug), names - {gone}, sha, at)
  }

  lemma ForgottenEndIs(rows: seq<Row>, names: Names, gone: PersonId, slug: Option<Slug>, cid: Cid,
                       sha: Sha, at: Option<Slug>)
    requires gone in names && Injective(names) && AllWellNamed(rows, names)
    requires slug == Some(names[gone]) || (slug.None? && at != Some(names[gone]))
    ensures ForgottenEnd(rows, names, gone, slug, cid, sha, at)
            == if Enters(rows, names, gone, sha, at) || Walk(rows, names, sha, at) == Some(names[gone]) then None
               else Walk(rows, names, sha, at)
  {
    var out := Settle(rows, gone, slug, None).out;
    ForgottenWalkIs(rows, names, gone, slug, sha, at);
    if slug.Some? {
      WalkSnoc(out, Forget(cid, slug.value), names - {gone}, sha, at);
    } else {
      assert out + [] == out;
    }
  }

  /** One clip settles like the original rows and then the forget if and only if it
      would end with the forgotten person, or nowhere, or no row ever brought it to
      them: a clip the owner moved to them and on again is lost. */
  lemma {:induction false} ClipForgottenExactly(rows: seq<Row>, names: Names, gone: PersonId, slug: Option<Slug>,
                                                cid: Cid, sha: Sha, at: Option<Slug>)
    requires gone in names && Injective(names) && AllWellNamed(rows, names)
    requires slug == Some(names[gone]) || (slug.None? && at != Some(names[gone]))
    ensures
      var end := Walk(rows, names, sha, at);
      ForgottenEnd(rows, names, gone, slug, cid, sha, at) == StepAt(Forget(cid, names[gone]), names, sha, end)
      <==> end == Some(names[gone]) || end.None? || !Enters(rows, names, gone, sha, at)
  {
    ForgottenEndIs(rows, names, gone, slug, cid, sha, at);
  }

  /** Is the clip somebody else's in the end, after a row had brought it to `gone`? */
  ghost predicate PassesThrough(rows: seq<Row>, names: Names, gone: PersonId, sha: Sha, at: Option<Slug>)
    requires gone in names
  {
    var end := Walk(rows, names, sha, at);
    Enters(rows, names, gone, sha, at) && end.Some? && end != Some(names[gone])
  }

  /** Exactly when forget settlement means the same, for any ledger and any remote:
      the settled ledger and its forget row leave membro as the original rows and
      the forget would if and only if no clip passes through the forgotten person. */
  lemma {:induction false} ForgetSettlementExact(remote: Remote, rows: seq<Row>, names: Names, gone: PersonId,
                                                 slug: Option<Slug>, cid: Cid)
    requires gone in names && Injective(names) && AllWellNamed(rows, names)
    requires slug == Some(names[gone]) || (slug.None? && names[gone] !in remote.Values)
    ensures Replay(remote, Settle(rows, gone, slug, None).out + ForgetRecord(cid, slug), names - {gone})
            == ApplyRow(Replay(remote, rows, names), Forget(cid, names[gone]), names)
            <==> forall sha :: !PassesThrough(rows, names, gone, sha, At(remote, sha))
  {
    var settled := Replay(remote, Settle(rows, gone, slug, None).out + ForgetRecord(cid, slug), names - {gone});
    var wanted := ApplyRow(Replay(remote, rows, names), Forget(cid, names[gone]), names);
    forall sha ensures At(settled, sha) == At(wanted, sha) <==> !PassesThrough(rows, names, gone, sha, At(remote, sha)) {
      ReplayIsWalk(remote, Settle(rows, gone, slug, None).out + ForgetRecord(cid, slug), names - {gone}, sha);
      ReplayIsWalk(remote, rows, names, sha);
      ClipForgottenExactly(rows, names, gone, slug, cid, sha, At(remote, sha));
    }
    SameRemoteIff(settled, wanted);
  }

  /** Forget settlement is complete, whatever passes through: wherever the original
      rows would have left a clip, the settled ledger and its forget row leave it
      there or nowhere, and never under the forgotten person. */
  lemma ForgetSettlementComplete(remote: Remote, rows: seq<Row>, names: Names, gone: PersonId, slug: Option<Slug>,
                                 cid: Cid)
    requires gone in names && Injective(names) && AllWellNamed(rows, names)
    requires slug == Some(names[gone]) || (slug.None? && names[gone] !in remote.Values)
    ensures
      var end := Replay(remote, Settle(rows, gone, slug, None).out + ForgetRecord(cid, slug), names - {gone});
      var original := Replay(remote, rows, names);
      forall sha <- end :: sha in original && end[sha] == original[sha] && end[sha] != names[gone]
  {
    var sent := Settle(rows, gone, slug, None).out + ForgetRecord(cid, slug);
    var end := Replay(remote, sent, names - {gone});
    forall sha | sha in end
      ensures At(Replay(remote, rows, names), sha) == At(end, sha) != Some(names[gone])
    {
      ReplayIsWalk(remote, sent, names - {gone}, sha);
      ReplayIsWalk(remote, rows, names, sha);
      ForgottenEndIs(rows, names, gone, slug, cid, sha, At(remote, sha));
    }
  }

  /** A check on the ledger alone: nothing is moved on that an earlier row brought. */
  predicate NothingMovedOn(rows: seq<Row>, gone: PersonId) {
    forall i, j | 0 <= i < j < |rows| && rows[j].Move? && rows[j].src == gone ::
      !(rows[i].Merge? && rows[i].winner == gone) && !(rows[i].Move? && rows[i].dst == gone && rows[i].sha == rows[j].sha)
  }

  /** The row that brings a clip to someone, and the row that takes it on. */
  lemma EnteringRow(row: Row, names: Names, gone: PersonId, sha: Sha, at: Option<Slug>)
    requires gone in names && Injective(names) && WellNamed(row, names)
    ensures at != Some(names[gone]) && StepAt(row, names, sha, at) == Some(names[gone]) ==>
              (row.Merge? && row.winner == gone) || (row.Move? && row.dst == gone && row.sha == sha)
    ensures at == Some(names[gone]) && StepAt(row, names, sha, at) != at && StepAt(row, names, sha, at).Some? ==>
              row.Move? && row.src == gone && row.sha == sha
  {}

  /** The check is enough for a forget to mean the same, whatever membro holds. */
  lemma {:induction false} LedgerCheckPassesNothing(rows: seq<Row>, names: Names, gone: PersonId, sha: Sha, at: Option<Slug>)
    requires gone in names && Injective(names) && AllWellNamed(rows, names) && NothingMovedOn(rows, gone)
    ensures !PassesThrough(rows, names, gone, sha, at)
    ensures Enters(rows, names, gone, sha, at) ==>
              exists i | 0 <= i < |rows| :: (rows[i].Merge? && rows[i].winner == gone)
                                            || (rows[i].Move? && rows[i].dst == gone && rows[i].sha == sha)
  {
    if rows != [] {
      var init, row := rows[..|rows| - 1], rows[|rows| - 1];
      LedgerCheckPassesNothing(init, names, gone, sha, at);
      EnteringRow(row, names, gone, sha, Walk(init, names, sha, at));
      if Enters(init, names, gone, sha, at) {
        var i :| 0 <= i < |init| && ((init[i].Merge? && init[i].winner == gone)
                                     || (init[i].Move? && init[i].dst == gone && init[i].sha == sha));
        assert rows[i] == init[i];
      }
    }
  }

  /** What settling a forget can cost: the owner moves a clip from person 1 to 2 and
      from 2 on to 3, and person 2 is forgotten. The first row becomes a delete:
      membro loses a clip that is person 3's. */
  lemma AForgetCanDeleteAnothersClip()
    ensures
      var names: Names := map[1 := 11, 2 := 12, 3 := 13];
      var rows := [] + [Move(0, 1, None, 2, 100)] + [Move(1, 2, None, 3, 100)];
      && AllWellNamed(rows, names) && Injective(names) && Followed(rows, names, 100, Some(11))
      && Walk(rows, names, 100, Some(11)) == Some(13)
      && ForgottenEnd(rows, names, 2, Some(12), 2, 100, Some(11)) == None
  {
    var names: Names := map[1 := 11, 2 := 12, 3 := 13];
    var first, on, start: seq<Row> := Move(0, 1, None, 2, 100), Move(1, 2, None, 3, 100), [];
    var rows := start + [first] + [on];
    WalkSnoc(start, first, names, 100, Some(11));
    WalkSnoc(start + [first], on, names, 100, Some(11));
    assert rows[..1] == start + [first] && (start + [first])[..0] == start;
    assert rows[1] == on && (start + [first])[0] == first;
    assert Enters(start + [first], names, 2, 100, Some(11)) && Enters(rows, names, 2, 100, Some(11));
    ForgottenEndIs(rows, names, 2, Some(12), 2, 100, Some(11));
  }

  lemma SettleSnoc(rows: seq<Row>, row: Row, gone: PersonId, slug: Option<Slug>, into: Option<PersonId>)
    ensures Settle(rows + [row], gone, slug, into) == SettleRow(Settle(rows, gone, slug, into), row, gone, slug, into)
  {
    assert (rows + [row])[..|rows|] == rows;
  }

  /** What losing track costs: person 2 wins a merge of slug 14, one of its
      clips is moved on to person 3, person 2 merges into person 1, and person 3
      is forgotten. The clip was person 3's, and it stays in membro, under
      person 1. */
  lemma AForgottenClipCanSurvive()
    ensures
      var rows := [Merge(0, 14, 2)] + [Move(1, 2, None, 3, 100)];
      var merged := Settle(rows, 2, Some(12), Some(1)).out + MergeRecord(2, Some(12), 1);
      var forgotten := Settle(merged, 3, Some(13), None).out + ForgetRecord(3, Some(13));
      && Walk(rows, map[1 := 11, 2 := 12, 3 := 13], 100, Some(14)) == Some(13)
      && Walk(forgotten, map[1 := 11], 100, Some(14)) == Some(11)
  {
    var won, on := Merge(0, 14, 2), Move(1, 2, None, 3, 100);
    WalkSnoc([], won, map[1 := 11, 2 := 12, 3 := 13], 100, Some(14));
    WalkSnoc([] + [won], on, map[1 := 11, 2 := 12, 3 := 13], 100, Some(14));
    TheMergeOfTwo();
    TheForgetOfThree();
    var won', gone, done, forget := Merge(0, 14, 1), Delete(1, 2, Some(12), 100, None), Merge(2, 12, 1), Forget(3, 13);
    WalkSnoc([], won', map[1 := 11], 100, Some(14));
    WalkSnoc([] + [won'], gone, map[1 := 11], 100, Some(14));
    WalkSnoc([] + [won'] + [gone], done, map[1 := 11], 100, Some(14));
    WalkSnoc([] + [won'] + [gone] + [done], forget, map[1 := 11], 100, Some(14));
  }

  lemma TheMergeOfTwo()
    ensures Settle([Merge(0, 14, 2)] + [Move(1, 2, None, 3, 100)], 2, Some(12), Some(1)).out + MergeRecord(2, Some(12), 1)
            == [] + [Merge(0, 14, 1)] + [Move(1, 2, Some(12), 3, 100)] + [Merge(2, 12, 1)]
  {
    SettleSnoc([], Merge(0, 14, 2), 2, Some(12), Some(1));
    SettleSnoc([] + [Merge(0, 14, 2)], Move(1, 2, None, 3, 100), 2, Some(12), Some(1));
    assert [] + [Merge(0, 14, 2)] == [Merge(0, 14, 2)];
  }

  lemma TheForgetOfThree()
    ensures Settle([] + [Merge(0, 14, 1)] + [Move(1, 2, Some(12), 3, 100)] + [Merge(2, 12, 1)], 3, Some(13), None).out
            + ForgetRecord(3, Some(13))
            == [] + [Merge(0, 14, 1)] + [Delete(1, 2, Some(12), 100, None)] + [Merge(2, 12, 1)] + [Forget(3, 13)]
  {
    SettleSnoc([], Merge(0, 14, 1), 3, Some(13), None);
    SettleSnoc([] + [Merge(0, 14, 1)], Move(1, 2, Some(12), 3, 100), 3, Some(13), None);
    SettleSnoc([] + [Merge(0, 14, 1)] + [Move(1, 2, Some(12), 3, 100)], Merge(2, 12, 1), 3, Some(13), None);
  }

  // ---------- every settled row can still land ----------

  /** Every local id on the row still resolves, or its slug is on the row. */
  predicate Nameable(row: Row, people: set<PersonId>) {
    match row
    case Move(_, src, srcSlug, dst, _) => (src in people || srcSlug.Some?) && dst in people
    case Delete(_, src, srcSlug, _, _) => src in people || srcSlug.Some?
    case Merge(_, _, winner) => winner in people
    case Forget(_, _) => true
  }

  lemma {:induction false} SettledRowsCanLand(rows: seq<Row>, people: set<PersonId>, gone: PersonId,
                                              slug: Option<Slug>, into: Option<PersonId>)
    requires forall row <- rows :: Nameable(row, people) && (row.Move? ==> row.src != row.dst)
    requires into.Some? ==> into.value in people && into.value != gone
    ensures forall row <- Settle(rows, gone, slug, into).out :: Nameable(row, people - {gone})
    ensures forall s <- Settle(rows, gone, slug, into).carried ::
              into.Some? && Settle(rows, gone, slug, into).carried[s] == into.value
  {
    if rows != [] {
      SettledRowsCanLand(rows[..|rows| - 1], people, gone, slug, into);
      assert Nameable(rows[|rows| - 1], people);
    }
  }

  /** `some` is `all` with entries left out, order kept. */
  ghost predicate Subsequence<T(!new)>(some: seq<T>, all: seq<T>) {
    some == []
    || (all != []
        && (Subsequence(some, all[..|all| - 1])
            || (some[|some| - 1] == all[|all| - 1] && Subsequence(some[..|some| - 1], all[..|all| - 1]))))
  }

  function Cids(rows: seq<Row>): seq<Cid> {
    seq(|rows|, i requires 0 <= i < |rows| => rows[i].cid)
  }

  /** Settling keeps ledger order and each surviving row's own cid. */
  lemma {:induction false} SettlingKeepsOrder(rows: seq<Row>, gone: PersonId, slug: Option<Slug>,
                                              into: Option<PersonId>)
    ensures Subsequence(Cids(Settle(rows, gone, slug, into).out), Cids(rows))
  {
    if rows != [] {
      var init, row := rows[..|rows| - 1], rows[|rows| - 1];
      SettlingKeepsOrder(init, gone, slug, into);
      var st := Settle(init, gone, slug, into);
      var st' := Settle(rows, gone, slug, into);
      assert Cids(rows)[..|rows| - 1] == Cids(init) && Cids(rows)[|rows| - 1] == row.cid;
      if st'.out == st.out {
        assert Subsequence(Cids(st'.out), Cids(rows));
      } else {
        var sent := st'.out[|st.out|];
        assert st'.out == st.out + [sent] && sent.cid == row.cid;
        assert Cids(st'.out)[..|st.out|] == Cids(st.out) && Cids(st'.out)[|st.out|] == row.cid;
      }
    }
  }

  /** Does the settled row do what the original did, to the same clip and for the same
      reason? A move to a forgotten person becomes the owner's delete, and what a
      forgotten person won is forgotten. A row out of them looks under the slug membro
      knows them by, or under the survivor. */
  ghost predicate SettledForm(sent: Row, row: Row, gone: PersonId, slug: Option<Slug>, into: Option<PersonId>) {
    && sent.cid == row.cid
    && match row
       case Move(_, src, srcSlug, dst, sha) =>
         if dst == gone && into.None? then sent == Delete(row.cid, src, srcSlug, sha, None)
         else
           && sent.Move? && sent.sha == sha && sent.dst == (if dst == gone then into.value else dst)
           && SettledSource(sent.src, sent.srcSlug, src, srcSlug, dst != gone && src == gone, slug, into)
       case Delete(_, src, srcSlug, sha, why) =>
         && sent.Delete? && sent.sha == sha && sent.why == why
         && SettledSource(sent.src, sent.srcSlug, src, srcSlug, src == gone, slug, into)
       case Merge(_, loser, winner) =>
         if winner == gone && into.None? then sent == Forget(row.cid, loser)
         else sent == Merge(row.cid, loser, if winner == gone then into.value else winner)
       case Forget(_, _) => sent == row
  }

  ghost predicate SettledSource(src': PersonId, srcSlug': Option<Slug>, src: PersonId, srcSlug: Option<Slug>,
                                out: bool, slug: Option<Slug>, into: Option<PersonId>)
  {
    if !out then src' == src && srcSlug' == srcSlug
    else (slug.Some? && src' == src && srcSlug' == slug) || (into == Some(src') && srcSlug'.None?)
  }

  /** Is the person the row's source, target or winner? */
  predicate Concerns(row: Row, p: PersonId) {
    match row
    case Move(_, src, _, dst, _) => src == p || dst == p
    case Delete(_, src, _, _, _) => src == p
    case Merge(_, _, winner) => winner == p
    case Forget(_, _) => false
  }

  lemma HomeIs(init: seq<Row>, row: Row, gone: PersonId, slug: Option<Slug>, into: Option<PersonId>)
    ensures var home := Home(Settle(init, gone, slug, into).carried, row); home.Some? ==> home == into
  {
    if into.Some? && (row.Move? || row.Delete?) {
      CarriedExactly(init, gone, slug, into.value, row.sha);
    } else if into.None? {
      NothingCarried(init, gone, slug);
    }
  }

  lemma SettledRowForm(row: Row, gone: PersonId, slug: Option<Slug>, into: Option<PersonId>, home: Option<PersonId>)
    requires home.Some? ==> home == into
    ensures var sent := SettledRow(row, gone, slug, into, home);
            (sent.Some? ==> SettledForm(sent.value, row, gone, slug, into)) && (!Concerns(row, gone) ==> sent == Some(row))
  {}

  /** Every settled row is some row's settled form, and rows that do not concern the
      person gone are settled by leaving them alone. */
  lemma {:induction false} SettlingKeepsWhatRowsDo(rows: seq<Row>, gone: PersonId, slug: Option<Slug>,
                                                   into: Option<PersonId>)
    ensures forall sent <- Settle(rows, gone, slug, into).out :: exists row <- rows :: SettledForm(sent, row, gone, slug, into)
    ensures forall row <- rows | !Concerns(row, gone) :: row in Settle(rows, gone, slug, into).out
  {
    if rows != [] {
      var init, row := rows[..|rows| - 1], rows[|rows| - 1];
      SettlingKeepsWhatRowsDo(init, gone, slug, into);
      var st := Settle(init, gone, slug, into);
      assert rows == init + [row];
      HomeIs(init, row, gone, slug, into);
      SettledRowForm(row, gone, slug, into, Home(st.carried, row));
      forall sent <- Settle(rows, gone, slug, into).out
        ensures exists original <- rows :: SettledForm(sent, original, gone, slug, into)
      {
        if sent in st.out {
          var original :| original in init && SettledForm(sent, original, gone, slug, into);
          assert original in rows;
        }
      }
    }
  }
}
