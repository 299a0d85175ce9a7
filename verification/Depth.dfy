/** Spoken depth instructions (backend/depth.py: apply_depth; backend/model_step.py:
    clear_for_reset) over one chat's seats. */
module Depth {
  import opened Wrappers
  import opened SeatState
  import opened Sorting

  /** A case-folded spoken name. */
  datatype Key = All | Called(name: int)

  datatype Seat = Seat(slug: Slug, slugKey: Key, nameKey: Key, model: int)

  datatype Spoken = Deep | Quick | Max | Normal

  datatype Change = Change(key: Key, depth: Spoken, once: bool)

  function LevelOf(depth: Spoken): Level {
    match depth
    case Deep => High
    case Quick => Low
    case Max => Highest
    case Normal => Unset
  }

  /** A system notice in the transcript. */
  datatype Notice = MovedTo(slug: Slug, level: Level) | BackToNormal(slug: Slug, dropped: Level) | ModelBack(slug: Slug)

  datatype Outcome = NoChange | DepthSet | DepthCleared | DepthOnce

  // ---------- who an instruction reaches ----------

  function ByKey(roster: seq<Seat>): map<Key, Seat> {
    if roster == [] then map[]
    else
      var p := roster[|roster| - 1];
      ByKey(roster[..|roster| - 1])[p.slugKey := p][p.nameKey := p]
  }

  function Named(roster: seq<Seat>, byKey: map<Key, Seat>, key: Key): seq<Seat> {
    if key == All then roster else if key in byKey then [byKey[key]] else []
  }

  function Targets(roster: seq<Seat>, key: Key): seq<Seat> {
    Named(roster, ByKey(roster), key)
  }

  /** Does the seat answer to this spoken name, by its slug or its display name? */
  predicate AnswersTo(p: Seat, key: Key) {
    p.slugKey == key || p.nameKey == key
  }

  /** "All" is every seat; any other name is the last seat of the roster that answers
      to it. */
  ghost predicate Reaches(roster: seq<Seat>, change: Change, slug: Slug) {
    if change.key == All then exists p <- roster :: p.slug == slug
    else exists i | 0 <= i < |roster| :: roster[i].slug == slug && LastToAnswer(roster, change.key, i)
  }

  predicate LastToAnswer(roster: seq<Seat>, key: Key, i: nat) {
    i < |roster| && AnswersTo(roster[i], key) && forall j | i < j < |roster| :: !AnswersTo(roster[j], key)
  }

  lemma {:induction false} ByKeyIsLast(roster: seq<Seat>, key: Key, i: nat)
    requires LastToAnswer(roster, key, i)
    ensures key in ByKey(roster) && ByKey(roster)[key] == roster[i]
  {
    if i < |roster| - 1 {
      assert !AnswersTo(roster[|roster| - 1], key);
      ByKeyIsLast(roster[..|roster| - 1], key, i);
    }
  }

  lemma {:induction false} ByKeyHas(roster: seq<Seat>, key: Key)
    ensures key in ByKey(roster) <==> exists i | 0 <= i < |roster| :: LastToAnswer(roster, key, i)
  {
    if roster != [] {
      var init, last := roster[..|roster| - 1], roster[|roster| - 1];
      ByKeyHas(init, key);
      if AnswersTo(last, key) {
        assert LastToAnswer(roster, key, |roster| - 1);
      } else {
        forall i | 0 <= i < |init| ensures LastToAnswer(init, key, i) <==> LastToAnswer(roster, key, i) {}
      }
    }
  }

  lemma OneLastToAnswer(roster: seq<Seat>, key: Key, i: nat, j: nat)
    requires LastToAnswer(roster, key, i) && LastToAnswer(roster, key, j)
    ensures i == j
  {}

  /** Whom an instruction reaches, in order: everyone, or one seat, or nobody. */
  lemma TargetsAre(roster: seq<Seat>, key: Key)
    ensures key == All ==> Targets(roster, key) == roster
    ensures key != All && (forall p <- roster :: !AnswersTo(p, key)) ==> Targets(roster, key) == []
    ensures forall i: nat | key != All && LastToAnswer(roster, key, i) :: Targets(roster, key) == [roster[i]]
  {
    ByKeyHas(roster, key);
    forall i: nat | LastToAnswer(roster, key, i) ensures key in ByKey(roster) && ByKey(roster)[key] == roster[i] {
      ByKeyIsLast(roster, key, i);
    }
  }

  /** The scan's targets are the seats reached. */
  lemma TargetsAreReached(roster: seq<Seat>, change: Change, slug: Slug)
    ensures Reaches(roster, change, slug) <==> exists p <- Targets(roster, change.key) :: p.slug == slug
  {
    ByKeyHas(roster, change.key);
    TargetsAre(roster, change.key);
    if change.key != All && change.key in ByKey(roster) {
      var i :| 0 <= i < |roster| && LastToAnswer(roster, change.key, i);
      forall j: nat | LastToAnswer(roster, change.key, j) ensures j == i {
        OneLastToAnswer(roster, change.key, i, j);
      }
    }
  }

  predicate IsOneOff(change: Change) {
    change.once && LevelOf(change.depth) != Unset
  }

  predicate IsReset(change: Change) {
    !change.once && change.depth == Normal
  }

  /** Is everyone told to go back to normal? */
  predicate ResetsAll(changes: seq<Change>) {
    if changes == [] then false
    else
      var last := changes[|changes| - 1];
      ResetsAll(changes[..|changes| - 1]) || (IsReset(last) && last.key == All)
  }

  lemma {:induction false} ResetsAllExactly(changes: seq<Change>)
    ensures ResetsAll(changes) <==> exists change <- changes :: IsReset(change) && change.key == All
  {
    if changes != [] {
      var init, last := changes[..|changes| - 1], changes[|changes| - 1];
      ResetsAllExactly(init);
      assert forall c :: c in changes <==> c in init || c == last;
    }
  }

  function Slugs(seats: seq<Seat>): set<Slug> {
    set p <- seats :: p.slug
  }

  function OnceTargets(roster: seq<Seat>, changes: seq<Change>): set<Slug> {
    if changes == [] then {}
    else
      var last := changes[|changes| - 1];
      OnceTargets(roster, changes[..|changes| - 1])
      + if IsOneOff(last) then Slugs(Targets(roster, last.key)) else {}
  }

  ghost predicate DistinctSlugs(seats: seq<Seat>) {
    forall i, j | 0 <= i < j < |seats| :: seats[i].slug != seats[j].slug
  }

  // ---------- one instruction on one seat ----------

  function StepRow(row: SeatRow, change: Change, keep: bool, user: Who): SeatRow {
    var level := LevelOf(change.depth);
    if change.once then
      if level != Unset then row.(once := level, onceBy := user) else row
    else if level != Unset then
      if row.depth == level then row else row.(depth := level, setBy := user)
    else Cleared(row, keep).(model := None)
  }

  predicate LiveStep(model: Option<StepUp>, configured: int) {
    model.Some? && model.value.replaced == configured && model.value.model != configured
  }

  function ToldOfDepth(row: SeatRow, keep: bool, slug: Slug): seq<Notice> {
    var dropped := if keep then Unset else row.once;
    if row.depth != Unset || dropped != Unset then [BackToNormal(slug, dropped)] else []
  }

  function Told(row: SeatRow, change: Change, keep: bool, p: Seat): seq<Notice> {
    var level := LevelOf(change.depth);
    if change.once then []
    else if level != Unset then
      if row.depth == level then [] else [MovedTo(p.slug, level)]
    else
      ToldOfDepth(row, keep, p.slug) + if LiveStep(row.model, p.model) then [ModelBack(p.slug)] else []
  }

  // ---------- one instruction on every seat it reaches, and the list of them ----------

  function Spread(rows: Rows, targets: seq<Seat>, change: Change, kept: set<Slug>, user: Who): Rows {
    if targets == [] then rows
    else
      var p, before := targets[|targets| - 1], Spread(rows, targets[..|targets| - 1], change, kept, user);
      Put(before, p.slug, StepRow(RowAt(before, p.slug), change, p.slug in kept, user))
  }

  function SpreadTold(rows: Rows, targets: seq<Seat>, change: Change, kept: set<Slug>, user: Who): seq<Notice> {
    if targets == [] then []
    else
      var p, before := targets[|targets| - 1], Spread(rows, targets[..|targets| - 1], change, kept, user);
      SpreadTold(rows, targets[..|targets| - 1], change, kept, user)
      + Told(RowAt(before, p.slug), change, p.slug in kept, p)
  }

  function Obeyed(rows: Rows, roster: seq<Seat>, changes: seq<Change>, kept: set<Slug>, user: Who): Rows {
    if changes == [] then rows
    else
      var last := changes[|changes| - 1];
      Spread(Obeyed(rows, roster, changes[..|changes| - 1], kept, user), Targets(roster, last.key), last, kept, user)
  }

  function Notices(rows: Rows, roster: seq<Seat>, changes: seq<Change>, kept: set<Slug>, user: Who): seq<Notice> {
    if changes == [] then []
    else
      var init, last := changes[..|changes| - 1], changes[|changes| - 1];
      Notices(rows, roster, init, kept, user)
      + SpreadTold(Obeyed(rows, roster, init, kept, user), Targets(roster, last.key), last, kept, user)
  }

  /** How many one-reply overrides were parked. */
  function Parked(roster: seq<Seat>, changes: seq<Change>): nat {
    if changes == [] then 0
    else
      var last := changes[|changes| - 1];
      Parked(roster, changes[..|changes| - 1]) + if IsOneOff(last) then |Targets(roster, last.key)| else 0
  }

  function Moves(notices: seq<Notice>): nat {
    if notices == [] then 0
    else Moves(notices[..|notices| - 1]) + if notices[|notices| - 1].MovedTo? then 1 else 0
  }

  function Verdict(notices: seq<Notice>, researchOff: bool, parked: nat): Outcome {
    if Moves(notices) > 0 then DepthSet
    else if notices != [] || researchOff then DepthCleared
    else if parked > 0 then DepthOnce
    else NoChange
  }

  lemma MovesSnoc(a: seq<Notice>, e: Notice)
    ensures Moves(a + [e]) == Moves(a) + if e.MovedTo? then 1 else 0
  {
    assert (a + [e])[..|a|] == a;
  }

  /** What each seat stands at, and what it has parked. */
  function Standing(rows: Rows): map<Slug, Level> {
    map slug | slug in rows && rows[slug].depth != Unset :: rows[slug].depth
  }

  function OneOffs(rows: Rows): map<Slug, Level> {
    map slug | slug in rows && rows[slug].once != Unset :: rows[slug].once
  }

  function Entered(mirror: map<Slug, Level>, slug: Slug, level: Level): map<Slug, Level> {
    if level == Unset then mirror - {slug} else mirror[slug := level]
  }

  lemma MirrorsFollow(rows: Rows, slug: Slug, row: SeatRow)
    ensures Standing(Put(rows, slug, row)) == Entered(Standing(rows), slug, row.depth)
    ensures OneOffs(Put(rows, slug, row)) == Entered(OneOffs(rows), slug, row.once)
  {}

  lemma MirrorsStay(rows: Rows, slug: Slug)
    ensures Entered(Standing(rows), slug, RowAt(rows, slug).depth) == Standing(rows)
    ensures Entered(OneOffs(rows), slug, RowAt(rows, slug).once) == OneOffs(rows)
  {}

  lemma PutBack(rows: Rows, slug: Slug)
    requires RowsOk(rows)
    ensures Put(rows, slug, RowAt(rows, slug)) == rows
  {}

  lemma Regroup(a: seq<Notice>, b: seq<Notice>, c: seq<Notice>)
    ensures a + (b + c) == (a + b) + c
  {}

  lemma SpreadNext(rows: Rows, targets: seq<Seat>, j: nat, change: Change, kept: set<Slug>, user: Who)
    requires j < |targets|
    ensures var p, before := targets[j], Spread(rows, targets[..j], change, kept, user);
            && Spread(rows, targets[..j + 1], change, kept, user)
               == Put(before, p.slug, StepRow(RowAt(before, p.slug), change, p.slug in kept, user))
            && SpreadTold(rows, targets[..j + 1], change, kept, user)
               == SpreadTold(rows, targets[..j], change, kept, user) + Told(RowAt(before, p.slug), change, p.slug in kept, p)
  {
    assert targets[..j + 1][..j] == targets[..j];
  }

  lemma ObeyedNext(rows: Rows, roster: seq<Seat>, changes: seq<Change>, i: nat, kept: set<Slug>, user: Who)
    requires i < |changes|
    ensures Obeyed(rows, roster, changes[..i + 1], kept, user)
            == Spread(Obeyed(rows, roster, changes[..i], kept, user), Targets(roster, changes[i].key), changes[i], kept, user)
  {
    assert changes[..i + 1][..i] == changes[..i];
  }

  lemma NoticesNext(rows: Rows, roster: seq<Seat>, changes: seq<Change>, i: nat, kept: set<Slug>, user: Who)
    requires i < |changes|
    ensures Notices(rows, roster, changes[..i + 1], kept, user)
            == Notices(rows, roster, changes[..i], kept, user)
               + SpreadTold(Obeyed(rows, roster, changes[..i], kept, user), Targets(roster, changes[i].key), changes[i], kept, user)
  {
    assert changes[..i + 1][..i] == changes[..i];
  }

  lemma ParkedNext(roster: seq<Seat>, changes: seq<Change>, i: nat)
    requires i < |changes|
    ensures Parked(roster, changes[..i + 1])
            == Parked(roster, changes[..i]) + if IsOneOff(changes[i]) then |Targets(roster, changes[i].key)| else 0
  {
    assert changes[..i + 1][..i] == changes[..i];
  }

  /** The scan's working state: the table, its two mirrors, the transcript's notices
      and the three counters. */
  class DepthScan {
    const table: SeatTable
    var current: map<Slug, Level>
    var parked: map<Slug, Level>
    var notices: seq<Notice>
    var changed: nat
    var cleared: nat
    var onceSet: nat
    var research: bool

    constructor (table: SeatTable, research: bool)
      ensures this.table == table && notices == [] && this.research == research
      ensures current == map[] && parked == map[]
    {
      this.table, this.research := table, research;
      current, parked, notices := map[], map[], [];
      changed, cleared, onceSet := 0, 0, 0;
    }

    /** The mirrors say what the table says. */
    ghost predicate Mirrored()
      reads this, table
    {
      RowsOk(table.rows) && current == Standing(table.rows) && parked == OneOffs(table.rows)
    }

    ghost predicate Counted()
      reads this
    {
      && changed == Moves(notices)
      && changed + cleared == |notices|
    }

    method ClearForReset(p: Seat) returns (live: bool)
      requires RowsOk(table.rows)
      modifies this`notices, table
      ensures RowsOk(table.rows)
      ensures table.rows == Put(old(table.rows), p.slug, RowAt(old(table.rows), p.slug).(model := None))
      ensures live == LiveStep(RowAt(old(table.rows), p.slug).model, p.model)
      ensures notices == old(notices) + if live then [ModelBack(p.slug)] else []
    {
      var model := if p.slug in table.rows then table.rows[p.slug].model else None;
      var found := table.ClearModel(p.slug);
      live := found && LiveStep(model, p.model);
      if live {
        notices := notices + [ModelBack(p.slug)];
      } else {
        assert notices + [] == notices;
      }
    }

    /** One instruction on one seat it reaches. */
    method Instruct(p: Seat, change: Change, keep: bool, user: Who)
      requires Mirrored() && Counted()
      modifies this`current, this`parked, this`notices, this`changed, this`cleared, this`onceSet, table
      ensures Mirrored() && Counted()
      ensures table.rows == Put(old(table.rows), p.slug, StepRow(RowAt(old(table.rows), p.slug), change, keep, user))
      ensures notices == old(notices) + Told(RowAt(old(table.rows), p.slug), change, keep, p)
      ensures onceSet == old(onceSet) + if IsOneOff(change) then 1 else 0
    {
      ghost var row := RowAt(table.rows, p.slug);
      var level := LevelOf(change.depth);
      PutBack(table.rows, p.slug);
      MirrorsStay(table.rows, p.slug);
      MirrorsFollow(table.rows, p.slug, StepRow(row, change, keep, user));
      if change.once {
        if level != Unset {
          table.SetOnce(p.slug, level, user);
          parked := parked[p.slug := level];
          onceSet := onceSet + 1;
        }
        assert notices + [] == notices;
        return;
      }
      if level != Unset {
        if p.slug in current && current[p.slug] == level {
          assert notices + [] == notices;
          return;
        }
        table.SetDepth(p.slug, level, false, user);
        current := current[p.slug := level];
        MovesSnoc(notices, MovedTo(p.slug, level));
        notices := notices + [MovedTo(p.slug, level)];
        changed := changed + 1;
        return;
      }
      Reset(p, keep);
    }

    method Reset(p: Seat, keep: bool)
      requires Mirrored() && Counted()
      modifies this`current, this`parked, this`notices, this`changed, this`cleared, table
      ensures Mirrored() && Counted()
      ensures table.rows == Put(old(table.rows), p.slug, Cleared(RowAt(old(table.rows), p.slug), keep).(model := None))
      ensures notices == old(notices) + Told(RowAt(old(table.rows), p.slug), Change(All, Normal, false), keep, p)
    {
      ghost var rows, row := table.rows, Cleared(RowAt(table.rows, p.slug), keep);
      PutTwice(rows, p.slug, row, row.(model := None));
      ClearDepth(p, keep);
      ghost var told := notices;
      MovesSnoc(told, ModelBack(p.slug));
      MirrorsStay(table.rows, p.slug);
      MirrorsFollow(table.rows, p.slug, RowAt(table.rows, p.slug).(model := None));
      var live := ClearForReset(p);
      if live {
        cleared := cleared + 1;
      } else {
        assert notices == told;
      }
    }

    method ClearDepth(p: Seat, keep: bool)
      requires Mirrored() && Counted()
      modifies this`current, this`parked, this`notices, this`cleared, table
      ensures Mirrored() && Counted()
      ensures table.rows == Put(old(table.rows), p.slug, Cleared(RowAt(old(table.rows), p.slug), keep))
      ensures notices == old(notices) + ToldOfDepth(RowAt(old(table.rows), p.slug), keep, p.slug)
    {
      ghost var row := RowAt(table.rows, p.slug);
      PutBack(table.rows, p.slug);
      MirrorsFollow(table.rows, p.slug, Cleared(row, keep));
      MirrorsStay(table.rows, p.slug);
      var dropped := if keep || p.slug !in parked then Unset else parked[p.slug];
      if p.slug in current || dropped != Unset {
        table.SetDepth(p.slug, Unset, keep, 0);
        current := current - {p.slug};
        if dropped != Unset {
          parked := parked - {p.slug};
        }
        MovesSnoc(notices, BackToNormal(p.slug, dropped));
        notices := notices + [BackToNormal(p.slug, dropped)];
        cleared := cleared + 1;
      } else {
        assert notices + [] == notices;
      }
    }

    /** The mirrors as read from the table when the scan begins. */
    method ReadMirrors()
      requires RowsOk(table.rows)
      modifies this`current, this`parked
      ensures Mirrored()
    {
      current := map slug | slug in table.rows && table.rows[slug].depth != Unset :: table.rows[slug].depth;
      parked := map slug | slug in table.rows && table.rows[slug].once != Unset :: table.rows[slug].once;
    }

    /** One instruction on everyone it names. */
    method InstructAll(targets: seq<Seat>, change: Change, kept: set<Slug>, user: Who)
      requires Mirrored() && Counted()
      modifies this`current, this`parked, this`notices, this`changed, this`cleared, this`onceSet, table
      ensures Mirrored() && Counted()
      ensures table.rows == Spread(old(table.rows), targets, change, kept, user)
      ensures notices == old(notices) + SpreadTold(old(table.rows), targets, change, kept, user)
      ensures onceSet == old(onceSet) + if IsOneOff(change) then |targets| else 0
    {
      ghost var rows, told := table.rows, notices;
      for j := 0 to |targets|
        invariant Mirrored() && Counted()
        invariant table.rows == Spread(rows, targets[..j], change, kept, user)
        invariant notices == told + SpreadTold(rows, targets[..j], change, kept, user)
        invariant onceSet == old(onceSet) + if IsOneOff(change) then j else 0
      {
        SpreadNext(rows, targets, j, change, kept, user);
        Regroup(told, SpreadTold(rows, targets[..j], change, kept, user),
                Told(RowAt(table.rows, targets[j].slug), change, targets[j].slug in kept, targets[j]));
        Instruct(targets[j], change, targets[j].slug in kept, user);
      }
      assert targets[..|targets|] == targets;
    }

    /** The instructions in the order they were spoken. */
    method InstructEach(roster: seq<Seat>, changes: seq<Change>, byKey: map<Key, Seat>, kept: set<Slug>, user: Who)
      requires Mirrored() && Counted() && byKey == ByKey(roster) && onceSet == 0
      modifies this`current, this`parked, this`notices, this`changed, this`cleared, this`onceSet, table
      ensures Mirrored() && Counted()
      ensures table.rows == Obeyed(old(table.rows), roster, changes, kept, user)
      ensures notices == old(notices) + Notices(old(table.rows), roster, changes, kept, user)
      ensures onceSet == Parked(roster, changes)
    {
      ghost var rows, told := table.rows, notices;
      for i := 0 to |changes|
        invariant Mirrored() && Counted()
        invariant table.rows == Obeyed(rows, roster, changes[..i], kept, user)
        invariant notices == told + Notices(rows, roster, changes[..i], kept, user)
        invariant onceSet == Parked(roster, changes[..i])
      {
        var change := changes[i];
        ObeyedNext(rows, roster, changes, i, kept, user);
        NoticesNext(rows, roster, changes, i, kept, user);
        ParkedNext(roster, changes, i);
        Regroup(told, Notices(rows, roster, changes[..i], kept, user),
                SpreadTold(table.rows, Targets(roster, change.key), change, kept, user));
        InstructAll(Named(roster, byKey, change.key), change, kept, user);
      }
      assert changes[..|changes|] == changes;
    }

    method ApplyDepth(roster: seq<Seat>, changes: seq<Change>, user: Who) returns (outcome: Outcome)
      requires RowsOk(table.rows) && notices == [] && changed == cleared == onceSet == 0
      modifies this, table
      ensures RowsOk(table.rows)
      ensures table.rows == Obeyed(old(table.rows), roster, changes, OnceTargets(roster, changes), user)
      ensures notices == Notices(old(table.rows), roster, changes, OnceTargets(roster, changes), user)
      ensures research == (old(research) && !exists change <- changes :: IsReset(change) && change.key == All)
      ensures outcome == Verdict(notices, old(research) && !research, Parked(roster, changes))
      ensures changes != [] ==> Mirrored()
    {
      if changes == [] {
        return NoChange;
      }
      var byKey := ReadRoster(roster);
      ReadMirrors();
      var kept, resetAll := LookAhead(roster, changes, byKey);
      ghost var rows := table.rows;
      InstructEach(roster, changes, byKey, kept, user);
      assert [] + Notices(rows, roster, changes, kept, user) == Notices(rows, roster, changes, kept, user);
      ResetsAllExactly(changes);
      var researchOff := resetAll && research;
      if researchOff {
        research := false;
        cleared := cleared + 1;
      }
      outcome := if changed > 0 then DepthSet else if cleared > 0 then DepthCleared
                 else if onceSet > 0 then DepthOnce else NoChange;
    }

    method ReadRoster(roster: seq<Seat>) returns (byKey: map<Key, Seat>)
      ensures byKey == ByKey(roster)
    {
      byKey := map[];
      for i := 0 to |roster|
        invariant byKey == ByKey(roster[..i])
      {
        assert roster[..i + 1][..i] == roster[..i];
        byKey := byKey[roster[i].slugKey := roster[i]];
        byKey := byKey[roster[i].nameKey := roster[i]];
      }
      assert roster[..|roster|] == roster;
    }

    /** Before anything is applied: who keeps a one-off, and does everyone reset? */
    method LookAhead(roster: seq<Seat>, changes: seq<Change>, byKey: map<Key, Seat>)
      returns (kept: set<Slug>, resetAll: bool)
      requires byKey == ByKey(roster)
      ensures kept == OnceTargets(roster, changes)
      ensures resetAll == ResetsAll(changes)
    {
      kept, resetAll := {}, false;
      for i := 0 to |changes|
        invariant kept == OnceTargets(roster, changes[..i])
        invariant resetAll == ResetsAll(changes[..i])
      {
        var change := changes[i];
        assert changes[..i + 1][..i] == changes[..i];
        if change.once && LevelOf(change.depth) != Unset {
          kept := kept + Slugs(Named(roster, byKey, change.key));
        }
        resetAll := resetAll || (!change.once && change.key == All && change.depth == Normal);
      }
      assert changes[..|changes|] == changes;
    }
  }
  // ---------- what the list of instructions comes to, seat by seat ----------

  /** The last standing instruction that reached the seat, else what it stood at. */
  ghost function LastStanding(roster: seq<Seat>, changes: seq<Change>, slug: Slug, before: Level): Level {
    if changes == [] then before
    else
      var last := changes[|changes| - 1];
      if Reaches(roster, last, slug) && !last.once then LevelOf(last.depth)
      else LastStanding(roster, changes[..|changes| - 1], slug, before)
  }

  /** The last one-off that reached the seat, else `before`. */
  ghost function LastOneOff(roster: seq<Seat>, changes: seq<Change>, slug: Slug, before: Level): Level {
    if changes == [] then before
    else
      var last := changes[|changes| - 1];
      if Reaches(roster, last, slug) && IsOneOff(last) then LevelOf(last.depth)
      else LastOneOff(roster, changes[..|changes| - 1], slug, before)
  }

  ghost predicate HasOneOff(roster: seq<Seat>, changes: seq<Change>, slug: Slug) {
    exists change <- changes :: IsOneOff(change) && Reaches(roster, change, slug)
  }

  ghost predicate HasReset(roster: seq<Seat>, changes: seq<Change>, slug: Slug) {
    exists change <- changes :: IsReset(change) && Reaches(roster, change, slug)
  }

  lemma {:induction false} OnceTargetsAre(roster: seq<Seat>, changes: seq<Change>, slug: Slug)
    ensures slug in OnceTargets(roster, changes) <==> HasOneOff(roster, changes, slug)
  {
    if changes != [] {
      var init, last := changes[..|changes| - 1], changes[|changes| - 1];
      OnceTargetsAre(roster, init, slug);
      TargetsAreReached(roster, last, slug);
      assert forall c :: c in changes <==> c in init || c == last;
    }
  }

  lemma TargetsDistinct(roster: seq<Seat>, key: Key)
    requires DistinctSlugs(roster)
    ensures DistinctSlugs(Targets(roster, key))
  {}

  lemma StepIsTidy(row: SeatRow, change: Change, keep: bool, user: Who)
    requires Tidy(row)
    ensures Tidy(StepRow(row, change, keep, user))
  {}

  lemma {:induction false} SpreadRow(rows: Rows, targets: seq<Seat>, change: Change, kept: set<Slug>, user: Who,
                                     slug: Slug)
    requires RowsOk(rows) && DistinctSlugs(targets)
    ensures RowsOk(Spread(rows, targets, change, kept, user))
    ensures RowAt(Spread(rows, targets, change, kept, user), slug)
            == if exists p <- targets :: p.slug == slug then StepRow(RowAt(rows, slug), change, slug in kept, user)
               else RowAt(rows, slug)
  {
    if targets != [] {
      var init, p := targets[..|targets| - 1], targets[|targets| - 1];
      SpreadRow(rows, init, change, kept, user, p.slug);
      SpreadRow(rows, init, change, kept, user, slug);
      var before := Spread(rows, init, change, kept, user);
      StepIsTidy(RowAt(before, p.slug), change, p.slug in kept, user);
      PutThenRead(before, p.slug, StepRow(RowAt(before, p.slug), change, p.slug in kept, user), slug);
      assert forall q :: q in targets <==> q in init || q == p;
      assert forall q <- init :: q.slug != p.slug;
    }
  }

  ghost predicate RowAsSpoken(row: SeatRow, before: SeatRow, roster: seq<Seat>, changes: seq<Change>, slug: Slug,
                              keep: bool) {
    && row.depth == LastStanding(roster, changes, slug, before.depth)
    && row.once == (if HasReset(roster, changes, slug) && !keep then Unset
                    else LastOneOff(roster, changes, slug, before.once))
    && row.model == if HasReset(roster, changes, slug) then None else before.model
  }

  lemma HasSnoc(roster: seq<Seat>, changes: seq<Change>, slug: Slug)
    requires changes != []
    ensures var init, last := changes[..|changes| - 1], changes[|changes| - 1];
            && (HasOneOff(roster, changes, slug)
                <==> HasOneOff(roster, init, slug) || (IsOneOff(last) && Reaches(roster, last, slug)))
            && (HasReset(roster, changes, slug)
                <==> HasReset(roster, init, slug) || (IsReset(last) && Reaches(roster, last, slug)))
  {
    var init, last := changes[..|changes| - 1], changes[|changes| - 1];
    assert forall c :: c in changes <==> c in init || c == last;
  }

  /** One more instruction, as one seat's row takes it. */
  lemma RowStep(row: SeatRow, row': SeatRow, before: SeatRow, roster: seq<Seat>, changes: seq<Change>, slug: Slug,
                keep: bool, user: Who)
    requires changes != [] && (!keep ==> !HasOneOff(roster, changes, slug))
    requires RowAsSpoken(row, before, roster, changes[..|changes| - 1], slug, keep)
    requires row' == if Reaches(roster, changes[|changes| - 1], slug) then StepRow(row, changes[|changes| - 1], keep, user)
                     else row
    ensures RowAsSpoken(row', before, roster, changes, slug, keep)
  {
    HasSnoc(roster, changes, slug);
    if !keep {
      NoOneOffStays(roster, changes, slug, before.once);
    }
  }

  lemma {:induction false} NoOneOffStays(roster: seq<Seat>, changes: seq<Change>, slug: Slug, before: Level)
    requires !HasOneOff(roster, changes, slug)
    ensures LastOneOff(roster, changes, slug, before) == before
  {
    if changes != [] {
      HasSnoc(roster, changes, slug);
      NoOneOffStays(roster, changes[..|changes| - 1], slug, before);
    }
  }

  lemma {:induction false} ObeyedRow(rows: Rows, roster: seq<Seat>, changes: seq<Change>, kept: set<Slug>,
                                     user: Who, slug: Slug)
    requires RowsOk(rows) && DistinctSlugs(roster)
    requires slug !in kept ==> !HasOneOff(roster, changes, slug)
    ensures RowsOk(Obeyed(rows, roster, changes, kept, user))
    ensures RowAsSpoken(RowAt(Obeyed(rows, roster, changes, kept, user), slug), RowAt(rows, slug),
                        roster, changes, slug, slug in kept)
  {
    if changes != [] {
      var init, last := changes[..|changes| - 1], changes[|changes| - 1];
      HasSnoc(roster, changes, slug);
      ObeyedRow(rows, roster, init, kept, user, slug);
      TargetsDistinct(roster, last.key);
      TargetsAreReached(roster, last, slug);
      var obeyed := Obeyed(rows, roster, init, kept, user);
      SpreadRow(obeyed, Targets(roster, last.key), last, kept, user, slug);
      RowStep(RowAt(obeyed, slug), RowAt(Obeyed(rows, roster, changes, kept, user), slug), RowAt(rows, slug),
              roster, changes, slug, slug in kept, user);
    }
  }

  /** Every seat stands at its last standing instruction; its parked one-off is its
      last one-off wherever a reset stands, a reset alone clears it, and a reset
      takes the seat off its step-up. No row is left holding nothing. */
  lemma EverySeatAsLastSpoken(rows: Rows, roster: seq<Seat>, changes: seq<Change>, user: Who, slug: Slug)
    requires RowsOk(rows) && DistinctSlugs(roster)
    ensures var after := Obeyed(rows, roster, changes, OnceTargets(roster, changes), user);
            && RowsOk(after)
            && RowAt(after, slug).depth == LastStanding(roster, changes, slug, RowAt(rows, slug).depth)
            && RowAt(after, slug).once == (if HasOneOff(roster, changes, slug)
                                             then LastOneOff(roster, changes, slug, Unset)
                                           else if HasReset(roster, changes, slug) then Unset
                                           else RowAt(rows, slug).once)
            && RowAt(after, slug).model == if HasReset(roster, changes, slug) then None else RowAt(rows, slug).model
  {
    OnceTargetsAre(roster, changes, slug);
    ObeyedRow(rows, roster, changes, OnceTargets(roster, changes), user, slug);
    OneOffDefault(roster, changes, slug, RowAt(rows, slug).once, Unset);
  }

  lemma {:induction false} OneOffDefault(roster: seq<Seat>, changes: seq<Change>, slug: Slug, a: Level, b: Level)
    ensures HasOneOff(roster, changes, slug)
            ==> LastOneOff(roster, changes, slug, a) == LastOneOff(roster, changes, slug, b)
    ensures !HasOneOff(roster, changes, slug) ==> LastOneOff(roster, changes, slug, a) == a
  {
    if changes != [] {
      HasSnoc(roster, changes, slug);
      OneOffDefault(roster, changes[..|changes| - 1], slug, a, b);
    }
  }

  /** A field a message changed credits its speaker, a field it cleared nobody, and
      a field it left alone keeps its own credit. */
  ghost predicate Credited(row: SeatRow, before: SeatRow, user: Who) {
    && ((row.depth == before.depth && row.setBy == before.setBy) || row.setBy == if row.depth == Unset then 0 else user)
    && ((row.once == before.once && row.onceBy == before.onceBy) || row.onceBy == if row.once == Unset then 0 else user)
  }

  lemma {:induction false} CreditGoesToTheSpeaker(rows: Rows, roster: seq<Seat>, changes: seq<Change>,
                                                  kept: set<Slug>, user: Who, slug: Slug)
    requires RowsOk(rows) && DistinctSlugs(roster)
    ensures RowsOk(Obeyed(rows, roster, changes, kept, user))
    ensures Credited(RowAt(Obeyed(rows, roster, changes, kept, user), slug), RowAt(rows, slug), user)
  {
    if changes != [] {
      var init, last := changes[..|changes| - 1], changes[|changes| - 1];
      CreditGoesToTheSpeaker(rows, roster, init, kept, user, slug);
      TargetsDistinct(roster, last.key);
      SpreadRow(Obeyed(rows, roster, init, kept, user), Targets(roster, last.key), last, kept, user, slug);
    }
  }

  /** Instruction by instruction: a depth that changed credits its speaker, one that was
      there already whoever it credited before; a one-off credits the last to ask for
      it, asked again or not; and what is cleared credits nobody. */
  lemma CreditIsTheLastChange(rows: Rows, roster: seq<Seat>, changes: seq<Change>, kept: set<Slug>, user: Who, slug: Slug)
    requires RowsOk(rows) && DistinctSlugs(roster) && changes != []
    ensures
      var init, last := changes[..|changes| - 1], changes[|changes| - 1];
      var before := RowAt(Obeyed(rows, roster, init, kept, user), slug);
      var row := RowAt(Obeyed(rows, roster, changes, kept, user), slug);
      && (row.setBy == if row.depth == before.depth then before.setBy else if row.depth == Unset then 0 else user)
      && (row.onceBy == if Reaches(roster, last, slug) && IsOneOff(last) then user
                        else if row.once == before.once then before.onceBy
                        else 0)
  {
    var init, last := changes[..|changes| - 1], changes[|changes| - 1];
    CreditGoesToTheSpeaker(rows, roster, init, kept, user, slug);
    TargetsDistinct(roster, last.key);
    TargetsAreReached(roster, last, slug);
    SpreadRow(Obeyed(rows, roster, init, kept, user), Targets(roster, last.key), last, kept, user, slug);
  }

  // ---------- a reset's place among the instructions does not matter ----------

  function NotReset(): Change -> bool {
    (change: Change) => !IsReset(change)
  }

  lemma {:induction false} OneOffsIgnoreResets(roster: seq<Seat>, changes: seq<Change>, slug: Slug, before: Level)
    ensures var kept := Restrict(changes, NotReset());
            && LastOneOff(roster, kept, slug, before) == LastOneOff(roster, changes, slug, before)
            && (HasOneOff(roster, kept, slug) <==> HasOneOff(roster, changes, slug))
  {
    if changes != [] {
      var init, last := changes[..|changes| - 1], changes[|changes| - 1];
      OneOffsIgnoreResets(roster, init, slug, before);
      HasSnoc(roster, changes, slug);
      var kept := Restrict(init, NotReset());
      if NotReset()(last) {
        HasSnoc(roster, kept + [last], slug);
        assert (kept + [last])[..|kept|] == kept;
      }
    }
  }

  /** Two lists that say the same apart from resets, wherever those stand, park the
      same one-off for a seat they give one to. */
  lemma ResetOrderIsIrrelevant(rows: Rows, roster: seq<Seat>, a: seq<Change>, b: seq<Change>, user: Who, slug: Slug)
    requires RowsOk(rows) && DistinctSlugs(roster)
    requires Restrict(a, NotReset()) == Restrict(b, NotReset()) && HasOneOff(roster, a, slug)
    ensures RowAt(Obeyed(rows, roster, a, OnceTargets(roster, a), user), slug).once
            == RowAt(Obeyed(rows, roster, b, OnceTargets(roster, b), user), slug).once
  {
    OneOffsIgnoreResets(roster, a, slug, Unset);
    OneOffsIgnoreResets(roster, b, slug, Unset);
    EverySeatAsLastSpoken(rows, roster, a, user, slug);
    EverySeatAsLastSpoken(rows, roster, b, user, slug);
  }

  // ---------- what is left alone ----------

  lemma SameRows(a: Rows, b: Rows)
    requires RowsOk(a) && RowsOk(b) && forall slug :: RowAt(a, slug) == RowAt(b, slug)
    ensures a == b
  {
    forall slug ensures (slug in a <==> slug in b) && (slug in a ==> a[slug] == b[slug]) {
      assert RowAt(a, slug) == RowAt(b, slug);
    }
  }

  /** A seat no instruction reaches keeps its whole row: an unknown name moves nobody. */
  lemma {:induction false} UnreachedSeatsStay(rows: Rows, roster: seq<Seat>, changes: seq<Change>, kept: set<Slug>,
                                              user: Who, slug: Slug)
    requires RowsOk(rows) && DistinctSlugs(roster)
    requires forall change <- changes :: !Reaches(roster, change, slug)
    ensures RowsOk(Obeyed(rows, roster, changes, kept, user))
    ensures RowAt(Obeyed(rows, roster, changes, kept, user), slug) == RowAt(rows, slug)
  {
    if changes != [] {
      var init, last := changes[..|changes| - 1], changes[|changes| - 1];
      assert last in changes && !Reaches(roster, last, slug);
      UnreachedSeatsStay(rows, roster, init, kept, user, slug);
      TargetsDistinct(roster, last.key);
      TargetsAreReached(roster, last, slug);
      SpreadRow(Obeyed(rows, roster, init, kept, user), Targets(roster, last.key), last, kept, user, slug);
    }
  }

  /** Names that nobody on the roster answers to. */
  predicate Unknown(roster: seq<Seat>, key: Key) {
    key != All && forall p <- roster :: !AnswersTo(p, key)
  }

  lemma UnknownNamesChangeNothing(rows: Rows, roster: seq<Seat>, changes: seq<Change>, user: Who)
    requires RowsOk(rows) && DistinctSlugs(roster)
    requires forall change <- changes :: Unknown(roster, change.key)
    ensures Obeyed(rows, roster, changes, OnceTargets(roster, changes), user) == rows
  {
    var kept := OnceTargets(roster, changes);
    forall slug ensures RowAt(Obeyed(rows, roster, changes, kept, user), slug) == RowAt(rows, slug) {
      forall change <- changes ensures !Reaches(roster, change, slug) {
        assert Unknown(roster, change.key);
      }
      UnreachedSeatsStay(rows, roster, changes, kept, user, slug);
    }
    forall change <- changes ensures !Reaches(roster, change, 0) {
      assert Unknown(roster, change.key);
    }
    UnreachedSeatsStay(rows, roster, changes, kept, user, 0);
    SameRows(Obeyed(rows, roster, changes, kept, user), rows);
  }

  /** Nothing is said of them either, research mode stays, and the word is no change. */
  lemma {:induction false} UnknownNamesSayNothing(rows: Rows, roster: seq<Seat>, changes: seq<Change>, kept: set<Slug>,
                                                  user: Who)
    requires forall change <- changes :: Unknown(roster, change.key)
    ensures Notices(rows, roster, changes, kept, user) == [] && !ResetsAll(changes)
    ensures Verdict(Notices(rows, roster, changes, kept, user), false, Parked(roster, changes)) == NoChange
  {
    if changes != [] {
      var init, last := changes[..|changes| - 1], changes[|changes| - 1];
      UnknownNamesSayNothing(rows, roster, init, kept, user);
      assert Unknown(roster, last.key);
      TargetsAre(roster, last.key);
    }
  }

  // ---------- the transcript's notices tell where each seat stands ----------

  /** Where the notices leave a seat that stood at `before`. */
  function ToldStanding(notices: seq<Notice>, slug: Slug, before: Level): Level {
    if notices == [] then before
    else
      match notices[|notices| - 1]
      case MovedTo(s, level) => if s == slug then level else ToldStanding(notices[..|notices| - 1], slug, before)
      case BackToNormal(s, _) => if s == slug then Unset else ToldStanding(notices[..|notices| - 1], slug, before)
      case ModelBack(_) => ToldStanding(notices[..|notices| - 1], slug, before)
  }

  lemma {:induction false} ToldConcat(a: seq<Notice>, b: seq<Notice>, slug: Slug, before: Level)
    ensures ToldStanding(a + b, slug, before) == ToldStanding(b, slug, ToldStanding(a, slug, before))
  {
    if b == [] {
      assert a + b == a;
    } else {
      assert (a + b)[..|a + b| - 1] == a + b[..|b| - 1];
      ToldConcat(a, b[..|b| - 1], slug, before);
    }
  }

  lemma ToldStep(row: SeatRow, change: Change, keep: bool, user: Who, p: Seat, slug: Slug, before: Level)
    ensures ToldStanding(Told(row, change, keep, p), slug, before)
            == if slug != p.slug || change.once then before
               else if StepRow(row, change, keep, user).depth != row.depth then StepRow(row, change, keep, user).depth
               else if Told(row, change, keep, p) != [] && Told(row, change, keep, p)[0].BackToNormal? then Unset
               else before
  {
    var dropped := if keep then Unset else row.once;
    ToldOne(MovedTo(p.slug, LevelOf(change.depth)), slug, before);
    ToldOne(BackToNormal(p.slug, dropped), slug, before);
    ToldConcat(ToldOfDepth(row, keep, p.slug), if LiveStep(row.model, p.model) then [ModelBack(p.slug)] else [], slug, before);
    ToldOne(ModelBack(p.slug), slug, ToldStanding(ToldOfDepth(row, keep, p.slug), slug, before));
  }

  lemma ToldOne(e: Notice, slug: Slug, before: Level)
    ensures ToldStanding([e], slug, before)
            == match e
               case MovedTo(s, level) => if s == slug then level else before
               case BackToNormal(s, _) => if s == slug then Unset else before
               case ModelBack(_) => before
  {
    assert [e][..0] == [];
  }

  lemma {:induction false} SpreadTells(rows: Rows, targets: seq<Seat>, change: Change, kept: set<Slug>, user: Who,
                                       slug: Slug)
    requires RowsOk(rows) && DistinctSlugs(targets)
    ensures ToldStanding(SpreadTold(rows, targets, change, kept, user), slug, RowAt(rows, slug).depth)
            == RowAt(Spread(rows, targets, change, kept, user), slug).depth
  {
    if targets != [] {
      var init, p := targets[..|targets| - 1], targets[|targets| - 1];
      SpreadTells(rows, init, change, kept, user, slug);
      SpreadRow(rows, init, change, kept, user, p.slug);
      var before := Spread(rows, init, change, kept, user);
      var row := RowAt(before, p.slug);
      StepIsTidy(row, change, p.slug in kept, user);
      PutThenRead(before, p.slug, StepRow(row, change, p.slug in kept, user), slug);
      ToldConcat(SpreadTold(rows, init, change, kept, user), Told(row, change, p.slug in kept, p), slug, RowAt(rows, slug).depth);
      ToldStep(row, change, p.slug in kept, user, p, slug, RowAt(before, slug).depth);
    }
  }

  /** Reading the new notices in order gives every seat's new standing depth. */
  lemma {:induction false} NoticesTellTheStanding(rows: Rows, roster: seq<Seat>, changes: seq<Change>,
                                                  kept: set<Slug>, user: Who, slug: Slug)
    requires RowsOk(rows) && DistinctSlugs(roster)
    ensures RowsOk(Obeyed(rows, roster, changes, kept, user))
    ensures ToldStanding(Notices(rows, roster, changes, kept, user), slug, RowAt(rows, slug).depth)
            == RowAt(Obeyed(rows, roster, changes, kept, user), slug).depth
  {
    if changes != [] {
      var init, last := changes[..|changes| - 1], changes[|changes| - 1];
      NoticesTellTheStanding(rows, roster, init, kept, user, slug);
      TargetsDistinct(roster, last.key);
      var before := Obeyed(rows, roster, init, kept, user);
      SpreadRow(before, Targets(roster, last.key), last, kept, user, slug);
      SpreadTells(before, Targets(roster, last.key), last, kept, user, slug);
      ToldConcat(Notices(rows, roster, init, kept, user), SpreadTold(before, Targets(roster, last.key), last, kept, user),
                 slug, RowAt(rows, slug).depth);
    }
  }

  // ---------- and every line is a real change ----------

  function About(slug: Slug): Notice -> bool {
    (notice: Notice) => notice.slug == slug
  }

  /** What the transcript says of one instruction, read off the seat's row before it
      and after it. A one-off says nothing; moving to a level the seat has says
      nothing; a reset tells the one-off it dropped, and a step-up it took back. */
  function Lines(before: SeatRow, after: SeatRow, change: Change, p: Seat): seq<Notice> {
    if change.once then []
    else if LevelOf(change.depth) != Unset then
      if after.depth != before.depth then [MovedTo(p.slug, after.depth)] else []
    else
      (if after.depth != before.depth || after.once != before.once then
         [BackToNormal(p.slug, if after.once != before.once then before.once else Unset)]
       else [])
      + if before.model.Some? && before.model.value.replaced == p.model && before.model.value.model != p.model
        then [ModelBack(p.slug)] else []
  }

  lemma ToldIsTheChange(row: SeatRow, change: Change, keep: bool, user: Who, p: Seat)
    ensures Told(row, change, keep, p) == Lines(row, StepRow(row, change, keep, user), change, p)
  {}

  lemma ToldAbout(told: seq<Notice>, q: Slug, slug: Slug)
    requires forall notice <- told :: notice.slug == q
    ensures Restrict(told, About(slug)) == if q == slug then told else []
  {
    if q == slug {
      RestrictAll(told, About(slug));
    } else {
      RestrictNone(told, About(slug));
    }
  }

  lemma ToldOf(row: SeatRow, change: Change, keep: bool, q: Seat)
    ensures forall notice <- Told(row, change, keep, q) :: notice.slug == q.slug
  {}

  /** What the transcript says about one seat when an instruction spreads. */
  lemma {:induction false} SpreadTellsOf(rows: Rows, targets: seq<Seat>, change: Change, kept: set<Slug>, user: Who,
                                         p: Seat)
    requires RowsOk(rows) && DistinctSlugs(targets) && (forall q <- targets | q.slug == p.slug :: q == p)
    ensures Restrict(SpreadTold(rows, targets, change, kept, user), About(p.slug))
            == if p in targets then Told(RowAt(rows, p.slug), change, p.slug in kept, p) else []
  {
    if targets != [] {
      var init, q := targets[..|targets| - 1], targets[|targets| - 1];
      assert forall r :: r in targets <==> r in init || r == q;
      SpreadTellsOf(rows, init, change, kept, user, p);
      SpreadRow(rows, init, change, kept, user, q.slug);
      assert forall r <- init :: r.slug != q.slug;
      var told := Told(RowAt(rows, q.slug), change, q.slug in kept, q);
      ToldOf(RowAt(rows, q.slug), change, q.slug in kept, q);
      RestrictConcat(SpreadTold(rows, init, change, kept, user), told, About(p.slug));
      ToldAbout(told, q.slug, p.slug);
    }
  }

  /** The transcript tells each seat's changes instruction by instruction, and nothing
      else about it. */
  lemma {:induction false} NoticesAreTheChanges(rows: Rows, roster: seq<Seat>, changes: seq<Change>, kept: set<Slug>,
                                                user: Who, p: Seat)
    requires RowsOk(rows) && DistinctSlugs(roster) && p in roster && changes != []
    ensures
      var init, last := changes[..|changes| - 1], changes[|changes| - 1];
      Restrict(Notices(rows, roster, changes, kept, user), About(p.slug))
      == Restrict(Notices(rows, roster, init, kept, user), About(p.slug))
         + if Reaches(roster, last, p.slug)
           then Lines(RowAt(Obeyed(rows, roster, init, kept, user), p.slug),
                      RowAt(Obeyed(rows, roster, changes, kept, user), p.slug), last, p)
           else []
  {
    var init, last := changes[..|changes| - 1], changes[|changes| - 1];
    var before, targets := Obeyed(rows, roster, init, kept, user), Targets(roster, last.key);
    CreditGoesToTheSpeaker(rows, roster, init, kept, user, p.slug);
    TargetsDistinct(roster, last.key);
    TargetsOnRoster(roster, last.key);
    TargetsAreReached(roster, last, p.slug);
    forall q <- roster | q.slug == p.slug ensures q == p {
      SeatBySlug(roster, p, q);
    }
    RestrictConcat(Notices(rows, roster, init, kept, user), SpreadTold(before, targets, last, kept, user), About(p.slug));
    SpreadTellsOf(before, targets, last, kept, user, p);
    SpreadRow(before, targets, last, kept, user, p.slug);
    ToldIsTheChange(RowAt(before, p.slug), last, p.slug in kept, user, p);
    assert p in targets <==> exists q <- targets :: q.slug == p.slug;
  }

  lemma SeatBySlug(roster: seq<Seat>, p: Seat, q: Seat)
    requires DistinctSlugs(roster) && p in roster && q in roster && p.slug == q.slug
    ensures p == q
  {
  }

  lemma TargetsOnRoster(roster: seq<Seat>, key: Key)
    ensures forall p <- Targets(roster, key) :: p in roster
  {
    ByKeyHas(roster, key);
    forall i: nat | LastToAnswer(roster, key, i) ensures key in ByKey(roster) && ByKey(roster)[key] in roster {
      ByKeyIsLast(roster, key, i);
    }
  }

  lemma {:induction false} MovesExactly(notices: seq<Notice>)
    ensures Moves(notices) > 0 <==> exists notice <- notices :: notice.MovedTo?
  {
    if notices != [] {
      var init, last := notices[..|notices| - 1], notices[|notices| - 1];
      MovesExactly(init);
      assert forall notice :: notice in notices <==> notice in init || notice == last;
    }
  }

  /** Did a one-off reach anybody? */
  ghost predicate SomeOneOff(roster: seq<Seat>, changes: seq<Change>) {
    exists p <- roster :: HasOneOff(roster, changes, p.slug)
  }

  lemma {:induction false} ParkedExactly(roster: seq<Seat>, changes: seq<Change>)
    ensures Parked(roster, changes) > 0 <==> SomeOneOff(roster, changes)
  {
    if changes != [] {
      var init, last := changes[..|changes| - 1], changes[|changes| - 1];
      var targets := Targets(roster, last.key);
      ParkedExactly(roster, init);
      TargetsOnRoster(roster, last.key);
      forall p <- roster ensures HasOneOff(roster, changes, p.slug)
                                 <==> HasOneOff(roster, init, p.slug) || (IsOneOff(last) && Reaches(roster, last, p.slug))
      {
        HasSnoc(roster, changes, p.slug);
      }
      if targets != [] {
        TargetsAreReached(roster, last, targets[0].slug);
        assert targets[0] in roster;
      }
      forall p <- roster | Reaches(roster, last, p.slug) ensures targets != [] {
        TargetsAreReached(roster, last, p.slug);
      }
    }
  }

  /** The scan's word: set when a seat was moved to a level, else cleared when the
      transcript says anything or research mode went off, else once when a one-off
      reached anybody, else no change. */
  lemma TheWordIs(roster: seq<Seat>, changes: seq<Change>, notices: seq<Notice>, researchOff: bool)
    ensures
      var word := Verdict(notices, researchOff, Parked(roster, changes));
      && (word == DepthSet <==> exists notice <- notices :: notice.MovedTo?)
      && (word == NoChange <==> notices == [] && !researchOff && !SomeOneOff(roster, changes))
      && (word == DepthOnce <==> notices == [] && !researchOff && SomeOneOff(roster, changes))
  {
    MovesExactly(notices);
    ParkedExactly(roster, changes);
  }
}
