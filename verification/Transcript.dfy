/** The transcript a round keeps and refreshes at each seat's turn
    (backend/engine.py: _load_round_state; backend/db.py: insert_message,
    set_message_voice_labels, set_message_heard, get_messages_after,
    get_chat_label_updates_after), against the messages table of one chat. */
module Transcript {
  import opened Wrappers
  import opened Sorting

  type Labels = int  // the stored label JSON; 0 is none
  type Heard = int   // how much of a cut reply was heard; 0 is all of it

  datatype Row = Row(id: nat, words: int, heard: Heard, labels: Labels, stamp: nat)

  type Table = seq<Row>

  // ---------- the writers ----------

  datatype Write =
    | Insert(words: int, labels: Labels)
    | SetLabels(at: nat, labels: Labels)  // the row's place in the chat
    | SetHeard(at: nat, heard: Heard)

  /** One committed write, stamped `now`. Ids grow, with gaps for other chats. */
  function Written(table: Table, w: Write, now: nat, gap: nat): Table {
    match w
    case Insert(words, labels) =>
      var id := (if table == [] then 1 else table[|table| - 1].id + 1) + gap;
      table + [Row(id, words, 0, labels, if labels != 0 then now else 0)]
    case SetLabels(at, labels) =>
      if at < |table| then table[at := table[at].(labels := labels, stamp := now)] else table
    case SetHeard(at, heard) =>
      if at < |table| then table[at := table[at].(heard := heard, stamp := now)] else table
  }

  ghost predicate IdsAscend(table: Table) {
    && (forall i | 0 <= i < |table| :: table[i].id > 0)
    && (forall i, j | 0 <= i < j < |table| :: table[i].id < table[j].id)
  }

  function PlaceOf(table: Table, id: nat): (at: nat)
    ensures at <= |table|
    ensures at < |table| ==> table[at].id == id
    ensures at == |table| ==> forall i | 0 <= i < |table| :: table[i].id != id
  {
    if table == [] then 0
    else
      var before := PlaceOf(table[..|table| - 1], id);
      if before < |table| - 1 then before
      else if table[|table| - 1].id == id then |table| - 1
      else |table|
  }

  /** One chat's messages table and its writers. */
  class Messages {
    var rows: Table

    constructor ()
      ensures rows == []
    {
      rows := [];
    }

    method InsertMessage(words: int, labels: Labels, now: nat, gap: nat) returns (id: nat)
      requires IdsAscend(rows)
      modifies this
      ensures rows == Written(old(rows), Insert(words, labels), now, gap) && IdsAscend(rows)
      ensures rows == old(rows) + [Row(id, words, 0, labels, if labels != 0 then now else 0)]
      ensures rows[|rows| - 1].id == id && forall i | 0 <= i < |old(rows)| :: old(rows)[i].id < id
    {
      id := 1 + gap;
      if rows != [] {
        id := rows[|rows| - 1].id + 1 + gap;
      }
      rows := rows + [Row(id, words, 0, labels, if labels != 0 then now else 0)];
    }

    method SetMessageVoiceLabels(id: nat, labels: Labels, now: nat)
      modifies this
      ensures rows == Written(old(rows), SetLabels(PlaceOf(old(rows), id), labels), now, 0)
      ensures |rows| == |old(rows)|
      ensures IdsAscend(old(rows)) ==>
                forall i | 0 <= i < |rows| ::
                  rows[i] == if old(rows)[i].id == id then old(rows)[i].(labels := labels, stamp := now) else old(rows)[i]
    {
      var at := PlaceOf(rows, id);
      if at < |rows| {
        rows := rows[at := rows[at].(labels := labels, stamp := now)];
      }
    }

    method SetMessageHeard(id: nat, heard: Heard, now: nat)
      modifies this
      ensures rows == Written(old(rows), SetHeard(PlaceOf(old(rows), id), heard), now, 0)
      ensures |rows| == |old(rows)|
      ensures IdsAscend(old(rows)) ==>
                forall i | 0 <= i < |rows| ::
                  rows[i] == if old(rows)[i].id == id then old(rows)[i].(heard := heard, stamp := now) else old(rows)[i]
    {
      var at := PlaceOf(rows, id);
      if at < |rows| {
        rows := rows[at := rows[at].(heard := heard, stamp := now)];
      }
    }
  }

  // ---------- the refresh ----------

  /** The label updates since the cursor, by message id. */
  function Updates(table: Table, cursor: nat): map<nat, Row> {
    if table == [] then map[]
    else
      var last := table[|table| - 1];
      if last.stamp > cursor then Updates(table[..|table| - 1], cursor)[last.id := last]
      else Updates(table[..|table| - 1], cursor)
  }

  function Folded(held: seq<Row>, updates: map<nat, Row>): seq<Row> {
    seq(|held|, i requires 0 <= i < |held| =>
      if held[i].id in updates then
        held[i].(labels := updates[held[i].id].labels, stamp := updates[held[i].id].stamp)
      else held[i])
  }

  function After(lastSeen: nat): Row -> bool {
    (r: Row) => r.id > lastSeen
  }

  function NewestStamp(cursor: nat, rows: seq<Row>): nat {
    if rows == [] then cursor
    else
      var before := NewestStamp(cursor, rows[..|rows| - 1]);
      if rows[|rows| - 1].stamp > before then rows[|rows| - 1].stamp else before
  }

  datatype Copy = Copy(rows: seq<Row>, lastSeen: nat, cursor: nat)

  /** One refresh; `first` is what its label query sees, `second` what its row query sees. */
  function Refreshed(copy: Copy, first: Table, second: Table): Copy {
    var rows := Folded(copy.rows, Updates(first, copy.cursor)) + Restrict(second, After(copy.lastSeen));
    if rows == [] then copy.(rows := rows)
    else Copy(rows, rows[|rows| - 1].id, NewestStamp(copy.cursor, rows))
  }

  function Loaded(table: Table): Copy {
    if table == [] then Copy([], 0, 0) else Copy(table, table[|table| - 1].id, NewestStamp(0, table))
  }

  /** The round's transcript; `messages` is none until the first seat reads it. */
  class RoundTranscript {
    var messages: Option<seq<Row>>
    var lastSeen: nat
    var cursor: nat

    constructor ()
      ensures messages == None && lastSeen == 0 && cursor == 0
    {
      messages, lastSeen, cursor := None, 0, 0;
    }

    method LoadRoundState(first: Table, second: Table)
      requires messages.None? ==> lastSeen == 0 && cursor == 0
      modifies this
      ensures old(messages).None? ==> messages.Some? && Copy(messages.value, lastSeen, cursor) == Loaded(second)
      ensures old(messages).Some? ==>
                && messages.Some?
                && Copy(messages.value, lastSeen, cursor)
                   == Refreshed(Copy(old(messages).value, old(lastSeen), old(cursor)), first, second)
    {
      if messages.None? {
        messages := Some(second);
      } else {
        var updates := LabelUpdates(first);
        var held := FoldedRows(updates);
        messages := Some(held + Restrict(second, After(lastSeen)));
      }
      AdvanceCursors();
    }

    /** The label query: each row stamped after the cursor, by id. */
    method LabelUpdates(first: Table) returns (updates: map<nat, Row>)
      ensures updates == Updates(first, cursor)
    {
      updates := map[];
      for i := 0 to |first|
        invariant updates == Updates(first[..i], cursor)
      {
        assert first[..i + 1][..i] == first[..i];
        if first[i].stamp > cursor {
          updates := updates[first[i].id := first[i]];
        }
      }
      assert first[..|first|] == first;
    }

    /** The rows held, with the updates folded in. */
    method FoldedRows(updates: map<nat, Row>) returns (held: seq<Row>)
      requires messages.Some?
      ensures held == Folded(messages.value, updates)
    {
      held := messages.value;
      if updates != map[] {
        for i := 0 to |held|
          invariant |held| == |messages.value|
          invariant forall j | 0 <= j < i :: held[j] == Folded(messages.value, updates)[j]
          invariant forall j | i <= j < |held| :: held[j] == messages.value[j]
        {
          if held[i].id in updates {
            var update := updates[held[i].id];
            held := held[i := held[i].(labels := update.labels, stamp := update.stamp)];
          }
        }
      }
    }

    method AdvanceCursors()
      requires messages.Some?
      modifies this`lastSeen, this`cursor
      ensures var rows := messages.value;
              if rows == [] then lastSeen == old(lastSeen) && cursor == old(cursor)
              else lastSeen == rows[|rows| - 1].id && cursor == NewestStamp(old(cursor), rows)
    {
      var rows := messages.value;
      if rows != [] {
        lastSeen := rows[|rows| - 1].id;
        for i := 0 to |rows|
          invariant cursor == NewestStamp(old(cursor), rows[..i])
          modifies this`cursor
        {
          assert rows[..i + 1][..i] == rows[..i];
          if rows[i].stamp > cursor {
            cursor := rows[i].stamp;
          }
        }
        assert rows[..|rows|] == rows;
      }
    }
  }

  // ---------- when one refresh is exact ----------

  /** The copy holds the table's first rows, in order. */
  ghost predicate Aligned(copy: Copy, table: Table) {
    && |copy.rows| <= |table|
    && copy.lastSeen == (if copy.rows == [] then 0 else copy.rows[|copy.rows| - 1].id)
    && forall i | 0 <= i < |copy.rows| :: copy.rows[i].id == table[i].id && copy.rows[i].words == table[i].words
  }

  /** Row by row what a seat reads off a full re-read, `heard` aside: the same
      messages, words and labels. The stamp is bookkeeping and not read. */
  ghost predicate Current(rows: seq<Row>, table: Table) {
    && |rows| == |table|
    && forall i | 0 <= i < |rows| ::
         rows[i].id == table[i].id && rows[i].words == table[i].words && rows[i].labels == table[i].labels
  }

  lemma {:induction false} UpdatesAt(table: Table, cursor: nat, i: nat)
    requires IdsAscend(table) && i < |table|
    ensures table[i].id in Updates(table, cursor) <==> table[i].stamp > cursor
    ensures table[i].stamp > cursor ==> Updates(table, cursor)[table[i].id] == table[i]
  {
    var init, last := table[..|table| - 1], table[|table| - 1];
    if i < |table| - 1 {
      UpdatesAt(init, cursor, i);
    } else {
      UpdatesHold(init, cursor, last.id);
    }
  }

  lemma {:induction false} UpdatesHold(table: Table, cursor: nat, id: nat)
    requires forall r <- table :: r.id != id
    ensures id !in Updates(table, cursor)
  {
    if table != [] {
      UpdatesHold(table[..|table| - 1], cursor, id);
    }
  }

  lemma TheRestIsNew(copy: Copy, table: Table)
    requires Aligned(copy, table) && IdsAscend(table)
    ensures Restrict(table, After(copy.lastSeen)) == table[|copy.rows|..]
  {
    var n := |copy.rows|;
    assert table == table[..n] + table[n..];
    RestrictConcat(table[..n], table[n..], After(copy.lastSeen));
    RestrictNone(table[..n], After(copy.lastSeen));
    RestrictAll(table[n..], After(copy.lastSeen));
  }

  /** The label and stamp the refresh leaves on held row `i`: what its label query
      found, or what it had. */
  function Base(copy: Copy, first: Table, i: nat): Row
    requires i < |copy.rows| <= |first|
  {
    if first[i].stamp > copy.cursor then first[i] else copy.rows[i]
  }

  lemma RefreshedRow(copy: Copy, first: Table, second: Table, i: nat)
    requires Aligned(copy, first) && Aligned(copy, second) && IdsAscend(first) && i < |copy.rows|
    ensures
      var rows, base := Refreshed(copy, first, second).rows, Base(copy, first, i);
      i < |rows| && rows[i] == copy.rows[i].(labels := base.labels, stamp := base.stamp)
  {
    UpdatesAt(first, copy.cursor, i);
  }

  /** A refresh gives what a full re-read at its second query would exactly when
      every held row its label query found still has the label found, and every one
      it did not find had the right label already. */
  lemma RefreshIsExact(copy: Copy, first: Table, second: Table)
    requires Aligned(copy, first) && Aligned(copy, second) && IdsAscend(first) && IdsAscend(second)
    ensures Current(Refreshed(copy, first, second).rows, second)
            <==> forall i | 0 <= i < |copy.rows| :: Base(copy, first, i).labels == second[i].labels
    ensures |Refreshed(copy, first, second).rows| == |second|
    ensures forall i | |copy.rows| <= i < |second| :: Refreshed(copy, first, second).rows[i] == second[i]
  {
    TheRestIsNew(copy, second);
    var rows := Refreshed(copy, first, second).rows;
    forall i | 0 <= i < |copy.rows|
      ensures rows[i] == copy.rows[i].(labels := Base(copy, first, i).labels, stamp := Base(copy, first, i).stamp)
    {
      RefreshedRow(copy, first, second, i);
    }
    forall i | |copy.rows| <= i < |second| ensures rows[i] == second[i] {}
  }

  // ---------- over a whole round ----------

  /** A refresh is two queries, and anyone may commit between them. The first seat
      makes only the second: it has no rows to update. */
  datatype Event = Commit(w: Write, pause: nat, gap: nat) | ReadLabels | ReadRows

  /** What a refresh's label query saw, and the clock then. */
  datatype Reading = Reading(table: Table, clock: nat)

  /** The chat, its clock (every stamp so far is at most this), the round's copy, a
      refresh under way, the held rows that refresh will leave mislabelled as things
      stand (`torn`), and the held rows that are mislabelled and that no later label
      query finds (`missed`), each until its next write. */
  datatype World = World(table: Table, clock: nat, copy: Option<Copy>, first: Option<Reading>,
                         torn: set<nat>, missed: set<nat>)

  function Touched(table: Table, write: Write): set<nat> {
    match write
    case Insert(_, _) => {}
    case SetLabels(at, _) => if at < |table| then {at} else {}
    case SetHeard(at, _) => if at < |table| then {at} else {}
  }

  /** A label write tears a held row, or mends it when it writes the very label the
      refresh is going to leave. No other write does either. */
  function TornBy(copy: Copy, first: Table, torn: set<nat>, write: Write): set<nat> {
    if write.SetLabels? && write.at < |copy.rows| <= |first| then
      if write.labels == Base(copy, first, write.at).labels then torn - {write.at} else torn + {write.at}
    else torn
  }

  /** The mislabelled rows no later label query finds, by the cursor it will use. */
  function PassedBy(table: Table, torn: set<nat>, cursor: nat): set<nat> {
    set i <- torn | i < |table| && table[i].stamp <= cursor
  }

  function Next(w: World, e: Event): World {
    match e
    case Commit(write, pause, gap) =>
      var now := w.clock + 1 + pause;
      w.(table := Written(w.table, write, now, gap), clock := now,
         torn := if w.copy.Some? && w.first.Some? then TornBy(w.copy.value, w.first.value.table, w.torn, write) else {},
         missed := w.missed - Touched(w.table, write))
    case ReadLabels =>
      if w.copy.Some? && w.first.None? then w.(first := Some(Reading(w.table, w.clock)), torn := w.missed) else w
    case ReadRows =>
      if w.copy.None? then w.(copy := Some(Loaded(w.table)))
      else if w.first.None? then w
      else
        var copy' := Refreshed(w.copy.value, w.first.value.table, w.table);
        w.(copy := Some(copy'), first := None, torn := {}, missed := PassedBy(w.table, w.torn, copy'.cursor))
  }

  function Run(w: World, events: seq<Event>): World {
    if events == [] then w else Next(Run(w, events[..|events| - 1]), events[|events| - 1])
  }

  /** A new chat at the start of a round. */
  function Start(): World {
    World([], 0, None, None, {}, {})
  }

  ghost predicate StampedBy(rows: seq<Row>, clock: nat) {
    forall i | 0 <= i < |rows| :: rows[i].stamp <= clock
  }

  /** How one held row stands to the table: it is missed exactly when it is
      mislabelled and its stamp does not pass the cursor. */
  ghost predicate Standing(held: Row, row: Row, cursor: nat, missed: bool) {
    held.stamp <= cursor && (missed <==> held.labels != row.labels && row.stamp <= cursor)
  }

  ghost predicate CopyStands(copy: Copy, table: Table, clock: nat, missed: set<nat>) {
    && Aligned(copy, table) && copy.cursor <= clock
    && (forall i <- missed :: i < |copy.rows|)
    && forall i | 0 <= i < |copy.rows| :: Standing(copy.rows[i], table[i], copy.cursor, i in missed)
  }

  /** How the refresh under way stands: it will mislabel exactly the torn rows, and
      what it read carries no stamp past its clock. */
  ghost predicate ReadingStands(copy: Copy, first: Reading, table: Table, clock: nat, torn: set<nat>) {
    && IdsAscend(first.table) && Aligned(copy, first.table) && StampedBy(first.table, first.clock)
    && Aligned(copy, table) && copy.cursor <= first.clock <= clock
    && (forall i <- torn :: i < |copy.rows|)
    && forall i | 0 <= i < |copy.rows| :: i in torn <==> Base(copy, first.table, i).labels != table[i].labels
  }

  ghost predicate Coherent(w: World) {
    && IdsAscend(w.table) && StampedBy(w.table, w.clock)
    && (if w.copy.Some? then CopyStands(w.copy.value, w.table, w.clock, w.missed) else w.missed == {} && w.first.None?)
    && (w.first.Some? ==> ReadingStands(w.copy.value, w.first.value, w.table, w.clock, w.torn))
  }

  lemma {:induction false} NewestStampBounds(cursor: nat, rows: seq<Row>, clock: nat)
    requires cursor <= clock && StampedBy(rows, clock)
    ensures cursor <= NewestStamp(cursor, rows) <= clock
    ensures StampedBy(rows, NewestStamp(cursor, rows))
  {
    if rows != [] {
      NewestStampBounds(cursor, rows[..|rows| - 1], clock);
      assert forall i | 0 <= i < |rows| - 1 :: rows[i] == rows[..|rows| - 1][i];
    }
  }

  lemma RefreshedStamp(w: World, i: nat)
    requires Coherent(w) && w.copy.Some? && w.first.Some? && i < |w.table|
    ensures var rows := Refreshed(w.copy.value, w.first.value.table, w.table).rows;
            |rows| == |w.table| && rows[i].stamp <= w.clock
            && rows[i].id == w.table[i].id && rows[i].words == w.table[i].words
  {
    var copy, first := w.copy.value, w.first.value;
    RefreshIsExact(copy, first.table, w.table);
    if i < |copy.rows| {
      RefreshedRow(copy, first.table, w.table, i);
      assert Standing(copy.rows[i], w.table[i], copy.cursor, i in w.missed);
    }
  }

  lemma CursorAfter(w: World)
    requires Coherent(w) && w.copy.Some? && w.first.Some?
    ensures var copy' := Refreshed(w.copy.value, w.first.value.table, w.table);
            && copy'.cursor <= w.clock && StampedBy(copy'.rows, copy'.cursor) && Aligned(copy', w.table)
  {
    var copy, first := w.copy.value, w.first.value;
    var rows := Refreshed(copy, first.table, w.table).rows;
    RefreshIsExact(copy, first.table, w.table);
    forall i | 0 <= i < |rows|
      ensures rows[i].stamp <= w.clock && rows[i].id == w.table[i].id && rows[i].words == w.table[i].words
    {
      RefreshedStamp(w, i);
    }
    NewestStampBounds(copy.cursor, rows, w.clock);
  }

  /** How the refresh leaves one row, held before or not. */
  lemma RefreshedStands(w: World, i: nat)
    requires Coherent(w) && w.copy.Some? && w.first.Some? && i < |w.table|
    ensures
      var copy' := Refreshed(w.copy.value, w.first.value.table, w.table);
      i < |copy'.rows| && Standing(copy'.rows[i], w.table[i], copy'.cursor, i in Next(w, ReadRows).missed)
  {
    var copy, first := w.copy.value, w.first.value;
    CursorAfter(w);
    RefreshIsExact(copy, first.table, w.table);
    if i < |copy.rows| {
      RefreshedRow(copy, first.table, w.table, i);
    }
  }

  lemma LoadStands(w: World)
    requires Coherent(w) && w.copy.None?
    ensures CopyStands(Loaded(w.table), w.table, w.clock, {}) && Current(Loaded(w.table).rows, w.table)
  {
    NewestStampBounds(0, w.table, w.clock);
  }

  lemma RefreshStands(w: World)
    requires Coherent(w) && w.copy.Some? && w.first.Some?
    ensures CopyStands(Next(w, ReadRows).copy.value, w.table, w.clock, Next(w, ReadRows).missed)
  {
    CursorAfter(w);
    RefreshedSize(w);
    var copy', missed' := Refreshed(w.copy.value, w.first.value.table, w.table), Next(w, ReadRows).missed;
    forall i | 0 <= i < |copy'.rows| ensures Standing(copy'.rows[i], w.table[i], copy'.cursor, i in missed') {
      RefreshedStands(w, i);
    }
    forall i <- missed' ensures i < |copy'.rows| {}
  }

  lemma RefreshedSize(w: World)
    requires Coherent(w) && w.copy.Some? && w.first.Some?
    ensures |Refreshed(w.copy.value, w.first.value.table, w.table).rows| == |w.table| >= |w.copy.value.rows|
  {
    RefreshIsExact(w.copy.value, w.first.value.table, w.table);
  }

  lemma ReadRowsKeepsCoherent(w: World)
    requires Coherent(w)
    ensures Coherent(Next(w, ReadRows))
  {
    if w.copy.None? {
      LoadStands(w);
    } else if w.first.Some? {
      RefreshStands(w);
    }
  }

  /** One write, seen from one row that was there before. */
  lemma WrittenRow(table: Table, write: Write, now: nat, gap: nat, i: nat)
    requires i < |table|
    ensures
      var after := Written(table, write, now, gap);
      && i < |after| && after[i].id == table[i].id && after[i].words == table[i].words
      && (if i in Touched(table, write) then after[i].stamp == now else after[i] == table[i])
      && after[i].labels == if write.SetLabels? && write.at == i then write.labels else table[i].labels
  {}

  lemma WriteKeepsRows(table: Table, write: Write, clock: nat, now: nat, gap: nat)
    requires IdsAscend(table) && StampedBy(table, clock) && clock < now
    ensures var after := Written(table, write, now, gap);
            IdsAscend(after) && StampedBy(after, now) && |table| <= |after|
  {
    var after := Written(table, write, now, gap);
    forall i | 0 <= i < |table|
      ensures after[i].id == table[i].id && after[i].stamp <= now
    {
      WrittenRow(table, write, now, gap, i);
    }
    if write.Insert? {
      forall i | 0 <= i < |table| ensures after[i].id < after[|table|].id {
        assert i == |table| - 1 || table[i].id < table[|table| - 1].id;
      }
    }
  }

  lemma WriteKeepsCopy(copy: Copy, table: Table, write: Write, clock: nat, now: nat, gap: nat, missed: set<nat>)
    requires CopyStands(copy, table, clock, missed) && clock < now
    requires |table| <= |Written(table, write, now, gap)|
    ensures CopyStands(copy, Written(table, write, now, gap), now, missed - Touched(table, write))
  {
    var after := Written(table, write, now, gap);
    forall i | 0 <= i < |copy.rows|
      ensures copy.rows[i].id == after[i].id && copy.rows[i].words == after[i].words
      ensures Standing(copy.rows[i], after[i], copy.cursor, i in missed - Touched(table, write))
    {
      WrittenRow(table, write, now, gap, i);
      assert Standing(copy.rows[i], table[i], copy.cursor, i in missed);
    }
  }

  lemma WriteKeepsReading(copy: Copy, first: Reading, table: Table, write: Write, clock: nat, now: nat, gap: nat,
                          torn: set<nat>)
    requires ReadingStands(copy, first, table, clock, torn) && clock < now
    requires |table| <= |Written(table, write, now, gap)|
    ensures ReadingStands(copy, first, Written(table, write, now, gap), now, TornBy(copy, first.table, torn, write))
  {
    var after, torn' := Written(table, write, now, gap), TornBy(copy, first.table, torn, write);
    forall i | 0 <= i < |copy.rows|
      ensures copy.rows[i].id == after[i].id && copy.rows[i].words == after[i].words
      ensures i in torn' <==> Base(copy, first.table, i).labels != after[i].labels
    {
      WrittenRow(table, write, now, gap, i);
    }
  }

  lemma CommitKeepsCoherent(w: World, write: Write, pause: nat, gap: nat)
    requires Coherent(w)
    ensures Coherent(Next(w, Commit(write, pause, gap)))
  {
    CommitKeepsTable(w, write, pause, gap);
    if w.copy.Some? {
      CommitKeepsCopy(w, write, pause, gap);
    }
    if w.first.Some? {
      CommitKeepsReading(w, write, pause, gap);
    }
  }

  lemma CommitKeepsTable(w: World, write: Write, pause: nat, gap: nat)
    requires Coherent(w)
    ensures var w' := Next(w, Commit(write, pause, gap)); IdsAscend(w'.table) && StampedBy(w'.table, w'.clock)
  {
    WriteKeepsRows(w.table, write, w.clock, w.clock + 1 + pause, gap);
  }

  lemma CommitKeepsCopy(w: World, write: Write, pause: nat, gap: nat)
    requires Coherent(w) && w.copy.Some?
    ensures var w' := Next(w, Commit(write, pause, gap)); CopyStands(w.copy.value, w'.table, w'.clock, w'.missed)
  {
    WriteGrows(w.table, write, w.clock + 1 + pause, gap);
    WriteKeepsCopy(w.copy.value, w.table, write, w.clock, w.clock + 1 + pause, gap, w.missed);
  }

  lemma CommitKeepsReading(w: World, write: Write, pause: nat, gap: nat)
    requires Coherent(w) && w.first.Some?
    ensures var w' := Next(w, Commit(write, pause, gap));
            ReadingStands(w.copy.value, w.first.value, w'.table, w'.clock, w'.torn)
  {
    WriteGrows(w.table, write, w.clock + 1 + pause, gap);
    WriteKeepsReading(w.copy.value, w.first.value, w.table, write, w.clock, w.clock + 1 + pause, gap, w.torn);
  }

  lemma WriteGrows(table: Table, write: Write, now: nat, gap: nat)
    ensures |table| <= |Written(table, write, now, gap)|
  {}

  lemma ReadLabelsKeepsCoherent(w: World)
    requires Coherent(w)
    ensures Coherent(Next(w, ReadLabels))
  {
    if w.copy.Some? && w.first.None? {
      forall i | 0 <= i < |w.copy.value.rows|
        ensures i in w.missed <==> Base(w.copy.value, w.table, i).labels != w.table[i].labels
      {
        assert Standing(w.copy.value.rows[i], w.table[i], w.copy.value.cursor, i in w.missed);
      }
    }
  }

  lemma {:induction false} RunIsCoherent(events: seq<Event>)
    ensures Coherent(Run(Start(), events))
  {
    if events != [] {
      var w := Run(Start(), events[..|events| - 1]);
      RunIsCoherent(events[..|events| - 1]);
      match events[|events| - 1]
      case Commit(write, pause, gap) => CommitKeepsCoherent(w, write, pause, gap);
      case ReadLabels => ReadLabelsKeepsCoherent(w);
      case ReadRows => ReadRowsKeepsCoherent(w);
    }
  }

  lemma RefreshReadsRight(w: World)
    requires Coherent(w) && w.copy.Some? && w.first.Some?
    ensures Current(Refreshed(w.copy.value, w.first.value.table, w.table).rows, w.table) <==> w.torn == {}
  {
    RefreshIsExact(w.copy.value, w.first.value.table, w.table);
    if i :| i in w.torn {
      assert Base(w.copy.value, w.first.value.table, i).labels != w.table[i].labels;
    }
  }

  /** Exactly which seats read the whole chat, over every interleaving of writes
      with the refreshes' queries, if later commits carry later stamps: the first
      always, and a later one if and only if no held row is torn, that is, none was
      missed before its label query, or given another label between its two queries,
      and not given the very label the refresh was going to leave since. */
  lemma {:induction false} ASeatReadsTheWholeChatExactly(events: seq<Event>)
    ensures
      var w := Run(Start(), events);
      && (w.copy.None? ==> Current(Next(w, ReadRows).copy.value.rows, w.table))
      && (w.copy.Some? && w.first.Some? ==>
            (Current(Next(w, ReadRows).copy.value.rows, w.table) <==> w.torn == {}))
  {
    RunIsCoherent(events);
    var w := Run(Start(), events);
    if w.copy.None? {
      LoadStands(w);
    } else if w.first.Some? {
      RefreshReadsRight(w);
    }
  }

  /** What is missed, over every run: between refreshes, exactly the held rows that
      carry another label than the table's with a stamp the cursor has passed. */
  lemma {:induction false} MissedExactly(events: seq<Event>, i: nat)
    requires var w := Run(Start(), events); w.copy.Some? && i < |w.copy.value.rows|
    ensures
      var w := Run(Start(), events);
      && |w.copy.value.rows| <= |w.table|
      && (i in w.missed <==>
            w.copy.value.rows[i].labels != w.table[i].labels && w.table[i].stamp <= w.copy.value.cursor)
  {
    RunIsCoherent(events);
    var w := Run(Start(), events);
    assert Standing(w.copy.value.rows[i], w.table[i], w.copy.value.cursor, i in w.missed);
  }

  /** No commit falls between the two queries of a refresh. */
  predicate Unbroken(events: seq<Event>) {
    forall k | 0 < k < |events| && events[k - 1].ReadLabels? :: events[k].ReadRows?
  }

  lemma {:induction false} UnbrokenMissesNothing(events: seq<Event>)
    requires Unbroken(events)
    ensures var w := Run(Start(), events);
            && w.torn == {} && w.missed == {}
            && (w.first.Some? ==> events != [] && events[|events| - 1].ReadLabels?)
  {
    if events != [] {
      var init := events[..|events| - 1];
      UnbrokenMissesNothing(init);
      RunIsCoherent(init);
      assert init != [] ==> init[|init| - 1] == events[|events| - 2];
    }
  }

  /** Every commit lands, and every refresh made ends with all the messages there are:
      the queries are made when they can be, and a seat's read is over with the second. */
  lemma {:induction false} EveryStepIsTaken(events: seq<Event>, write: Write, pause: nat, gap: nat)
    ensures
      var w := Run(Start(), events);
      var committed := Next(w, Commit(write, pause, gap));
      && committed.clock > w.clock && committed.copy == w.copy && committed.first == w.first
      && committed.table == Written(w.table, write, committed.clock, gap)
      && (w.copy.Some? && w.first.None? ==> Next(w, ReadLabels).first == Some(Reading(w.table, w.clock)))
      && (w.copy.None? || w.first.Some? ==>
            var read := Next(w, ReadRows);
            && read.copy.Some? && read.first.None? && read.table == w.table && |read.copy.value.rows| == |w.table|
            && forall i | 0 <= i < |w.table| ::
                 read.copy.value.rows[i].id == w.table[i].id && read.copy.value.rows[i].words == w.table[i].words)
  {
    RunIsCoherent(events);
    var w := Run(Start(), events);
    if w.copy.Some? && w.first.Some? {
      RefreshIsExact(w.copy.value, w.first.value.table, w.table);
      forall i | 0 <= i < |w.table|
        ensures Next(w, ReadRows).copy.value.rows[i].id == w.table[i].id
                && Next(w, ReadRows).copy.value.rows[i].words == w.table[i].words
      {
        RefreshedStamp(w, i);
      }
    }
  }

  /** What one write does to the table: a new last row under a new id, stamped if it
      carries a label; or one row's labels, or its heard note, and its stamp. */
  lemma AWriteLands(table: Table, w: Write, now: nat, gap: nat)
    requires IdsAscend(table)
    ensures
      var table' := Written(table, w, now, gap);
      && IdsAscend(table')
      && match w
         case Insert(words, labels) =>
           && |table'| == |table| + 1 && table <= table'
           && var row := table'[|table|];
              row.words == words && row.labels == labels && row.heard == 0 && (labels != 0 ==> row.stamp == now)
         case SetLabels(at, labels) =>
           table' == if at < |table| then table[at := Row(table[at].id, table[at].words, table[at].heard, labels, now)] else table
         case SetHeard(at, heard) =>
           table' == if at < |table| then table[at := Row(table[at].id, table[at].words, heard, table[at].labels, now)] else table
  {}

  /** If no commit falls between the two queries of a refresh, every seat reads the
      whole chat, heard notes aside. */
  lemma {:induction false} EverySeatReadsTheWholeChat(events: seq<Event>)
    requires Unbroken(events)
    ensures var w := Run(Start(), events);
            w.copy.None? || w.first.Some? ==> Current(Next(w, ReadRows).copy.value.rows, w.table)
  {
    UnbrokenMissesNothing(events);
    ASeatReadsTheWholeChatExactly(events);
  }

  /** A missed row is read right again once it is written again, by any write, and a
      refresh begins after that. */
  lemma AWriteMendsAMissedRow(w: World, write: Write, pause: nat, gap: nat, i: nat)
    requires Coherent(w) && w.copy.Some? && w.first.None? && i in Touched(w.table, write)
    ensures i !in Next(Next(w, Commit(write, pause, gap)), ReadLabels).torn
  {}

  /** A heard write between a refresh's two queries tears nothing. */
  lemma AHeardWriteTearsNothing(w: World, at: nat, heard: Heard, pause: nat, gap: nat)
    requires w.copy.Some? && w.first.Some?
    ensures Next(w, Commit(SetHeard(at, heard), pause, gap)).torn == w.torn
  {}

  // ---------- the ways it can miss ----------

  lemma APassedStampIsMissed(copy: Copy, table: Table, i: nat)
    requires Aligned(copy, table) && IdsAscend(table) && i < |copy.rows|
    requires copy.rows[i].labels != table[i].labels && table[i].stamp <= copy.cursor
    ensures !Current(Refreshed(copy, table, table).rows, table)
  {
    RefreshIsExact(copy, table, table);
    assert Base(copy, table, i).labels != table[i].labels;
  }

  /** Two label writes under one stamp: the second is never folded in. */
  lemma AnEqualStampIsMissed()
    ensures var before := [Row(1, 7, 0, 5, 9), Row(2, 8, 0, 0, 0)];
            var copy := Loaded(before);
            var table := Written(before, SetLabels(1, 6), 9, 0);
            && Aligned(copy, table) && IdsAscend(table)
            && !Current(Refreshed(copy, table, table).rows, table)
  {
    var before := [Row(1, 7, 0, 5, 9), Row(2, 8, 0, 0, 0)];
    assert before[..1] == [Row(1, 7, 0, 5, 9)] && before[..1][..0] == [];
    assert NewestStamp(0, before[..1]) == 9;
    var copy := Loaded(before);
    var table := Written(before, SetLabels(1, 6), 9, 0);
    APassedStampIsMissed(copy, table, 1);
  }

  /** A label written between a refresh's two reads, with a labelled row inserted
      after it: the cursor passes the label, so no later refresh folds it in. */
  lemma AWriteBetweenTheReadsIsMissed()
    ensures var first := [Row(1, 7, 0, 0, 0)];
            var second := Written(Written(first, SetLabels(0, 5), 8, 0), Insert(9, 6), 9, 0);
            var torn := Refreshed(Loaded(first), first, second);
            && Aligned(torn, second) && IdsAscend(second)
            && !Current(Refreshed(torn, second, second).rows, second)
  {
    TornTable();
    TornRows();
    APassedStampIsMissed(TornCopy(), Second(), 0);
  }

  function First(): Table {
    [Row(1, 7, 0, 0, 0)]
  }

  function Second(): Table {
    [Row(1, 7, 0, 5, 8), Row(2, 9, 0, 6, 9)]
  }

  function TornCopy(): Copy {
    Copy([Row(1, 7, 0, 0, 0), Row(2, 9, 0, 6, 9)], 2, 9)
  }

  lemma TornTable()
    ensures Second() == Written(Written(First(), SetLabels(0, 5), 8, 0), Insert(9, 6), 9, 0)
    ensures IdsAscend(Second()) && Aligned(TornCopy(), Second())
  {}

  lemma NewestStampSnoc(cursor: nat, rows: seq<Row>, row: Row)
    ensures NewestStamp(cursor, rows + [row])
            == if row.stamp > NewestStamp(cursor, rows) then row.stamp else NewestStamp(cursor, rows)
  {
    assert (rows + [row])[..|rows|] == rows;
  }

  lemma TornStamps()
    ensures NewestStamp(0, First()) == 0 && NewestStamp(0, TornCopy().rows) == 9
  {
    var start: Table := [];
    var row, next := Row(1, 7, 0, 0, 0), Row(2, 9, 0, 6, 9);
    NewestStampSnoc(0, start, row);
    assert start + [row] == First();
    NewestStampSnoc(0, First(), next);
    assert First() + [next] == TornCopy().rows;
  }

  lemma TornLoad()
    ensures Loaded(First()) == Copy(First(), 1, 0) && Updates(First(), 0) == map[]
  {
    TornStamps();
    assert First()[..0] == [];
  }

  lemma TornRest()
    ensures Restrict(Second(), After(1)) == [Row(2, 9, 0, 6, 9)]
  {
    TheRestIsNew(Copy(First(), 1, 0), Second());
    assert Second()[1..] == [Row(2, 9, 0, 6, 9)];
  }

  lemma TornRows()
    ensures Refreshed(Loaded(First()), First(), Second()) == TornCopy()
  {
    TornLoad();
    TornStamps();
    TornRest();
    assert Folded(First(), map[]) == First();
    assert First() + [Row(2, 9, 0, 6, 9)] == TornCopy().rows;
  }
}
