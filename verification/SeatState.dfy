/** One chat's rows of chat_seat_state and their writers (backend/db.py:
    set_chat_seat_depth, set_chat_seat_once, take_chat_seat_once_by,
    set_chat_seat_model, clear_chat_seat_model, _prune_seat_row). */
module SeatState {
  import opened Wrappers

  type Slug = int
  type Who = int  // a name; 0 is nobody

  /** A stored reasoning effort; Unset is ''. */
  datatype Level = Unset | High | Low | Highest

  datatype StepUp = StepUp(model: int, replaced: int)

  datatype SeatRow = SeatRow(depth: Level, setBy: Who, once: Level, onceBy: Who, model: Option<StepUp>)

  type Rows = map<Slug, SeatRow>

  const BLANK := SeatRow(Unset, 0, Unset, 0, None)

  predicate Empty(row: SeatRow) {
    row.depth == Unset && row.once == Unset && row.model == None
  }

  /** A field that is not set credits nobody. */
  predicate Tidy(row: SeatRow) {
    (row.depth == Unset ==> row.setBy == 0) && (row.once == Unset ==> row.onceBy == 0)
  }

  /** Every row holds something. */
  ghost predicate RowsOk(rows: Rows) {
    forall slug <- rows :: Tidy(rows[slug]) && !Empty(rows[slug])
  }

  function RowAt(rows: Rows, slug: Slug): SeatRow {
    if slug in rows then rows[slug] else BLANK
  }

  /** The rows with `slug` holding `row`: no row at all when it holds nothing. */
  function Put(rows: Rows, slug: Slug, row: SeatRow): Rows {
    if Empty(row) then rows - {slug} else rows[slug := row]
  }

  function Cleared(row: SeatRow, keepOnce: bool): SeatRow {
    if keepOnce then row.(depth := Unset, setBy := 0) else row.(depth := Unset, setBy := 0, once := Unset, onceBy := 0)
  }

  class SeatTable {
    var rows: Rows

    constructor ()
      ensures rows == map[]
    {
      rows := map[];
    }

    method Prune(slug: Slug)
      modifies this
      ensures rows == if slug in old(rows) then Put(old(rows), slug, old(rows)[slug]) else old(rows)
    {
      if slug in rows && rows[slug].depth == Unset && rows[slug].once == Unset && rows[slug].model == None {
        rows := rows - {slug};
      } else if slug in rows {
        assert rows == rows[slug := rows[slug]];
      }
    }

    method SetDepth(slug: Slug, level: Level, keepOnce: bool, setBy: Who)
      requires RowsOk(rows)
      modifies this
      ensures RowsOk(rows)
      ensures rows == Put(old(rows), slug,
                          if level != Unset then RowAt(old(rows), slug).(depth := level, setBy := setBy)
                          else Cleared(RowAt(old(rows), slug), keepOnce))
    {
      if level != Unset {
        if slug in rows {
          rows := rows[slug := rows[slug].(depth := level, setBy := setBy)];
        } else {
          rows := rows[slug := SeatRow(level, setBy, Unset, 0, None)];
        }
      } else {
        if slug in rows {
          if keepOnce {
            rows := rows[slug := rows[slug].(depth := Unset, setBy := 0)];
          } else {
            rows := rows[slug := rows[slug].(depth := Unset, setBy := 0, once := Unset, onceBy := 0)];
          }
        } else {
          assert old(rows) - {slug} == old(rows);
        }
        Prune(slug);
      }
    }

    method SetOnce(slug: Slug, level: Level, onceBy: Who)
      requires RowsOk(rows) && level != Unset
      modifies this
      ensures RowsOk(rows)
      ensures rows == Put(old(rows), slug, RowAt(old(rows), slug).(once := level, onceBy := onceBy))
    {
      if slug in rows {
        rows := rows[slug := rows[slug].(once := level, onceBy := onceBy)];
      } else {
        rows := rows[slug := SeatRow(Unset, 0, level, onceBy, None)];
      }
    }

    /** Consume the parked override: it is returned once and gone, the rest stays. */
    method TakeOnceBy(slug: Slug) returns (level: Level, who: Who)
      requires RowsOk(rows)
      modifies this
      ensures RowsOk(rows)
      ensures level == RowAt(old(rows), slug).once && who == RowAt(old(rows), slug).onceBy
      ensures rows == Put(old(rows), slug, RowAt(old(rows), slug).(once := Unset, onceBy := 0))
    {
      if slug !in rows || rows[slug].once == Unset {
        assert rows == Put(rows, slug, RowAt(rows, slug));
        return Unset, 0;
      }
      level, who := rows[slug].once, rows[slug].onceBy;
      rows := rows[slug := rows[slug].(once := Unset, onceBy := 0)];
      Prune(slug);
    }

    method SetModel(slug: Slug, step: StepUp)
      requires RowsOk(rows)
      modifies this
      ensures RowsOk(rows)
      ensures rows == Put(old(rows), slug, RowAt(old(rows), slug).(model := Some(step)))
    {
      if slug in rows {
        rows := rows[slug := rows[slug].(model := Some(step))];
      } else {
        rows := rows[slug := BLANK.(model := Some(step))];
      }
    }

    method ClearModel(slug: Slug) returns (cleared: bool)
      requires RowsOk(rows)
      modifies this
      ensures RowsOk(rows)
      ensures cleared == RowAt(old(rows), slug).model.Some?
      ensures rows == Put(old(rows), slug, RowAt(old(rows), slug).(model := None))
    {
      cleared := slug in rows && rows[slug].model.Some?;
      if cleared {
        rows := rows[slug := rows[slug].(model := None)];
        Prune(slug);
      } else {
        assert rows == Put(rows, slug, RowAt(rows, slug));
      }
    }
  }

  /** A write to one seat's row is read back, keeps every other row, and leaves no
      row that holds nothing. */
  lemma PutThenRead(rows: Rows, slug: Slug, row: SeatRow, other: Slug)
    requires RowsOk(rows) && Tidy(row)
    ensures RowsOk(Put(rows, slug, row))
    ensures RowAt(Put(rows, slug, row), other) == if other == slug then row else RowAt(rows, other)
  {}

  /** Two writes to one row: the second stands. */
  lemma PutTwice(rows: Rows, slug: Slug, first: SeatRow, second: SeatRow)
    ensures RowAt(Put(rows, slug, first), slug) == if Empty(first) then BLANK else first
    ensures Put(Put(rows, slug, first), slug, second) == Put(rows, slug, second)
  {}
}
