/** The speaker-label handoff (backend/diarize.py: park_label, claim_label,
    _attach_until_deadline, _attach_labels; backend/db.py: insert_message,
    set_message_voice_labels) for turns with a turn id, each sent once and
    checked by one identity pass. */
module LabelHandoff {
  import opened Wrappers
  import opened Sorting

  type Turn = int
  type Word = int  // one normalised word of a message

  /** A label payload; `segments` is the crosstalk split, [] when there is none. */
  datatype Payload = Payload(labels: seq<string>, segments: seq<seq<Word>>)

  const PENDING_MAX: nat := 32
  const PENDING_LABEL_TTL := 30000  // milliseconds

  // ---------- the payload a message may carry ----------

  function Joined(segments: seq<seq<Word>>): seq<Word> {
    if segments == [] then [] else Joined(segments[..|segments| - 1]) + segments[|segments| - 1]
  }

  /** May a split be shown against this text? Only when its words read as it. */
  predicate SegmentsAlign(segments: seq<seq<Word>>, content: seq<Word>) {
    segments != [] && Joined(segments) != [] && Joined(segments) == content
  }

  /** Do the segments' words, one segment after another, read as the text? */
  predicate ReadsAs(segments: seq<seq<Word>>, content: seq<Word>) {
    if segments == [] then content == []
    else segments[0] <= content && ReadsAs(segments[1..], content[|segments[0]|..])
  }

  lemma {:induction false} JoinedFirst(segments: seq<seq<Word>>)
    requires segments != []
    ensures Joined(segments) == segments[0] + Joined(segments[1..])
  {
    if |segments| == 1 {
      assert segments[..0] == [] && segments[1..] == [];
    } else {
      var init, last := segments[..|segments| - 1], segments[|segments| - 1];
      JoinedFirst(init);
      assert init[1..] == segments[1..][..|segments| - 2] && segments[1..][|segments| - 2] == last;
      assert segments[0] + Joined(init[1..]) + last == segments[0] + (Joined(init[1..]) + last);
    }
  }

  lemma {:induction false} JoinedReads(segments: seq<seq<Word>>, content: seq<Word>)
    ensures Joined(segments) == content <==> ReadsAs(segments, content)
  {
    if segments != [] {
      var head, rest := segments[0], Joined(segments[1..]);
      JoinedFirst(segments);
      if head <= content {
        JoinedReads(segments[1..], content[|head|..]);
        assert content == head + content[|head|..];
        if head + rest == content {
          assert rest == (head + rest)[|head|..];
        }
      } else {
        assert head <= head + rest;
      }
    }
  }

  /** A payload keeps its split exactly when it has none, or the split reads as the
      message and says something; its labels it always keeps. */
  lemma ASplitStaysWhenItReads(payload: Payload, content: seq<Word>)
    ensures FitToMessage(payload, content).labels == payload.labels
    ensures FitToMessage(payload, content).segments
            == if content != [] && ReadsAs(payload.segments, content) then payload.segments else []
  {
    JoinedReads(payload.segments, content);
  }

  function FitToMessage(payload: Payload, content: seq<Word>): (r: Payload)
    ensures r.labels == payload.labels
    ensures r.segments != [] ==> r == payload && SegmentsAlign(r.segments, content)
    ensures SegmentsAlign(payload.segments, content) ==> r == payload
  {
    if payload.segments != [] && !SegmentsAlign(payload.segments, content) then payload.(segments := [])
    else payload
  }

  // ---------- the labels waiting ----------

  datatype Waiting = Waiting(turn: Turn, payload: Payload, at: nat)

  /** What became of a parked mark. */
  datatype Fate = Claimed | Expired | Evicted

  type Log = seq<(Turn, Fate)>

  function Turns(pending: seq<Waiting>): seq<Turn> {
    seq(|pending|, i requires 0 <= i < |pending| => pending[i].turn)
  }

  predicate IsStale(w: Waiting, now: nat) {
    now - w.at > PENDING_LABEL_TTL
  }

  function Stale(now: nat): Waiting -> bool {
    (w: Waiting) => IsStale(w, now)
  }

  function Live(now: nat): Waiting -> bool {
    (w: Waiting) => !IsStale(w, now)
  }

  function Fates(gone: seq<Waiting>, fate: Fate): Log {
    seq(|gone|, i requires 0 <= i < |gone| => (gone[i].turn, fate))
  }

  function NotTurn(turn: Turn): Waiting -> bool {
    (w: Waiting) => w.turn != turn
  }

  /** `pending[turn] = entry`: in place when the turn waits already, else last. */
  function Put(pending: seq<Waiting>, entry: Waiting): seq<Waiting> {
    if pending == [] then [entry]
    else if pending[0].turn == entry.turn then [entry] + pending[1..]
    else [pending[0]] + Put(pending[1..], entry)
  }

  /** Park one label: sweep the stale, add it, evict the oldest past the cap. */
  function Park(pending: seq<Waiting>, entry: Waiting): (seq<Waiting>, Log) {
    var swept := Restrict(pending, Stale(entry.at));
    var put := Put(Restrict(pending, Live(entry.at)), entry);
    var over := if |put| > PENDING_MAX then |put| - PENDING_MAX else 0;
    (put[over..], Fates(swept, Expired) + Fates(put[..over], Evicted))
  }

  function Find(pending: seq<Waiting>, turn: Turn): (r: Option<Waiting>)
    ensures r.Some? ==> r.value in pending && r.value.turn == turn
    ensures r.None? ==> forall w <- pending :: w.turn != turn
  {
    if pending == [] then None
    else if pending[0].turn == turn then Some(pending[0])
    else Find(pending[1..], turn)
  }

  /** Claim one label at insert time: single use, and none when it is stale. */
  function Claim(pending: seq<Waiting>, turn: Turn, content: seq<Word>, now: nat):
    (seq<Waiting>, Option<Payload>, Log)
  {
    var entry := Find(pending, turn);
    var left := Restrict(pending, NotTurn(turn));
    if entry.None? then (pending, None, [])
    else if IsStale(entry.value, now) then (left, None, [(turn, Expired)])
    else (left, Some(FitToMessage(entry.value.payload, content)), [(turn, Claimed)])
  }

  /** The labels waiting, as module state; `log` is the whole breadcrumb trail. */
  class LabelDesk {
    var pending: seq<Waiting>
    ghost var log: Log

    constructor ()
      ensures pending == [] && log == []
    {
      pending, log := [], [];
    }

    method ParkLabel(turn: Turn, payload: Payload, now: nat)
      modifies this
      ensures (pending, log) == (Park(old(pending), Waiting(turn, payload, now)).0,
                                 old(log) + Park(old(pending), Waiting(turn, payload, now)).1)
    {
      var before := pending;
      var live: seq<Waiting> := [];
      for i := 0 to |before|
        invariant live == Restrict(before[..i], Live(now))
        invariant log == old(log) + Fates(Restrict(before[..i], Stale(now)), Expired)
      {
        assert before[..i + 1][..i] == before[..i];
        if IsStale(before[i], now) {
          log := log + [(before[i].turn, Expired)];
        } else {
          live := live + [before[i]];
        }
      }
      assert before[..|before|] == before;
      pending := Put(live, Waiting(turn, payload, now));
      ghost var put, logged := pending, log;
      ghost var k := 0;
      while |pending| > PENDING_MAX
        invariant 0 <= k <= |put| && pending == put[k..] && (k > 0 ==> |pending| >= PENDING_MAX)
        invariant log == logged + Fates(put[..k], Evicted)
      {
        log := log + [(pending[0].turn, Evicted)];
        pending := pending[1..];
        k := k + 1;
      }
      assert k == if |put| > PENDING_MAX then |put| - PENDING_MAX else 0;
      assert log == old(log) + (Fates(Restrict(before, Stale(now)), Expired) + Fates(put[..k], Evicted));
    }

    method ClaimLabel(turn: Turn, content: seq<Word>, now: nat) returns (mark: Option<Payload>)
      modifies this
      ensures (pending, mark) == (Claim(old(pending), turn, content, now).0, Claim(old(pending), turn, content, now).1)
      ensures log == old(log) + Claim(old(pending), turn, content, now).2
    {
      var entry := Find(pending, turn);
      if entry.None? {
        assert log + [] == log;
        return None;
      }
      pending := Restrict(pending, NotTurn(turn));
      if IsStale(entry.value, now) {
        log := log + [(turn, Expired)];
        return None;
      }
      log := log + [(turn, Claimed)];
      mark := Some(FitToMessage(entry.value.payload, content));
    }
  }

  // ---------- the protocol ----------

  /** A user message with a turn id. `writes` counts the label writes the handoff
      made, its insert's included; `relabels` those of everyone else: the owner's
      correction, an introduction, a vouch. */
  datatype Row = Row(content: seq<Word>, mark: Option<Payload>, writes: nat, relabels: nat)

  datatype Attempt = NoRowYet | Nothing | Labelled

  /** What an attempt's read of the row finds. */
  datatype Finding = NotThere | Taken | Carried | Free

  /** The row may be there, labelled by the claim of this very payload, labelled
      otherwise, or unlabelled. */
  function LooksAt(rows: map<Turn, Row>, labelled: set<Turn>, turn: Turn, payload: Payload): Finding {
    if turn !in rows then NotThere
    else
      var row := rows[turn];
      if turn in labelled then Taken
      else if row.mark.None? then Free
      else if row.mark.value == FitToMessage(payload, row.content) then Carried
      else Taken
  }

  function WrittenOver(rows: map<Turn, Row>, turn: Turn, payload: Payload): map<Turn, Row>
    requires turn in rows
  {
    var row := rows[turn];
    rows[turn := row.(mark := Some(FitToMessage(payload, row.content)), writes := row.writes + 1)]
  }

  function RelabelledBy(rows: map<Turn, Row>, turn: Turn, payload: Payload): map<Turn, Row>
    requires turn in rows
  {
    rows[turn := rows[turn].(mark := Some(payload), relabels := rows[turn].relabels + 1)]
  }

  /** One attempt to label the turn's row; `between` is what another writer commits
      after its read and before its write. */
  function AttachTo(rows: map<Turn, Row>, labelled: set<Turn>, turn: Turn, payload: Payload, between: Option<Payload>):
    (map<Turn, Row>, set<Turn>, Attempt)
  {
    if turn !in rows then (rows, labelled, NoRowYet)
    else
      var rows' := if between.Some? then RelabelledBy(rows, turn, between.value) else rows;
      match LooksAt(rows, labelled, turn, payload)
      case Free => (WrittenOver(rows', turn, payload), labelled + {turn}, Labelled)
      case Carried => (rows', labelled + {turn}, Labelled)
      case _ => (rows', labelled, Nothing)
  }

  /** The chat's rows and the ids this session has labelled. */
  class Session {
    var rows: map<Turn, Row>
    var labelled: set<Turn>

    constructor (rows: map<Turn, Row>)
      ensures this.rows == rows && labelled == {}
    {
      this.rows, labelled := rows, {};
    }

    /** set_message_voice_labels, called by anyone else. */
    method Relabel(turn: Turn, payload: Option<Payload>)
      requires turn in rows
      modifies this`rows
      ensures rows == if payload.Some? then RelabelledBy(old(rows), turn, payload.value) else old(rows)
    {
      if payload.Some? {
        rows := rows[turn := rows[turn].(mark := payload, relabels := rows[turn].relabels + 1)];
      }
    }

    method AttachLabels(turn: Turn, payload: Payload, between: Option<Payload>) returns (attempt: Attempt)
      modifies this
      ensures (rows, labelled, attempt) == AttachTo(old(rows), old(labelled), turn, payload, between)
      ensures attempt.Labelled? && between.None? ==>
                turn in rows && rows[turn].mark == Some(FitToMessage(payload, rows[turn].content))
    {
      if turn !in rows {
        return NoRowYet;
      }
      var target := rows[turn];
      Relabel(turn, between);
      if turn in labelled {
        return Nothing;
      }
      var fitted := FitToMessage(payload, target.content);
      if target.mark.Some? {
        if target.mark.value == fitted {
          labelled := labelled + {turn};
          return Labelled;
        }
        return Nothing;
      }
      rows := rows[turn := rows[turn].(mark := Some(fitted), writes := rows[turn].writes + 1)];
      labelled := labelled + {turn};
      attempt := Labelled;
    }
  }

  /** A pass: still looking for its row, about to write on it, or through. */
  datatype Pass = Looking(payload: Payload) | Writing(payload: Payload) | Done(payload: Payload, labelled: bool)

  /** The send between its claim and its insert, then after it. */
  datatype Send = Inserting(content: seq<Word>, mark: Option<Payload>) | Sent

  datatype World = World(
    now: nat, pending: seq<Waiting>, log: Log,
    rows: map<Turn, Row>, passes: map<Turn, Pass>, sends: map<Turn, Send>, labelled: set<Turn>)

  datatype Event =
    | Tick(ms: nat)
    | StartPass(turn: Turn, payload: Payload)      // park_label, then look
    | StartSend(turn: Turn, content: seq<Word>)    // claim_label
    | Insert(turn: Turn)                           // insert_message
    | Look(turn: Turn)                             // one _attach_labels attempt reads the row
    | Write(turn: Turn)                            // and writes it, having found it unlabelled
    | GiveUp(turn: Turn)                           // its deadline passes
    | Relabel(turn: Turn, payload: Payload)        // anyone else's set_message_voice_labels

  predicate Enabled(w: World, e: Event) {
    match e
    case Tick(_) => true
    case StartPass(turn, _) => turn !in w.passes
    case StartSend(turn, _) => turn !in w.sends
    case Insert(turn) => turn in w.sends && w.sends[turn].Inserting?
    case Look(turn) => turn in w.passes && w.passes[turn].Looking?
    case Write(turn) => turn in w.passes && w.passes[turn].Writing? && turn in w.rows
    case GiveUp(turn) => turn in w.passes && w.passes[turn].Looking?
    case Relabel(turn, _) => turn in w.rows
  }

  function Looked(w: World, turn: Turn): World
    requires Enabled(w, Look(turn))
  {
    var payload := w.passes[turn].payload;
    match LooksAt(w.rows, w.labelled, turn, payload)
    case NotThere => w
    case Free => w.(passes := w.passes[turn := Writing(payload)])
    case Carried => w.(labelled := w.labelled + {turn}, passes := w.passes[turn := Done(payload, true)])
    case Taken => w.(passes := w.passes[turn := Done(payload, false)])
  }

  function Next(w: World, e: Event): World
    requires Enabled(w, e)
  {
    match e
    case Tick(ms) => w.(now := w.now + ms)
    case StartPass(turn, payload) =>
      var (pending, fates) := Park(w.pending, Waiting(turn, payload, w.now));
      w.(pending := pending, log := w.log + fates, passes := w.passes[turn := Looking(payload)])
    case StartSend(turn, content) =>
      var (pending, mark, fates) := Claim(w.pending, turn, content, w.now);
      w.(pending := pending, log := w.log + fates, sends := w.sends[turn := Inserting(content, mark)])
    case Insert(turn) =>
      var send := w.sends[turn];
      w.(rows := w.rows[turn := Row(send.content, send.mark, if send.mark.Some? then 1 else 0, 0)],
         sends := w.sends[turn := Sent])
    case Look(turn) => Looked(w, turn)
    case Write(turn) =>
      w.(rows := WrittenOver(w.rows, turn, w.passes[turn].payload), labelled := w.labelled + {turn},
         passes := w.passes[turn := Done(w.passes[turn].payload, true)])
    case GiveUp(turn) => w.(passes := w.passes[turn := Done(w.passes[turn].payload, false)])
    case Relabel(turn, payload) => w.(rows := RelabelledBy(w.rows, turn, payload))
  }

  function After(w: World, events: seq<Event>): World {
    if events == [] then w
    else
      var before := After(w, events[..|events| - 1]);
      if Enabled(before, events[|events| - 1]) then Next(before, events[|events| - 1]) else before
  }

  function Start(): World {
    World(0, [], [], map[], map[], map[], {})
  }

  // ---------- the invariant ----------

  ghost predicate RowOk(w: World, turn: Turn)
    requires turn in w.rows
  {
    var row := w.rows[turn];
    && turn in w.sends && w.sends[turn].Sent?
    && row.writes <= 1
    && (row.mark.None? ==> row.writes == 0 && row.relabels == 0 && turn !in w.labelled)
    && (row.mark.Some? && row.relabels == 0 ==>
          row.writes == 1 && turn in w.passes && row.mark.value == FitToMessage(w.passes[turn].payload, row.content))
    && (turn in w.passes && w.passes[turn].Writing? ==> row.writes == 0)
  }

  ghost predicate PassOk(w: World, turn: Turn)
    requires turn in w.passes
  {
    && (turn in w.labelled <==> w.passes[turn].Done? && w.passes[turn].labelled)
    && (turn in w.labelled ==> turn in w.rows && w.rows[turn].mark.Some?)
    && (w.passes[turn].Writing? ==> turn in w.rows)
  }

  ghost predicate SendOk(w: World, turn: Turn)
    requires turn in w.sends
  {
    && (w.sends[turn].Inserting? ==>
          && turn !in w.rows
          && (w.sends[turn].mark.Some? ==>
                && turn in w.passes
                && w.sends[turn].mark.value == FitToMessage(w.passes[turn].payload, w.sends[turn].content)))
  }

  function FateTurns(log: Log): seq<Turn> {
    seq(|log|, i requires 0 <= i < |log| => log[i].0)
  }

  /** Every label parked so far is in one place: it waits, or it met one fate. */
  ghost predicate DeskOk(w: World) {
    && |w.pending| <= PENDING_MAX
    && multiset(FateTurns(w.log)) + multiset(Turns(w.pending)) == multiset(w.passes.Keys)
    && forall p <- w.pending :: p.turn in w.passes && p.payload == w.passes[p.turn].payload
  }

  ghost predicate HandoffOk(w: World) {
    && DeskOk(w)
    && (forall turn <- w.rows :: RowOk(w, turn))
    && (forall turn <- w.passes :: PassOk(w, turn))
    && (forall turn <- w.sends :: SendOk(w, turn))
    && forall turn <- w.labelled :: turn in w.passes
  }

  // ---------- the waiting list conserves labels ----------

  lemma TurnsSnoc(s: seq<Waiting>, e: Waiting)
    ensures Turns(s + [e]) == Turns(s) + [e.turn]
  {}

  lemma TurnsMembers(s: seq<Waiting>, turn: Turn)
    ensures turn in multiset(Turns(s)) <==> exists w <- s :: w.turn == turn
  {
    assert turn in multiset(Turns(s)) <==> turn in Turns(s);
    if w :| w in s && w.turn == turn {
      var i :| 0 <= i < |s| && s[i] == w;
      assert Turns(s)[i] == turn;
    }
    if turn in Turns(s) {
      var i :| 0 <= i < |s| && Turns(s)[i] == turn;
      assert s[i] in s;
    }
  }

  lemma {:induction false} SweepSplits(s: seq<Waiting>, now: nat)
    ensures multiset(Turns(Restrict(s, Stale(now)))) + multiset(Turns(Restrict(s, Live(now)))) == multiset(Turns(s))
  {
    if s != [] {
      var init, last := s[..|s| - 1], s[|s| - 1];
      assert s == init + [last];
      SweepSplits(init, now);
      TurnsSnoc(init, last);
      TurnsSnoc(Restrict(init, Stale(now)), last);
      TurnsSnoc(Restrict(init, Live(now)), last);
    }
  }

  lemma {:induction false} DropsOnlyTheTurn(s: seq<Waiting>, turn: Turn)
    ensures multiset(Turns(Restrict(s, NotTurn(turn)))) == multiset(Turns(s))[turn := 0]
  {
    if s != [] {
      var init, last := s[..|s| - 1], s[|s| - 1];
      assert s == init + [last];
      DropsOnlyTheTurn(init, turn);
      TurnsSnoc(init, last);
      TurnsSnoc(Restrict(init, NotTurn(turn)), last);
    }
  }

  lemma {:induction false} PutFreshAppends(s: seq<Waiting>, entry: Waiting)
    requires forall w <- s :: w.turn != entry.turn
    ensures Put(s, entry) == s + [entry]
  {
    if s != [] {
      assert s[0] in s;
      PutFreshAppends(s[1..], entry);
    }
  }

  /** A turn that waits already keeps its place and takes the new label. */
  lemma {:induction false} PutReplaces(s: seq<Waiting>, entry: Waiting, i: nat)
    requires i < |s| && s[i].turn == entry.turn && forall j: nat :: j < i ==> s[j].turn != entry.turn
    ensures Put(s, entry) == s[i := entry]
  {
    if i > 0 {
      PutReplaces(s[1..], entry, i - 1);
    }
  }

  lemma FateTurnsOf(gone: seq<Waiting>, fate: Fate, log: Log)
    ensures FateTurns(Fates(gone, fate)) == Turns(gone)
    ensures FateTurns(log + Fates(gone, fate)) == FateTurns(log) + Turns(gone)
  {}

  lemma ParkShape(pending: seq<Waiting>, entry: Waiting) returns (put: seq<Waiting>, over: nat)
    requires forall w <- pending :: w.turn != entry.turn
    ensures over == if |put| > PENDING_MAX then |put| - PENDING_MAX else 0
    ensures put == Restrict(pending, Live(entry.at)) + [entry]
    ensures Park(pending, entry) ==
            (put[over..], Fates(Restrict(pending, Stale(entry.at)), Expired) + Fates(put[..over], Evicted))
  {
    RestrictMembers(pending, Live(entry.at));
    PutFreshAppends(Restrict(pending, Live(entry.at)), entry);
    put := Restrict(pending, Live(entry.at)) + [entry];
    over := if |put| > PENDING_MAX then |put| - PENDING_MAX else 0;
  }

  lemma TurnsSplit(s: seq<Waiting>, k: nat)
    requires k <= |s|
    ensures multiset(Turns(s)) == multiset(Turns(s[..k])) + multiset(Turns(s[k..]))
  {
    assert Turns(s) == Turns(s[..k]) + Turns(s[k..]);
  }

  lemma TwoFates(swept: seq<Waiting>, evicted: seq<Waiting>, log: Log)
    ensures multiset(FateTurns(log + (Fates(swept, Expired) + Fates(evicted, Evicted))))
            == multiset(FateTurns(log)) + multiset(Turns(swept)) + multiset(Turns(evicted))
  {
    assert log + (Fates(swept, Expired) + Fates(evicted, Evicted))
           == (log + Fates(swept, Expired)) + Fates(evicted, Evicted);
    FateTurnsOf(swept, Expired, log);
    FateTurnsOf(evicted, Evicted, log + Fates(swept, Expired));
  }

  /** Parking a new turn adds that one label and loses none. */
  lemma ParkConserves(pending: seq<Waiting>, entry: Waiting, log: Log)
    requires forall w <- pending :: w.turn != entry.turn
    ensures var (left, fates) := Park(pending, entry);
            && |left| <= PENDING_MAX
            && multiset(FateTurns(log + fates)) + multiset(Turns(left))
               == multiset(FateTurns(log)) + multiset(Turns(pending)) + multiset{entry.turn}
            && (forall w <- left :: w in pending || w == entry)
  {
    var put, over := ParkShape(pending, entry);
    var swept, live := Restrict(pending, Stale(entry.at)), Restrict(pending, Live(entry.at));
    TwoFates(swept, put[..over], log);
    RestrictMembers(pending, Live(entry.at));
    SweepSplits(pending, entry.at);
    TurnsSnoc(live, entry);
    TurnsSplit(put, over);
    Tally(multiset(FateTurns(log)), multiset(Turns(swept)), multiset(Turns(live)), multiset(Turns(put[..over])),
          multiset(Turns(put[over..])), multiset(Turns(pending)), multiset{entry.turn});
    forall w <- put[over..] ensures w in pending || w == entry {
      assert w in put;
    }
  }

  lemma Tally(log: multiset<Turn>, swept: multiset<Turn>, live: multiset<Turn>, evicted: multiset<Turn>,
              left: multiset<Turn>, pending: multiset<Turn>, added: multiset<Turn>)
    requires swept + live == pending && live + added == evicted + left
    ensures log + swept + evicted + left == log + pending + added
  {
    assert log + swept + evicted + left == log + swept + (evicted + left);
    assert log + (swept + live) + added == log + swept + (live + added);
  }

  lemma ClaimConserves(pending: seq<Waiting>, turn: Turn, content: seq<Word>, now: nat, log: Log)
    requires multiset(Turns(pending))[turn] <= 1
    ensures var (left, mark, fates) := Claim(pending, turn, content, now);
            && |left| <= |pending|
            && multiset(FateTurns(log + fates)) + multiset(Turns(left))
               == multiset(FateTurns(log)) + multiset(Turns(pending))
            && (forall w <- left :: w in pending)
            && (mark.Some? ==> exists w <- pending ::
                  w.turn == turn && !IsStale(w, now) && mark.value == FitToMessage(w.payload, content))
  {
    var entry := Find(pending, turn);
    var (left, mark, fates) := Claim(pending, turn, content, now);
    if entry.None? {
      assert log + [] == log;
    } else {
      DropsOnlyTheTurn(pending, turn);
      RestrictMembers(pending, NotTurn(turn));
      TurnsMembers(pending, turn);
      RestrictShorter(pending, NotTurn(turn));
      assert FateTurns(log + fates) == FateTurns(log) + [turn];
    }
  }

  lemma {:induction false} OneEntry(pending: seq<Waiting>, i: nat)
    requires i < |pending| && multiset(Turns(pending))[pending[i].turn] <= 1
    ensures Find(pending, pending[i].turn) == Some(pending[i])
  {
    if i > 0 {
      var turn := pending[i].turn;
      TurnsSplit(pending, 1);
      assert Turns(pending[1..])[i - 1] == turn && turn in multiset(Turns(pending[1..]));
      assert Turns(pending[..1]) == [pending[0].turn];
      OneEntry(pending[1..], i - 1);
    }
  }

  lemma {:induction false} RestrictWhole<T>(s: seq<T>, keep: T -> bool)
    requires |Restrict(s, keep)| == |s|
    ensures forall x <- s :: keep(x)
  {
    if s != [] {
      var init, last := s[..|s| - 1], s[|s| - 1];
      RestrictShorter(init, keep);
      RestrictWhole(init, keep);
      assert s == init + [last];
    }
  }

  lemma SweptExpire(pending: seq<Waiting>, now: nat)
    ensures var fates := Fates(Restrict(pending, Stale(now)), Expired);
            forall f: (Turn, Fate) :: f in fates <==>
              exists w <- pending :: now - w.at > 30000 && f == (w.turn, Expired)
  {
    var swept := Restrict(pending, Stale(now));
    RestrictMembers(pending, Stale(now));
    forall f: (Turn, Fate)
      ensures f in Fates(swept, Expired) <==> exists w <- pending :: now - w.at > 30000 && f == (w.turn, Expired)
    {
      if f in Fates(swept, Expired) {
        var i :| 0 <= i < |swept| && Fates(swept, Expired)[i] == f;
        assert swept[i] in swept;
      }
      if w :| w in pending && now - w.at > 30000 && f == (w.turn, Expired) {
        assert w in swept;
        var i :| 0 <= i < |swept| && swept[i] == w;
        assert Fates(swept, Expired)[i] == f;
      }
    }
  }

  /** A new label waits last among those that have waited thirty seconds or less; only
      when there are thirty-two of those already does the first of them make room.
      Every label that goes is noted, with what became of it. */
  lemma ParkKeepsTheFresh(pending: seq<Waiting>, entry: Waiting)
    requires |pending| <= 32 && forall w <- pending :: w.turn != entry.turn
    ensures
      var (left, fates) := Park(pending, entry);
      if |pending| == 32 && forall w <- pending :: entry.at - w.at <= 30000 then
        left == pending[1..] + [entry] && fates == [(pending[0].turn, Evicted)]
      else
        && left != [] && left[|left| - 1] == entry
        && (forall w: Waiting :: w in left <==> w == entry || (w in pending && entry.at - w.at <= 30000))
        && (forall f: (Turn, Fate) :: f in fates <==>
              exists w <- pending :: entry.at - w.at > 30000 && f == (w.turn, Expired))
  {
    var put, over := ParkShape(pending, entry);
    var live, swept := Restrict(pending, Live(entry.at)), Restrict(pending, Stale(entry.at));
    RestrictMembers(pending, Live(entry.at));
    RestrictShorter(pending, Live(entry.at));
    assert Park(pending, entry) == (put[over..], Fates(swept, Expired) + Fates(put[..over], Evicted));
    if |pending| == 32 && forall w <- pending :: entry.at - w.at <= 30000 {
      RestrictAll(pending, Live(entry.at));
      RestrictNone(pending, Stale(entry.at));
      assert put[1..] == pending[1..] + [entry] && put[..1] == [pending[0]];
    } else {
      if |live| == 32 {
        RestrictWhole(pending, Live(entry.at));
      }
      assert |put| <= PENDING_MAX;
      assert put[0..] == put && put[..0] == [];
      assert forall w: Waiting :: w in put <==> w in live || w == entry;
      SweptExpire(pending, entry.at);
    }
  }

  lemma {:induction false} RestrictShorter<T>(s: seq<T>, keep: T -> bool)
    ensures |Restrict(s, keep)| <= |s|
  {
    if s != [] {
      RestrictShorter(s[..|s| - 1], keep);
    }
  }

  // ---------- every event keeps the handoff in order ----------

  lemma RowsAreSent(w: World, turn: Turn)
    requires HandoffOk(w)
    ensures turn in w.rows ==> turn in w.sends && w.sends[turn].Sent?
    ensures turn in w.labelled ==> turn in w.rows
  {
    if turn in w.rows {
      assert RowOk(w, turn);
    }
    if turn in w.labelled {
      assert PassOk(w, turn);
    }
  }

  lemma ParkKeepsHandoff(w: World, turn: Turn, payload: Payload)
    requires HandoffOk(w) && Enabled(w, StartPass(turn, payload))
    ensures HandoffOk(Next(w, StartPass(turn, payload)))
  {
    ParkConserves(w.pending, Waiting(turn, payload, w.now), w.log);
    var n := Next(w, StartPass(turn, payload));
    assert n.passes.Keys == w.passes.Keys + {turn};
    assert multiset(n.passes.Keys) == multiset(w.passes.Keys) + multiset{turn};
    forall t <- n.rows ensures RowOk(n, t) {
      assert RowOk(w, t);
    }
    forall t <- n.passes ensures PassOk(n, t) {
      assert t == turn || PassOk(w, t);
    }
    forall t <- n.sends ensures SendOk(n, t) {
      assert SendOk(w, t);
    }
  }

  lemma ClaimKeepsHandoff(w: World, turn: Turn, content: seq<Word>)
    requires HandoffOk(w) && Enabled(w, StartSend(turn, content))
    ensures HandoffOk(Next(w, StartSend(turn, content)))
  {
    RowsAreSent(w, turn);
    assert multiset(Turns(w.pending))[turn] <= multiset(w.passes.Keys)[turn] <= 1;
    ClaimConserves(w.pending, turn, content, w.now, w.log);
    var n := Next(w, StartSend(turn, content));
    forall t <- n.rows ensures RowOk(n, t) {
      assert RowOk(w, t);
    }
    forall t <- n.passes ensures PassOk(n, t) {
      assert PassOk(w, t);
    }
    forall t <- n.sends ensures SendOk(n, t) {
      assert t == turn || SendOk(w, t);
    }
  }

  lemma InsertKeepsHandoff(w: World, turn: Turn)
    requires HandoffOk(w) && Enabled(w, Insert(turn))
    ensures HandoffOk(Next(w, Insert(turn)))
  {
    var n := Next(w, Insert(turn));
    RowsAreSent(w, turn);
    assert SendOk(w, turn);
    forall t <- n.rows ensures RowOk(n, t) {
      assert t == turn || RowOk(w, t);
    }
    forall t <- n.passes ensures PassOk(n, t) {
      assert PassOk(w, t);
    }
    forall t <- n.sends ensures SendOk(n, t) {
      assert t == turn || SendOk(w, t);
    }
  }

  lemma LookKeepsHandoff(w: World, turn: Turn)
    requires HandoffOk(w) && Enabled(w, Look(turn))
    ensures HandoffOk(Next(w, Look(turn)))
  {
    var n := Next(w, Look(turn));
    assert n.passes.Keys == w.passes.Keys;
    assert PassOk(w, turn);
    assert turn in w.rows ==> RowOk(w, turn);
    forall t <- n.rows ensures RowOk(n, t) {
      assert RowOk(w, t);
    }
    forall t <- n.passes ensures PassOk(n, t) {
      assert PassOk(w, t);
    }
    forall t <- n.sends ensures SendOk(n, t) {
      assert SendOk(w, t);
    }
  }

  lemma WriteKeepsHandoff(w: World, turn: Turn)
    requires HandoffOk(w) && Enabled(w, Write(turn))
    ensures HandoffOk(Next(w, Write(turn)))
  {
    var n := Next(w, Write(turn));
    assert n.passes.Keys == w.passes.Keys;
    forall t <- n.rows ensures RowOk(n, t) {
      assert RowOk(w, t);
    }
    forall t <- n.passes ensures PassOk(n, t) {
      assert PassOk(w, t);
    }
    forall t <- n.sends ensures SendOk(n, t) {
      assert SendOk(w, t);
    }
  }

  lemma RelabelKeepsHandoff(w: World, turn: Turn, payload: Payload)
    requires HandoffOk(w) && Enabled(w, Relabel(turn, payload))
    ensures HandoffOk(Next(w, Relabel(turn, payload)))
  {
    var n := Next(w, Relabel(turn, payload));
    forall t <- n.rows ensures RowOk(n, t) {
      assert RowOk(w, t);
    }
    forall t <- n.passes ensures PassOk(n, t) {
      assert PassOk(w, t);
    }
    forall t <- n.sends ensures SendOk(n, t) {
      assert SendOk(w, t);
    }
  }

  lemma GiveUpKeepsHandoff(w: World, turn: Turn)
    requires HandoffOk(w) && Enabled(w, GiveUp(turn))
    ensures HandoffOk(Next(w, GiveUp(turn)))
  {
    var n := Next(w, GiveUp(turn));
    assert n.passes.Keys == w.passes.Keys;
    forall t <- n.rows ensures RowOk(n, t) {
      assert RowOk(w, t);
    }
    forall t <- n.passes ensures PassOk(n, t) {
      assert PassOk(w, t);
    }
    forall t <- n.sends ensures SendOk(n, t) {
      assert SendOk(w, t);
    }
  }

  lemma EventKeepsHandoff(w: World, e: Event)
    requires HandoffOk(w) && Enabled(w, e)
    ensures HandoffOk(Next(w, e))
  {
    match e
    case Tick(ms) =>
      var n := Next(w, e);
      assert forall t <- n.rows :: RowOk(w, t) ==> RowOk(n, t);
      assert forall t <- n.passes :: PassOk(w, t) ==> PassOk(n, t);
      assert forall t <- n.sends :: SendOk(w, t) ==> SendOk(n, t);
    case StartPass(turn, payload) => ParkKeepsHandoff(w, turn, payload);
    case StartSend(turn, content) => ClaimKeepsHandoff(w, turn, content);
    case Insert(turn) => InsertKeepsHandoff(w, turn);
    case Look(turn) => LookKeepsHandoff(w, turn);
    case Write(turn) => WriteKeepsHandoff(w, turn);
    case GiveUp(turn) => GiveUpKeepsHandoff(w, turn);
    case Relabel(turn, payload) => RelabelKeepsHandoff(w, turn, payload);
  }

  lemma {:induction false} RunKeepsHandoff(events: seq<Event>)
    ensures HandoffOk(After(Start(), events))
  {
    if events != [] {
      var init, last := events[..|events| - 1], events[|events| - 1];
      RunKeepsHandoff(init);
      if Enabled(After(Start(), init), last) {
        EventKeepsHandoff(After(Start(), init), last);
      }
    }
  }

  // ---------- what it promises over every run ----------

  /** The handoff labels a row at most once; and a row nobody else relabelled carries
      nothing but its own turn's payload fitted to its own text, whichever path
      wrote it. */
  lemma RowsGetOnlyTheirOwnLabel(events: seq<Event>, turn: Turn)
    requires turn in After(Start(), events).rows
    ensures var w := After(Start(), events);
            var row := w.rows[turn];
            && row.writes <= 1
            && (row.relabels == 0 ==> row.writes == if row.mark.Some? then 1 else 0)
            && (row.relabels == 0 && row.mark.Some? ==>
                  turn in w.passes && row.mark.value == FitToMessage(w.passes[turn].payload, row.content))
  {
    RunKeepsHandoff(events);
    assert RowOk(After(Start(), events), turn);
  }

  /** A parked label waits or has met exactly one fate; at most 32 wait. */
  lemma EachLabelIsInOnePlace(events: seq<Event>, turn: Turn)
    ensures var w := After(Start(), events);
            && |w.pending| <= PENDING_MAX
            && multiset(Turns(w.pending))[turn] + multiset(FateTurns(w.log))[turn]
               == if turn in w.passes then 1 else 0
  {
    RunKeepsHandoff(events);
    var w := After(Start(), events);
    assert multiset(w.passes.Keys)[turn] == if turn in w.passes then 1 else 0;
  }

  /** Once the row is there, one attempt settles it. It ends with the row carrying
      this pass's label and the pass knowing it if and only if its read found the
      row unlabelled or carrying that label already; whatever others write between
      the read and the write. It fails only on a row somebody else relabelled. */
  lemma AttachLabelsExactly(events: seq<Event>, turn: Turn)
    requires var w := After(Start(), events); Enabled(w, Look(turn)) && turn in w.rows
    ensures
      var w := After(Start(), events);
      var n := Next(w, Look(turn));
      var payload, mark := w.passes[turn].payload, w.rows[turn].mark;
      var fitted := FitToMessage(payload, w.rows[turn].content);
      && n.rows == w.rows
      && n.passes[turn] == (if mark.None? then Writing(payload) else Done(payload, mark == Some(fitted)))
      && (turn in n.labelled <==> mark == Some(fitted))
      && (mark.Some? && mark != Some(fitted) ==> w.rows[turn].relabels > 0)
  {
    RunKeepsHandoff(events);
    var w := After(Start(), events);
    assert RowOk(w, turn) && PassOk(w, turn);
  }

  /** The write an attempt has begun labels the row, whatever is on it by then. */
  lemma AWriteLabels(events: seq<Event>, turn: Turn)
    requires var w := After(Start(), events); turn in w.passes && w.passes[turn].Writing?
    ensures
      var w := After(Start(), events);
      && Enabled(w, Write(turn))
      && var n, payload := Next(w, Write(turn)), w.passes[turn].payload;
         && n.rows[turn] == w.rows[turn].(mark := Some(FitToMessage(payload, w.rows[turn].content)), writes := 1)
         && n.passes[turn] == Done(payload, true) && turn in n.labelled
  {
    RunKeepsHandoff(events);
    var w := After(Start(), events);
    assert PassOk(w, turn) && RowOk(w, turn);
  }

  predicate InFlight(w: World, turn: Turn) {
    turn in w.passes && w.passes[turn].Writing?
  }

  /** How a labelled row stands later, when nobody else relabels it meanwhile: as it
      was, or, if a pass was about to write it and has, under that pass's label. */
  ghost predicate StandsSince(w: World, later: World, turn: Turn)
    requires turn in w.rows && turn in later.rows
  {
    if InFlight(w, turn) && !InFlight(later, turn) then
      later.rows[turn].mark == Some(FitToMessage(w.passes[turn].payload, w.rows[turn].content))
      && later.rows[turn].content == w.rows[turn].content
    else
      later.rows[turn] == w.rows[turn] && (InFlight(w, turn) ==> later.passes[turn] == w.passes[turn])
  }

  /** A label once on a row changes only when somebody else relabels it, or when a
      pass had read the row unlabelled before and writes it after. */
  lemma {:induction false} LabelsAreFinal(events: seq<Event>, more: seq<Event>, turn: Turn)
    requires turn in After(Start(), events).rows && After(Start(), events).rows[turn].mark.Some?
    requires forall e <- more :: !(e.Relabel? && e.turn == turn)
    ensures turn in After(Start(), events + more).rows && After(Start(), events + more).rows[turn].mark.Some?
    ensures StandsSince(After(Start(), events), After(Start(), events + more), turn)
    ensures InFlight(After(Start(), events + more), turn) ==> InFlight(After(Start(), events), turn)
  {
    if more == [] {
      assert events + more == events;
    } else {
      var init, last := more[..|more| - 1], more[|more| - 1];
      LabelsAreFinal(events, init, turn);
      assert events + more == (events + init) + [last];
      AfterSnoc(events + init, last);
      RunKeepsHandoff(events + init);
      if Enabled(After(Start(), events + init), last) {
        LabelStep(After(Start(), events + init), last, turn);
      }
    }
  }

  /** One event, as a labelled row sees it. */
  lemma LabelStep(w: World, e: Event, turn: Turn)
    requires HandoffOk(w) && Enabled(w, e) && turn in w.rows && w.rows[turn].mark.Some?
    requires !(e.Relabel? && e.turn == turn)
    ensures var n := Next(w, e);
            && turn in n.rows && n.rows[turn].mark.Some?
            && (if e == Write(turn) then
                  InFlight(w, turn) && !InFlight(n, turn)
                  && n.rows[turn].mark == Some(FitToMessage(w.passes[turn].payload, w.rows[turn].content))
                  && n.rows[turn].content == w.rows[turn].content
                else
                  n.rows[turn] == w.rows[turn] && (InFlight(n, turn) <==> InFlight(w, turn))
                  && (InFlight(w, turn) ==> n.passes[turn] == w.passes[turn]))
  {
    RowsAreSent(w, turn);
  }

  /** A correction stands, while nobody corrects it again, if and only if no pass was
      about to write the row when it was made and has by now (or writes the same). */
  lemma ACorrectionStandsExactly(events: seq<Event>, turn: Turn, payload: Payload, more: seq<Event>)
    requires turn in After(Start(), events).rows
    requires forall e <- more :: !(e.Relabel? && e.turn == turn)
    ensures
      var w, later := After(Start(), events), After(Start(), events + [Relabel(turn, payload)] + more);
      && turn in later.rows
      && (later.rows[turn].mark == Some(payload)
          <==> !(InFlight(w, turn) && !InFlight(later, turn)
                 && FitToMessage(w.passes[turn].payload, w.rows[turn].content) != payload))
  {
    var corrected := events + [Relabel(turn, payload)];
    assert corrected[..|corrected| - 1] == events;
    LabelsAreFinal(corrected, more, turn);
  }

  /** A correction can be overwritten: the pass reads the row unlabelled, the owner
      labels it, and the pass writes. */
  lemma ACorrectionCanBeOverwritten()
    ensures
      var heard, right := Payload(["Ada"], []), Payload(["Bea"], []);
      var w := After(Start(), SendThenPass(heard) + [Look(1)] + [Relabel(1, right)] + [Write(1)]);
      1 in w.rows && w.rows[1] == Row([], Some(heard), 1, 1) && 1 in w.labelled
  {
    var heard, right := Payload(["Ada"], []), Payload(["Bea"], []);
    var sent := SendThenPass(heard);
    SentThenChecked(heard);
    AfterSnoc(sent, Look(1));
    assert InFlight(After(Start(), sent + [Look(1)]), 1);
    AfterSnoc(sent + [Look(1)], Relabel(1, right));
    AfterSnoc(sent + [Look(1)] + [Relabel(1, right)], Write(1));
  }

  /** A message sent and inserted before its identity pass parks a label. */
  function SendThenPass(heard: Payload): seq<Event> {
    [] + [StartSend(1, [])] + [Insert(1)] + [StartPass(1, heard)]
  }

  lemma SentThenChecked(heard: Payload)
    ensures var w := After(Start(), SendThenPass(heard));
            && w.rows == map[1 := Row([], None, 0, 0)] && w.labelled == {}
            && w.passes == map[1 := Looking(heard)]
  {
    AfterSnoc([], StartSend(1, []));
    AfterSnoc([] + [StartSend(1, [])], Insert(1));
    AfterSnoc([] + [StartSend(1, [])] + [Insert(1)], StartPass(1, heard));
  }

  lemma AfterSnoc(events: seq<Event>, e: Event)
    ensures After(Start(), events + [e])
            == var before := After(Start(), events); if Enabled(before, e) then Next(before, e) else before
  {
    assert (events + [e])[..|events|] == events;
  }

  /** A check not begun parks its label, last in line and with the hour, and starts
      looking; nothing else changes. */
  lemma ACheckParksAndLooks(events: seq<Event>, turn: Turn, payload: Payload)
    requires turn !in After(Start(), events).passes
    ensures
      var w, n := After(Start(), events), After(Start(), events + [StartPass(turn, payload)]);
      && n.pending != [] && n.pending[|n.pending| - 1] == Waiting(turn, payload, w.now)
      && n == w.(passes := w.passes[turn := Looking(payload)], pending := n.pending, log := n.log)
  {
    var w := After(Start(), events);
    RunKeepsHandoff(events);
    AfterSnoc(events, StartPass(turn, payload));
    ParkKeepsTheFresh(w.pending, Waiting(turn, payload, w.now));
    assert After(Start(), events + [StartPass(turn, payload)]) == Next(w, StartPass(turn, payload));
  }

  /** Time passes, and a pass still looking may give up; nothing else changes. */
  lemma TimePasses(events: seq<Event>, ms: nat, turn: Turn)
    ensures
      var w := After(Start(), events);
      && After(Start(), events + [Tick(ms)]) == w.(now := w.now + ms)
      && (turn in w.passes && w.passes[turn].Looking? ==>
            After(Start(), events + [GiveUp(turn)])
            == w.(passes := w.passes[turn := Done(w.passes[turn].payload, false)]))
  {
    AfterSnoc(events, Tick(ms));
    AfterSnoc(events, GiveUp(turn));
  }

  /** Anybody may relabel a row that is there, which changes that row alone. */
  lemma AnybodyMayRelabel(events: seq<Event>, turn: Turn, payload: Payload)
    requires turn in After(Start(), events).rows
    ensures After(Start(), events + [Relabel(turn, payload)]) == Corrected(After(Start(), events), turn, payload)
  {
    AfterSnoc(events, Relabel(turn, payload));
  }

  /** The world with one row under somebody's own label, and nothing else changed. */
  ghost function Corrected(w: World, turn: Turn, payload: Payload): World
    requires turn in w.rows
  {
    var was := w.rows[turn];
    var row := Row(was.content, Some(payload), was.writes, was.relabels + 1);
    World(w.now, w.pending, w.log, w.rows[turn := row], w.passes, w.sends, w.labelled)
  }

  /** A label that has waited more than thirty seconds is not handed over: the row is
      inserted without it, and it no longer waits. */
  lemma AStaleLabelIsDropped(events: seq<Event>, turn: Turn, content: seq<Word>, i: nat)
    requires var w := After(Start(), events);
             && Enabled(w, StartSend(turn, content)) && i < |w.pending| && w.pending[i].turn == turn
             && w.now - w.pending[i].at > 30000
    ensures var w := After(Start(), events);
            var n := Next(Next(w, StartSend(turn, content)), Insert(turn));
            && n.rows[turn] == Row(content, None, 0, 0) && turn !in Turns(n.pending)
            && n.log == w.log + [(turn, Expired)]
  {
    RunKeepsHandoff(events);
    var w := After(Start(), events);
    assert multiset(Turns(w.pending))[turn] <= multiset(w.passes.Keys)[turn] <= 1;
    OneEntry(w.pending, i);
    DropsOnlyTheTurn(w.pending, turn);
    var n := Next(Next(w, StartSend(turn, content)), Insert(turn));
    assert turn !in multiset(Turns(n.pending));
  }

  /** A claim before the insert rides the insert: the row is labelled from the start. */
  lemma ClaimRidesTheInsert(events: seq<Event>, turn: Turn, content: seq<Word>)
    requires var w := After(Start(), events);
             Enabled(w, StartSend(turn, content)) && turn in Turns(w.pending)
    requires var w := After(Start(), events); forall p <- w.pending :: p.turn == turn ==> w.now - p.at <= 30000
    ensures var w := After(Start(), events);
            var n := Next(Next(w, StartSend(turn, content)), Insert(turn));
            && turn in w.passes
            && n.rows[turn] == Row(content, Some(FitToMessage(w.passes[turn].payload, content)), 1, 0)
            && turn !in Turns(n.pending)
  {
    RunKeepsHandoff(events);
    var w := After(Start(), events);
    var i :| 0 <= i < |w.pending| && Turns(w.pending)[i] == turn;
    assert w.pending[i] in w.pending;
    var n := Next(Next(w, StartSend(turn, content)), Insert(turn));
    DropsOnlyTheTurn(w.pending, turn);
    assert turn !in multiset(Turns(n.pending));
  }
}
