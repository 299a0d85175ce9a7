/** Any history of store operations and sync steps (backend/anchors.py and the
    pass of backend/person_sync.py): the store stays in step with membro, a
    forget is complete at any point, and a settled bank takes automatic clips
    no more often than its window allows. */
module History {
  import opened Wrappers
  import opened Ledger
  import opened Bank
  import opened Sorting
  import opened Store
  import opened InStep
  import opened Runs
  import opened SyncPass
  import opened AnyRuns
  import opened Drops
  import opened Outcomes

  datatype Op =
    | Add(p: PersonId, u: Utterance, now: nat, verdict: Option<bool>)
    | MoveTo(p: PersonId, file: FileName, to: PersonId)
    | DeleteOne(p: PersonId, file: FileName)
    | RetractFrom(p: PersonId, slices: set<FileName>)
    | Audit(p: PersonId, bad: set<FileName>)
    | MergeTwo(a: PersonId, b: PersonId)
    | ForgetOne(p: PersonId, record: bool)
    | NewPerson(p: PersonId, createdAt: int, slug: Option<Slug>, name: Slug)
    | PushPerson(p: PersonId)
    | UploadClip(p: PersonId, c: Clip)
    | ReplayPass

  function Gone(s: State, a: PersonId, b: PersonId): PersonId
    requires a in s.people && b in s.people
  {
    if Survivor(s.people, a, b) == a then b else a
  }

  predicate Merges(s: State, a: PersonId, b: PersonId) {
    a != b && a in s.people && b in s.people
  }

  function Step(w: World, op: Op): World {
    match op
    case Add(p, u, now, verdict) => w.(s := AddClip(w.s, p, u, now, verdict).0)
    case MoveTo(p, file, to) => w.(s := MoveClip(w.s, p, file, to).0)
    case DeleteOne(p, file) => w.(s := DeleteClip(w.s, p, file).0)
    case RetractFrom(p, slices) => w.(s := Retract(w.s, p, slices).0)
    case Audit(p, bad) => if p in w.s.people then w.(s := AuditPerson(w.s, p, bad)) else w
    case MergeTwo(a, b) =>
      if Merges(w.s, a, b) then World(MergePeople(w.s, a, b).0, w.remote, w.names - {Gone(w.s, a, b)}) else w
    case ForgetOne(p, record) =>
      World(ForgetPerson(w.s, p, record).0, w.remote, w.names - {p})
    case NewPerson(p, createdAt, slug, name) =>
      if p in w.s.people then w else World(WithPerson(w.s, p, createdAt, slug), w.remote, w.names[p := name])
    case PushPerson(p) =>
      if p in w.s.people && p in w.names then w.(s := Pushed(w.s, p, w.names[p])) else w
    case UploadClip(p, c) =>
      if p in w.names && c.file in w.s.disk then w.(remote := w.remote[w.s.disk[c.file] := w.names[p]]) else w
    case ReplayPass => Replayed(w)
  }

  /** What a history supposes of one step: recordings and names are new, drop
      rows never pass their cap, a merge keeps track of the clips earlier merges
      brought, a pass strands no clip a waiting row has to carry on, and an upload
      is of what membro lacks and no row names. */
  ghost predicate Allowed(w: World, op: Op) {
    match op
    case Add(p, u, _, _) =>
      p in w.s.people && p in w.names ==>
        && (NewRecording(w, p, u) || (u.dedupe && HeldCopy(w.s.disk, w.s.people[p].clips, u.sha).Some?))
        && CountDrops(w.s.book.rows) + |w.s.people[p].clips| <= DROP_ROWS_MAX
    case Audit(p, _) =>
      p in w.s.people ==> CountDrops(w.s.book.rows) + 2 * |w.s.people[p].clips| <= DROP_ROWS_MAX
    case MergeTwo(a, b) =>
      Merges(w.s, a, b) ==>
        var survivor, gone := Survivor(w.s.people, a, b), Gone(w.s, a, b);
        Mergeable(w, survivor, gone, KeptOfMerge(w.s.people[survivor], w.s.people[gone]))
    case NewPerson(p, _, slug, name) =>
      p !in w.s.people ==>
        && name !in w.names.Values
        && (slug == Some(name) || (slug.None? && name !in w.remote.Values))
        && forall row <- w.s.book.rows :: !Mentions(row, p, name)
    case UploadClip(p, c) => Uploadable(w, p, c)
    case ReplayPass => CarefulPass(w)
    case _ => true
  }

  lemma StepKeepsInStep(w: World, op: Op)
    requires KeptInStep(w) && Allowed(w, op)
    ensures KeptInStep(Step(w, op))
  {
    match op
    case Add(p, u, now, verdict) => AddKeepsInStep(w, p, u, now, verdict);
    case MoveTo(p, file, to) => MoveKeepsInStep(w, p, file, to);
    case DeleteOne(p, file) => DeleteKeepsInStep(w, p, file);
    case RetractFrom(p, slices) => RetractKeepsInStep(w, p, slices);
    case Audit(p, bad) => if p in w.s.people { AuditKeepsInStep(w, p, bad); }
    case MergeTwo(a, b) =>
      if Merges(w.s, a, b) { MergeKeepsInStep(w, Survivor(w.s.people, a, b), Gone(w.s, a, b)); }
    case ForgetOne(p, record) =>
      if p in w.s.people { ForgetKeepsInStep(w, p, record); } else { assert w.names - {p} == w.names; }
    case NewPerson(p, createdAt, slug, name) =>
      if p !in w.s.people { NewPersonInStep(w, p, createdAt, slug, name); }
    case PushPerson(p) => if p in w.s.people { PushKeepsInStep(w, p); }
    case UploadClip(p, c) => UploadKeepsInStep(w, p, c);
    case ReplayPass => ReplayKeepsInStep(w);
  }

  /** What the steps of a sync do: a new person begins with an empty bank, a push makes
      one known by their name, an upload puts one recording under its person, and a pass
      leaves membro replayed and the ledger with what waits. None touches a bank. */
  lemma SyncStepsAre(w: World, p: PersonId, createdAt: int, slug: Option<Slug>, name: Slug, c: Clip)
    ensures p !in w.s.people ==>
              Step(w, NewPerson(p, createdAt, slug, name))
              == World(State(w.s.people[p := Person(createdAt, slug, [], None)], w.s.book, w.s.disk, w.s.nextFile),
                       w.remote, w.names[p := name])
    ensures p in w.s.people ==> Step(w, NewPerson(p, createdAt, slug, name)) == w
    ensures p in w.s.people && p in w.names ==>
              var was := w.s.people[p];
              Step(w, PushPerson(p)).s
              == State(w.s.people[p := Person(was.createdAt, Some(w.names[p]), was.clips, was.settledAt)],
                       w.s.book, w.s.disk, w.s.nextFile)
    ensures p in w.names && c.file in w.s.disk ==>
              var remote' := Step(w, UploadClip(p, c)).remote;
              && At(remote', w.s.disk[c.file]) == Some(w.names[p])
              && forall sha | sha != w.s.disk[c.file] :: At(remote', sha) == At(w.remote, sha)
    ensures var w' := Step(w, ReplayPass);
            && w'.s.people == w.s.people && w'.s.disk == w.s.disk && w'.names == w.names
            && w'.s.book == Book(Waiting(w.s.book.rows, Known(w)), w.s.book.next)
            && w'.remote == Replay(w.remote, w.s.book.rows, Known(w))
    ensures forall q :: q in Known(w) <==> q in w.names && q in w.s.people && w.s.people[q].slug.Some?
  {}

  function Run(w: World, ops: seq<Op>): World {
    if ops == [] then w else Step(Run(w, ops[..|ops| - 1]), ops[|ops| - 1])
  }

  ghost predicate AllAllowed(w: World, ops: seq<Op>) {
    ops == []
    || (AllAllowed(w, ops[..|ops| - 1]) && Allowed(Run(w, ops[..|ops| - 1]), ops[|ops| - 1]))
  }

  /** An empty store beside any membro. */
  function Fresh(remote: Remote): World {
    World(State(map[], Book([], 0), map[], 0), remote, map[])
  }

  // ---------- the cap on drops ----------

  lemma AddIsCapped(s: State, p: PersonId, u: Utterance, now: nat, verdict: Option<bool>)
    requires Capped(s.book)
    ensures Capped(AddClip(s, p, u, now, verdict).0.book)
  {
    if p in s.people {
      AddBanks(s, p, u, now, verdict);
      var kept := AddClip(s, p, u, now, verdict).0.people[p].clips;
      DroppedIsCapped(s.book, s.disk[s.nextFile := u.sha], p, s.people[p].slug.Some?, s.people[p].clips, Files(kept),
                      FileOf(Victim(s, p, u, now, verdict)));
    }
  }

  lemma MoveIsCapped(s: State, p: PersonId, file: FileName, to: PersonId)
    requires Capped(s.book)
    ensures Capped(MoveClip(s, p, file, to).0.book)
  {
    if p in s.people && FindFile(s.people[p].clips, file).Some? {
      var sha := Address(s.disk, FindFile(s.people[p].clips, file).value);
      if sha.Some? {
        NotedIsCapped(s.book, Move(0, p, None, to, sha.value));
      }
    }
  }

  lemma DeleteIsCapped(s: State, p: PersonId, file: FileName)
    requires Capped(s.book)
    ensures Capped(DeleteClip(s, p, file).0.book)
  {
    if p in s.people && FindFile(s.people[p].clips, file).Some? {
      var sha := Address(s.disk, FindFile(s.people[p].clips, file).value);
      if sha.Some? {
        NotedIsCapped(s.book, Delete(0, p, None, sha.value, None));
      }
    }
  }

  lemma RetractIsCapped(s: State, p: PersonId, slices: set<FileName>)
    requires Capped(s.book)
    ensures Capped(Retract(s, p, slices).0.book)
  {
    if p in s.people {
      DeletedIsCapped(s.book, s.disk, p, Restrict(s.people[p].clips, IsContested(slices)));
    }
  }

  lemma AuditIsCapped(s: State, p: PersonId, bad: set<FileName>)
    requires Capped(s.book) && p in s.people
    ensures Capped(AuditPerson(s, p, bad).book)
  {
    var person := s.people[p];
    JudgedIsCapped(s.book, s.disk, p, person.slug.Some?, person.clips, bad);
    DroppedIsCapped(JudgeDrops(s.book, s.disk, p, person.slug.Some?, person.clips, bad), s.disk, p, person.slug.Some?,
                    Overflow(JudgeAll(person.clips, bad)), {}, None);
  }

  lemma MergeIsCapped(s: State, survivor: PersonId, gone: PersonId, kept: seq<Clip>)
    requires Capped(s.book) && survivor in s.people && gone in s.people
    ensures Capped(MergeKeeping(s, survivor, gone, kept).book)
  {
    var mine := DropMissing(s.book, s.disk, survivor, s.people[survivor].slug.Some?, s.people[survivor].clips,
                            Files(kept), None);
    DroppedIsCapped(s.book, s.disk, survivor, s.people[survivor].slug.Some?, s.people[survivor].clips, Files(kept), None);
    DroppedIsCapped(mine, s.disk, gone, true, s.people[gone].clips, Files(kept), None);
    var drops, slug := MergeDrops(s, survivor, gone, Files(kept)), s.people[gone].slug;
    SettlingAddsNoDrop(drops.rows, gone, slug, Some(survivor));
    if slug.Some? {
      NotedIsCapped(drops.(rows := Settle(drops.rows, gone, slug, Some(survivor)).out), Merge(0, slug.value, survivor));
    }
  }

  lemma ForgetIsCapped(s: State, p: PersonId, record: bool)
    requires Capped(s.book)
    ensures Capped(ForgetPerson(s, p, record).0.book)
  {
    if p in s.people {
      var slug := s.people[p].slug;
      SettlingAddsNoDrop(s.book.rows, p, slug, None);
      if slug.Some? {
        NotedIsCapped(s.book.(rows := Settle(s.book.rows, p, slug, None).out), Forget(0, slug.value));
      }
    }
  }

  lemma StepIsCapped(w: World, op: Op)
    requires Capped(w.s.book)
    ensures Capped(Step(w, op).s.book)
  {
    match op
    case Add(p, u, now, verdict) => AddIsCapped(w.s, p, u, now, verdict);
    case MoveTo(p, file, to) => MoveIsCapped(w.s, p, file, to);
    case DeleteOne(p, file) => DeleteIsCapped(w.s, p, file);
    case RetractFrom(p, slices) => RetractIsCapped(w.s, p, slices);
    case Audit(p, bad) => if p in w.s.people { AuditIsCapped(w.s, p, bad); }
    case MergeTwo(a, b) =>
      if Merges(w.s, a, b) {
        var survivor, gone := Survivor(w.s.people, a, b), Gone(w.s, a, b);
        MergeIsCapped(w.s, survivor, gone, KeptOfMerge(w.s.people[survivor], w.s.people[gone]));
      }
    case ForgetOne(p, record) => ForgetIsCapped(w.s, p, record);
    case ReplayPass => WaitingAddsNoDrop(w.s.book.rows, Known(w));
    case _ =>
  }

  /** However long membro stays away, no history leaves more than 500 drops waiting. */
  lemma {:induction false} AnyHistoryCapsItsDrops(remote: Remote, ops: seq<Op>)
    ensures CountDrops(Run(Fresh(remote), ops).s.book.rows) <= 500
  {
    if ops != [] {
      AnyHistoryCapsItsDrops(remote, ops[..|ops| - 1]);
      StepIsCapped(Run(Fresh(remote), ops[..|ops| - 1]), ops[|ops| - 1]);
    }
  }

  /** Every allowed history keeps disk and index in bijection, every pending row
      able to land, and each clip membro holds under the person who holds it
      here. */
  lemma {:induction false} HistoryKeepsInStep(remote: Remote, ops: seq<Op>)
    requires AllAllowed(Fresh(remote), ops)
    ensures KeptInStep(Run(Fresh(remote), ops))
  {
    if ops != [] {
      HistoryKeepsInStep(remote, ops[..|ops| - 1]);
      StepKeepsInStep(Run(Fresh(remote), ops[..|ops| - 1]), ops[|ops| - 1]);
    }
  }

  /** After any history, forgetting a person is complete, whomever membro knows
      when the settled ledger is replayed. */
  lemma {:induction false} ForgetIsCompleteAfterAnyHistory(remote: Remote, ops: seq<Op>, p: PersonId, known: Names)
    requires AllAllowed(Fresh(remote), ops)
    requires
      var w := Run(Fresh(remote), ops);
      p in w.s.people && Sees(w, p, known) && CarefulForget(w, p, known)
    ensures var w := Run(Fresh(remote), ops);
            p in w.names && ForgottenCompletely(w, p, known) && ForgottenCompletely(w, p, w.names - {p})
  {
    HistoryKeepsInStep(remote, ops);
    ForgetIsComplete(Run(Fresh(remote), ops), p, known);
    ForgetIsCompleteOnceAllAreKnown(Run(Fresh(remote), ops), p);
  }

  /** In the history's own steps: a forget and then a pass leave membro holding no
      clip of theirs, and nothing under them. */
  lemma {:induction false} AForgetAndAPassForget(remote: Remote, ops: seq<Op>, p: PersonId)
    requires AllAllowed(Fresh(remote), ops + [ForgetOne(p, true)] + [ReplayPass])
    requires p in Run(Fresh(remote), ops).s.people
    ensures
      var w, w' := Run(Fresh(remote), ops), Run(Fresh(remote), ops + [ForgetOne(p, true)] + [ReplayPass]);
      && p in w.names
      && (forall c <- w.s.people[p].clips ::
            c.file !in w'.s.disk && Address(w.s.disk, c).Some? && Address(w.s.disk, c).value !in w'.remote)
      && forall sha <- w'.remote :: w'.remote[sha] != w.names[p]
  {
    var all, some := ops + [ForgetOne(p, true)] + [ReplayPass], ops + [ForgetOne(p, true)];
    assert all[..|all| - 1] == some && some[..|some| - 1] == ops;
    var w := Run(Fresh(remote), ops);
    var mid := Run(Fresh(remote), some);
    assert mid == Step(w, ForgetOne(p, true)) && Run(Fresh(remote), all) == Replayed(mid);
    HistoryKeepsInStep(remote, ops);
    KnownAfterForget(w, p);
    ForgetIsComplete(w, p, Known(mid));
  }

  lemma KnownAfterForget(w: World, p: PersonId)
    requires NamesOk(w) && p in w.s.people
    ensures Known(Step(w, ForgetOne(p, true))) == Known(w) - {p}
    ensures Sees(w, p, Known(w) - {p})
  {
  }

  // ---------- any history at all ----------

  /** All that a history without those hypotheses supposes: a new person's slug is
      new, and a sync pass uploads only for people membro has given one. */
  ghost predicate Named(w: World, op: Op) {
    match op
    case NewPerson(p, _, slug, name) =>
      p !in w.s.people ==>
        && name !in w.names.Values
        && (slug == Some(name) || (slug.None? && name !in w.remote.Values))
        && forall row <- w.s.book.rows :: !Mentions(row, p, name)
    case UploadClip(p, _) => p in w.s.people && w.s.people[p].slug.Some?
    case _ => true
  }

  ghost predicate AllNamed(w: World, ops: seq<Op>) {
    ops == []
    || (AllNamed(w, ops[..|ops| - 1]) && Named(Run(w, ops[..|ops| - 1]), ops[|ops| - 1]))
  }

  lemma StepKeepsNamed(w: World, op: Op)
    requires KeptNamed(w) && Named(w, op)
    ensures KeptNamed(Step(w, op))
  {
    match op
    case Add(p, u, now, verdict) => AddKeepsNamed(w, p, u, now, verdict);
    case MoveTo(p, file, to) => MoveKeepsNamed(w, p, file, to);
    case DeleteOne(p, file) => DeleteKeepsNamed(w, p, file);
    case RetractFrom(p, slices) => RetractKeepsNamed(w, p, slices);
    case Audit(p, bad) => if p in w.s.people { AuditKeepsNamed(w, p, bad); }
    case MergeTwo(a, b) =>
      if Merges(w.s, a, b) { MergeKeepsNamed(w, Survivor(w.s.people, a, b), Gone(w.s, a, b)); }
    case ForgetOne(p, record) =>
      if p in w.s.people { ForgetKeepsNamed(w, p, record); } else { assert w.names - {p} == w.names; }
    case NewPerson(p, createdAt, slug, name) =>
      if p !in w.s.people { NewPersonKeepsNamed(w, p, createdAt, slug, name); }
    case PushPerson(p) => if p in w.s.people { PushKeepsNamed(w, p); }
    case UploadClip(p, c) => if c.file in w.s.disk { UploadKeepsNamed(w, p, w.s.disk[c.file]); }
    case ReplayPass => ReplayKeepsNamed(w);
  }

  /** Any history keeps disk and index in bijection and every pending row able to
      land: recurring bytes, trimmed drops, merges and passes of any kind included. */
  lemma {:induction false} AnyHistoryKeepsNamed(remote: Remote, ops: seq<Op>)
    requires AllNamed(Fresh(remote), ops)
    ensures KeptNamed(Run(Fresh(remote), ops))
  {
    if ops != [] {
      AnyHistoryKeepsNamed(remote, ops[..|ops| - 1]);
      StepKeepsNamed(Run(Fresh(remote), ops[..|ops| - 1]), ops[|ops| - 1]);
    }
  }

  /** Exactly what a forget leaves after any history at all, once everyone left is
      known: a clip in membro stays where it was going to be if that is with
      somebody else and no pending row brings it to p on the way, and is nowhere
      otherwise. So the forget is complete if and only if no clip of p's answers to
      an address that stays. */
  lemma {:induction false} ForgetIsExactAfterAnyHistory(remote: Remote, ops: seq<Op>, p: PersonId, sha: Sha)
    requires AllNamed(Fresh(remote), ops) && p in Run(Fresh(remote), ops).s.people
    ensures
      var w := Run(Fresh(remote), ops);
      && p in w.names
      && At(Replay(w.remote, ForgetPerson(w.s, p, true).0.book.rows, w.names - {p}), sha)
         == (if Survives(w, p, sha) then End(w.s.book.rows, w.names, w.remote, sha) else None)
      && (ForgottenCompletely(w, p, w.names - {p})
          <==> forall c <- w.s.people[p].clips | Address(w.s.disk, c).Some? ::
                 !Survives(w, p, Address(w.s.disk, c).value))
  {
    AnyHistoryKeepsNamed(remote, ops);
    ForgetLeavesExactly(Run(Fresh(remote), ops), p, sha);
    ForgetIsCompleteExactly(Run(Fresh(remote), ops), p);
  }

  /** The same whomever membro knows when the pass after the forget is made. */
  lemma {:induction false} AForgetAndAPassAreExactAfterAnyHistory(remote: Remote, ops: seq<Op>, p: PersonId,
                                                                  known: Names, sha: Sha)
    requires AllNamed(Fresh(remote), ops) && p in Run(Fresh(remote), ops).s.people
    requires Sees(Run(Fresh(remote), ops), p, known)
    ensures
      var w := Run(Fresh(remote), ops);
      var rows', names' := ForgetPerson(w.s, p, true).0.book.rows, w.names - {p};
      && p in w.names
      && At(Replay(Replay(w.remote, rows', known), Waiting(rows', known), names'), sha) == BoundFor(w, p, known, sha)
      && (ForgottenCompletely(w, p, known)
          <==> forall c <- w.s.people[p].clips | Address(w.s.disk, c).Some? ::
                 BoundFor(w, p, known, Address(w.s.disk, c).value).None?)
  {
    AnyHistoryKeepsNamed(remote, ops);
    AForgetAndAPassLeaveExactly(Run(Fresh(remote), ops), p, known, sha);
    AForgetAndAPassAreCompleteExactly(Run(Fresh(remote), ops), p, known);
  }

  // ---------- a settled voice ----------

  /** Did this step bank an automatic clip for p under the settle rule? */
  predicate Takes(w: World, op: Op, p: PersonId) {
    && op.Add? && op.p == p && p in w.s.people
    && !Vouching(op.u.source) && op.u.stamp.None? && BankEstablished(w.s.people[p].clips, op.verdict)
    && !(op.u.dedupe && HeldCopy(w.s.disk, w.s.people[p].clips, op.u.sha).Some?)
    && AddClip(w.s, p, op.u, op.now, op.verdict).1
  }

  /** An add, as the time of p's last take sees it. */
  lemma AddTakes(w: World, op: Op, p: PersonId)
    requires op.Add? && p in w.s.people && p in Step(w, op).s.people
    ensures Step(w, op).s.people[p].settledAt
            == if Takes(w, op, p) then Some(op.now) else w.s.people[p].settledAt
    ensures Takes(w, op, p) && w.s.people[p].settledAt.Some? && w.s.people[p].settledAt.value != 0 ==>
              op.now - w.s.people[p].settledAt.value >= SETTLE_WINDOW_S
  {
  }

  /** No step but a take, or a fresh start, touches the time of p's last take;
      a take waits out the window. */
  lemma TakesWaitTheirWindow(w: World, op: Op, p: PersonId)
    requires p in w.s.people && p in Step(w, op).s.people
    ensures Step(w, op).s.people[p].settledAt
            == if Takes(w, op, p) then Some(op.now) else w.s.people[p].settledAt
    ensures Takes(w, op, p) && w.s.people[p].settledAt.Some? && w.s.people[p].settledAt.value != 0 ==>
              op.now - w.s.people[p].settledAt.value >= SETTLE_WINDOW_S
  {
    if op.Add? {
      AddTakes(w, op, p);
    }
  }

  /** The times of a history's takes for p. */
  function TakeTimes(w: World, ops: seq<Op>, p: PersonId): seq<nat> {
    if ops == [] then []
    else
      var op, before := ops[|ops| - 1], TakeTimes(w, ops[..|ops| - 1], p);
      if Takes(Run(w, ops[..|ops| - 1]), op, p) then before + [op.now] else before
  }

  predicate Stays(w: World, ops: seq<Op>, p: PersonId) {
    p in w.s.people && p in Run(w, ops).s.people && (ops == [] || Stays(w, ops[..|ops| - 1], p))
  }

  ghost predicate Spaced(times: seq<nat>) {
    && (forall t <- times :: t > 0)
    && forall i | 0 < i < |times| :: times[i] - times[i - 1] >= SETTLE_WINDOW_S
  }

  function LastOf(times: seq<nat>): Option<nat> {
    if times == [] then None else Some(times[|times| - 1])
  }

  lemma SpacedSnoc(before: seq<nat>, now: nat)
    requires Spaced(before) && now > 0
    requires before != [] ==> now - before[|before| - 1] >= SETTLE_WINDOW_S
    ensures Spaced(before + [now]) && LastOf(before + [now]) == Some(now)
  {
  }

  lemma TakeKeepsSpacing(w: World, op: Op, p: PersonId, before: seq<nat>)
    requires p in w.s.people && p in Step(w, op).s.people
    requires Spaced(before) && w.s.people[p].settledAt == LastOf(before)
    requires Takes(w, op, p) ==> op.now > 0
    ensures
      var after := if Takes(w, op, p) then before + [op.now] else before;
      Spaced(after) && Step(w, op).s.people[p].settledAt == LastOf(after)
  {
    TakesWaitTheirWindow(w, op, p);
    if Takes(w, op, p) {
      assert before != [] ==> before[|before| - 1] in before;
      SpacedSnoc(before, op.now);
    }
  }

  /** Two automatic clips an established bank takes are at least the settle
      window apart, over any history in which the person stays. */
  lemma {:induction false} SettledBankIsRateLimited(w: World, ops: seq<Op>, p: PersonId)
    requires Stays(w, ops, p) && w.s.people[p].settledAt.None?
    requires forall t <- TakeTimes(w, ops, p) :: t > 0
    ensures Spaced(TakeTimes(w, ops, p)) && Run(w, ops).s.people[p].settledAt == LastOf(TakeTimes(w, ops, p))
  {
    if ops != [] {
      var init, op := ops[..|ops| - 1], ops[|ops| - 1];
      var before, mid := TakeTimes(w, init, p), Run(w, init);
      assert forall t <- before :: t in TakeTimes(w, ops, p);
      assert Takes(mid, op, p) ==> op.now in TakeTimes(w, ops, p);
      SettledBankIsRateLimited(w, init, p);
      TakeKeepsSpacing(mid, op, p, before);
    }
  }
}
