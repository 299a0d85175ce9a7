/** The anchor store's state and what each operation does to it, as functions
    (backend/anchors.py: AnchorStore). AnchorStore.dfy carries them out step by
    step. Every fold peels off the last clip, as the loops reach it. */
module Store {
  import opened Wrappers
  import opened Ledger
  import opened Bank
  import opened Sorting
  import R = Rotation

  datatype Person = Person(createdAt: int, slug: Option<Slug>, clips: seq<Clip>, settledAt: Option<nat>)

  /** The ledger and the id its next row takes. */
  datatype Book = Book(rows: seq<Row>, next: Cid)

  type People = map<PersonId, Person>

  /** Clip files, and what each one's bytes hash to. */
  type Disk = map<FileName, Sha>

  datatype State = State(people: People, book: Book, disk: Disk, nextFile: FileName)

  // ---------- clips ----------

  predicate IsSetAside(c: Clip) {
    c.quarantined
  }

  function ActiveClips(clips: seq<Clip>): seq<Clip> {
    Restrict(clips, Active)
  }

  function SetAside(clips: seq<Clip>): seq<Clip> {
    Restrict(clips, IsSetAside)
  }

  function NotFile(file: FileName): Clip -> bool {
    (c: Clip) => c.file != file
  }

  function Without(clips: seq<Clip>, file: FileName): seq<Clip> {
    Restrict(clips, NotFile(file))
  }

  function Files(clips: seq<Clip>): set<FileName> {
    set c | c in clips :: c.file
  }

  function FindFile(clips: seq<Clip>, file: FileName): (c: Option<Clip>)
    ensures c.Some? ==> c.value in clips && c.value.file == file
    ensures c.None? ==> file !in Files(clips)
  {
    if clips == [] then None
    else if clips[0].file == file then Some(clips[0])
    else FindFile(clips[1..], file)
  }

  /** The address membro knows a clip by: its stamp, else its bytes' hash. */
  function Address(disk: Disk, c: Clip): Option<Sha> {
    if c.stamp.Some? then c.stamp
    else if c.file in disk then Some(disk[c.file])
    else None
  }

  /** What membro calls a clip: the hash membro gave it, if it came from there, and
      otherwise the hash of its bytes. */
  ghost predicate KnownAs(disk: Disk, c: Clip, sha: Sha) {
    if c.stamp.Some? then sha == c.stamp.value else c.file in disk && sha == disk[c.file]
  }

  // ---------- the ledger ----------

  function Note(book: Book, row: Row): Book {
    Book(book.rows + [row.(cid := book.next)], book.next + 1)
  }

  predicate IsDrop(row: Row) {
    row.Delete? && row.why.Some?
  }

  function CountDrops(rows: seq<Row>): nat {
    |Restrict(rows, IsDrop)|
  }

  /** Rows without their n oldest drops. */
  function SkipDrops(rows: seq<Row>, n: nat): seq<Row> {
    if rows == [] then []
    else
      var init, last := rows[..|rows| - 1], rows[|rows| - 1];
      SkipDrops(init, n) + if IsDrop(last) && CountDrops(init) < n then [] else [last]
  }

  function TrimDrops(rows: seq<Row>): seq<Row> {
    if CountDrops(rows) <= DROP_ROWS_MAX then rows
    else SkipDrops(rows, CountDrops(rows) - DROP_ROWS_MAX)
  }

  predicate MovesInto(rows: seq<Row>, p: PersonId, sha: Sha) {
    exists row <- rows :: row.Move? && row.dst == p && row.sha == sha
  }

  /** Will a clip that leaves the bank be sent on? */
  predicate SendsDrop(rows: seq<Row>, disk: Disk, p: PersonId, known: bool, c: Clip) {
    !c.leftMembro && Address(disk, c).Some? && (known || MovesInto(rows, p, Address(disk, c).value))
  }

  /** Send on a clip that left the kept set. `known` says membro knows the
      person, or that the row is wanted whether it does or not. */
  function RecordDrop(book: Book, disk: Disk, p: PersonId, known: bool, c: Clip, why: Why): Book {
    var sha := Address(disk, c);
    if c.leftMembro || sha.None? || !(known || MovesInto(book.rows, p, sha.value)) then book
    else
      var noted := Note(book, Delete(0, p, None, sha.value, Some(why)));
      noted.(rows := TrimDrops(noted.rows))
  }

  /** The drops of every clip that is not kept; `replaced` is the file the
      settle rule gave up. */
  function DropMissing(book: Book, disk: Disk, p: PersonId, known: bool, clips: seq<Clip>, kept: set<FileName>,
                       replaced: Option<FileName>): Book
  {
    if clips == [] then book
    else
      var c := clips[|clips| - 1];
      var before := DropMissing(book, disk, p, known, clips[..|clips| - 1], kept, replaced);
      if c.file in kept then before
      else RecordDrop(before, disk, p, known, c, if Some(c.file) == replaced then BySettling else ByRotation)
  }

  // ---------- move, delete, retract ----------

  /** Refile one clip under the person it belongs to. */
  function MoveClip(s: State, p: PersonId, file: FileName, to: PersonId): (State, bool) {
    if p == to || p !in s.people || to !in s.people then (s, false)
    else
      var clip := FindFile(s.people[p].clips, file);
      if clip.None? then (s, false)
      else
        var moved := clip.value.(quarantined := false, leftMembro := false, moved := true);
        var sha := Address(s.disk, moved);
        (s.(people := s.people[p := s.people[p].(clips := Without(s.people[p].clips, file))]
                              [to := s.people[to].(clips := s.people[to].clips + [moved])],
            book := if sha.None? then s.book else Note(s.book, Move(0, p, None, to, sha.value))),
         true)
  }

  function DeleteClip(s: State, p: PersonId, file: FileName): (State, bool) {
    if p !in s.people then (s, false)
    else
      var clip := FindFile(s.people[p].clips, file);
      if clip.None? then (s, false)
      else
        var sha := Address(s.disk, clip.value);
        (s.(people := s.people[p := s.people[p].(clips := Without(s.people[p].clips, file))],
            book := if sha.None? then s.book else Note(s.book, Delete(0, p, None, sha.value, None)),
            disk := s.disk - {file}),
         true)
  }

  /** Only automated match captures may be retracted. */
  predicate Contested(c: Clip, slices: set<FileName>) {
    (c.source == Accumulated || c.source == HarvestedShort) && c.file in slices
  }

  function IsContested(slices: set<FileName>): Clip -> bool {
    (c: Clip) => Contested(c, slices)
  }

  function Uncontested(slices: set<FileName>): Clip -> bool {
    (c: Clip) => !Contested(c, slices)
  }

  /** A delete row for each clip, in order. */
  function NoteDeletes(book: Book, disk: Disk, p: PersonId, clips: seq<Clip>): Book {
    if clips == [] then book
    else
      var before := NoteDeletes(book, disk, p, clips[..|clips| - 1]);
      var sha := Address(disk, clips[|clips| - 1]);
      if sha.None? then before else Note(before, Delete(0, p, None, sha.value, None))
  }

  /** Remove the clips one utterance banked: `slices` names the files whose
      bytes are a slice of it. */
  function Retract(s: State, p: PersonId, slices: set<FileName>): (State, nat) {
    if p !in s.people then (s, 0)
    else
      var gone := Restrict(s.people[p].clips, IsContested(slices));
      if gone == [] then (s, 0)
      else
        (s.(people := s.people[p := s.people[p].(clips := Restrict(s.people[p].clips, Uncontested(slices)))],
            book := NoteDeletes(s.book, s.disk, p, gone),
            disk := s.disk - Files(gone)),
         |gone|)
  }

  // ---------- forget and merge ----------

  function ForgetPerson(s: State, p: PersonId, record: bool): (State, bool) {
    if p !in s.people then (s, false)
    else
      var person := s.people[p];
      var settled := s.book.(rows := Settle(s.book.rows, p, person.slug, None).out);
      (s.(people := s.people - {p},
          book := if record && person.slug.Some? then Note(settled, Forget(0, person.slug.value)) else settled,
          disk := s.disk - Files(person.clips)),
       true)
  }

  /** The older record survives a merge. */
  function Survivor(people: People, a: PersonId, b: PersonId): PersonId
    requires a in people && b in people
  {
    if people[b].createdAt < people[a].createdAt then b else a
  }

  function MergedClips(survivor: Person, gone: Person): seq<Clip> {
    survivor.clips + gone.clips
  }

  function KeptOfMerge(survivor: Person, gone: Person): seq<Clip> {
    var merged := MergedClips(survivor, gone);
    R.SelectKeep(ActiveClips(merged)) + R.Take(SetAside(merged), QUARANTINE_MAX)
  }

  /** The drops of both banks' lost clips, ahead of the settling. */
  function MergeDrops(s: State, survivor: PersonId, gone: PersonId, kept: set<FileName>): Book
    requires survivor in s.people && gone in s.people
  {
    DropMissing(
      DropMissing(s.book, s.disk, survivor, s.people[survivor].slug.Some?, s.people[survivor].clips, kept, None),
      s.disk, gone, true, s.people[gone].clips, kept, None)
  }

  function SettledOnto(book: Book, survivor: PersonId, gone: PersonId, slug: Option<Slug>): Book {
    var settled := book.(rows := Settle(book.rows, gone, slug, Some(survivor)).out);
    if slug.Some? then Note(settled, Merge(0, slug.value, survivor)) else settled
  }

  function MergePeople(s: State, a: PersonId, b: PersonId): (State, Option<PersonId>) {
    if a == b || a !in s.people || b !in s.people then (s, None)
    else
      var survivor := Survivor(s.people, a, b);
      var gone := if survivor == a then b else a;
      (MergeInto(s, survivor, gone), Some(survivor))
  }

  /** The state once `gone` is folded into `survivor`, whose bank keeps `kept`. */
  function MergeKeeping(s: State, survivor: PersonId, gone: PersonId, kept: seq<Clip>): State
    requires survivor in s.people && gone in s.people
  {
    s.(people := (s.people - {gone})[survivor := s.people[survivor].(clips := kept)],
       book := SettledOnto(MergeDrops(s, survivor, gone, Files(kept)), survivor, gone, s.people[gone].slug),
       disk := s.disk - (Files(MergedClips(s.people[survivor], s.people[gone])) - Files(kept)))
  }

  function MergeInto(s: State, survivor: PersonId, gone: PersonId): State
    requires survivor in s.people && gone in s.people
  {
    MergeKeeping(s, survivor, gone, KeptOfMerge(s.people[survivor], s.people[gone]))
  }

  // ---------- the settle rule and add_clip ----------

  /** The calendar day of a capture time; a missing time is the epoch's day. */
  function CaptureDay(at: nat): nat {
    at / 86400
  }

  function CaptureDays(clips: seq<Clip>): set<nat> {
    set c | c in clips :: CaptureDay(c.addedAt)
  }

  function TotalMillis(clips: seq<Clip>): int {
    if clips == [] then 0 else TotalMillis(clips[..|clips| - 1]) + clips[|clips| - 1].millis
  }

  predicate IsSufficient(clips: seq<Clip>) {
    TotalMillis(ActiveClips(clips)) >= SUFFICIENT_MILLIS
  }

  /** `verdict` is the calibrated scorer's answer when it has one. */
  predicate BankEstablished(clips: seq<Clip>, verdict: Option<bool>) {
    if verdict.Some? then verdict.value
    else
      var live := ActiveClips(clips);
      IsSufficient(clips) && |live| >= SETTLE_MIN_CLIPS && |CaptureDays(live)| >= SETTLE_MIN_DAYS
  }

  function SameClass(c: Clip): Clip -> bool {
    (d: Clip) => IsShort(d) == IsShort(c)
  }

  predicate Automatic(c: Clip) {
    !Protected(c)
  }

  /** The lowest quality score, oldest on a tie; the first of equals. */
  function Weakest(clips: seq<Clip>): (w: Clip)
    requires clips != []
    ensures w in clips
    ensures forall c <- clips :: !Better(w, c)
  {
    if |clips| == 1 then clips[0]
    else
      assert clips == clips[..|clips| - 1] + [clips[|clips| - 1]];
      var w := Weakest(clips[..|clips| - 1]);
      if Better(w, clips[|clips| - 1]) then clips[|clips| - 1] else w
  }

  datatype Offer = Take(victim: Option<Clip>) | Refuse

  /** What an established bank does with one automatic clip. */
  function SettleOffer(clips: seq<Clip>, candidate: Clip, now: nat, lastAt: Option<nat>): Offer {
    if lastAt.Some? && lastAt.value != 0 && now - lastAt.value < SETTLE_WINDOW_S then Refuse
    else
      var live := ActiveClips(clips);
      var same := Restrict(live, SameClass(candidate));
      if |same| < Cap(IsShort(candidate)) then Take(None)
      else
        var automatic := Restrict(same, Automatic);
        if automatic == [] then Refuse
        else
          var weakest := Weakest(automatic);
          if CaptureDay(candidate.addedAt) !in CaptureDays(live) || candidate.score > weakest.score then
            Take(Some(weakest))
          else Refuse
  }

  /** One utterance offered as a clip: its measures after trimming, whether the
      acceptance gate passes it, and what its bytes hash to. */
  datatype Utterance = Utterance(
    millis: int, score: int, passes: bool, sha: Sha, source: Provenance,
    stamp: Option<Sha>, addedAt: Option<nat>, dedupe: bool)

  /** The first clip of the bank holding exactly these bytes. */
  function HeldCopy(disk: Disk, clips: seq<Clip>, sha: Sha): (k: Option<nat>)
    ensures k.Some? ==> k.value < |clips| && clips[k.value].file in disk && disk[clips[k.value].file] == sha
  {
    if clips == [] then None
    else
      var k := HeldCopy(disk, clips[..|clips| - 1], sha);
      var c := clips[|clips| - 1];
      if k.Some? then k
      else if c.file in disk && disk[c.file] == sha then Some(|clips| - 1)
      else None
  }

  function NewClip(u: Utterance, file: FileName, now: nat): Clip {
    Clip(file, u.millis, u.score,
         if u.addedAt.Some? && 0 < u.addedAt.value <= now then u.addedAt.value else now,
         u.source, false, false, false, u.stamp)
  }

  /** Does the settle rule have a say in this offer? */
  predicate Settles(person: Person, u: Utterance, verdict: Option<bool>) {
    !Vouching(u.source) && u.stamp.None? && BankEstablished(person.clips, verdict)
  }

  /** The bank a new clip is offered to, less the clip it replaces. */
  function Offered(clips: seq<Clip>, entry: Clip, victim: Option<Clip>): seq<Clip> {
    (if victim.Some? then Without(clips, victim.value.file) else clips) + [entry]
  }

  /** A bank after rotation: the kept active clips, then the set-aside ones. */
  function KeptOfBank(clips: seq<Clip>): seq<Clip> {
    R.SelectKeep(ActiveClips(clips)) + SetAside(clips)
  }

  /** The state once a new clip is banked and the bank keeps `kept`. */
  function BankKeeping(s: State, p: PersonId, u: Utterance, entry: Clip, replaced: Option<FileName>,
                       kept: seq<Clip>): State
    requires p in s.people
  {
    var before := s.people[p].clips;
    var disk := s.disk[entry.file := u.sha];
    s.(people := s.people[p := s.people[p].(clips := kept)],
       book := if u.stamp.Some? then s.book
               else DropMissing(s.book, disk, p, s.people[p].slug.Some?, before, Files(kept), replaced),
       disk := disk - (Files(before + [entry]) - Files(kept)),
       nextFile := s.nextFile + 1)
  }

  function FileOf(victim: Option<Clip>): Option<FileName> {
    if victim.Some? then Some(victim.value.file) else None
  }

  function BankClip(s: State, p: PersonId, u: Utterance, entry: Clip, victim: Option<Clip>): State
    requires p in s.people
  {
    BankKeeping(s, p, u, entry, FileOf(victim), KeptOfBank(Offered(s.people[p].clips, entry, victim)))
  }

  function AddClip(s: State, p: PersonId, u: Utterance, now: nat, verdict: Option<bool>): (State, bool) {
    if !u.passes || p !in s.people then (s, false)
    else
      var person := s.people[p];
      var held := if u.dedupe then HeldCopy(s.disk, person.clips, u.sha) else None;
      if held.Some? then
        var c := person.clips[held.value];
        if Vouching(u.source) && !Protected(c) then
          (s.(people := s.people[p := person.(clips := person.clips[held.value := c.(source := u.source)])]), true)
        else (s, true)
      else
        var entry := NewClip(u, s.nextFile, now);
        if Settles(person, u, verdict) then
          match SettleOffer(person.clips, entry, now, person.settledAt)
          case Refuse => (s, false)
          case Take(victim) =>
            (BankClip(s.(people := s.people[p := person.(settledAt := Some(now))]), p, u, entry, victim), true)
        else (BankClip(s, p, u, entry, None), true)
  }

  // ---------- the hygiene audit ----------

  /** One audit verdict on one clip. A clip newly set aside loses its membro
      stamp: it was just sent on for deletion there. */
  function Judge(c: Clip, bad: set<FileName>): Clip {
    if c.file in bad then
      if c.quarantined then c else c.(quarantined := true, stamp := None, leftMembro := true)
    else c.(quarantined := false, leftMembro := false)
  }

  function JudgeAll(clips: seq<Clip>, bad: set<FileName>): seq<Clip> {
    seq(|clips|, i requires 0 <= i < |clips| => Judge(clips[i], bad))
  }

  function JudgeDrops(book: Book, disk: Disk, p: PersonId, known: bool, clips: seq<Clip>, bad: set<FileName>): Book {
    if clips == [] then book
    else
      var c := clips[|clips| - 1];
      var before := JudgeDrops(book, disk, p, known, clips[..|clips| - 1], bad);
      if c.file in bad && !c.quarantined then RecordDrop(before, disk, p, known, c, ByAudit) else before
  }

  function AgeKey(c: Clip): Key {
    Key(c.addedAt, 0, 0)
  }

  /** The oldest set-aside clips past the cap. */
  function Overflow(clips: seq<Clip>): seq<Clip> {
    var aside := SetAside(clips);
    if |aside| > QUARANTINE_MAX then R.Take(Sorted(aside, AgeKey), |aside| - QUARANTINE_MAX) else []
  }

  function NotIn(files: set<FileName>): Clip -> bool {
    (c: Clip) => c.file !in files
  }

  /** One person's bank audited. */
  function AuditPerson(s: State, p: PersonId, bad: set<FileName>): State
    requires p in s.people
  {
    var person := s.people[p];
    var known := person.slug.Some?;
    var judged := JudgeAll(person.clips, bad);
    var evict := Overflow(judged);
    s.(people := s.people[p := person.(clips := Restrict(judged, NotIn(Files(evict))))],
       book := DropMissing(JudgeDrops(s.book, s.disk, p, known, person.clips, bad),
                           s.disk, p, known, evict, {}, None),
       disk := s.disk - Files(evict))
  }

  function Verdict(quarantine: map<PersonId, set<FileName>>, p: PersonId): set<FileName> {
    if p in quarantine then quarantine[p] else {}
  }

  /** The audit over the people in `order`; the index keeps them sorted. */
  function SetHygiene(s: State, quarantine: map<PersonId, set<FileName>>, order: seq<PersonId>): (r: State)
    requires forall p <- order :: p in s.people
    ensures r.people.Keys == s.people.Keys
  {
    if order == [] then s
    else
      var before := SetHygiene(s, quarantine, order[..|order| - 1]);
      var p := order[|order| - 1];
      AuditPerson(before, p, Verdict(quarantine, p))
  }
}
