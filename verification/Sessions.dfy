/** Capture sessions (backend/anchors.py: clip_sessions): runs of clips with no
    gap longer than SESSION_GAP_S between neighbours in time. */
module Sessions {
  import opened Wrappers
  import opened Bank
  import opened Sorting

  datatype Stamped = Stamped(at: nat, index: nat)

  function TimeKey(s: Stamped): Key {
    Key(s.at, 0, 0)
  }

  function Stamps(clips: seq<Clip>): seq<Stamped> {
    seq(|clips|, i requires 0 <= i < |clips| => Stamped(clips[i].addedAt, i))
  }

  function TimeOrder(clips: seq<Clip>): seq<Stamped> {
    Sorted(Stamps(clips), TimeKey)
  }

  /** Does the later of two neighbours in time order open a new session? A clip
      with no timestamp is a session of its own. */
  predicate Opens(before: Stamped, next: Stamped) {
    next.at == 0 || before.at == 0 || next.at - before.at > SESSION_GAP_S
  }

  function NumberAt(order: seq<Stamped>, k: nat): nat
    requires k < |order|
  {
    if k == 0 then 0
    else NumberAt(order, k - 1) + if Opens(order[k - 1], order[k]) then 1 else 0
  }

  lemma TimeOrderIndexes(clips: seq<Clip>)
    ensures |TimeOrder(clips)| == |clips| && Distinct(TimeOrder(clips)) && InOrder(TimeOrder(clips), TimeKey)
    ensures forall s <- TimeOrder(clips) :: s.index < |clips| && s.at == clips[s.index].addedAt
    ensures forall i | 0 <= i < |clips| :: Stamped(clips[i].addedAt, i) in TimeOrder(clips)
  {
    var stamps := Stamps(clips);
    SortedDistinct(stamps, TimeKey);
    SortedPermutes(stamps, TimeKey);
    SortedInOrder(stamps, TimeKey);
    forall i | 0 <= i < |clips| ensures Stamped(clips[i].addedAt, i) in TimeOrder(clips) {
      assert stamps[i] == Stamped(clips[i].addedAt, i);
    }
  }

  /** Where clip i sits in time order. */
  function Place(clips: seq<Clip>, i: nat): (k: nat)
    requires i < |clips|
    ensures k < |TimeOrder(clips)| && TimeOrder(clips)[k] == Stamped(clips[i].addedAt, i)
  {
    TimeOrderIndexes(clips);
    var k: nat :| k < |TimeOrder(clips)| && TimeOrder(clips)[k] == Stamped(clips[i].addedAt, i);
    k
  }

  function Session(clips: seq<Clip>, i: nat): nat
    requires i < |clips|
  {
    NumberAt(TimeOrder(clips), Place(clips, i))
  }

  function Sessions(clips: seq<Clip>): seq<nat> {
    seq(|clips|, i requires 0 <= i < |clips| => Session(clips, i))
  }

  lemma TimeOrderStands(clips: seq<Clip>)
    ensures Indexes(TimeOrder(clips), |clips|) && |TimeOrder(clips)| == |clips|
    ensures forall k | 0 < k < |clips| :: TimeOrder(clips)[k - 1].at <= TimeOrder(clips)[k].at
  {
    var order := TimeOrder(clips);
    TimeOrderIndexes(clips);
    forall k | 0 < k < |order| ensures order[k - 1].at <= order[k].at {
      assert NotAfter(TimeKey(order[k - 1]), TimeKey(order[k]));
    }
    forall j, k | 0 <= j < k < |order| ensures order[j].index != order[k].index {
      assert order[j] != order[k] && order[j] in order && order[k] in order;
    }
  }

  method ClipSessions(clips: seq<Clip>) returns (out: seq<nat>)
    ensures out == Sessions(clips)
  {
    var order := TimeOrder(clips);
    TimeOrderStands(clips);
    out := NumberInOrder(|clips|, order);
    forall i | 0 <= i < |clips| ensures out[i] == Session(clips, i) {
      NumbersStand(|clips|, order, Place(clips, i), |order|);
    }
  }

  ghost predicate Indexes(order: seq<Stamped>, n: nat) {
    && (forall k | 0 <= k < |order| :: order[k].index < n)
    && forall j, k | 0 <= j < k < |order| :: order[j].index != order[k].index
  }

  /** The numbers handed out once the first k places have theirs. */
  function Numbers(n: nat, order: seq<Stamped>, k: nat): (out: seq<nat>)
    requires k <= |order| && forall j | 0 <= j < |order| :: order[j].index < n
    ensures |out| == n
  {
    if k == 0 then seq(n, _ => 0)
    else Numbers(n, order, k - 1)[order[k - 1].index := NumberAt(order, k - 1)]
  }

  lemma {:induction false} NumbersStand(n: nat, order: seq<Stamped>, j: nat, k: nat)
    requires j < k <= |order| && Indexes(order, n)
    ensures Numbers(n, order, k)[order[j].index] == NumberAt(order, j)
  {
    if j < k - 1 {
      NumbersStand(n, order, j, k - 1);
    }
  }

  method NumberInOrder(n: nat, order: seq<Stamped>) returns (out: seq<nat>)
    requires Indexes(order, n)
    requires forall k | 0 < k < |order| :: order[k - 1].at <= order[k].at
    ensures out == Numbers(n, order, |order|)
  {
    out := seq(n, _ => 0);
    var session: int, last: Option<nat> := -1, None;
    for k := 0 to |order|
      invariant out == Numbers(n, order, k)
      invariant session == if k == 0 then -1 else NumberAt(order, k - 1)
      invariant last == if k == 0 || order[k - 1].at == 0 then None else Some(order[k - 1].at)
    {
      var at := order[k].at;
      if at == 0 {
        session := session + 1;
        out := out[order[k].index := session];
        continue;
      }
      if last.None? || at - last.value > SESSION_GAP_S {
        session := session + 1;
      }
      out := out[order[k].index := session];
      last := Some(at);
    }
  }

  /** Some clip was captured after `at`, and within a session gap of it. */
  ghost predicate FollowedUp(clips: seq<Clip>, at: nat) {
    exists m | 0 <= m < |clips| :: at < clips[m].addedAt <= at + SESSION_GAP_S
  }

  /** No gap longer than a session's lies between two capture times. */
  ghost predicate Linked(clips: seq<Clip>, a: nat, b: nat) {
    forall k | 0 <= k < |clips| && 0 < clips[k].addedAt && a <= clips[k].addedAt < b ::
      FollowedUp(clips, clips[k].addedAt)
  }

  lemma {:induction false} NumbersRise(order: seq<Stamped>, p: nat, q: nat)
    requires p <= q < |order|
    ensures NumberAt(order, p) <= NumberAt(order, q)
    ensures NumberAt(order, p) == NumberAt(order, q) <==> forall r | p < r <= q :: !Opens(order[r - 1], order[r])
  {
    if p < q {
      NumbersRise(order, p, q - 1);
    }
  }

  /** The last place in time order, before q, that holds the same time as p. */
  lemma LastAtTime(order: seq<Stamped>, p: nat, q: nat) returns (r: nat)
    requires p < q < |order| && InOrder(order, TimeKey) && order[p].at < order[q].at
    ensures p <= r < q && order[r].at == order[p].at < order[r + 1].at
  {
    r := p;
    while order[r + 1].at == order[p].at
      invariant p <= r < q && order[r].at == order[p].at
      decreases q - r
    {
      r := r + 1;
    }
    assert NotAfter(TimeKey(order[p]), TimeKey(order[r + 1]));
  }

  /** `order` is the clips' capture times in time order. */
  ghost predicate OrderOf(order: seq<Stamped>, clips: seq<Clip>) {
    && InOrder(order, TimeKey)
    && forall k | 0 <= k < |order| :: order[k].index < |clips| && order[k].at == clips[order[k].index].addedAt
  }

  lemma TimesRise(order: seq<Stamped>, p: nat, q: nat)
    requires InOrder(order, TimeKey) && p < |order| && q < |order|
    ensures p <= q ==> order[p].at <= order[q].at
    ensures order[p].at < order[q].at ==> p < q
  {
    if p < q {
      assert NotAfter(TimeKey(order[p]), TimeKey(order[q]));
    } else if q < p {
      assert NotAfter(TimeKey(order[q]), TimeKey(order[p]));
    }
  }

  /** Between two places with one number, the clip at w is followed up. */
  lemma {:induction false} NoOpenFollowsUp(clips: seq<Clip>, order: seq<Stamped>, p: nat, q: nat, w: nat)
    requires OrderOf(order, clips) && p < |order| && q < |order| && w < |order|
    requires 0 < order[p].at <= order[w].at < order[q].at && NumberAt(order, p) == NumberAt(order, q)
    ensures FollowedUp(clips, order[w].at)
  {
    TimesRise(order, w, q);
    TimesRise(order, p, q);
    var r := LastAtTime(order, w, q);
    TimesRise(order, p, r + 1);
    NumbersRise(order, p, q);
    assert !Opens(order[r], order[r + 1]);
    assert clips[order[r + 1].index].addedAt == order[r + 1].at;
  }

  /** Same number, so no long gap between. */
  lemma SameSessionLinked(clips: seq<Clip>, i: nat, j: nat)
    requires i < |clips| && j < |clips| && 0 < clips[i].addedAt <= clips[j].addedAt
    requires Session(clips, i) == Session(clips, j)
    ensures Linked(clips, clips[i].addedAt, clips[j].addedAt)
  {
    TimeOrderIndexes(clips);
    forall k | 0 <= k < |clips| && 0 < clips[k].addedAt && clips[i].addedAt <= clips[k].addedAt < clips[j].addedAt
      ensures FollowedUp(clips, clips[k].addedAt)
    {
      NoOpenFollowsUp(clips, TimeOrder(clips), Place(clips, i), Place(clips, j), Place(clips, k));
    }
  }

  /** Neighbours in time order, the first of them followed up, share a session. */
  lemma FollowedUpStays(clips: seq<Clip>, order: seq<Stamped>, r: nat, w: nat)
    requires OrderOf(order, clips) && 0 < r < |order| && w < |order| && 0 < order[r - 1].at
    requires order[r - 1].at == order[r].at || order[r - 1].at < order[w].at <= order[r - 1].at + SESSION_GAP_S
    ensures !Opens(order[r - 1], order[r])
  {
    TimesRise(order, r - 1, r);
    TimesRise(order, w, r - 1);
    TimesRise(order, r, w);
  }

  lemma LinkedNeighbours(clips: seq<Clip>, order: seq<Stamped>, lo: nat, hi: nat, r: nat)
    requires OrderOf(order, clips) && lo < r <= hi < |order| && 0 < order[lo].at
    requires order == TimeOrder(clips) && Linked(clips, order[lo].at, order[hi].at)
    ensures !Opens(order[r - 1], order[r])
  {
    TimesRise(order, lo, r - 1);
    TimesRise(order, r - 1, r);
    TimesRise(order, r, hi);
    var k := order[r - 1].index;
    assert clips[k].addedAt == order[r - 1].at;
    if order[r - 1].at < order[r].at {
      assert FollowedUp(clips, clips[k].addedAt);
      var m :| 0 <= m < |clips| && clips[k].addedAt < clips[m].addedAt <= clips[k].addedAt + SESSION_GAP_S;
      FollowedUpStays(clips, order, r, Place(clips, m));
    } else {
      FollowedUpStays(clips, order, r, r);
    }
  }

  /** No long gap between, so the same number. */
  lemma LinkedSameSession(clips: seq<Clip>, i: nat, j: nat)
    requires i < |clips| && j < |clips| && 0 < clips[i].addedAt <= clips[j].addedAt
    requires Linked(clips, clips[i].addedAt, clips[j].addedAt)
    ensures Session(clips, i) == Session(clips, j)
  {
    TimeOrderIndexes(clips);
    LinkedPlaces(clips, TimeOrder(clips), Place(clips, i), Place(clips, j));
  }

  lemma {:induction false} LinkedPlaces(clips: seq<Clip>, order: seq<Stamped>, p: nat, q: nat)
    requires OrderOf(order, clips) && order == TimeOrder(clips) && p < |order| && q < |order|
    requires 0 < order[p].at <= order[q].at && Linked(clips, order[p].at, order[q].at)
    ensures NumberAt(order, p) == NumberAt(order, q)
  {
    var lo, hi := if p <= q then p else q, if p <= q then q else p;
    TimesRise(order, lo, hi);
    forall r | lo < r <= hi ensures !Opens(order[r - 1], order[r]) {
      LinkedNeighbours(clips, order, lo, hi, r);
    }
    NumbersRise(order, lo, hi);
  }

  lemma UnstampedAlone(clips: seq<Clip>, i: nat, j: nat)
    requires i < |clips| && j < |clips| && clips[i].addedAt == 0 && i != j
    ensures Session(clips, i) != Session(clips, j)
  {
    var order, p, q := TimeOrder(clips), Place(clips, i), Place(clips, j);
    TimeOrderIndexes(clips);
    assert p != q;
    if p < q {
      NumbersRise(order, p, q);
      assert Opens(order[p], order[p + 1]);
    } else {
      NumbersRise(order, q, p);
      assert Opens(order[p - 1], order[p]);
    }
  }

  /** clip_sessions is the transitive closure of "within SESSION_GAP_S": two
      timestamped clips share a number exactly when no longer gap lies between
      them, and a clip with no timestamp shares its number with no other. */
  lemma SessionsAreTheClosure(clips: seq<Clip>, i: nat, j: nat)
    requires i < |clips| && j < |clips| && clips[i].addedAt <= clips[j].addedAt
    ensures Sessions(clips)[i] == Sessions(clips)[j]
            <==> i == j || (0 < clips[i].addedAt && Linked(clips, clips[i].addedAt, clips[j].addedAt))
  {
    if clips[i].addedAt == 0 {
      if i != j { UnstampedAlone(clips, i, j); }
    } else if Session(clips, i) == Session(clips, j) {
      SameSessionLinked(clips, i, j);
    } else if Linked(clips, clips[i].addedAt, clips[j].addedAt) {
      LinkedSameSession(clips, i, j);
    }
  }

  function Times(clips: seq<Clip>): set<nat> {
    set k | 0 <= k < |clips| :: clips[k].addedAt
  }

  /** The partition does not depend on input order: banks with the same capture
      times part the same two clips alike, wherever the clips stand in them. */
  lemma SessionsIgnoreOrder(a: seq<Clip>, b: seq<Clip>, i: nat, j: nat, i': nat, j': nat)
    requires i < |a| && j < |a| && i' < |b| && j' < |b| && (i == j <==> i' == j')
    requires a[i].addedAt == b[i'].addedAt <= a[j].addedAt == b[j'].addedAt
    requires Times(a) == Times(b)
    ensures Sessions(a)[i] == Sessions(a)[j] <==> Sessions(b)[i'] == Sessions(b)[j']
  {
    SessionsAreTheClosure(a, i, j);
    SessionsAreTheClosure(b, i', j');
    SameTimesSameLinks(a, b, a[i].addedAt, a[j].addedAt);
    SameTimesSameLinks(b, a, a[i].addedAt, a[j].addedAt);
  }

  lemma SameTimesSameLinks(a: seq<Clip>, b: seq<Clip>, lo: nat, hi: nat)
    requires Times(a) == Times(b)
    ensures Linked(a, lo, hi) ==> Linked(b, lo, hi)
  {
    if Linked(a, lo, hi) {
      forall k | 0 <= k < |b| && 0 < b[k].addedAt && lo <= b[k].addedAt < hi
        ensures FollowedUp(b, b[k].addedAt)
      {
        var k' := SameTimeIn(a, b, k);
        assert FollowedUp(a, a[k'].addedAt);
        var m :| 0 <= m < |a| && a[k'].addedAt < a[m].addedAt <= a[k'].addedAt + SESSION_GAP_S;
        var m' := SameTimeIn(b, a, m);
      }
    }
  }

  lemma SameTimeIn(a: seq<Clip>, b: seq<Clip>, k: nat) returns (k': nat)
    requires k < |b| && Times(a) == Times(b)
    ensures k' < |a| && a[k'].addedAt == b[k].addedAt
  {
    assert b[k].addedAt in Times(b);
    k' :| 0 <= k' < |a| && a[k'].addedAt == b[k].addedAt;
  }
}
