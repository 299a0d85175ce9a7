/** The byte-budgeted cache of decoded attachments (backend/attachments.py:
    _cached, clear_cache): two locked sections with the decoding between them,
    callers interleaved. */
module Attachments {
  import opened Wrappers
  import opened Sorting

  type Key = int     // kind, path, size and mtime
  type Value = string

  /** The module state. `budget` is CACHE_BUDGET_BYTES. */
  datatype Cache = Cache(values: map<Key, Value>, order: seq<Key>, bytes: int)

  const BUDGET: nat := 96 * 1024 * 1024

  const NOTHING := Cache(map[], [], 0)

  // ---------- the two locked sections, as functions ----------

  function Without(order: seq<Key>, key: Key): seq<Key> {
    if order == [] then []
    else if order[|order| - 1] == key then Without(order[..|order| - 1], key)
    else Without(order[..|order| - 1], key) + [order[|order| - 1]]
  }

  function Touched(order: seq<Key>, key: Key): seq<Key> {
    Without(order, key) + [key]
  }

  function Looked(c: Cache, key: Key): Cache {
    if key in c.values then c.(order := Touched(c.order, key)) else c
  }

  function SizeOf(values: map<Key, Value>, key: Key): nat {
    if key in values then |values[key]| else 0
  }

  function Evicted(c: Cache): Cache
    requires c.order != []
  {
    Cache(c.values - {c.order[0]}, c.order[1..], c.bytes - SizeOf(c.values, c.order[0]))
  }

  function Trimmed(c: Cache): Cache
    decreases |c.order|
  {
    if c.bytes > BUDGET && |c.order| > 1 then Trimmed(Evicted(c)) else c
  }

  function Grown(c: Cache, key: Key, value: Value): Cache {
    Cache(c.values[key := value], c.order + [key], c.bytes + |value|)
  }

  function Stored(c: Cache, key: Key, value: Value): Cache {
    if key in c.values then c else Trimmed(Grown(c, key, value))
  }

  class AttachmentCache {
    var values: map<Key, Value>
    var order: seq<Key>
    var bytes: int

    ghost function View(): Cache
      reads this
    {
      Cache(values, order, bytes)
    }

    constructor ()
      ensures View() == NOTHING
    {
      values, order, bytes := map[], [], 0;
    }

    method Find(key: Key) returns (hit: Option<Value>)
      requires CacheOk(View())
      modifies this
      ensures View() == Looked(old(View()), key)
      ensures hit == if key in old(values) then Some(old(values)[key]) else None
    {
      if key !in values {
        return None;
      }
      var at := 0;
      while order[at] != key
        invariant 0 <= at < |order| && key !in order[..at]
        modifies {}
        decreases |order| - at
      {
        FoundLater(order, key, at);
        at := at + 1;
      }
      RemoveFirstIsWithout(order, key, at);
      order := order[..at] + order[at + 1..] + [key];
      hit := Some(values[key]);
    }

    method Store(key: Key, value: Value)
      modifies this
      ensures View() == Stored(old(View()), key, value)
    {
      if key in values {
        return;
      }
      values := values[key := value];
      order := order + [key];
      bytes := bytes + |value|;
      ghost var grown := View();
      while bytes > BUDGET && |order| > 1
        invariant Trimmed(View()) == Trimmed(grown)
        decreases |order|
      {
        var evicted := order[0];
        order := order[1..];
        bytes := bytes - SizeOf(values, evicted);
        values := values - {evicted};
      }
    }

    method Clear()
      modifies this
      ensures View() == NOTHING
    {
      values, order, bytes := map[], [], 0;
    }
  }

  // ---------- what the sections keep ----------

  function Size(values: map<Key, Value>, order: seq<Key>): nat {
    if order == [] then 0 else Size(values, order[..|order| - 1]) + SizeOf(values, order[|order| - 1])
  }

  /** The order lists exactly the cached keys, once each, and the counter is their size. */
  ghost predicate Consistent(c: Cache) {
    && Distinct(c.order)
    && (forall k :: k in c.values <==> k in c.order)
    && c.bytes == Size(c.values, c.order)
  }

  ghost predicate CacheOk(c: Cache) {
    Consistent(c) && c.bytes <= BUDGET
  }

  lemma FoundLater(order: seq<Key>, key: Key, at: nat)
    requires key in order && at < |order| && key !in order[..at] && order[at] != key
    ensures at + 1 < |order| && key !in order[..at + 1]
  {
    assert order[..at + 1] == order[..at] + [order[at]];
  }

  lemma {:induction false} WithoutMembers(order: seq<Key>, key: Key)
    ensures forall k :: k in Without(order, key) <==> k in order && k != key
    ensures key !in order ==> Without(order, key) == order
  {
    if order != [] {
      WithoutMembers(order[..|order| - 1], key);
    }
  }

  lemma {:induction false} WithoutDistinct(order: seq<Key>, key: Key)
    requires Distinct(order)
    ensures Distinct(Without(order, key))
  {
    if order != [] {
      var init, last := order[..|order| - 1], order[|order| - 1];
      WithoutDistinct(init, key);
      WithoutMembers(init, key);
      assert last !in init;
    }
  }

  lemma {:induction false} WithoutConcat(a: seq<Key>, b: seq<Key>, key: Key)
    ensures Without(a + b, key) == Without(a, key) + Without(b, key)
  {
    if b == [] {
      assert a + b == a;
    } else {
      assert (a + b)[..|a + b| - 1] == a + b[..|b| - 1];
      WithoutConcat(a, b[..|b| - 1], key);
    }
  }

  lemma {:induction false} WithoutAbsent(order: seq<Key>, key: Key)
    requires forall i | 0 <= i < |order| :: order[i] != key
    ensures Without(order, key) == order
  {
    if order != [] {
      WithoutAbsent(order[..|order| - 1], key);
    }
  }

  lemma RemoveFirstIsWithout(order: seq<Key>, key: Key, at: nat)
    requires Distinct(order) && at < |order| && order[at] == key
    ensures Without(order, key) == order[..at] + order[at + 1..]
  {
    assert order == order[..at] + ([key] + order[at + 1..]);
    WithoutConcat(order[..at], [key] + order[at + 1..], key);
    WithoutConcat([key], order[at + 1..], key);
    WithoutAbsent(order[..at], key);
    WithoutAbsent(order[at + 1..], key);
    WithoutSelf(key);
    assert [] + order[at + 1..] == order[at + 1..];
  }

  lemma WithoutSelf(key: Key)
    ensures Without([key], key) == []
  {
    assert [key][..0] == [];
  }

  lemma {:induction false} SizeWithout(values: map<Key, Value>, order: seq<Key>, key: Key)
    requires Distinct(order) && key in order
    ensures Size(values, order) == Size(values, Without(order, key)) + SizeOf(values, key)
  {
    var init, last := order[..|order| - 1], order[|order| - 1];
    if last == key {
      WithoutMembers(init, key);
    } else {
      SizeWithout(values, init, key);
    }
  }

  lemma {:induction false} SizeDropsFirst(values: map<Key, Value>, order: seq<Key>)
    requires order != []
    ensures Size(values, order) == SizeOf(values, order[0]) + Size(values, order[1..])
  {
    if |order| > 1 {
      SizeDropsFirst(values, order[..|order| - 1]);
      assert order[..|order| - 1][1..] == order[1..][..|order| - 2];
    } else {
      assert order[..0] == [] && order[1..] == [];
    }
  }

  lemma {:induction false} SizeOnly(a: map<Key, Value>, b: map<Key, Value>, order: seq<Key>)
    requires forall i | 0 <= i < |order| :: SizeOf(a, order[i]) == SizeOf(b, order[i])
    ensures Size(a, order) == Size(b, order)
  {
    if order != [] {
      SizeOnly(a, b, order[..|order| - 1]);
    }
  }

  lemma LookKeepsCache(c: Cache, key: Key)
    requires CacheOk(c)
    ensures CacheOk(Looked(c, key))
  {
    if key in c.values {
      WithoutMembers(c.order, key);
      WithoutDistinct(c.order, key);
      SizeWithout(c.values, c.order, key);
      DistinctConcat(Without(c.order, key), [key]);
      assert Touched(c.order, key)[..|Without(c.order, key)|] == Without(c.order, key);
    }
  }

  lemma EvictKeepsConsistent(c: Cache)
    requires Consistent(c) && c.order != []
    ensures Consistent(Evicted(c))
  {
    SizeDropsFirst(c.values, c.order);
    assert c.order == [c.order[0]] + c.order[1..];
    SizeOnly(c.values, c.values - {c.order[0]}, c.order[1..]);
  }

  lemma SizeGrown(values: map<Key, Value>, order: seq<Key>, key: Key, value: Value)
    requires key !in order
    ensures Size(values[key := value], order + [key]) == Size(values, order) + |value|
  {
    assert forall i | 0 <= i < |order| :: order[i] in order;
    SizeOnly(values, values[key := value], order);
    assert (order + [key])[..|order|] == order;
  }

  lemma GrowKeepsConsistent(c: Cache, key: Key, value: Value)
    requires Consistent(c) && key !in c.values
    ensures Consistent(Grown(c, key, value))
  {
    DistinctConcat(c.order, [key]);
    SizeGrown(c.values, c.order, key, value);
  }

  lemma {:induction false} TrimKeepsConsistent(c: Cache)
    requires Consistent(c)
    ensures Consistent(Trimmed(c)) && (Trimmed(c).bytes <= BUDGET || |Trimmed(c).order| <= 1)
    ensures forall key <- Trimmed(c).values :: key in c.values && Trimmed(c).values[key] == c.values[key]
    decreases |c.order|
  {
    if c.bytes > BUDGET && |c.order| > 1 {
      EvictKeepsConsistent(c);
      TrimKeepsConsistent(Evicted(c));
    }
  }

  /** Eviction drops the least recent keys, no more of them than it must. */
  lemma {:induction false} TrimIsLeast(c: Cache) returns (k: nat)
    requires Consistent(c)
    ensures k <= |c.order| && Trimmed(c).order == c.order[k..]
    ensures c.order != [] ==> k < |c.order|
    ensures k > 0 ==> Size(c.values, c.order[k - 1..]) > BUDGET
    decreases |c.order|
  {
    k := 0;
    assert c.order[0..] == c.order;
    if c.bytes > BUDGET && |c.order| > 1 {
      EvictKeepsConsistent(c);
      var rest := TrimIsLeast(Evicted(c));
      k := rest + 1;
      assert c.order[1..][rest..] == c.order[k..];
      if rest > 0 {
        assert c.order[1..][rest - 1..] == c.order[k - 1..];
        KeptSize(c, rest);
      }
    }
  }

  lemma KeptSize(c: Cache, rest: nat)
    requires Consistent(c) && 0 < rest <= |c.order|
    ensures Size(Evicted(c).values, c.order[rest..]) == Size(c.values, c.order[rest..])
  {
    SizeOnly(Evicted(c).values, c.values, c.order[rest..]);
  }

  /** Storing keeps the cache consistent and within budget, with the new key in it. */
  lemma StoreKeepsCache(c: Cache, key: Key, value: Value)
    requires CacheOk(c) && |value| <= BUDGET
    ensures CacheOk(Stored(c, key, value)) && key in Stored(c, key, value).values
    ensures forall k <- Stored(c, key, value).values ::
              if k in c.values then Stored(c, key, value).values[k] == c.values[k]
              else k == key && Stored(c, key, value).values[k] == value
  {
    if key !in c.values {
      GrowKeepsConsistent(c, key, value);
      TrimKeepsConsistent(Grown(c, key, value));
      var k := TrimIsLeast(Grown(c, key, value));
      FitsAlone(Stored(c, key, value), key, value);
    }
  }

  lemma FitsAlone(c: Cache, key: Key, value: Value)
    requires Consistent(c) && c.order != [] && c.order[|c.order| - 1] == key && c.values[key] == value
    requires |value| <= BUDGET && (c.bytes <= BUDGET || |c.order| <= 1)
    ensures c.bytes <= BUDGET
  {
    if |c.order| == 1 {
      assert c.order[..0] == [];
      assert Size(c.values, []) == 0;
    }
  }

  // ---------- interleaved callers ----------

  type Caller = int

  datatype Event = Enter(who: Caller, key: Key) | Finish(who: Caller) | Clear

  /** `missed` is the callers decoding outside the lock; `uses` the keys hit or
      stored since the last clear; `answers` what callers were given. */
  datatype World = World(cache: Cache, missed: map<Caller, Key>, uses: seq<Key>, answers: seq<(Key, Value)>)

  predicate Enabled(w: World, e: Event) {
    match e
    case Enter(who, _) => who !in w.missed
    case Finish(who) => who in w.missed
    case Clear => true
  }

  /** `read` is the uncached read of a key. */
  function Next(w: World, e: Event, read: Key -> Value): World
    requires Enabled(w, e)
  {
    match e
    case Enter(who, key) =>
      if key in w.cache.values then
        World(Looked(w.cache, key), w.missed, w.uses + [key], w.answers + [(key, w.cache.values[key])])
      else w.(missed := w.missed[who := key])
    case Finish(who) =>
      var key := w.missed[who];
      var value := read(key);
      var answered := w.(missed := w.missed - {who}, answers := w.answers + [(key, value)]);
      if |value| > BUDGET then answered
      else answered.(cache := Stored(w.cache, key, value),
                     uses := if key in w.cache.values then w.uses else w.uses + [key])
    case Clear => w.(cache := NOTHING, uses := [])
  }

  function Run(events: seq<Event>, read: Key -> Value): World {
    if events == [] then World(NOTHING, map[], [], [])
    else
      var w := Run(events[..|events| - 1], read);
      if Enabled(w, events[|events| - 1]) then Next(w, events[|events| - 1], read) else w
  }

  /** The keys used, by when each was last used. */
  function Recency(uses: seq<Key>): seq<Key> {
    if uses == [] then [] else Touched(Recency(uses[..|uses| - 1]), uses[|uses| - 1])
  }

  ghost predicate EndsWith(whole: seq<Key>, end: seq<Key>) {
    |end| <= |whole| && whole[|whole| - |end|..] == end
  }

  ghost predicate WorldOk(w: World, read: Key -> Value) {
    && CacheOk(w.cache)
    && (forall key <- w.cache.values :: w.cache.values[key] == read(key))
    && (forall a <- w.answers :: a.1 == read(a.0))
    && EndsWith(Recency(w.uses), w.cache.order)
  }

  lemma {:induction false} RecencyDistinct(uses: seq<Key>)
    ensures Distinct(Recency(uses))
  {
    if uses != [] {
      var before := Recency(uses[..|uses| - 1]);
      RecencyDistinct(uses[..|uses| - 1]);
      WithoutDistinct(before, uses[|uses| - 1]);
      WithoutMembers(before, uses[|uses| - 1]);
      DistinctConcat(Without(before, uses[|uses| - 1]), [uses[|uses| - 1]]);
    }
  }

  lemma TouchKeepsEnd(whole: seq<Key>, end: seq<Key>, key: Key)
    requires EndsWith(whole, end) && Distinct(whole)
    ensures EndsWith(Touched(whole, key), Touched(end, key))
  {
    var front := whole[..|whole| - |end|];
    assert whole == front + end;
    WithoutConcat(front, end, key);
    assert Touched(whole, key) == Without(front, key) + Touched(end, key);
  }

  lemma EndOfTheEnd(whole: seq<Key>, end: seq<Key>, k: nat)
    requires EndsWith(whole, end) && k <= |end|
    ensures EndsWith(whole, end[k..])
  {}

  lemma TrimKeepsEnd(whole: seq<Key>, c: Cache)
    requires EndsWith(whole, c.order) && Consistent(c)
    ensures EndsWith(whole, Trimmed(c).order)
  {
    var k := TrimIsLeast(c);
    EndOfTheEnd(whole, c.order, k);
  }

  lemma UsesSnoc(uses: seq<Key>, key: Key)
    ensures Recency(uses + [key]) == Touched(Recency(uses), key)
  {
    assert (uses + [key])[..|uses|] == uses;
  }

  lemma EnterKeepsWorld(w: World, who: Caller, key: Key, read: Key -> Value)
    requires WorldOk(w, read) && Enabled(w, Enter(who, key))
    ensures WorldOk(Next(w, Enter(who, key), read), read)
  {
    if key in w.cache.values {
      RecencyDistinct(w.uses);
      LookKeepsCache(w.cache, key);
      UsesSnoc(w.uses, key);
      TouchKeepsEnd(Recency(w.uses), w.cache.order, key);
    }
  }

  lemma AnsweredOk(w: World, cache: Cache, missed: map<Caller, Key>, uses: seq<Key>, key: Key, read: Key -> Value)
    requires CacheOk(cache) && EndsWith(Recency(uses), cache.order)
    requires forall k <- cache.values :: cache.values[k] == read(k)
    requires forall a <- w.answers :: a.1 == read(a.0)
    ensures WorldOk(World(cache, missed, uses, w.answers + [(key, read(key))]), read)
  {}

  lemma FinishKeepsWorld(w: World, who: Caller, read: Key -> Value)
    requires WorldOk(w, read) && Enabled(w, Finish(who))
    ensures WorldOk(Next(w, Finish(who), read), read)
  {
    var key, missed := w.missed[who], w.missed - {who};
    if |read(key)| > BUDGET || key in w.cache.values {
      AnsweredOk(w, w.cache, missed, w.uses, key, read);
    } else {
      StoreKeepsCache(w.cache, key, read(key));
      StoreKeepsRecency(w, key, read(key));
      AnsweredOk(w, Stored(w.cache, key, read(key)), missed, w.uses + [key], key, read);
    }
  }

  lemma EventKeepsWorld(w: World, e: Event, read: Key -> Value)
    requires WorldOk(w, read) && Enabled(w, e)
    ensures WorldOk(Next(w, e, read), read)
  {
    match e
    case Enter(who, key) => EnterKeepsWorld(w, who, key, read);
    case Finish(who) => FinishKeepsWorld(w, who, read);
    case Clear =>
  }

  lemma StoreKeepsRecency(w: World, key: Key, value: Value)
    requires CacheOk(w.cache) && key !in w.cache.values && |value| <= BUDGET
    requires EndsWith(Recency(w.uses), w.cache.order)
    ensures EndsWith(Recency(w.uses + [key]), Stored(w.cache, key, value).order)
  {
    RecencyDistinct(w.uses);
    UsesSnoc(w.uses, key);
    TouchKeepsEnd(Recency(w.uses), w.cache.order, key);
    WithoutMembers(w.cache.order, key);
    GrowKeepsConsistent(w.cache, key, value);
    TrimKeepsEnd(Recency(w.uses + [key]), Grown(w.cache, key, value));
  }

  /** However callers interleave, the cache is consistent and within budget, holds the
      most recently used keys, and every answer is what an uncached read gives. */
  lemma {:induction false} TheCacheIsTransparent(events: seq<Event>, read: Key -> Value)
    ensures WorldOk(Run(events, read), read)
  {
    if events != [] {
      TheCacheIsTransparent(events[..|events| - 1], read);
      var w := Run(events[..|events| - 1], read);
      if Enabled(w, events[|events| - 1]) {
        EventKeepsWorld(w, events[|events| - 1], read);
      }
    }
  }

  // ---------- what recency means ----------

  /** Was b used after the last use of a? */
  ghost predicate UsedAfter(uses: seq<Key>, a: Key, b: Key) {
    exists k | 0 <= k < |uses| :: uses[k] == b && a !in uses[k..]
  }

  lemma UsedAfterGrows(uses: seq<Key>, key: Key, a: Key, b: Key)
    requires a != key && (UsedAfter(uses, a, b) || (b == key && a != b))
    ensures UsedAfter(uses + [key], a, b)
  {
    var grown := uses + [key];
    if b == key {
      assert grown[|uses|..] == [key];
    } else {
      var k :| 0 <= k < |uses| && uses[k] == b && a !in uses[k..];
      assert grown[k..] == uses[k..] + [key] && grown[k] == b;
    }
  }

  /** The recency order lists the keys used, once each, and of two of them first the one
      the other was used after. */
  lemma {:induction false} RecencyIsByLastUse(uses: seq<Key>, i: nat, j: nat)
    requires i < j < |Recency(uses)|
    ensures UsedAfter(uses, Recency(uses)[i], Recency(uses)[j])
  {
    var init, key := uses[..|uses| - 1], uses[|uses| - 1];
    var before := Recency(init);
    assert uses == init + [key];
    RecencyDistinct(uses);
    WithoutMembers(before, key);
    var rest := Without(before, key);
    if j < |rest| {
      var a, b := PlacesBefore(before, key, i, j);
      RecencyIsByLastUse(init, a, b);
    }
    UsedAfterGrows(init, key, Recency(uses)[i], Recency(uses)[j]);
  }

  /** Taking a key out keeps the others in order. */
  lemma {:induction false} PlacesBefore(order: seq<Key>, key: Key, i: nat, j: nat) returns (a: nat, b: nat)
    requires i < j < |Without(order, key)|
    ensures a < b < |order| && order[a] == Without(order, key)[i] && order[b] == Without(order, key)[j]
  {
    var init, last := order[..|order| - 1], order[|order| - 1];
    if last != key && j == |Without(init, key)| {
      a := PlaceBefore(init, key, i);
      b := |init|;
    } else {
      a, b := PlacesBefore(init, key, i, j);
    }
  }

  lemma {:induction false} PlaceBefore(order: seq<Key>, key: Key, i: nat) returns (a: nat)
    requires i < |Without(order, key)|
    ensures a < |order| && order[a] == Without(order, key)[i]
  {
    var init, last := order[..|order| - 1], order[|order| - 1];
    if last != key && i == |Without(init, key)| {
      a := |init|;
    } else {
      a := PlaceBefore(init, key, i);
    }
  }

  lemma {:induction false} RecencyMembers(uses: seq<Key>)
    ensures forall key :: key in Recency(uses) <==> key in uses
  {
    if uses != [] {
      RecencyMembers(uses[..|uses| - 1]);
      WithoutMembers(Recency(uses[..|uses| - 1]), uses[|uses| - 1]);
    }
  }

  // ---------- every call is answered once ----------

  /** A call is served from the cache, and its key is then the most recent; or it goes
      to read. */
  lemma ACallIsServedOrReads(w: World, who: Caller, key: Key, read: Key -> Value)
    requires WorldOk(w, read) && Enabled(w, Enter(who, key))
    ensures
      var w' := Next(w, Enter(who, key), read);
      if key in w.cache.values then
        && w'.answers == w.answers + [(key, read(key))] && w'.missed == w.missed
        && w'.cache.values == w.cache.values && w'.cache.order[|w'.cache.order| - 1] == key
        && w'.uses == w.uses + [key]
      else w' == w.(missed := w.missed[who := key])
  {}

  /** A read is answered, and kept unless it alone passes the budget. */
  lemma AReadIsAnsweredAndKept(w: World, who: Caller, read: Key -> Value)
    requires WorldOk(w, read) && who in w.missed
    ensures
      var w', key := Next(w, Finish(who), read), w.missed[who];
      && w'.answers == w.answers + [(key, read(key))] && w'.missed == w.missed - {who}
      && (|read(key)| <= BUDGET ==> key in w'.cache.values)
      && (|read(key)| > BUDGET ==> w'.cache == w.cache)
  {
    if |read(w.missed[who])| <= BUDGET {
      StoreKeepsCache(w.cache, w.missed[who], read(w.missed[who]));
    }
  }

  /** The calls made for a key, by callers not already waiting. */
  function Calls(events: seq<Event>, read: Key -> Value, key: Key): nat {
    if events == [] then 0
    else
      var init, last := events[..|events| - 1], events[|events| - 1];
      Calls(init, read, key)
      + if last.Enter? && last.key == key && last.who !in Run(init, read).missed then 1 else 0
  }

  function Answered(answers: seq<(Key, Value)>, key: Key): nat {
    if answers == [] then 0
    else Answered(answers[..|answers| - 1], key) + if answers[|answers| - 1].0 == key then 1 else 0
  }

  function Waiting(missed: map<Caller, Key>, key: Key): set<Caller> {
    set who | who in missed && missed[who] == key
  }

  lemma AnsweredSnoc(answers: seq<(Key, Value)>, a: (Key, Value), key: Key)
    ensures Answered(answers + [a], key) == Answered(answers, key) + if a.0 == key then 1 else 0
  {
    assert (answers + [a])[..|answers|] == answers;
  }

  lemma WaitingChanges(missed: map<Caller, Key>, who: Caller, asked: Key, key: Key)
    ensures who !in missed ==> |Waiting(missed[who := asked], key)| == |Waiting(missed, key)| + if asked == key then 1 else 0
    ensures who in missed && missed[who] == asked ==>
              |Waiting(missed - {who}, key)| == |Waiting(missed, key)| - if asked == key then 1 else 0
  {
    if who !in missed {
      assert Waiting(missed[who := asked], key) == Waiting(missed, key) + if asked == key then {who} else {};
    } else if missed[who] == asked {
      assert Waiting(missed - {who}, key) == Waiting(missed, key) - if asked == key then {who} else {};
    }
  }

  /** However callers interleave, every call made has been answered, once, or is still
      reading. */
  lemma {:induction false} EveryCallIsAnsweredOnce(events: seq<Event>, read: Key -> Value, key: Key)
    ensures var w := Run(events, read);
            Answered(w.answers, key) + |Waiting(w.missed, key)| == Calls(events, read, key)
  {
    if events != [] {
      var init, last := events[..|events| - 1], events[|events| - 1];
      var w := Run(init, read);
      EveryCallIsAnsweredOnce(init, read, key);
      TheCacheIsTransparent(init, read);
      match last
      case Enter(who, asked) =>
        if who !in w.missed {
          ACallIsServedOrReads(w, who, asked, read);
          AnsweredSnoc(w.answers, (asked, read(asked)), key);
          WaitingChanges(w.missed, who, asked, key);
        }
      case Finish(who) =>
        if who in w.missed {
          AReadIsAnsweredAndKept(w, who, read);
          AnsweredSnoc(w.answers, (w.missed[who], read(w.missed[who])), key);
          WaitingChanges(w.missed, who, w.missed[who], key);
        }
      case Clear =>
    }
  }
}
