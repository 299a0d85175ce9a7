/** The context marker's redactors (backend/context_marker.py): `redact` on a
    whole value and StreamRedactor on a reply that arrives in pieces. */
module Marker {
  const REDACTED := "[context marker removed]"
  const MARKER_LENGTH := 12

  predicate IsHex(c: char) {
    '0' <= c <= '9' || 'a' <= c <= 'f'
  }

  /** A marker: twelve lower-case hex characters (the head of an HMAC digest). */
  predicate IsMarker(m: string) {
    |m| == MARKER_LENGTH && forall i | 0 <= i < |m| :: IsHex(m[i])
  }

  // ---------- the whole text ----------

  /** `text.replace(m, REDACTED)`: every leftmost occurrence, left to right. */
  function Replace(text: string, m: string): string
    requires m != ""
  {
    if |text| < |m| then text
    else if m <= text then REDACTED + Replace(text[|m|..], m)
    else [text[0]] + Replace(text[1..], m)
  }

  predicate OccursAt(m: string, text: string, i: nat) {
    i + |m| <= |text| && text[i..i + |m|] == m
  }

  /** `m in text`. */
  predicate Occurs(m: string, text: string) {
    exists i: nat | i <= |text| :: OccursAt(m, text, i)
  }

  lemma ReplaceOpens(text: string, m: string)
    requires IsMarker(m)
    ensures m <= text ==> Replace(text, m) != "" && Replace(text, m)[0] == '['
  {
  }

  /** Redacted text never begins with more of a marker than the text did. */
  lemma {:induction false} ReplaceBegins(text: string, m: string, u: string)
    requires IsMarker(m) && u <= Replace(text, m) && forall i | 0 <= i < |u| :: IsHex(u[i])
    ensures u <= text
  {
    if u != "" && |text| >= |m| {
      ReplaceOpens(text, m);
      assert u[0] == Replace(text, m)[0];
      if !(m <= text) {
        assert u[1..] <= Replace(text[1..], m);
        ReplaceBegins(text[1..], m, u[1..]);
      }
    }
  }

  lemma NotHexSoon(p: nat)
    requires p < |REDACTED|
    ensures !IsHex(REDACTED[p]) || (p + 1 < |REDACTED| && !IsHex(REDACTED[p + 1]))
            || (p + 2 < |REDACTED| && !IsHex(REDACTED[p + 2]))
  {
  }

  /** No marker begins inside the replacement, whatever follows it. */
  lemma NoMarkerInReplacement(rest: string, m: string, i: nat)
    requires IsMarker(m) && i < |REDACTED| && i + |m| <= |REDACTED + rest|
    ensures (REDACTED + rest)[i..i + |m|] != m
  {
    var here := (REDACTED + rest)[i..i + |m|];
    NotHexSoon(i);
    assert here[0] == REDACTED[i];
    assert i + 1 < |REDACTED| ==> here[1] == REDACTED[i + 1];
    assert i + 2 < |REDACTED| ==> here[2] == REDACTED[i + 2];
  }

  lemma SliceShifts(a: string, b: string, i: nat, n: nat)
    requires |a| <= i && i + n <= |a + b|
    ensures (a + b)[i..i + n] == b[i - |a|..i - |a| + n]
  {}

  /** The marker is gone from redacted text, and the replacement cannot put one
      together with what surrounds it. */
  lemma {:induction false} ReplaceRemoves(text: string, m: string, i: nat)
    requires IsMarker(m) && i + |m| <= |Replace(text, m)|
    ensures Replace(text, m)[i..i + |m|] != m
  {
    if |text| >= |m| {
      if m <= text {
        var rest := Replace(text[|m|..], m);
        if i < |REDACTED| {
          NoMarkerInReplacement(rest, m, i);
        } else {
          SliceShifts(REDACTED, rest, i, |m|);
          ReplaceRemoves(text[|m|..], m, i - |REDACTED|);
        }
      } else if i == 0 {
        NoMarkerAtTheStart(text, m);
      } else {
        SliceShifts([text[0]], Replace(text[1..], m), i, |m|);
        ReplaceRemoves(text[1..], m, i - 1);
      }
    }
  }

  lemma NoMarkerAtTheStart(text: string, m: string)
    requires IsMarker(m) && !(m <= text) && |m| <= |Replace(text, m)|
    ensures Replace(text, m)[..|m|] != m
  {
    if m <= Replace(text, m) {
      ReplaceBegins(text, m, m);
    }
  }

  lemma {:induction false} ReplaceLeaves(text: string, m: string)
    requires m != "" && !Occurs(m, text)
    ensures Replace(text, m) == text
  {
    if |text| >= |m| {
      assert OccursAt(m, text, 0) <==> m <= text;
      forall i: nat ensures !OccursAt(m, text[1..], i) {
        assert !OccursAt(m, text, i + 1);
        assert i + |m| <= |text[1..]| ==> text[1..][i..i + |m|] == text[i + 1..i + 1 + |m|];
      }
      ReplaceLeaves(text[1..], m);
    }
  }

  // ---------- text that arrives in pieces ----------

  /** Could the last n characters still be the start of a marker? */
  predicate CouldStart(text: string, m: string, n: nat)
    requires n <= |text|
  {
    text[|text| - n..] <= m
  }

  /** How much of a text's end is held back: the most that could still be the
      start of the marker, short of all of it. */
  function Hold(text: string, m: string, limit: nat): nat
    requires limit <= |text|
  {
    if limit == 0 || CouldStart(text, m, limit) then limit else Hold(text, m, limit - 1)
  }

  lemma {:induction false} HoldIsLongest(text: string, m: string, limit: nat)
    requires limit <= |text|
    ensures Hold(text, m, limit) <= limit && CouldStart(text, m, Hold(text, m, limit))
    ensures forall n | Hold(text, m, limit) < n <= limit :: !CouldStart(text, m, n)
  {
    if limit != 0 && !CouldStart(text, m, limit) {
      HoldIsLongest(text, m, limit - 1);
    }
  }

  function Least(a: nat, b: nat): nat {
    if a < b then a else b
  }

  function Held(text: string, m: string): nat
    requires m != ""
  {
    Hold(text, m, Least(|text|, |m| - 1))
  }

  /** The hold of a longer text, when no more than the shorter one's could be
      held: their ends are the same. */
  lemma HeldOfEnd(front: string, text: string, m: string)
    requires m != ""
    requires forall n | |text| < n <= Least(|front + text|, |m| - 1) :: !CouldStart(front + text, m, n)
    ensures Held(front + text, m) == Held(text, m)
  {
    var whole := front + text;
    HoldIsLongest(whole, m, Least(|whole|, |m| - 1));
    HoldIsLongest(text, m, Least(|text|, |m| - 1));
    forall n: nat | n <= |text| ensures CouldStart(whole, m, n) == CouldStart(text, m, n) {
      assert whole[|whole| - n..] == text[|text| - n..];
    }
    var a, b := Held(whole, m), Held(text, m);
    assert CouldStart(whole, m, a) && CouldStart(text, m, b);
  }

  lemma NotStarted(start: string, m: string, rest: string)
    requires |start| < |m| && !CouldStart(start, m, |start|)
    ensures !(m <= start + rest)
  {
    assert start[|start| - |start|..] == start;
    var i :| 0 <= i < |start| && start[i] != m[i];
    assert (start + rest)[i] == start[i];
  }

  /** A text too short to hold a marker, cut at its hold: nothing that follows
      can complete a marker begun before the cut. */
  lemma {:induction false} ShortTextCuts(front: string, held: string, m: string, rest: string)
    requires m != "" && |front + held| < |m|
    requires forall n | |held| < n <= |front + held| :: !CouldStart(front + held, m, n)
    ensures Replace(front + held + rest, m) == front + Replace(held + rest, m)
  {
    var whole := front + held + rest;
    if front == "" {
      assert front + held == held;
    } else if |whole| < |m| {
      assert whole == front + (held + rest);
    } else {
      NotStarted(front + held, m, rest);
      var front' := front[1..];
      assert whole[1..] == front' + held + rest;
      forall n | |held| < n <= |front' + held| ensures !CouldStart(front' + held, m, n) {
        assert (front' + held)[|front' + held| - n..] == (front + held)[|front + held| - n..];
        assert !CouldStart(front + held, m, n);
      }
      ShortTextCuts(front', held, m, rest);
      assert front == [front[0]] + front';
    }
  }

  lemma {:induction false} ReplaceNoShorter(text: string, m: string)
    requires IsMarker(m)
    ensures |Replace(text, m)| >= |text|
  {
    if |text| >= |m| {
      if m <= text {
        ReplaceNoShorter(text[|m|..], m);
      } else {
        ReplaceNoShorter(text[1..], m);
      }
    }
  }

  /** No end of redacted text that reaches back into a replacement could start
      a marker. */
  lemma BracketStops(tail: string, m: string, n: nat)
    requires IsMarker(m) && |tail| < n <= |REDACTED + tail|
    ensures !CouldStart(REDACTED + tail, m, n)
  {
    var whole := REDACTED + tail;
    var end := whole[|whole| - n..];
    assert end[n - |tail| - 1] == ']';
  }

  /** The heart of it: redacted text, cut at its hold, ends in a piece of the
      original text, and redaction goes on from there as if the cut were not. */
  ghost predicate Cuts(text: string, m: string, front: string, held: string)
    requires m != ""
  {
    && text == front + held && |held| == Held(Replace(text, m), m)
    && Replace(text, m) == Replace(front, m) + held
    && forall rest :: Replace(text + rest, m) == Replace(front, m) + Replace(held + rest, m)
  }

  lemma CutsShort(text: string, m: string)
    requires IsMarker(m) && |text| < |m|
    ensures Held(text, m) <= |text| && Cuts(text, m, text[..|text| - Held(text, m)], text[|text| - Held(text, m)..])
  {
    HoldIsLongest(text, m, Least(|text|, |m| - 1));
    var n := Held(text, m);
    var front, held := text[..|text| - n], text[|text| - n..];
    assert front + held == text;
    forall rest ensures Replace(text + rest, m) == Replace(front, m) + Replace(held + rest, m) {
      ShortTextCuts(front, held, m, rest);
    }
  }

  lemma MarkerFront(m: string, f: string)
    requires IsMarker(m)
    ensures Replace(m + f, m) == REDACTED + Replace(f, m)
  {
    assert (m + f)[|m|..] == f;
  }

  lemma MarkerHold(m: string, r: string)
    requires IsMarker(m)
    ensures Held(REDACTED + r, m) == Held(r, m)
  {
    forall n | |r| < n <= Least(|REDACTED + r|, |m| - 1) ensures !CouldStart(REDACTED + r, m, n) {
      BracketStops(r, m, n);
    }
    HeldOfEnd(REDACTED, r, m);
  }

  lemma Regroup(a: string, b: string, c: string)
    ensures a + b + c == a + (b + c)
  {
  }

  lemma CutsAfterMarker(tail: string, m: string, f: string, h: string)
    requires IsMarker(m) && Cuts(tail, m, f, h)
    ensures Cuts(m + tail, m, m + f, h)
  {
    MarkerHold(m, Replace(tail, m));
    MarkerFront(m, f);
    MarkerFront(m, tail);
    Regroup(m, f, h);
    Regroup(REDACTED, Replace(f, m), h);
    forall rest ensures Replace(m + tail + rest, m) == Replace(m + f, m) + Replace(h + rest, m) {
      assert Replace(tail + rest, m) == Replace(f, m) + Replace(h + rest, m);
      MarkerRest(m, tail, f, h, rest);
      Regroup(m, tail, rest);
    }
  }

  lemma MarkerRest(m: string, tail: string, f: string, h: string, rest: string)
    requires IsMarker(m) && Replace(tail + rest, m) == Replace(f, m) + Replace(h + rest, m)
    ensures Replace(m + (tail + rest), m) == Replace(m + f, m) + Replace(h + rest, m)
  {
    MarkerFront(m, tail + rest);
    MarkerFront(m, f);
    Regroup(REDACTED, Replace(f, m), Replace(h + rest, m));
  }

  lemma CharFront(c: char, tail: string, m: string)
    requires m != "" && (|tail| + 1 < |m| || !(m <= [c] + tail))
    ensures Replace([c] + tail, m) == [c] + Replace(tail, m)
  {
    assert ([c] + tail)[1..] == tail;
  }

  lemma OccursLater(c: char, tail: string, m: string, i: nat)
    ensures OccursAt(m, tail, i) <==> OccursAt(m, [c] + tail, i + 1)
  {
    assert i + |m| <= |tail| ==> tail[i..i + |m|] == ([c] + tail)[i + 1..i + 1 + |m|];
  }

  lemma FrontFirst(c: char, later: string, rest: string)
    ensures [c] + (later + rest) == ([c] + later) + rest
  {}

  /** Every marker goes, from the left, and nothing else does: the text up to the first
      stays, the marker becomes the notice, and the rest is redacted the same way. */
  lemma {:induction false} ReplaceTakesTheFirst(before: string, m: string, rest: string)
    requires IsMarker(m) && forall i: nat | i < |before| :: !OccursAt(m, before + (m + rest), i)
    ensures Replace(before + (m + rest), m) == before + (REDACTED + Replace(rest, m))
  {
    if before == "" {
      assert before + (m + rest) == m + rest;
      MarkerFront(m, rest);
    } else {
      var c, later := before[0], before[1..];
      var tail := later + (m + rest);
      assert before + (m + rest) == [c] + tail;
      assert !OccursAt(m, [c] + tail, 0);
      forall i: nat | i < |later| ensures !OccursAt(m, tail, i) {
        OccursLater(c, tail, m, i);
      }
      ReplaceTakesTheFirst(later, m, rest);
      CharFront(c, tail, m);
      FrontFirst(c, later, REDACTED + Replace(rest, m));
      assert before == [c] + later;
    }
  }

  lemma LongerStartsAlike(text: string, m: string, rest: string)
    requires |text| >= |m| && !(m <= text)
    ensures !(m <= text + rest)
  {
    assert (text + rest)[..|m|] == text[..|m|];
  }

  lemma CharRest(c: char, m: string, f: string, h: string, rest: string)
    requires m != "" && |f + h| + 1 >= |m| && !(m <= [c] + (f + h))
    requires Replace(f + h + rest, m) == Replace(f, m) + Replace(h + rest, m)
    ensures Replace([c] + (f + h + rest), m) == Replace([c] + f, m) + Replace(h + rest, m)
  {
    LongerStartsAlike([c] + (f + h), m, rest);
    Regroup([c], f + h, rest);
    CharFront(c, f + h + rest, m);
    FrontStepsOn(c, m, f, h);
    Regroup([c], Replace(f, m), Replace(h + rest, m));
  }

  lemma CutsAfterChar(c: char, m: string, f: string, h: string)
    requires IsMarker(m) && |f + h| + 1 >= |m| && !(m <= [c] + (f + h)) && Cuts(f + h, m, f, h)
    ensures Cuts([c] + (f + h), m, [c] + f, h)
  {
    ReplaceNoShorter(f + h, m);
    HeldOfEnd([c], Replace(f + h, m), m);
    CharFront(c, f + h, m);
    FrontStepsOn(c, m, f, h);
    Regroup([c], f, h);
    Regroup([c], Replace(f, m), h);
    forall rest ensures Replace([c] + (f + h) + rest, m) == Replace([c] + f, m) + Replace(h + rest, m) {
      assert Replace(f + h + rest, m) == Replace(f, m) + Replace(h + rest, m);
      CharRest(c, m, f, h, rest);
      Regroup([c], f + h, rest);
    }
  }

  /** Taking the first character off the front takes it off the redaction. */
  lemma FrontStepsOn(c: char, m: string, f: string, h: string)
    requires m != "" && |f + h| + 1 >= |m| && !(m <= [c] + (f + h))
    ensures Replace([c] + f, m) == [c] + Replace(f, m)
  {
    assert m <= [c] + f ==> m <= [c] + (f + h);
    CharFront(c, f, m);
  }

  lemma {:induction false} HoldCuts(text: string, m: string) returns (front: string, held: string)
    requires IsMarker(m)
    ensures Cuts(text, m, front, held)
  {
    if |text| < |m| {
      CutsShort(text, m);
      front, held := text[..|text| - Held(text, m)], text[|text| - Held(text, m)..];
    } else if m <= text {
      front, held := HoldCuts(text[|m|..], m);
      CutsAfterMarker(text[|m|..], m, front, held);
      assert text == m + text[|m|..];
      front := m + front;
    } else {
      front, held := HoldCuts(text[1..], m);
      assert text == [text[0]] + (front + held);
      CutsAfterChar(text[0], m, front, held);
      front := [text[0]] + front;
    }
  }

  // ---------- the stream ----------

  /** A text parted into what may go out and what its end holds back. */
  function Part(text: string, m: string): (string, string)
    requires m != ""
  {
    HoldIsLongest(text, m, Least(|text|, |m| - 1));
    (text[..|text| - Held(text, m)], text[|text| - Held(text, m)..])
  }

  /** One piece fed to a stream that holds `held`: what goes out, and what is
      held next. */
  function Fed(held: string, piece: string, m: string): (string, string)
    requires m != ""
  {
    Part(Replace(held + piece, m), m)
  }

  class StreamRedactor {
    const marker: string
    var held: string

    constructor (m: string)
      requires IsMarker(m)
      ensures marker == m && held == ""
    {
      marker, held := m, "";
    }

    method Feed(piece: string) returns (out: string)
      requires IsMarker(marker)
      modifies this
      ensures (out, held) == Fed(old(held), piece, marker)
    {
      var text := Cleaned(held + piece);
      out := SendOn(text);
    }

    method SendOn(text: string) returns (out: string)
      requires IsMarker(marker)
      modifies this
      ensures (out, held) == Part(text, marker)
    {
      var keep := HoldBack(text);
      held := text[|text| - keep..];
      out := text[..|text| - keep];
    }

    method Cleaned(text: string) returns (r: string)
      requires IsMarker(marker)
      ensures r == Replace(text, marker)
    {
      r := text;
      if Occurs(marker, text) {
        r := Replace(text, marker);
      } else {
        ReplaceLeaves(text, marker);
      }
    }

    method HoldBack(text: string) returns (keep: nat)
      requires IsMarker(marker)
      ensures keep == Held(text, marker) && keep <= |text|
    {
      keep := 0;
      var n := Least(|text|, |marker| - 1);
      while n > 0
        invariant 0 <= n <= |text| && keep == 0
        invariant Held(text, marker) == Hold(text, marker, n)
      {
        if text[|text| - n..] <= marker {
          keep := n;
          break;
        }
        n := n - 1;
      }
    }

    method Flush() returns (out: string)
      modifies this
      ensures out == old(held) && held == ""
    {
      out, held := held, "";
    }
  }

  function Concat(pieces: seq<string>): string {
    if pieces == [] then "" else Concat(pieces[..|pieces| - 1]) + pieces[|pieces| - 1]
  }

  /** Everything a run of feeds has sent out, and what it still holds. */
  function Streamed(pieces: seq<string>, m: string): (string, string)
    requires m != ""
  {
    if pieces == [] then ("", "")
    else
      var (sent, held) := Streamed(pieces[..|pieces| - 1], m);
      var (out, held') := Fed(held, pieces[|pieces| - 1], m);
      (sent + out, held')
  }

  lemma {:induction false} FedCuts(held: string, piece: string, m: string, rest: string)
    requires IsMarker(m)
    ensures var (out, held') := Fed(held, piece, m);
            Replace(held + piece + rest, m) == out + Replace(held' + rest, m) && |held'| < |m| && held' <= m
  {
    var text := held + piece;
    var front, h := HoldCuts(text, m);
    var r := Replace(text, m);
    HoldIsLongest(r, m, Least(|r|, |m| - 1));
    assert r[..|r| - Held(r, m)] == Replace(front, m);
    assert r[|r| - Held(r, m)..] == h;
    assert Replace(text + rest, m) == Replace(front, m) + Replace(h + rest, m);
  }

  /** However the rest arrives, redaction goes on from what is held as if the
      text so far had come in one piece. */
  lemma {:induction false} StreamGoesOn(pieces: seq<string>, m: string, rest: string)
    requires IsMarker(m)
    ensures var (sent, held) := Streamed(pieces, m);
            Replace(Concat(pieces) + rest, m) == sent + Replace(held + rest, m) && |held| < |m| && held <= m
  {
    if pieces == [] {
      assert "" + rest == rest;
    } else {
      var init, piece := pieces[..|pieces| - 1], pieces[|pieces| - 1];
      var (sent, held) := Streamed(init, m);
      var (out, held') := Fed(held, piece, m);
      StreamGoesOn(init, m, piece + rest);
      FedCuts(held, piece, m, rest);
      Regroup(Concat(init), piece, rest);
      Regroup(held, piece, rest);
      Regroup(sent, out, Replace(held' + rest, m));
    }
  }

  /** Streaming refines batch: for every text and every way of cutting it, what
      the feeds send and the flush together are `redact` of the whole; what is held is
      the start of a marker, at most eleven characters; and nothing sent shows one. */
  lemma StreamingRefinesBatch(pieces: seq<string>, m: string)
    requires IsMarker(m)
    ensures var (sent, held) := Streamed(pieces, m);
            && sent + held == Replace(Concat(pieces), m)
            && held <= m && |held| <= 11
            && !Occurs(m, sent) && !Occurs(m, sent + held)
  {
    var (sent, held) := Streamed(pieces, m);
    StreamGoesOn(pieces, m, "");
    assert Concat(pieces) + "" == Concat(pieces) && held + "" == held;
    forall i: nat ensures !OccursAt(m, sent + held, i) && !OccursAt(m, sent, i) {
      if i + |m| <= |sent + held| {
        ReplaceRemoves(Concat(pieces), m, i);
      }
      if i + |m| <= |sent| {
        assert (sent + held)[i..i + |m|] == sent[i..i + |m|];
      }
    }
  }

  // ---------- values ----------

  /** A tool input or event: strings, and dicts and lists of them. */
  datatype Value = Text(s: string) | Dict(entries: seq<(string, Value)>) | List(items: seq<Value>) | Other

  function Redact(v: Value, m: string): Value
    requires m != ""
  {
    match v
    case Text(s) => Text(Replace(s, m))
    case Dict(entries) =>
      Dict(seq(|entries|, i requires 0 <= i < |entries| =>
        assert entries[i] in entries; (entries[i].0, Redact(entries[i].1, m))))
    case List(items) =>
      List(seq(|items|, i requires 0 <= i < |items| => assert items[i] in items; Redact(items[i], m)))
    case Other => Other
  }

  /** No string anywhere in it shows the marker, dict keys included. */
  predicate Clean(v: Value, m: string) {
    match v
    case Text(s) => !Occurs(m, s)
    case Dict(entries) => forall i | 0 <= i < |entries| :: !Occurs(m, entries[i].0) && Clean(entries[i].1, m)
    case List(items) => forall i | 0 <= i < |items| :: Clean(items[i], m)
    case Other => true
  }

  predicate KeysClean(v: Value, m: string) {
    match v
    case Dict(entries) => forall i | 0 <= i < |entries| :: !Occurs(m, entries[i].0) && KeysClean(entries[i].1, m)
    case List(items) => forall i | 0 <= i < |items| :: KeysClean(items[i], m)
    case _ => true
  }

  /** The same value with other strings: the same keys in the same places, and each
      string redacted on its own. */
  predicate SameShape(v: Value, r: Value, m: string)
    requires m != ""
  {
    match v
    case Text(s) => r.Text? && (if Occurs(m, s) then r.s == Replace(s, m) else r.s == s)
    case Dict(entries) =>
      r.Dict? && |r.entries| == |entries|
      && forall i | 0 <= i < |entries| :: r.entries[i].0 == entries[i].0 && SameShape(entries[i].1, r.entries[i].1, m)
    case List(items) =>
      r.List? && |r.items| == |items| && forall i | 0 <= i < |items| :: SameShape(items[i], r.items[i], m)
    case Other => r == v
  }

  /** Redaction touches nothing but the strings that show the marker. */
  lemma {:induction false} RedactKeepsTheShape(v: Value, m: string)
    requires IsMarker(m)
    ensures SameShape(v, Redact(v, m), m)
    ensures Clean(v, m) ==> Redact(v, m) == v
  {
    match v
    case Text(s) =>
      if !Occurs(m, s) {
        ReplaceLeaves(s, m);
      }
    case Dict(entries) =>
      forall i | 0 <= i < |entries|
        ensures SameShape(entries[i].1, Redact(entries[i].1, m), m)
        ensures Clean(entries[i].1, m) ==> Redact(entries[i].1, m) == entries[i].1
      {
        RedactKeepsTheShape(entries[i].1, m);
      }
      var r := Redact(v, m).entries;
      assert forall i | 0 <= i < |entries| :: r[i] == (entries[i].0, Redact(entries[i].1, m));
      if Clean(v, m) {
        assert r == entries;
      }
    case List(items) =>
      forall i | 0 <= i < |items|
        ensures SameShape(items[i], Redact(items[i], m), m)
        ensures Clean(items[i], m) ==> Redact(items[i], m) == items[i]
      {
        RedactKeepsTheShape(items[i], m);
      }
      var r := Redact(v, m).items;
      assert forall i | 0 <= i < |items| :: r[i] == Redact(items[i], m);
      if Clean(v, m) {
        assert r == items;
      }
    case Other =>
  }

  lemma ReplaceCleans(text: string, m: string)
    requires IsMarker(m)
    ensures !Occurs(m, Replace(text, m))
  {
    forall i: nat ensures !OccursAt(m, Replace(text, m), i) {
      if i + |m| <= |Replace(text, m)| {
        ReplaceRemoves(text, m, i);
      }
    }
  }

  /** `redact` rewrites values and leaves dict keys as they are, so it takes the
      marker out of every string exactly when no dict key shows it. */
  lemma {:induction false} RedactCleansAllButKeys(v: Value, m: string)
    requires IsMarker(m)
    ensures Clean(Redact(v, m), m) <==> KeysClean(v, m)
  {
    match v
    case Text(s) => ReplaceCleans(s, m);
    case Dict(entries) =>
      forall i | 0 <= i < |entries| ensures Clean(Redact(entries[i].1, m), m) <==> KeysClean(entries[i].1, m) {
        RedactCleansAllButKeys(entries[i].1, m);
      }
      var r := Redact(v, m).entries;
      assert forall i | 0 <= i < |entries| :: r[i] == (entries[i].0, Redact(entries[i].1, m));
    case List(items) =>
      forall i | 0 <= i < |items| ensures Clean(Redact(items[i], m), m) <==> KeysClean(items[i], m) {
        RedactCleansAllButKeys(items[i], m);
      }
      var r := Redact(v, m).items;
      assert forall i | 0 <= i < |items| :: r[i] == Redact(items[i], m);
    case Other =>
  }
}
