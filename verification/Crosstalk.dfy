/** Crosstalk: which voice said which words of a turn (backend/crosstalk.py:
    listed_voices, align, attribute, split, label). Times are in milliseconds;
    a word's midpoint is compared doubled, so nothing is rounded. */
module Crosstalk {
  import opened Wrappers
  import opened Sorting

  type Voice = int

  const OTHER_VOICE_MIN := 1000
  const NEAR := 300
  const ALIGN_SLACK := 250
  const MAX_SEGMENTS := 12
  const MAX_SEGMENT_CHARS := 400

  datatype Word = Word(start: int, end: int, text: string)

  datatype Span = Span(start: int, end: int, voice: Voice, overlap: bool)

  /** A word, whose it is, and whether that is sure. */
  datatype Said = Said(voice: Voice, sure: bool, text: string)

  datatype Segment = Segment(name: string, text: string, uncertain: bool)

  // ---------- whose word it is ----------

  function Twice(w: Word): int {
    w.start + w.end
  }

  predicate Covers(s: Span, w: Word) {
    2 * s.start <= Twice(w) < 2 * s.end
  }

  /** Is the word's midpoint within NEAR of the span? */
  predicate IsNear(s: Span, w: Word) {
    && (Twice(w) < 2 * s.start ==> 2 * s.start - Twice(w) <= 2 * NEAR)
    && (Twice(w) >= 2 * s.start && Twice(w) >= 2 * s.end ==> Twice(w) - 2 * s.end <= 2 * NEAR)
  }

  /** A word's midpoint. */
  function Middle(w: Word): real {
    (w.start + w.end) as real / 2.0
  }

  /** A span covers a word whose midpoint falls in it, and is near one whose midpoint is
      within 300 milliseconds of a point of it. */
  lemma CoverAndReach(s: Span, w: Word)
    requires s.start <= s.end
    ensures Covers(s, w) <==> s.start as real <= Middle(w) < s.end as real
    ensures IsNear(s, w) <==> s.start as real - 300.0 <= Middle(w) <= s.end as real + 300.0
  {
    assert Middle(w) * 2.0 == Twice(w) as real;
  }

  function Covering(spans: seq<Span>, w: Word): set<Voice> {
    set s <- spans | Covers(s, w) :: s.voice
  }

  function Near(spans: seq<Span>, w: Word): set<Voice> {
    set s <- spans | IsNear(s, w) :: s.voice
  }

  predicate Overlapped(spans: seq<Span>, w: Word) {
    exists s <- spans :: Covers(s, w) && s.overlap
  }

  /** The voices a word could be of: those over it, or else those near it. */
  function Candidates(spans: seq<Span>, w: Word): set<Voice> {
    if Covering(spans, w) != {} then Covering(spans, w) else Near(spans, w)
  }

  function WeightOf(weight: map<Voice, nat>, v: Voice): nat {
    if v in weight then weight[v] else 0
  }

  /** By the clock: whose a word could be. Somebody heard over its midpoint, or, when
      nobody was, somebody heard within 300 milliseconds of it. */
  ghost predicate MayHaveSaid(v: Voice, spans: seq<Span>, w: Word) {
    if exists s <- spans :: s.start as real <= Middle(w) < s.end as real
    then exists s <- spans :: s.voice == v && s.start as real <= Middle(w) < s.end as real
    else exists s <- spans :: s.voice == v && s.start as real - 300.0 <= Middle(w) <= s.end as real + 300.0
  }

  lemma CandidatesAre(spans: seq<Span>, w: Word, v: Voice)
    requires forall s <- spans :: s.start <= s.end
    ensures v in Candidates(spans, w) <==> MayHaveSaid(v, spans, w)
  {
    forall s <- spans
      ensures Covers(s, w) <==> s.start as real <= Middle(w) < s.end as real
      ensures IsNear(s, w) <==> s.start as real - 300.0 <= Middle(w) <= s.end as real + 300.0
    {
      CoverAndReach(s, w);
    }
    if s :| s in spans && Covers(s, w) {
      assert s.voice in Covering(spans, w);
    }
  }

  /** The word is one voice's beyond doubt: it alone candidates for it, and no overlap. */
  ghost predicate IsSure(spans: seq<Span>, w: Word, v: Voice) {
    Candidates(spans, w) == {v} && !Overlapped(spans, w)
  }

  /** The right attribution of one word. */
  ghost predicate RightlySaid(said: Said, w: Word, spans: seq<Span>, main: Voice, weight: map<Voice, nat>) {
    var slots := Candidates(spans, w);
    && said.text == w.text
    && (said.sure <==> exists v :: IsSure(spans, w, v))
    && (slots == {} ==> said.voice == main)
    && (slots != {} ==> said.voice in slots)
    && (!said.sure && main in slots ==> said.voice == main)
    && (slots != {} && main !in slots ==> Heaviest(said.voice, slots, weight))
  }

  /** Nobody among them spoke longer, and of those who spoke as long it comes first. */
  ghost predicate Heaviest(v: Voice, slots: set<Voice>, weight: map<Voice, nat>) {
    && v in slots
    && forall u <- slots ::
         var mine, theirs := if v in weight then weight[v] else 0, if u in weight then weight[u] else 0;
         theirs < mine || (theirs == mine && v <= u)
  }

  lemma Inhabited(slots: set<Voice>)
    ensures slots == {} || exists v :: v in slots
  {
    if forall v :: v !in slots {
      assert slots == {};
    }
  }

  method Pick(slots: set<Voice>, main: Voice, weight: map<Voice, nat>) returns (v: Voice)
    requires slots != {}
    ensures v in slots && (main in slots ==> v == main)
    ensures main !in slots ==> Heaviest(v, slots, weight)
  {
    if main in slots {
      return main;
    }
    Inhabited(slots);
    v :| v in slots;
    var left := slots - {v};
    while left != {}
      invariant left <= slots && Heaviest(v, slots - left, weight)
    {
      Inhabited(left);
      var u :| u in left;
      left := left - {u};
      if WeightOf(weight, u) > WeightOf(weight, v) || (WeightOf(weight, u) == WeightOf(weight, v) && u < v) {
        v := u;
      }
    }
    assert slots - left == slots;
  }

  /** Every word is attributed once, in order, and rightly. */
  method Attribute(words: seq<Word>, spans: seq<Span>, main: Voice, weight: map<Voice, nat>) returns (out: seq<Said>)
    ensures |out| == |words|
    ensures forall i | 0 <= i < |words| :: RightlySaid(out[i], words[i], spans, main, weight)
  {
    out := [];
    for i := 0 to |words|
      invariant |out| == i
      invariant forall k | 0 <= k < i :: RightlySaid(out[k], words[k], spans, main, weight)
    {
      var said := AttributeOne(words[i], spans, main, weight);
      out := out + [said];
    }
  }

  lemma OnlyOne(slots: set<Voice>, v: Voice)
    requires |slots| == 1 && v in slots
    ensures slots == {v}
  {
    assert |slots - {v}| == 0;
  }

  method AttributeOne(w: Word, spans: seq<Span>, main: Voice, weight: map<Voice, nat>) returns (said: Said)
    ensures RightlySaid(said, w, spans, main, weight)
  {
    var slots := Covering(spans, w);
    if |slots| == 1 && !Overlapped(spans, w) {
      var v :| v in slots;
      OnlyOne(slots, v);
      assert IsSure(spans, w, v);
      return Said(v, true, w.text);
    }
    if slots == {} {
      OverlapsCover(spans, w);
      var near := Near(spans, w);
      if |near| == 1 {
        var v :| v in near;
        OnlyOne(near, v);
        assert IsSure(spans, w, v);
        return Said(v, true, w.text);
      }
      slots := near;
    }
    assert forall v :: slots == {v} ==> |slots| == 1;
    if slots == {} {
      return Said(main, false, w.text);
    }
    var v := Pick(slots, main, weight);
    said := Said(v, false, w.text);
  }

  lemma OverlapsCover(spans: seq<Span>, w: Word)
    ensures Overlapped(spans, w) ==> Covering(spans, w) != {}
  {
    if Overlapped(spans, w) {
      var s :| s in spans && Covers(s, w) && s.overlap;
      assert s.voice in Covering(spans, w);
    }
  }

  // ---------- the voices a turn lists ----------

  /** One voice's part in the turn: what it spoke, when it first did, and its name, ""
      while it has none. */
  datatype Part = Part(voice: Voice, seconds: nat, first: int, name: string)

  function ByFirst(): Part -> Key {
    (p: Part) => Key(p.first, p.voice, 0)
  }

  function OtherLong(main: Voice): Part -> bool {
    (p: Part) => p.voice != main && p.seconds >= OTHER_VOICE_MIN
  }

  function Voices(parts: seq<Part>): seq<Voice> {
    seq(|parts|, i requires 0 <= i < |parts| => parts[i].voice)
  }

  function ListedVoices(parts: seq<Part>, main: Voice): seq<Voice> {
    if main !in Voices(parts) then []
    else [main] + Voices(Sorted(Restrict(parts, OtherLong(main)), ByFirst()))
  }

  function OthersOf(parts: seq<Part>, main: Voice): seq<Part> {
    Sorted(Restrict(parts, OtherLong(main)), ByFirst())
  }

  lemma OthersAre(parts: seq<Part>, main: Voice)
    requires Distinct(parts)
    ensures var others := OthersOf(parts, main);
            && Distinct(others) && InOrder(others, ByFirst())
            && forall p :: p in others <==> p in parts && OtherLong(main)(p)
  {
    RestrictMembers(parts, OtherLong(main));
    RestrictDistinct(parts, OtherLong(main));
    SortedDistinct(Restrict(parts, OtherLong(main)), ByFirst());
    SortedInOrder(Restrict(parts, OtherLong(main)), ByFirst());
  }

  /** A turn whose main voice has no part in it lists nobody. */
  lemma NobodyListed(parts: seq<Part>, main: Voice)
    requires forall p <- parts :: p.voice != main
    ensures ListedVoices(parts, main) == []
  {
    ListedVoice(parts, main);
  }

  /** The list is the main voice, then every other voice that spoke long enough, once
      each, in the order they started. */
  lemma ListedVoicesAre(parts: seq<Part>, main: Voice)
    requires Distinct(Voices(parts)) && main in Voices(parts)
    ensures var listed, others := ListedVoices(parts, main), OthersOf(parts, main);
            && listed == [main] + Voices(others) && Distinct(listed)
            && (forall v :: v in listed <==>
                  v == main || exists p <- parts :: p.voice == v && p.seconds >= OTHER_VOICE_MIN)
            && (forall i, j | 0 <= i < j < |others| ::
                  others[i].first < others[j].first
                  || (others[i].first == others[j].first && others[i].voice < others[j].voice))
  {
    var listed, others := ListedVoices(parts, main), OthersOf(parts, main);
    VoicesDistinct(parts);
    OthersAre(parts, main);
    forall i, j | 0 <= i < j < |others|
      ensures others[i].voice != others[j].voice
      ensures NotAfter(ByFirst()(others[i]), ByFirst()(others[j]))
    {
      assert others[i] in others && others[j] in others;
      SameVoiceSamePart(parts, others[i], others[j]);
    }
    forall i, j | 0 <= i < j < |listed| ensures listed[i] != listed[j] {
      if i == 0 {
        assert others[j - 1] in others;
      }
    }
    forall v ensures v in listed <==> v == main || exists p <- parts :: p.voice == v && p.seconds >= OTHER_VOICE_MIN {
      ListedVoice(others, v);
    }
  }

  lemma ListedVoice(others: seq<Part>, v: Voice)
    ensures v in Voices(others) <==> exists p <- others :: p.voice == v
  {
    if v in Voices(others) {
      var k :| 0 <= k < |others| && Voices(others)[k] == v;
      assert others[k] in others;
    }
    if p :| p in others && p.voice == v {
      var k :| 0 <= k < |others| && others[k] == p;
      assert Voices(others)[k] == v;
    }
  }

  lemma SameVoiceSamePart(parts: seq<Part>, p: Part, q: Part)
    requires Distinct(Voices(parts)) && p in parts && q in parts
    ensures p.voice == q.voice ==> p == q
  {
    var i :| 0 <= i < |parts| && parts[i] == p;
    var j :| 0 <= j < |parts| && parts[j] == q;
    assert Voices(parts)[i] == p.voice && Voices(parts)[j] == q.voice;
  }

  lemma VoicesDistinct(parts: seq<Part>)
    requires Distinct(Voices(parts))
    ensures Distinct(parts)
  {
    forall i, j | 0 <= i < j < |parts| ensures parts[i] != parts[j] {
      assert Voices(parts)[i] != Voices(parts)[j];
    }
  }

  // ---------- consecutive words of one voice and one sureness ----------

  /** A run of words under one label and one certainty, not yet joined. */
  datatype Run = Run(name: string, uncertain: bool, words: seq<string>)

  function NameOf(s: Said, labels: map<Voice, string>, main: Voice): string
    requires main in labels
  {
    if s.voice in labels then labels[s.voice] else labels[main]
  }

  /** A word is shown as certain when it was sure, its voice is labelled and that
      label is not an unsure one. */
  predicate IsUncertain(s: Said, labels: map<Voice, string>, unsure: set<string>) {
    !s.sure || s.voice !in labels || labels[s.voice] in unsure
  }

  predicate GoesOn(runs: seq<Run>, name: string, uncertain: bool) {
    runs != [] && runs[|runs| - 1].name == name && runs[|runs| - 1].uncertain == uncertain
  }

  function Extended(runs: seq<Run>, name: string, uncertain: bool, text: string): seq<Run> {
    if GoesOn(runs, name, uncertain) then
      runs[..|runs| - 1] + [runs[|runs| - 1].(words := runs[|runs| - 1].words + [text])]
    else runs + [Run(name, uncertain, [text])]
  }

  function Runs(said: seq<Said>, labels: map<Voice, string>, main: Voice, unsure: set<string>): seq<Run>
    requires main in labels
  {
    if said == [] then []
    else
      var s := said[|said| - 1];
      Extended(Runs(said[..|said| - 1], labels, main, unsure), NameOf(s, labels, main), IsUncertain(s, labels, unsure), s.text)
  }

  function Joined(words: seq<string>): string {
    if words == [] then ""
    else if |words| == 1 then words[0]
    else Joined(words[..|words| - 1]) + " " + words[|words| - 1]
  }

  function Cut(text: string): string {
    if |text| > MAX_SEGMENT_CHARS then text[..MAX_SEGMENT_CHARS] else text
  }

  function Shown(r: Run): Segment {
    Segment(r.name, Cut(Joined(r.words)), r.uncertain)
  }

  function ShownAll(runs: seq<Run>): seq<Segment> {
    seq(|runs|, i requires 0 <= i < |runs| => Shown(runs[i]))
  }

  lemma CutGoesOn(text: string, more: string)
    ensures Cut(Cut(text) + more) == Cut(text + more)
  {
    if |text| > MAX_SEGMENT_CHARS {
      assert (Cut(text) + more)[..MAX_SEGMENT_CHARS] == (text + more)[..MAX_SEGMENT_CHARS];
    }
  }

  lemma JoinedSnoc(words: seq<string>, word: string)
    ensures Joined(words + [word]) == if words == [] then word else Joined(words) + (" " + word)
  {
    assert (words + [word])[..|words|] == words;
    if words != [] {
      assert Joined(words) + " " + word == Joined(words) + (" " + word);
    }
  }

  lemma ExtendedHolds(runs: seq<Run>, name: string, uncertain: bool, text: string)
    requires forall i | 0 <= i < |runs| :: runs[i].words != []
    ensures var after := Extended(runs, name, uncertain, text);
            after != [] && forall i | 0 <= i < |after| :: after[i].words != []
  {}

  lemma {:induction false} RunsHold(said: seq<Said>, labels: map<Voice, string>, main: Voice, unsure: set<string>)
    requires main in labels
    ensures var runs := Runs(said, labels, main, unsure);
            (said != [] ==> runs != []) && forall i | 0 <= i < |runs| :: runs[i].words != []
  {
    if said != [] {
      var init, s := said[..|said| - 1], said[|said| - 1];
      RunsHold(init, labels, main, unsure);
      ExtendedHolds(Runs(init, labels, main, unsure), NameOf(s, labels, main), IsUncertain(s, labels, unsure), s.text);
    }
  }

  lemma {:induction false} RunsGrow(said: seq<Said>, i: nat, labels: map<Voice, string>, main: Voice,
                                    unsure: set<string>)
    requires main in labels && i <= |said|
    ensures |Runs(said[..i], labels, main, unsure)| <= |Runs(said, labels, main, unsure)|
  {
    if i == |said| {
      assert said[..i] == said;
    } else {
      assert said[..|said| - 1][..i] == said[..i];
      RunsGrow(said[..|said| - 1], i, labels, main, unsure);
    }
  }

  lemma RunsNext(said: seq<Said>, i: nat, labels: map<Voice, string>, main: Voice, unsure: set<string>)
    requires main in labels && i < |said|
    ensures Runs(said[..i + 1], labels, main, unsure)
            == Extended(Runs(said[..i], labels, main, unsure), NameOf(said[i], labels, main),
                        IsUncertain(said[i], labels, unsure), said[i].text)
  {
    assert said[..i + 1][..i] == said[..i];
  }

  /** The segment list as the words come: grown in place, or a new one started. */
  function Grown(segments: seq<Segment>, name: string, uncertain: bool, text: string): seq<Segment> {
    if segments != [] && segments[|segments| - 1].name == name && segments[|segments| - 1].uncertain == uncertain then
      segments[..|segments| - 1]
      + [segments[|segments| - 1].(text := Cut(segments[|segments| - 1].text + (" " + text)))]
    else segments + [Segment(name, Cut(text), uncertain)]
  }

  lemma ShownSnoc(runs: seq<Run>, r: Run)
    ensures ShownAll(runs + [r]) == ShownAll(runs) + [Shown(r)]
  {}

  /** A run's segment with one more word. */
  lemma ShownGrows(r: Run, text: string)
    requires r.words != []
    ensures Shown(r.(words := r.words + [text])) == Segment(r.name, Cut(Shown(r).text + (" " + text)), r.uncertain)
  {
    JoinedSnoc(r.words, text);
    CutGoesOn(Joined(r.words), " " + text);
  }

  lemma GrownShows(runs: seq<Run>, name: string, uncertain: bool, text: string)
    requires forall i | 0 <= i < |runs| :: runs[i].words != []
    ensures Grown(ShownAll(runs), name, uncertain, text) == ShownAll(Extended(runs, name, uncertain, text))
  {
    if GoesOn(runs, name, uncertain) {
      var init, last := runs[..|runs| - 1], runs[|runs| - 1];
      assert runs == init + [last];
      ShownSnoc(init, last);
      ShownSnoc(init, last.(words := last.words + [text]));
      ShownGrows(last, text);
    } else {
      ShownSnoc(runs, Run(name, uncertain, [text]));
    }
  }

  /** The split a turn carries: every run as a segment, or none when there are too many. */
  function SplitOf(said: seq<Said>, labels: map<Voice, string>, main: Voice, unsure: set<string>): seq<Segment>
    requires main in labels
  {
    var runs := Runs(said, labels, main, unsure);
    if |runs| > MAX_SEGMENTS then [] else ShownAll(runs)
  }

  method Split(said: seq<Said>, labels: map<Voice, string>, main: Voice,
               unsure: set<string>) returns (segments: seq<Segment>)
    requires main in labels
    ensures segments == SplitOf(said, labels, main, unsure)
  {
    segments := [];
    for i := 0 to |said|
      invariant segments == ShownAll(Runs(said[..i], labels, main, unsure)) && |segments| <= MAX_SEGMENTS
    {
      ghost var runs, before := Runs(said[..i], labels, main, unsure), segments;
      RunsNext(said, i, labels, main, unsure);
      RunsHold(said[..i], labels, main, unsure);
      var voice, sure := said[i].voice, said[i].sure;
      if voice !in labels {
        voice, sure := main, false;
      }
      var name, text := labels[voice], said[i].text;
      var uncertain := !sure || name in unsure;
      GrownShows(runs, name, uncertain, text);
      var grown := segments != [] && segments[|segments| - 1].name == name
                   && segments[|segments| - 1].uncertain == uncertain;
      if grown {
        var last := segments[|segments| - 1];
        segments := segments[..|segments| - 1] + [last.(text := Cut(last.text + (" " + text)))];
      } else {
        segments := segments + [Segment(name, Cut(text), uncertain)];
      }
      assert segments == Grown(before, name, uncertain, text);
      if !grown && |segments| > MAX_SEGMENTS {
        RunsGrow(said, i + 1, labels, main, unsure);
        return [];
      }
    }
    assert said[..|said|] == said;
  }

  /** A split has one segment for each run, with the run's label and certainty and the
      first 400 characters of its words; with more than 12 runs it has none. */
  lemma SegmentsAreTheRuns(said: seq<Said>, labels: map<Voice, string>, main: Voice, unsure: set<string>, k: nat)
    requires main in labels && k < |Runs(said, labels, main, unsure)|
    ensures
      var runs, segments := Runs(said, labels, main, unsure), SplitOf(said, labels, main, unsure);
      && (|runs| > 12 ==> segments == [])
      && (|runs| <= 12 ==>
            && |segments| == |runs| && segments[k].name == runs[k].name && segments[k].uncertain == runs[k].uncertain
            && segments[k].text <= Joined(runs[k].words)
            && |segments[k].text| == if |Joined(runs[k].words)| < 400 then |Joined(runs[k].words)| else 400)
  {}

  // ---------- what the split keeps ----------

  /** One word as it is shown: label, certainty, text. */
  type Tag = (string, bool, string)

  function TagOf(s: Said, labels: map<Voice, string>, main: Voice, unsure: set<string>): Tag
    requires main in labels
  {
    (NameOf(s, labels, main), IsUncertain(s, labels, unsure), s.text)
  }

  function Tags(said: seq<Said>, labels: map<Voice, string>, main: Voice, unsure: set<string>): seq<Tag>
    requires main in labels
  {
    if said == [] then []
    else Tags(said[..|said| - 1], labels, main, unsure) + [TagOf(said[|said| - 1], labels, main, unsure)]
  }

  lemma {:induction false} TagsAre(said: seq<Said>, labels: map<Voice, string>, main: Voice, unsure: set<string>)
    requires main in labels
    ensures |Tags(said, labels, main, unsure)| == |said|
    ensures forall i | 0 <= i < |said| :: Tags(said, labels, main, unsure)[i] == TagOf(said[i], labels, main, unsure)
  {
    if said != [] {
      TagsAre(said[..|said| - 1], labels, main, unsure);
    }
  }

  function RunTags(r: Run): seq<Tag> {
    seq(|r.words|, i requires 0 <= i < |r.words| => (r.name, r.uncertain, r.words[i]))
  }

  function FlatTags(runs: seq<Run>): seq<Tag> {
    if runs == [] then [] else FlatTags(runs[..|runs| - 1]) + RunTags(runs[|runs| - 1])
  }

  function FlatWords(runs: seq<Run>): seq<string> {
    if runs == [] then [] else FlatWords(runs[..|runs| - 1]) + runs[|runs| - 1].words
  }

  function Texts(said: seq<Said>): seq<string> {
    seq(|said|, i requires 0 <= i < |said| => said[i].text)
  }

  lemma ExtendedTags(runs: seq<Run>, name: string, uncertain: bool, text: string)
    ensures FlatTags(Extended(runs, name, uncertain, text)) == FlatTags(runs) + [(name, uncertain, text)]
  {
    var after := Extended(runs, name, uncertain, text);
    if GoesOn(runs, name, uncertain) {
      assert after[..|after| - 1] == runs[..|runs| - 1];
      assert RunTags(after[|after| - 1]) == RunTags(runs[|runs| - 1]) + [(name, uncertain, text)];
      assert FlatTags(after) == FlatTags(runs) + [(name, uncertain, text)];
    } else {
      assert after[..|after| - 1] == runs;
      assert RunTags(after[|after| - 1]) == [(name, uncertain, text)];
    }
  }

  /** The words of the runs are the words of their tags. */
  lemma {:induction false} FlatWordsAre(runs: seq<Run>)
    ensures |FlatWords(runs)| == |FlatTags(runs)|
    ensures forall i | 0 <= i < |FlatWords(runs)| :: FlatWords(runs)[i] == FlatTags(runs)[i].2
  {
    if runs != [] {
      FlatWordsAre(runs[..|runs| - 1]);
    }
  }

  lemma {:induction false} RunsTag(said: seq<Said>, labels: map<Voice, string>, main: Voice, unsure: set<string>)
    requires main in labels
    ensures FlatTags(Runs(said, labels, main, unsure)) == Tags(said, labels, main, unsure)
  {
    if said != [] {
      var init, s := said[..|said| - 1], said[|said| - 1];
      RunsTag(init, labels, main, unsure);
      ExtendedTags(Runs(init, labels, main, unsure), NameOf(s, labels, main), IsUncertain(s, labels, unsure), s.text);
    }
  }

  /** Every word is in the runs once, in order, under its own label and certainty. */
  lemma RunsKeepEveryWord(said: seq<Said>, labels: map<Voice, string>, main: Voice, unsure: set<string>)
    requires main in labels
    ensures FlatTags(Runs(said, labels, main, unsure)) == Tags(said, labels, main, unsure)
    ensures FlatWords(Runs(said, labels, main, unsure)) == Texts(said)
  {
    RunsTag(said, labels, main, unsure);
    TagsAre(said, labels, main, unsure);
    FlatWordsAre(Runs(said, labels, main, unsure));
  }

  /** Runs next to each other differ in label or certainty. */
  ghost predicate Apart(runs: seq<Run>) {
    forall i | 0 <= i < |runs| - 1 :: runs[i].name != runs[i + 1].name || runs[i].uncertain != runs[i + 1].uncertain
  }

  lemma {:induction false} AdjacentRunsDiffer(said: seq<Said>, labels: map<Voice, string>, main: Voice,
                                              unsure: set<string>)
    requires main in labels
    ensures Apart(Runs(said, labels, main, unsure))
  {
    if said != [] {
      AdjacentRunsDiffer(said[..|said| - 1], labels, main, unsure);
    }
  }

  /** How many words the first `k` runs hold. */
  function WordsBefore(runs: seq<Run>, k: nat): nat
    requires k <= |runs|
  {
    |FlatWords(runs[..k])|
  }

  /** The `j`th word of the `k`th run, among the words of all runs. */
  lemma {:induction false} RunWordAt(runs: seq<Run>, k: nat, j: nat)
    requires k < |runs| && j < |runs[k].words|
    ensures WordsBefore(runs, k) + j < |FlatTags(runs)|
    ensures FlatTags(runs)[WordsBefore(runs, k) + j] == (runs[k].name, runs[k].uncertain, runs[k].words[j])
  {
    var init := runs[..|runs| - 1];
    if k == |runs| - 1 {
      FlatWordsAre(init);
      assert RunTags(runs[k])[j] == (runs[k].name, runs[k].uncertain, runs[k].words[j]);
    } else {
      assert runs[..k] == init[..k];
      RunWordAt(init, k, j);
    }
  }

  /** A word's place among the runs is its place among the words said. */
  lemma WordInPlace(said: seq<Said>, labels: map<Voice, string>, main: Voice, unsure: set<string>, runs: seq<Run>,
                    k: nat, j: nat)
    requires main in labels && FlatTags(runs) == Tags(said, labels, main, unsure)
    requires k < |runs| && j < |runs[k].words|
    ensures WordsBefore(runs, k) + j < |said|
    ensures TagOf(said[WordsBefore(runs, k) + j], labels, main, unsure)
            == (runs[k].name, runs[k].uncertain, runs[k].words[j])
  {
    TagsAre(said, labels, main, unsure);
    RunWordAt(runs, k, j);
  }

  /** What a word's tag says of it. */
  lemma TagMeans(s: Said, labels: map<Voice, string>, main: Voice, unsure: set<string>)
    requires main in labels
    ensures !TagOf(s, labels, main, unsure).1 <==>
              s.sure && s.voice in labels && labels[s.voice] == NameOf(s, labels, main)
              && NameOf(s, labels, main) !in unsure
  {}

  /** The `j`th word of a segment is the word said at that place, counting through
      the segments in order; and in a certain segment that very word was sure, and
      said by a voice whose label is the segment's and not an unsure one. */
  lemma {:induction false} CertainSegmentsAreSure(said: seq<Said>, labels: map<Voice, string>, main: Voice,
                                                  unsure: set<string>, k: nat, j: nat)
    requires main in labels
    requires var runs := Runs(said, labels, main, unsure); k < |runs| && j < |runs[k].words|
    ensures
      var runs := Runs(said, labels, main, unsure);
      var at := WordsBefore(runs, k) + j;
      && at < |said| && said[at].text == runs[k].words[j] && NameOf(said[at], labels, main) == runs[k].name
      && (!runs[k].uncertain <==>
            said[at].sure && said[at].voice in labels && labels[said[at].voice] == runs[k].name && runs[k].name !in unsure)
  {
    var runs := Runs(said, labels, main, unsure);
    RunsTag(said, labels, main, unsure);
    WordInPlace(said, labels, main, unsure, runs, k, j);
    TagMeans(said[WordsBefore(runs, k) + j], labels, main, unsure);
  }

  // ---------- what the segments read as ----------

  function SegmentTexts(segments: seq<Segment>): seq<string> {
    seq(|segments|, i requires 0 <= i < |segments| => segments[i].text)
  }

  function RunTexts(runs: seq<Run>): seq<string> {
    seq(|runs|, i requires 0 <= i < |runs| => Joined(runs[i].words))
  }

  lemma Regroup(a: string, b: string, c: string)
    ensures a + (" " + b) + (" " + c) == a + (" " + (b + (" " + c)))
  {}

  lemma {:induction false} JoinedConcat(a: seq<string>, b: seq<string>)
    requires a != [] && b != []
    ensures Joined(a + b) == Joined(a) + (" " + Joined(b))
  {
    var init, last := b[..|b| - 1], b[|b| - 1];
    assert b == init + [last] && a + b == (a + init) + [last];
    JoinedSnoc(a + init, last);
    JoinedSnoc(init, last);
    if init == [] {
      assert a + init == a;
    } else {
      JoinedConcat(a, init);
      Regroup(Joined(a), Joined(init), last);
    }
  }

  lemma {:induction false} RunsReadAsTheWords(runs: seq<Run>)
    requires forall i | 0 <= i < |runs| :: runs[i].words != []
    ensures Joined(RunTexts(runs)) == Joined(FlatWords(runs))
    ensures runs != [] ==> FlatWords(runs) != []
  {
    if runs != [] {
      var init, last := runs[..|runs| - 1], runs[|runs| - 1];
      RunsReadAsTheWords(init);
      assert RunTexts(runs) == RunTexts(init) + [Joined(last.words)];
      JoinedSnoc(RunTexts(init), Joined(last.words));
      if init == [] {
        assert FlatWords(init) == [] && FlatWords(runs) == last.words;
      } else {
        JoinedConcat(FlatWords(init), last.words);
      }
    }
  }

  lemma {:induction false} CutIsShorter(a: seq<string>, b: seq<string>)
    requires |a| == |b| && forall i | 0 <= i < |a| :: a[i] == Cut(b[i])
    ensures |Joined(a)| <= |Joined(b)|
    ensures (exists i | 0 <= i < |b| :: |b[i]| > MAX_SEGMENT_CHARS) ==> |Joined(a)| < |Joined(b)|
  {
    if |a| > 1 {
      CutIsShorter(a[..|a| - 1], b[..|b| - 1]);
    }
  }

  lemma {:induction false} RunsAreFew(said: seq<Said>, labels: map<Voice, string>, main: Voice, unsure: set<string>)
    requires main in labels
    ensures |Runs(said, labels, main, unsure)| <= |said|
  {
    if said != [] {
      RunsAreFew(said[..|said| - 1], labels, main, unsure);
    }
  }

  /** The split reads as the words exactly when it has no more than 12 runs and none
      too long for a segment. */
  lemma {:induction false} SegmentsReadAsTheWords(said: seq<Said>, labels: map<Voice, string>, main: Voice,
                                                  unsure: set<string>)
    requires main in labels
    ensures var runs := Runs(said, labels, main, unsure);
            Joined(SegmentTexts(SplitOf(said, labels, main, unsure))) == Joined(Texts(said))
            <==> |runs| <= MAX_SEGMENTS && forall i | 0 <= i < |runs| :: |Joined(runs[i].words)| <= MAX_SEGMENT_CHARS
  {
    var runs := Runs(said, labels, main, unsure);
    if |runs| > MAX_SEGMENTS {
      RunsAreFew(said, labels, main, unsure);
      assert |Joined(Texts(said))| > 0;
      assert SegmentTexts([]) == [];
    } else {
      RunsKeepEveryWord(said, labels, main, unsure);
      RunsHold(said, labels, main, unsure);
      ShownReadsAs(runs);
    }
  }

  lemma ShownReadsAs(runs: seq<Run>)
    requires forall i | 0 <= i < |runs| :: runs[i].words != []
    ensures Joined(SegmentTexts(ShownAll(runs))) == Joined(FlatWords(runs))
            <==> forall i | 0 <= i < |runs| :: |Joined(runs[i].words)| <= MAX_SEGMENT_CHARS
  {
    RunsReadAsTheWords(runs);
    var cut, full := SegmentTexts(ShownAll(runs)), RunTexts(runs);
    CutIsShorter(cut, full);
    if forall i | 0 <= i < |runs| :: |Joined(runs[i].words)| <= MAX_SEGMENT_CHARS {
      assert cut == full;
    } else {
      var i :| 0 <= i < |runs| && |Joined(runs[i].words)| > MAX_SEGMENT_CHARS;
      assert |full[i]| > MAX_SEGMENT_CHARS;
    }
  }

  // ---------- the label of a turn ----------

  datatype Timed = Timed(words: seq<Word>, length: int)

  /** The words moved into the tracker's time, lined up at the commit. */
  function Align(timed: Option<Timed>, turn: Option<int>): (r: Option<seq<Word>>)
    ensures r.Some? <==> timed.Some? && turn.Some? && turn.value + ALIGN_SLACK >= timed.value.length
    ensures r.Some? ==> |r.value| == |timed.value.words| && forall i | 0 <= i < |r.value| ::
      && r.value[i].text == timed.value.words[i].text
      && turn.value - r.value[i].start == timed.value.length - timed.value.words[i].start
      && turn.value - r.value[i].end == timed.value.length - timed.value.words[i].end
  {
    if timed.None? || turn.None? then None
    else
      var shift := turn.value - timed.value.length;
      if shift < -ALIGN_SLACK then None
      else Some(seq(|timed.value.words|, i requires 0 <= i < |timed.value.words| =>
        var w := timed.value.words[i]; Word(w.start + shift, w.end + shift, w.text)))
  }

  function NameIn(parts: seq<Part>, v: Voice): string {
    if parts == [] then ""
    else if parts[|parts| - 1].voice == v then parts[|parts| - 1].name
    else NameIn(parts[..|parts| - 1], v)
  }

  /** A voice goes by the name its part in the turn gives it. */
  lemma {:induction false} NameInIs(parts: seq<Part>, p: Part)
    requires Distinct(Voices(parts)) && p in parts
    ensures NameIn(parts, p.voice) == p.name
  {
    var init, last := parts[..|parts| - 1], parts[|parts| - 1];
    if p != last {
      SameVoiceSamePart(parts, p, last);
      assert Voices(init) == Voices(parts)[..|parts| - 1];
      NameInIs(init, p);
    }
  }

  lemma {:induction false} NamelessVoice(parts: seq<Part>, v: Voice)
    requires forall p <- parts :: p.voice != v
    ensures NameIn(parts, v) == ""
  {
    if parts != [] {
      NamelessVoice(parts[..|parts| - 1], v);
    }
  }

  /** A voice's name, or its ordinal while it has none. */
  function LabelOf(parts: seq<Part>, ordinal: Voice -> string, v: Voice): string {
    if NameIn(parts, v) != "" then NameIn(parts, v) else ordinal(v)
  }

  function LabelsOf(listed: seq<Voice>, parts: seq<Part>, ordinal: Voice -> string): seq<string> {
    if listed == [] then []
    else
      var before, text := LabelsOf(listed[..|listed| - 1], parts, ordinal), LabelOf(parts, ordinal, listed[|listed| - 1]);
      if text in before then before else before + [text]
  }

  function UnsureOf(listed: seq<Voice>, parts: seq<Part>, ordinal: Voice -> string): seq<string> {
    if listed == [] then []
    else
      var v := listed[|listed| - 1];
      UnsureOf(listed[..|listed| - 1], parts, ordinal) + if NameIn(parts, v) == "" then [ordinal(v)] else []
  }

  function NamesOf(listed: seq<Voice>, parts: seq<Part>, ordinal: Voice -> string): map<Voice, string> {
    map v | v in listed :: LabelOf(parts, ordinal, v)
  }

  function Elements(texts: seq<string>): set<string> {
    set text <- texts
  }

  datatype Label = Label(labels: seq<string>, uncertain: seq<string>, segments: seq<Segment>)

  /** Each listed voice's label: its own name, or an ordinal that is marked unsure. */
  method NameVoices(listed: seq<Voice>, parts: seq<Part>, ordinal: Voice -> string)
    returns (labels: seq<string>, unsure: seq<string>, names: map<Voice, string>)
    ensures labels == LabelsOf(listed, parts, ordinal) && unsure == UnsureOf(listed, parts, ordinal)
    ensures names == NamesOf(listed, parts, ordinal)
  {
    labels, unsure, names := [], [], map[];
    for i := 0 to |listed|
      invariant labels == LabelsOf(listed[..i], parts, ordinal) && unsure == UnsureOf(listed[..i], parts, ordinal)
      invariant names == NamesOf(listed[..i], parts, ordinal)
    {
      assert listed[..i + 1][..i] == listed[..i];
      var name := NameIn(parts, listed[i]);
      var text := if name != "" then name else ordinal(listed[i]);
      if name == "" {
        unsure := unsure + [text];
      }
      names := names[listed[i] := text];
      if text !in labels {
        labels := labels + [text];
      }
    }
    assert listed[..|listed|] == listed;
  }

  /** The label of a turn with several voices. */
  method LabelTurn(listed: seq<Voice>, parts: seq<Part>, ordinal: Voice -> string, main: Voice, spans: seq<Span>,
                   weight: map<Voice, nat>, timed: Option<Timed>, turn: Option<int>)
    returns (payload: Label, ghost said: seq<Said>)
    requires main in listed
    ensures payload.labels == LabelsOf(listed, parts, ordinal)
    ensures payload.uncertain == UnsureOf(listed, parts, ordinal)
    ensures var words, names := Align(timed, turn), NamesOf(listed, parts, ordinal);
            if words.None? then payload.segments == []
            else
              && |said| == |words.value|
              && (forall i | 0 <= i < |said| :: RightlySaid(said[i], words.value[i], spans, main, weight))
              && payload.segments == SplitOf(said, names, main, Elements(payload.uncertain))
  {
    var labels, unsure, names := NameVoices(listed, parts, ordinal);
    said := [];
    var segments: seq<Segment> := [];
    var words := Align(timed, turn);
    if words.Some? {
      var attributed := Attribute(words.value, spans, main, weight);
      segments := Split(attributed, names, main, Elements(unsure));
      said := attributed;
    }
    payload := Label(labels, unsure, segments);
  }

  lemma {:induction false} LabelsAre(listed: seq<Voice>, parts: seq<Part>, ordinal: Voice -> string, text: string)
    ensures text in LabelsOf(listed, parts, ordinal) <==> exists v <- listed :: LabelOf(parts, ordinal, v) == text
    ensures Distinct(LabelsOf(listed, parts, ordinal))
    ensures text in UnsureOf(listed, parts, ordinal)
            <==> exists v <- listed :: NameIn(parts, v) == "" && LabelOf(parts, ordinal, v) == text
  {
    if listed != [] {
      var init, last := listed[..|listed| - 1], listed[|listed| - 1];
      LabelsAre(init, parts, ordinal, text);
      assert forall v :: v in listed <==> v in init || v == last;
    }
  }

  /** Labels and unsure labels come in the order of the listed voices. */
  lemma {:induction false} LabelsComeInOrder(listed: seq<Voice>, parts: seq<Part>, ordinal: Voice -> string, k: nat)
    requires k <= |listed|
    ensures LabelsOf(listed[..k], parts, ordinal) <= LabelsOf(listed, parts, ordinal)
    ensures UnsureOf(listed[..k], parts, ordinal) <= UnsureOf(listed, parts, ordinal)
  {
    if k == |listed| {
      assert listed[..k] == listed;
    } else {
      LabelsComeInOrder(listed[..|listed| - 1], parts, ordinal, k);
      assert listed[..|listed| - 1][..k] == listed[..k];
    }
  }

  /** A segment's label is one of the turn's, and a certain one is a voice's own name. */
  lemma CertainSegmentsAreNamed(said: seq<Said>, listed: seq<Voice>, parts: seq<Part>, ordinal: Voice -> string,
                                main: Voice, k: nat)
    requires main in listed
    requires k < |Runs(said, NamesOf(listed, parts, ordinal), main, Elements(UnsureOf(listed, parts, ordinal)))|
    ensures var run := Runs(said, NamesOf(listed, parts, ordinal), main, Elements(UnsureOf(listed, parts, ordinal)))[k];
            && run.name in LabelsOf(listed, parts, ordinal)
            && (!run.uncertain ==> exists v <- listed :: NameIn(parts, v) == run.name && run.name != "")
  {
    var names, unsure := NamesOf(listed, parts, ordinal), Elements(UnsureOf(listed, parts, ordinal));
    var runs := Runs(said, names, main, unsure);
    var run := runs[k];
    RunsTag(said, names, main, unsure);
    RunsHold(said, names, main, unsure);
    WordInPlace(said, names, main, unsure, runs, k, 0);
    var i := WordsBefore(runs, k);
    var v := if said[i].voice in names then said[i].voice else main;
    assert v in listed && LabelOf(parts, ordinal, v) == run.name;
    LabelsAre(listed, parts, ordinal, run.name);
  }
}
