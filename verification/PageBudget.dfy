/** One page's transfer budget, shared by all its connections (backend/egress.py:
    EgressProxy._accountant, _relay). */
module PageBudget {

  type Page = int
  type Conn = int

  const LEDGER_MAX := 1024
  const LEDGER_DROPPED := 512

  /** One page's entry in the ledger, in insertion order. */
  datatype Entry = Entry(page: Page, used: nat)

  function Used(ledger: seq<Entry>, page: Page): nat {
    if ledger == [] then 0
    else if ledger[|ledger| - 1].page == page then ledger[|ledger| - 1].used
    else Used(ledger[..|ledger| - 1], page)
  }

  predicate Listed(ledger: seq<Entry>, page: Page) {
    ledger != [] && (ledger[|ledger| - 1].page == page || Listed(ledger[..|ledger| - 1], page))
  }

  function Replaced(ledger: seq<Entry>, e: Entry): seq<Entry> {
    if ledger == [] then []
    else if ledger[|ledger| - 1].page == e.page then ledger[..|ledger| - 1] + [e]
    else Replaced(ledger[..|ledger| - 1], e) + [ledger[|ledger| - 1]]
  }

  function Booked(ledger: seq<Entry>, page: Page, bytes: nat): seq<Entry> {
    var e := Entry(page, Used(ledger, page) + bytes);
    if Listed(ledger, page) then Replaced(ledger, e) else ledger + [e]
  }

  /** Opening a meter for `page` on a full ledger forgets the oldest entries. */
  function Opened(ledger: seq<Entry>, page: Page): seq<Entry> {
    if |ledger| > LEDGER_MAX && !Listed(ledger, page) then ledger[LEDGER_DROPPED..] else ledger
  }

  // ---------- one relay ----------

  datatype End = Drained | CapExceeded | BudgetExceeded

  /** What an uninterrupted relay of `chunks` does: bytes moved, forwarded, and how it
      ends; `spent` is what the page had used when it began. */
  datatype Flow = Flow(moved: nat, sent: nat, booked: nat, end: End)

  function Moved(f: Flow, n: nat, cap: nat, budget: nat, spent: nat): Flow {
    if f.end != Drained then f
    else if f.moved + n > cap then Flow(f.moved + n, f.sent, f.booked, CapExceeded)
    else if spent + f.booked + n > budget then Flow(f.moved + n, f.sent, f.booked + n, BudgetExceeded)
    else Flow(f.moved + n, f.sent + n, f.booked + n, Drained)
  }

  function Flowed(chunks: seq<nat>, cap: nat, budget: nat, spent: nat): Flow {
    if chunks == [] then Flow(0, 0, 0, Drained)
    else Moved(Flowed(chunks[..|chunks| - 1], cap, budget, spent), chunks[|chunks| - 1], cap, budget, spent)
  }

  lemma FlowNext(chunks: seq<nat>, i: nat, cap: nat, budget: nat, spent: nat)
    requires i < |chunks|
    ensures Flowed(chunks[..i + 1], cap, budget, spent)
            == Moved(Flowed(chunks[..i], cap, budget, spent), chunks[i], cap, budget, spent)
    ensures Flowed(chunks[..i + 1], cap, budget, spent).end != Drained
            ==> Flowed(chunks, cap, budget, spent) == Flowed(chunks[..i + 1], cap, budget, spent)
  {
    assert chunks[..i + 1][..i] == chunks[..i];
    if Flowed(chunks[..i + 1], cap, budget, spent).end != Drained {
      FlowStops(chunks, i + 1, cap, budget, spent);
    }
  }

  class Accountant {
    var ledger: seq<Entry>
    const budget: nat

    constructor (budget: nat)
      ensures ledger == [] && this.budget == budget
    {
      this.budget, ledger := budget, [];
    }

    method Open(page: Page)
      modifies this
      ensures ledger == Opened(old(ledger), page)
    {
      if |ledger| > LEDGER_MAX && !Listed(ledger, page) {
        ledger := ledger[LEDGER_DROPPED..];
      }
    }

    method Account(page: Page, bytes: nat) returns (over: bool)
      requires OnePerPage(ledger)
      modifies this
      ensures OnePerPage(ledger)
      ensures ledger == Booked(old(ledger), page, bytes)
      ensures over <==> Used(old(ledger), page) + bytes > budget
      ensures Used(ledger, page) == Used(old(ledger), page) + bytes
    {
      var used := Used(ledger, page) + bytes;
      ghost var booked := Booked(ledger, page, bytes);
      BookedUses(ledger, page, bytes, page);
      if Listed(ledger, page) {
        ledger := Replaced(ledger, Entry(page, used));
      } else {
        ledger := ledger + [Entry(page, used)];
      }
      assert ledger == booked;
      over := used > budget;
    }

    method Relay(chunks: seq<nat>, cap: nat, page: Page) returns (sent: nat, end: End)
      requires OnePerPage(ledger)
      modifies this
      ensures OnePerPage(ledger)
      ensures var f := Flowed(chunks, cap, budget, Used(old(ledger), page));
              sent == f.sent && end == f.end && Used(ledger, page) == Used(old(ledger), page) + f.booked
    {
      sent, end := 0, Drained;
      var moved := 0;
      ghost var spent := Used(ledger, page);
      ghost var f := Flow(0, 0, 0, Drained);
      for i := 0 to |chunks|
        invariant OnePerPage(ledger) && end == Drained
        invariant f == Flowed(chunks[..i], cap, budget, spent)
        invariant f.end == Drained && moved == f.moved && sent == f.sent && Used(ledger, page) == spent + f.booked
      {
        FlowNext(chunks, i, cap, budget, spent);
        f := Moved(f, chunks[i], cap, budget, spent);
        moved := moved + chunks[i];
        if moved > cap {
          end := CapExceeded;
          return;
        }
        var over := Account(page, chunks[i]);
        if over {
          end := BudgetExceeded;
          return;
        }
        sent := sent + chunks[i];
      }
      assert chunks[..|chunks|] == chunks;
    }
  }

  ghost predicate OnePerPage(ledger: seq<Entry>) {
    ledger == []
    || (OnePerPage(ledger[..|ledger| - 1]) && !Listed(ledger[..|ledger| - 1], ledger[|ledger| - 1].page))
  }

  lemma {:induction false} FlowStops(chunks: seq<nat>, i: nat, cap: nat, budget: nat, spent: nat)
    requires i <= |chunks| && Flowed(chunks[..i], cap, budget, spent).end != Drained
    ensures Flowed(chunks, cap, budget, spent) == Flowed(chunks[..i], cap, budget, spent)
  {
    if i == |chunks| {
      assert chunks[..i] == chunks;
    } else {
      assert chunks[..|chunks| - 1][..i] == chunks[..i];
      FlowStops(chunks[..|chunks| - 1], i, cap, budget, spent);
    }
  }

  lemma {:induction false} ReplacedUses(ledger: seq<Entry>, e: Entry, page: Page)
    requires OnePerPage(ledger)
    ensures OnePerPage(Replaced(ledger, e))
    ensures Listed(Replaced(ledger, e), page) <==> Listed(ledger, page)
    ensures Used(Replaced(ledger, e), page) == if page == e.page && Listed(ledger, page) then e.used else Used(ledger, page)
  {
    if ledger != [] {
      var init, last := ledger[..|ledger| - 1], ledger[|ledger| - 1];
      ReplacedUses(init, e, page);
      ReplacedUses(init, e, last.page);
      assert (Replaced(init, e) + [last])[..|Replaced(init, e)|] == Replaced(init, e);
      assert (init + [e])[..|init|] == init;
    }
  }

  lemma BookedUses(ledger: seq<Entry>, page: Page, bytes: nat, other: Page)
    requires OnePerPage(ledger)
    ensures OnePerPage(Booked(ledger, page, bytes))
    ensures Used(Booked(ledger, page, bytes), other) == Used(ledger, other) + if other == page then bytes else 0
    ensures Listed(Booked(ledger, page, bytes), other) <==> other == page || Listed(ledger, other)
  {
    var e := Entry(page, Used(ledger, page) + bytes);
    if Listed(ledger, page) {
      ReplacedUses(ledger, e, other);
    } else {
      assert (ledger + [e])[..|ledger|] == ledger;
    }
  }

  // ---------- every interleaving of one page's relays ----------

  datatype Link = Link(page: Page, cap: nat, moved: nat, open: bool)

  datatype Event =
    | Accept(conn: Conn, page: Page, cap: nat)  // a connection with this view key
    | Chunk(conn: Conn, bytes: nat)             // its upstream sends
    | Close(conn: Conn)

  /** `sent(p)` is every byte forwarded for page p, and `dropped(p)` how often p was
      forgotten, since the proxy began. */
  datatype World = World(ledger: seq<Entry>, links: map<Conn, Link>, sent: Page -> nat, dropped: Page -> nat)

  function Add(count: Page -> nat, page: Page, n: nat): Page -> nat {
    (p: Page) => if p == page then count(p) + n else count(p)
  }

  function Forgot(count: Page -> nat, before: seq<Entry>, after: seq<Entry>): Page -> nat {
    (p: Page) => if Listed(before, p) && !Listed(after, p) then count(p) + 1 else count(p)
  }

  function Next(w: World, e: Event, budget: nat): World {
    match e
    case Accept(conn, page, cap) =>
      if conn in w.links then w
      else
        var ready := Opened(w.ledger, page);
        var booked := Booked(ready, page, 0);
        World(booked, w.links[conn := Link(page, cap, 0, Used(booked, page) <= budget)],
              w.sent, Forgot(w.dropped, w.ledger, ready))
    case Chunk(conn, bytes) =>
      if conn !in w.links || !w.links[conn].open then w
      else
        var link := w.links[conn];
        if link.moved + bytes > link.cap then
          w.(links := w.links[conn := link.(moved := link.moved + bytes, open := false)])
        else
          var booked := Booked(w.ledger, link.page, bytes);
          var over := Used(booked, link.page) > budget;
          World(booked, w.links[conn := link.(moved := link.moved + bytes, open := !over)],
                if over then w.sent else Add(w.sent, link.page, bytes), w.dropped)
    case Close(conn) =>
      if conn in w.links then w.(links := w.links[conn := w.links[conn].(open := false)]) else w
  }

  function Run(events: seq<Event>, budget: nat): World {
    if events == [] then World([], map[], (p: Page) => 0, (p: Page) => 0)
    else Next(Run(events[..|events| - 1], budget), events[|events| - 1], budget)
  }

  /** `n` budgets' worth of bytes. */
  function Worth(n: nat, budget: nat): nat {
    if n == 0 then 0 else Worth(n - 1, budget) + budget
  }

  function Min(a: nat, b: nat): nat {
    if a < b then a else b
  }

  /** A page's bytes: one budget for each time it was forgotten, and what its present
      entry allows; exactly what its entry says if it was never forgotten nor spent. */
  ghost predicate PageOk(w: World, page: Page, budget: nat) {
    && w.sent(page) <= Worth(w.dropped(page), budget) + Min(Used(w.ledger, page), budget)
    && (w.dropped(page) == 0 && Used(w.ledger, page) <= budget ==> w.sent(page) == Used(w.ledger, page))
  }

  ghost predicate BudgetOk(w: World, budget: nat) {
    OnePerPage(w.ledger) && forall page :: PageOk(w, page, budget)
  }

  lemma {:induction false} UsedUnlisted(ledger: seq<Entry>, page: Page)
    requires !Listed(ledger, page)
    ensures Used(ledger, page) == 0
  {
    if ledger != [] {
      UsedUnlisted(ledger[..|ledger| - 1], page);
    }
  }

  lemma {:induction false} UsedSuffix(ledger: seq<Entry>, k: nat, page: Page)
    requires OnePerPage(ledger) && k <= |ledger|
    ensures OnePerPage(ledger[k..])
    ensures Listed(ledger[k..], page) ==> Listed(ledger, page) && Used(ledger[k..], page) == Used(ledger, page)
  {
    if k < |ledger| {
      var init, last := ledger[..|ledger| - 1], ledger[|ledger| - 1];
      assert ledger[k..][..|ledger| - 1 - k] == init[k..];
      UsedSuffix(init, k, page);
      UsedSuffix(init, k, last.page);
    }
  }

  lemma OpeningKeepsPage(w: World, ready: seq<Entry>, opener: Page, page: Page, budget: nat)
    requires BudgetOk(w, budget) && ready == Opened(w.ledger, opener)
    ensures OnePerPage(ready)
    ensures PageOk(World(ready, w.links, w.sent, Forgot(w.dropped, w.ledger, ready)), page, budget)
  {
    assert PageOk(w, page, budget);
    if |w.ledger| > LEDGER_MAX && !Listed(w.ledger, opener) {
      UsedSuffix(w.ledger, LEDGER_DROPPED, page);
      if !Listed(ready, page) {
        UsedUnlisted(ready, page);
        if !Listed(w.ledger, page) {
          UsedUnlisted(w.ledger, page);
        }
      }
    }
  }

  lemma AcceptKeepsBudget(w: World, conn: Conn, page: Page, cap: nat, budget: nat)
    requires BudgetOk(w, budget)
    ensures BudgetOk(Next(w, Accept(conn, page, cap), budget), budget)
  {
    if conn !in w.links {
      var ready := Opened(w.ledger, page);
      forall p ensures OnePerPage(ready) && PageOk(Next(w, Accept(conn, page, cap), budget), p, budget) {
        OpeningKeepsPage(w, ready, page, p, budget);
        BookedUses(ready, page, 0, p);
      }
      OpeningKeepsPage(w, ready, page, page, budget);
      BookedUses(ready, page, 0, page);
    }
  }

  lemma ChunkKeepsPage(w: World, conn: Conn, bytes: nat, page: Page, budget: nat)
    requires OnePerPage(w.ledger) && PageOk(w, page, budget)
    ensures OnePerPage(Next(w, Chunk(conn, bytes), budget).ledger)
    ensures PageOk(Next(w, Chunk(conn, bytes), budget), page, budget)
  {
    if conn in w.links {
      BookedUses(w.ledger, w.links[conn].page, bytes, page);
      BookedUses(w.ledger, w.links[conn].page, bytes, w.links[conn].page);
    }
  }

  lemma EventKeepsBudget(w: World, e: Event, budget: nat)
    requires BudgetOk(w, budget)
    ensures BudgetOk(Next(w, e, budget), budget)
  {
    match e
    case Accept(conn, page, cap) => AcceptKeepsBudget(w, conn, page, cap, budget);
    case Chunk(conn, bytes) =>
      forall p ensures PageOk(Next(w, e, budget), p, budget) {
        ChunkKeepsPage(w, conn, bytes, p, budget);
      }
      ChunkKeepsPage(w, conn, bytes, 0, budget);
    case Close(conn) =>
      forall p ensures PageOk(Next(w, e, budget), p, budget) {
        assert PageOk(w, p, budget);
      }
  }

  lemma {:induction false} RunKeepsBudget(events: seq<Event>, budget: nat)
    ensures BudgetOk(Run(events, budget), budget)
  {
    if events != [] {
      RunKeepsBudget(events[..|events| - 1], budget);
      EventKeepsBudget(Run(events[..|events| - 1], budget), events[|events| - 1], budget);
    }
  }

  /** However a page's connections interleave, a page never forgotten forwards at most
      its budget, and the budget again for each time it was forgotten. */
  lemma APageStaysWithinBudget(events: seq<Event>, budget: nat, page: Page)
    ensures var w := Run(events, budget);
            && w.sent(page) <= Worth(w.dropped(page) + 1, budget)
            && (w.dropped(page) == 0 ==> w.sent(page) <= budget)
  {
    RunKeepsBudget(events, budget);
    var w := Run(events, budget);
    assert PageOk(w, page, budget);
  }

  /** On a page never forgotten nor spent, a chunk within its connection's cap is
      forwarded exactly when the page's total with it is within the budget. */
  lemma AChunkIsForwardedExactlyWithinBudget(events: seq<Event>, budget: nat, conn: Conn, bytes: nat)
    requires var w := Run(events, budget);
             && conn in w.links && w.links[conn].open && w.links[conn].moved + bytes <= w.links[conn].cap
             && bytes > 0 && w.dropped(w.links[conn].page) == 0 && Used(w.ledger, w.links[conn].page) <= budget
    ensures var w := Run(events, budget);
            var page := w.links[conn].page;
            Next(w, Chunk(conn, bytes), budget).sent(page)
            == if w.sent(page) + bytes <= budget then w.sent(page) + bytes else w.sent(page)
  {
    RunKeepsBudget(events, budget);
    var w := Run(events, budget);
    assert PageOk(w, w.links[conn].page, budget);
    BookedUses(w.ledger, w.links[conn].page, bytes, w.links[conn].page);
  }

  // ---------- what one relay forwards ----------

  function Sum(chunks: seq<nat>): nat {
    if chunks == [] then 0 else Sum(chunks[..|chunks| - 1]) + chunks[|chunks| - 1]
  }

  /** Do the first n chunks fit the connection's cap and what the page has left? */
  predicate Fit(chunks: seq<nat>, n: nat, cap: nat, budget: nat, spent: nat)
    requires n <= |chunks|
  {
    Sum(chunks[..n]) <= cap && spent + Sum(chunks[..n]) <= budget
  }

  /** An uninterrupted relay forwards its chunks as long as they fit, whole; the first
      that does not ends it, for the cap if that is passed and else for the budget; and
      the page is charged what was forwarded and the chunk the budget refused. */
  lemma {:induction false} ARelayForwardsWhatFits(chunks: seq<nat>, cap: nat, budget: nat, spent: nat) returns (n: nat)
    ensures n <= |chunks| && (forall i | 0 < i <= n :: Fit(chunks, i, cap, budget, spent))
    ensures n < |chunks| ==> !Fit(chunks, n + 1, cap, budget, spent)
    ensures
      var f := Flowed(chunks, cap, budget, spent);
      && f.sent == Sum(chunks[..n])
      && f.end == (if n == |chunks| then Drained
                   else if Sum(chunks[..n + 1]) > cap then CapExceeded
                   else BudgetExceeded)
      && f.booked == f.sent + (if f.end == BudgetExceeded then chunks[n] else 0)
      && (n == |chunks| ==> f.moved == Sum(chunks))
  {
    n := 0;
    if chunks != [] {
      var init := chunks[..|chunks| - 1];
      n := ARelayForwardsWhatFits(init, cap, budget, spent);
      assert chunks[..n] == init[..n];
      forall i | 0 < i <= n ensures Fit(chunks, i, cap, budget, spent) {
        assert Fit(init, i, cap, budget, spent) && chunks[..i] == init[..i];
      }
      if n == |init| {
        assert chunks[..|chunks|] == chunks && init[..|init|] == init;
        assert Sum(chunks) == Sum(init) + chunks[n];
        if Fit(chunks, |chunks|, cap, budget, spent) {
          n := |chunks|;
        }
      } else {
        assert chunks[..n + 1] == init[..n + 1];
      }
    }
  }

  /** The chunks one connection's upstream sends, one after another. */
  function Chunks(conn: Conn, chunks: seq<nat>): seq<Event> {
    seq(|chunks|, i requires 0 <= i < |chunks| => Chunk(conn, chunks[i]))
  }

  function After(w: World, events: seq<Event>, budget: nat): World {
    if events == [] then w else Next(After(w, events[..|events| - 1], budget), events[|events| - 1], budget)
  }

  /** Has the connection done, since w, what a relay of flow f does? */
  ghost predicate Relayed(w: World, w': World, conn: Conn, f: Flow)
    requires conn in w.links
  {
    var link := w.links[conn];
    && OnePerPage(w'.ledger) && w'.links.Keys == w.links.Keys
    && w'.links[conn] == Link(link.page, link.cap, f.moved, f.end == Drained)
    && w'.sent(link.page) == w.sent(link.page) + f.sent
    && Used(w'.ledger, link.page) == Used(w.ledger, link.page) + f.booked
  }

  lemma ChunkIsRelayed(w: World, mid: World, conn: Conn, f: Flow, bytes: nat, budget: nat)
    requires conn in w.links && Relayed(w, mid, conn, f)
    ensures var link := w.links[conn];
            Relayed(w, Next(mid, Chunk(conn, bytes), budget), conn,
                    Moved(f, bytes, link.cap, budget, Used(w.ledger, link.page)))
  {
    BookedUses(mid.ledger, w.links[conn].page, bytes, w.links[conn].page);
  }

  /** A connection left to itself does in the interleaved world what a relay does. */
  lemma {:induction false} AConnectionIsARelay(w: World, conn: Conn, chunks: seq<nat>, budget: nat)
    requires OnePerPage(w.ledger) && conn in w.links && w.links[conn].open && w.links[conn].moved == 0
    ensures var link := w.links[conn];
            Relayed(w, After(w, Chunks(conn, chunks), budget), conn,
                    Flowed(chunks, link.cap, budget, Used(w.ledger, link.page)))
  {
    if chunks != [] {
      var init, bytes := chunks[..|chunks| - 1], chunks[|chunks| - 1];
      AConnectionIsARelay(w, conn, init, budget);
      assert Chunks(conn, chunks)[..|chunks| - 1] == Chunks(conn, init);
      var mid, link := After(w, Chunks(conn, init), budget), w.links[conn];
      ChunkIsRelayed(w, mid, conn, Flowed(init, link.cap, budget, Used(w.ledger, link.page)), bytes, budget);
    }
  }

  /** A new connection begins open while its page is within the budget, and closed when
      it is spent; what others have moved stays. */
  lemma AConnectionBegins(w: World, conn: Conn, page: Page, cap: nat, budget: nat)
    requires OnePerPage(w.ledger) && conn !in w.links
    ensures
      var w' := Next(w, Accept(conn, page, cap), budget);
      && w'.links == w.links[conn := Link(page, cap, 0, Used(w'.ledger, page) <= budget)]
      && w'.sent == w.sent && Listed(w'.ledger, page)
      && (Listed(w.ledger, page) ==> Used(w'.ledger, page) == Used(w.ledger, page))
      && (!Listed(w.ledger, page) ==> Used(w'.ledger, page) == 0)
  {
    var ready := Opened(w.ledger, page);
    if |w.ledger| > LEDGER_MAX && !Listed(w.ledger, page) {
      UsedSuffix(w.ledger, LEDGER_DROPPED, page);
    }
    if !Listed(ready, page) {
      UsedUnlisted(ready, page);
    }
    BookedUses(ready, page, 0, page);
  }

  /** A closed connection stays closed and forwards nothing. */
  lemma AClosedConnectionIsStill(w: World, conn: Conn, bytes: nat, budget: nat)
    requires conn in w.links
    ensures !w.links[conn].open ==> Next(w, Chunk(conn, bytes), budget) == w
    ensures Next(w, Close(conn), budget) == w.(links := w.links[conn := w.links[conn].(open := false)])
  {}

  /** Only a new page on a full ledger makes it forget, and then the 512 oldest pages;
      the rest keep their order and their totals. */
  lemma OpeningForgetsTheOldest(ledger: seq<Entry>, page: Page, other: Page)
    requires OnePerPage(ledger)
    ensures |ledger| <= 1024 || Listed(ledger, page) ==> Opened(ledger, page) == ledger
    ensures |ledger| > 1024 && !Listed(ledger, page) ==> ledger == ledger[..512] + Opened(ledger, page)
    ensures Listed(Opened(ledger, page), other) ==> Used(Opened(ledger, page), other) == Used(ledger, other)
  {
    if |ledger| > LEDGER_MAX && !Listed(ledger, page) {
      UsedSuffix(ledger, LEDGER_DROPPED, other);
    }
  }
}
