/** The round loop for one seat after another (backend/engine.py: _run_round_inner,
    persist_live, _judge_reply, _usage_so_far, _record_unposted): call, judge,
    retry, suppress, persist or fail, and a stop at any point where the
    generator is suspended. */
module RoundLoop {
  import opened Wrappers

  type Tool = int

  /** A usage block; `partial` when it came from the meter of a call cut short. */
  datatype Usage = Usage(tokens: nat, partial: bool)

  /** The call's meter: what the provider has reported so far. */
  datatype Meter = Meter(known: Option<nat>)

  datatype StreamEvent =
    | Text(text: string)
    | Tool(tool: Tool)
    | Metered(tokens: nat)  // the provider advances the meter
    | Report(tokens: nat)   // the usage event
    | Note                  // meta, audit, work status

  /** One provider call: what it streams, and whether it then errors or stalls. */
  datatype Call = Call(events: seq<StreamEvent>, fails: bool)

  datatype Live = Live(speaking: bool, content: string, tools: seq<Tool>, usage: Option<Usage>, meter: Option<Meter>)

  datatype Message = Message(content: string, tools: seq<Tool>, usage: Option<Usage>, cut: bool)

  datatype Why = CutOff | Empty | Passed | PassRetried | EchoDropped | EchoRetried

  datatype Unposted = Unposted(usage: Usage, why: Why)

  /** The pass and echo wording rules, left uninterpreted. */
  datatype Rules = Rules(
    isPass: string -> bool, isCutPass: string -> bool,
    strip: string -> string, stripPartial: string -> string, restates: string -> bool)

  /** A whole pass could have been cut anywhere; taking a token off leaves words. */
  ghost predicate Sensible(rules: Rules) {
    && (forall s :: rules.isPass(s) ==> rules.isCutPass(s))
    && !rules.isCutPass("")
    && (forall s :: rules.strip(s) == "" <==> s == "")
    && (forall s :: rules.stripPartial(s) == "" <==> s == "")
  }

  datatype Seat = Seat(first: bool, addressed: bool, question: bool, voice: bool, echoGuard: bool, repeatAsked: bool)

  predicate MayPass(seat: Seat) {
    !seat.addressed && !(seat.first && seat.question)
  }

  datatype Action = Accept | SuppressPass | RetryPass | LogEcho | SuppressEcho | RetryEcho

  function Judge(rules: Rules, seat: Seat, content: string, tools: seq<Tool>, passNote: bool, echoNote: bool): Action {
    if rules.isPass(content) && tools == [] then
      if passNote || echoNote || MayPass(seat) then SuppressPass else RetryPass
    else if seat.echoGuard && tools == [] && !seat.repeatAsked && rules.restates(rules.strip(content)) then
      if seat.voice then LogEcho
      else if echoNote || passNote then SuppressEcho
      else RetryEcho
    else Accept
  }

  // ---------- one call ----------

  function Opening(): Live {
    Live(true, "", [], None, Some(Meter(None)))
  }

  function Hear(live: Live, e: StreamEvent): Live {
    match e
    case Text(text) => live.(content := live.content + text)
    case Tool(tool) => live.(tools := live.tools + [tool])
    case Metered(tokens) => if live.meter.Some? then live.(meter := Some(Meter(Some(tokens)))) else live
    case Report(tokens) => live.(usage := Some(Usage(tokens, false)), meter := None)
    case Note => live
  }

  function Heard(events: seq<StreamEvent>): Live {
    if events == [] then Opening() else Hear(Heard(events[..|events| - 1]), events[|events| - 1])
  }

  function MeterUsage(live: Live): Option<Usage> {
    if live.meter.Some? && live.meter.value.known.Some? then Some(Usage(live.meter.value.known.value, true)) else None
  }

  /** What the call is known to have used. */
  function Known(live: Live): Option<Usage> {
    if live.usage.Some? then live.usage else MeterUsage(live)
  }

  /** A failed call's state while its error is being reported. */
  function Failing(live: Live): Live {
    if live.usage.Some? then live else live.(usage := MeterUsage(live), meter := None)
  }

  predicate Blank(live: Live) {
    live.content == "" && live.tools == []
  }

  /** The state a finished call is judged in. */
  function Finished(rules: Rules, call: Call): Live {
    var heard := Heard(call.events);
    if !call.fails then heard
    else
      var failing := Failing(heard);
      var l := if rules.isCutPass(failing.content) then failing.(content := "") else failing;
      if Blank(l) then l else l.(content := rules.stripPartial(l.content))
  }

  /** The words an accepted reply keeps. */
  function Kept(rules: Rules, live: Live): string {
    rules.strip(if live.tools != [] && rules.isPass(live.content) then "" else live.content)
  }

  datatype Outcome = Post(message: Message) | Drop(why: Why) | Again(why: Why)

  function Settle(rules: Rules, seat: Seat, call: Call, passNote: bool, echoNote: bool): Outcome {
    var l := Finished(rules, call);
    if Blank(l) then Drop(if call.fails then CutOff else Empty)
    else
      match Judge(rules, seat, l.content, l.tools, passNote, echoNote)
      case SuppressPass => Drop(Passed)
      case RetryPass => Again(PassRetried)
      case SuppressEcho => Drop(EchoDropped)
      case RetryEcho => Again(EchoRetried)
      case Accept => Post(Message(Kept(rules, l), l.tools, l.usage, false))
      case LogEcho => Post(Message(Kept(rules, l), l.tools, l.usage, false))
  }

  function Filed(usage: Option<Usage>, why: Why): seq<Unposted> {
    if usage.Some? then [Unposted(usage.value, why)] else []
  }

  /** The rows one finished call leaves. */
  function MessagesOf(o: Outcome): seq<Message> {
    if o.Post? then [o.message] else []
  }

  function UnpostedOf(rules: Rules, call: Call, o: Outcome): seq<Unposted> {
    if o.Post? then [] else Filed(Finished(rules, call).usage, o.why)
  }

  // ---------- one seat ----------

  function FirstTry(rules: Rules, seat: Seat, calls: nat -> Call): Outcome {
    Settle(rules, seat, calls(0), false, false)
  }

  function SecondTry(rules: Rules, seat: Seat, calls: nat -> Call): Outcome
    requires FirstTry(rules, seat, calls).Again?
  {
    var refusedPass := FirstTry(rules, seat, calls).why == PassRetried;
    Settle(rules, seat, calls(1), refusedPass, !refusedPass)
  }

  function CallsMade(rules: Rules, seat: Seat, calls: nat -> Call): nat {
    if FirstTry(rules, seat, calls).Again? then 2 else 1
  }

  function SeatMessages(rules: Rules, seat: Seat, calls: nat -> Call): seq<Message> {
    if FirstTry(rules, seat, calls).Again? then MessagesOf(SecondTry(rules, seat, calls))
    else MessagesOf(FirstTry(rules, seat, calls))
  }

  function SeatUnposted(rules: Rules, seat: Seat, calls: nat -> Call): seq<Unposted> {
    UnpostedOf(rules, calls(0), FirstTry(rules, seat, calls))
    + if FirstTry(rules, seat, calls).Again? then UnpostedOf(rules, calls(1), SecondTry(rules, seat, calls)) else []
  }

  // ---------- a stop ----------

  /** Is there something of a cut reply to save? */
  predicate Savable(rules: Rules, live: Live) {
    live.tools != [] || (live.content != "" && !rules.isCutPass(live.content))
  }

  function CutMessages(rules: Rules, live: Live): seq<Message> {
    if live.speaking && Savable(rules, live) then
      var content := if rules.isCutPass(live.content) then "" else live.content;
      [Message(rules.stripPartial(content), live.tools, Known(live), true)]
    else []
  }

  function CutUnposted(rules: Rules, live: Live): seq<Unposted> {
    if live.speaking && !Savable(rules, live) && live.usage.None? then Filed(MeterUsage(live), CutOff) else []
  }

  /** How far the worker thread that posts an accepted reply had come. Each read of
      `live` is a step of its own, and so is the insert. */
  datatype Phase = Checked | WordsRead | UsageRead | ToolsRead | Inserted

  /** Where a seat stood when the stop came: mid-call, or before the worker that
      records or posts its reply had looked at it; with a blank reply's record
      never started; after a record but before the state was cleared; in the
      middle of posting; or with the call settled. */
  datatype Moment =
    | Mid(at: Live)
    | Unrecorded(at: Live)
    | Recorded(at: Live, why: Why)
    | Posting(at: Live, phase: Phase)
    | Settled

  /** An accepted reply's state from its judgement to the end of its post. */
  function Accepted(rules: Rules, call: Call): Live {
    Finished(rules, call).(content := Kept(rules, Finished(rules, call)))
  }

  ghost predicate MomentOf(rules: Rules, seat: Seat, call: Call, passNote: bool, echoNote: bool, m: Moment) {
    var o := Settle(rules, seat, call, passNote, echoNote);
    match m
    case Mid(at) =>
      || (exists k | 0 <= k <= |call.events| :: at == Heard(call.events[..k]))
      || (call.fails && at == Failing(Heard(call.events)))
      || (!o.Post? && at == Finished(rules, call))
      || (o.Post? && at == Accepted(rules, call))
    case Unrecorded(at) => at == Finished(rules, call) && Blank(at)
    case Posting(at, _) => o.Post? && at == Accepted(rules, call)
    case Recorded(at, why) => at == Finished(rules, call) && !Blank(at) && !o.Post? && o.why == why
    case Settled => true
  }

  lemma {:induction false} HeardSpeaks(events: seq<StreamEvent>)
    ensures Heard(events).speaking
    ensures Heard(events).usage.Some? <==> Heard(events).meter.None?
  {
    if events != [] {
      HeardSpeaks(events[..|events| - 1]);
    }
  }

  function Try(rules: Rules, seat: Seat, calls: nat -> Call, n: nat): Outcome
    requires n == 0 || (n == 1 && FirstTry(rules, seat, calls).Again?)
  {
    if n == 0 then FirstTry(rules, seat, calls) else SecondTry(rules, seat, calls)
  }

  datatype Turn = Turn(seat: Seat, calls: nat -> Call)

  function RoundMessages(rules: Rules, turns: seq<Turn>): seq<Message> {
    if turns == [] then []
    else
      var last := turns[|turns| - 1];
      RoundMessages(rules, turns[..|turns| - 1]) + SeatMessages(rules, last.seat, last.calls)
  }

  function RoundUnposted(rules: Rules, turns: seq<Turn>): seq<Unposted> {
    if turns == [] then []
    else
      var last := turns[|turns| - 1];
      RoundUnposted(rules, turns[..|turns| - 1]) + SeatUnposted(rules, last.seat, last.calls)
  }

  predicate RefusedPass(rules: Rules, seat: Seat, calls: nat -> Call, n: nat) {
    n == 1 && FirstTry(rules, seat, calls).Again? && FirstTry(rules, seat, calls).why == PassRetried
  }

  function EarlierUnposted(rules: Rules, seat: Seat, calls: nat -> Call, n: nat): seq<Unposted> {
    if n == 0 then [] else UnpostedOf(rules, calls(0), FirstTry(rules, seat, calls))
  }

  ghost predicate SeatMoment(rules: Rules, seat: Seat, calls: nat -> Call, n: nat, m: Moment) {
    var refusedPass := RefusedPass(rules, seat, calls, n);
    MomentOf(rules, seat, calls(n), refusedPass, n == 1 && !refusedPass, m)
  }

  /** What the worker inserts when the stop handler, which clears `live`, gets in
      before its next step: the handler waits for nobody and the worker goes on. */
  function WorkersMessage(at: Live, phase: Phase): Message {
    Message(if phase.Checked? then "" else at.content,
            if phase.ToolsRead? || phase.Inserted? then at.tools else [],
            if phase.Checked? || phase.WordsRead? then None else at.usage, false)
  }

  /** What a stop at `m` leaves of the call it hit, beside what earlier calls left. */
  function StoppedMessages(rules: Rules, m: Moment, o: Outcome): seq<Message> {
    match m
    case Mid(at) => CutMessages(rules, at)
    case Unrecorded(_) => []
    case Recorded(at, _) => CutMessages(rules, at)
    case Posting(at, phase) =>
      if phase.Inserted? then [WorkersMessage(at, phase)] + CutMessages(rules, at)
      else CutMessages(rules, at) + [WorkersMessage(at, phase)]
    case Settled => MessagesOf(o)
  }

  function StoppedUnposted(rules: Rules, call: Call, m: Moment, o: Outcome): seq<Unposted> {
    match m
    case Mid(at) => CutUnposted(rules, at)
    case Unrecorded(_) => []
    case Posting(at, _) => CutUnposted(rules, at)
    case Recorded(at, why) => Filed(at.usage, why) + CutUnposted(rules, at)
    case Settled => UnpostedOf(rules, call, o)
  }

  /** What a stop in a turn's `made`th call leaves of that whole turn. */
  function CutTurnMessages(rules: Rules, turn: Turn, made: nat, m: Moment): seq<Message>
    requires 1 <= made <= CallsMade(rules, turn.seat, turn.calls)
  {
    StoppedMessages(rules, m, Try(rules, turn.seat, turn.calls, made - 1))
  }

  function CutTurnUnposted(rules: Rules, turn: Turn, made: nat, m: Moment): seq<Unposted>
    requires 1 <= made <= CallsMade(rules, turn.seat, turn.calls)
  {
    EarlierUnposted(rules, turn.seat, turn.calls, made - 1)
    + StoppedUnposted(rules, turn.calls(made - 1), m, Try(rules, turn.seat, turn.calls, made - 1))
  }

  /** The books of a turn whose last call was its `n`th, counting from 0. */
  lemma TurnEnds(rules: Rules, seat: Seat, calls: nat -> Call, n: nat, m: Moment, start: seq<Unposted>)
    requires n == 0 || (n == 1 && FirstTry(rules, seat, calls).Again?)
    ensures n + 1 <= CallsMade(rules, seat, calls)
    ensures start + EarlierUnposted(rules, seat, calls, n) + StoppedUnposted(rules, calls(n), m, Try(rules, seat, calls, n))
            == start + CutTurnUnposted(rules, Turn(seat, calls), n + 1, m)
    ensures !Try(rules, seat, calls, n).Again? ==>
              && n + 1 == CallsMade(rules, seat, calls)
              && MessagesOf(Try(rules, seat, calls, n)) == SeatMessages(rules, seat, calls)
              && start + EarlierUnposted(rules, seat, calls, n) + UnpostedOf(rules, calls(n), Try(rules, seat, calls, n))
                 == start + SeatUnposted(rules, seat, calls)
  {
  }

  /** One round's mutable state: the `live` record, the tables it writes, and how
      many suspensions remain before the stop (negative: no stop). */
  class Round {
    var live: Live
    var messages: seq<Message>
    var unposted: seq<Unposted>
    var fuse: int
    const rules: Rules

    constructor (rules: Rules, fuse: int)
      ensures messages == [] && unposted == [] && !live.speaking
      ensures this.rules == rules && this.fuse == fuse
    {
      this.rules, this.fuse := rules, fuse;
      live, messages, unposted := Opening().(speaking := false), [], [];
    }

    method UsageSoFar() returns (usage: Option<Usage>)
      modifies this`live
      ensures usage == MeterUsage(old(live)) && live == old(live).(meter := None)
    {
      var meter := live.meter;
      live := live.(meter := None);
      usage := if meter.Some? && meter.value.known.Some? then Some(Usage(meter.value.known.value, true)) else None;
    }

    method RecordUnposted(usage: Option<Usage>, why: Why)
      modifies this`unposted
      ensures unposted == old(unposted) + Filed(usage, why)
    {
      if usage.None? {
        return;
      }
      unposted := unposted + [Unposted(usage.value, why)];
    }

    /** persist_live(interrupted=True), as the stop handler runs it: in one stretch. */
    method PersistLive()
      requires Sensible(rules)
      modifies this`live, this`messages, this`unposted
      ensures messages == old(messages) + CutMessages(rules, old(live))
      ensures unposted == old(unposted) + CutUnposted(rules, old(live))
      ensures old(live).speaking && !Blank(old(live)) ==>
                !live.speaking && live.content == "" && live.tools == [] && live.usage.None?
    {
      var cutUsage: Option<Usage> := None;
      if live.speaking && live.usage.None? {
        cutUsage := UsageSoFar();
        live := live.(usage := cutUsage);
      }
      if !live.speaking || (live.content == "" && live.tools == []) {
        if cutUsage.Some? {
          RecordUnposted(cutUsage, CutOff);
        }
        return;
      }
      if rules.isCutPass(live.content) {
        if live.tools == [] {
          if cutUsage.Some? {
            RecordUnposted(cutUsage, CutOff);
          }
          live := live.(speaking := false, content := "", usage := None);
          return;
        }
        live := live.(content := "");
      }
      messages := messages + [Message(rules.stripPartial(live.content), live.tools, live.usage, true)];
      live := Live(false, "", [], None, None);
    }

    /** One point where the generator is suspended; the stop may come here. */
    method Suspend() returns (stop: bool)
      requires Sensible(rules)
      modifies this
      ensures stop <==> old(fuse) == 0
      ensures fuse == old(fuse) - 1
      ensures !stop ==> live == old(live) && messages == old(messages) && unposted == old(unposted)
      ensures stop ==> messages == old(messages) + CutMessages(rules, old(live))
                       && unposted == old(unposted) + CutUnposted(rules, old(live))
      ensures stop && old(live).speaking && !Blank(old(live)) ==>
                !live.speaking && live.content == "" && live.tools == [] && live.usage.None?
    {
      stop := fuse == 0;
      fuse := fuse - 1;
      if stop {
        PersistLive();
      }
    }

    /** persist_live on the worker thread, for an accepted reply. The stop handler
        may run between any two of its steps; the worker then goes on with what it
        has read, and reads the rest from the cleared `live`. */
    method PersistOnWorker() returns (stop: bool, ghost moment: Moment)
      requires Sensible(rules) && live.speaking && !Blank(live)
      modifies this
      ensures !stop ==> messages == old(messages) + [Message(old(live).content, old(live).tools, old(live).usage, false)]
                        && unposted == old(unposted) && !live.speaking
      ensures stop ==> (moment == Mid(old(live)) || (moment.Posting? && moment.at == old(live)) || moment.Settled?)
      ensures stop ==>
                var o := Post(Message(old(live).content, old(live).tools, old(live).usage, false));
                && messages == old(messages) + StoppedMessages(rules, moment, o)
                && unposted == old(unposted) + if moment.Settled? then [] else CutUnposted(rules, old(live))
      ensures old(fuse) < 0 ==> !stop && fuse < 0
    {
      moment := Mid(live);
      stop := Suspend();
      if stop {
        return;
      }
      ghost var at := live;
      stop, moment := StepOfWorker(Checked);
      var content := live.content;
      if !stop {
        stop, moment := StepOfWorker(WordsRead);
      }
      var usage := live.usage;
      if !stop {
        stop, moment := StepOfWorker(UsageRead);
      }
      var tools := live.tools;
      if !stop {
        stop, moment := StepOfWorker(ToolsRead);
      }
      messages := messages + [Message(content, tools, usage, false)];
      if stop {
        assert Message(content, tools, usage, false) == WorkersMessage(at, moment.phase);
        return;
      }
      stop, moment := StepOfWorker(Inserted);
      if stop {
        return;
      }
      live := Live(false, "", [], None, None);
      moment := Settled;
      stop := Suspend();
    }

    /** The stop may come between two steps of the worker. */
    method StepOfWorker(phase: Phase) returns (stop: bool, ghost moment: Moment)
      requires Sensible(rules) && live.speaking && !Blank(live)
      modifies this
      ensures moment == Posting(old(live), phase)
      ensures !stop ==> live == old(live) && messages == old(messages) && unposted == old(unposted)
      ensures stop ==> messages == old(messages) + CutMessages(rules, old(live))
                       && unposted == old(unposted) + CutUnposted(rules, old(live))
                       && live.content == "" && live.tools == [] && live.usage.None?
      ensures old(fuse) < 0 ==> !stop && fuse < 0
    {
      moment := Posting(live, phase);
      stop := Suspend();
    }

    /** Everything one call streams. */
    method Listen(call: Call) returns (stop: bool, ghost at: Live)
      requires Sensible(rules) && live == Opening()
      modifies this
      ensures !stop ==> live == Heard(call.events) && messages == old(messages) && unposted == old(unposted)
      ensures stop ==> messages == old(messages) + CutMessages(rules, at)
                       && unposted == old(unposted) + CutUnposted(rules, at)
      ensures stop ==> exists k | 0 <= k <= |call.events| :: at == Heard(call.events[..k])
      ensures old(fuse) < 0 ==> !stop && fuse < 0
    {
      var i := 0;
      while true
        invariant 0 <= i <= |call.events| && live == Heard(call.events[..i])
        invariant messages == old(messages) && unposted == old(unposted)
        invariant old(fuse) < 0 ==> fuse < 0
        decreases |call.events| - i
      {
        at := live;
        stop := Suspend();
        if stop {
          return;
        }
        if i == |call.events| {
          assert call.events[..i] == call.events;
          return;
        }
        live := Hear(live, call.events[i]);
        assert call.events[..i + 1][..i] == call.events[..i];
        i := i + 1;
      }
    }

    /** The end of a failed call, up to the point where its reply is judged. */
    method Fail(call: Call) returns (stop: bool, ghost at: Live)
      requires Sensible(rules) && call.fails && live == Heard(call.events)
      modifies this
      ensures !stop ==> messages == old(messages) && unposted == old(unposted)
      ensures !stop ==> var done := Finished(rules, call); live == if Blank(done) then done.(speaking := false) else done
      ensures stop ==> at == Failing(Heard(call.events)) && messages == old(messages) + CutMessages(rules, at)
                       && unposted == old(unposted) + CutUnposted(rules, at)
      ensures old(fuse) < 0 ==> !stop && fuse < 0
    {
      if live.usage.None? {
        var usage := UsageSoFar();
        live := live.(usage := usage);
      }
      at := live;
      stop := Suspend();
      if stop {
        return;
      }
      if rules.isCutPass(live.content) {
        live := live.(content := "");
      }
      if live.content == "" && live.tools == [] {
        live := live.(speaking := false);
      } else {
        live := live.(content := rules.stripPartial(live.content));
      }
    }

    /** A finished reply that has words or tools: judge it, then post, drop or retry. */
    method Deliver(seat: Seat, call: Call, passNote: bool, echoNote: bool)
      returns (again: bool, why: Why, stop: bool, ghost moment: Moment)
      requires Sensible(rules)
      requires live == Finished(rules, call) && live.speaking && !Blank(live)
      modifies this
      ensures var o := Settle(rules, seat, call, passNote, echoNote);
              if stop then
                && messages == old(messages) + StoppedMessages(rules, moment, o)
                && unposted == old(unposted) + StoppedUnposted(rules, call, moment, o)
                && MomentOf(rules, seat, call, passNote, echoNote, moment)
              else
                && messages == old(messages) + MessagesOf(o)
                && unposted == old(unposted) + UnpostedOf(rules, call, o)
                && again == o.Again?
                && (again ==> why == o.why)
                && (!again ==> !live.speaking)
      ensures old(fuse) < 0 ==> !stop && fuse < 0
    {
      again, why, stop, moment := false, Passed, false, Settled;
      var action := Judge(rules, seat, live.content, live.tools, passNote, echoNote);
      if action == Accept || action == LogEcho {
        if live.tools != [] && rules.isPass(live.content) {
          live := live.(content := "");
        }
        live := live.(content := rules.strip(live.content));
        stop, moment := PersistOnWorker();
        return;
      }
      why := match action
        case SuppressPass => Passed
        case RetryPass => PassRetried
        case SuppressEcho => EchoDropped
        case _ => EchoRetried;
      ghost var at := live;
      stop := Suspend();
      if stop {
        moment := Mid(at);
        return;
      }
      RecordUnposted(live.usage, why);
      stop := Suspend();
      if stop {
        moment := Recorded(at, why);
        return;
      }
      live := live.(usage := None);
      again := action == RetryPass || action == RetryEcho;
      if !again {
        live := live.(speaking := false, content := "");
      }
    }

    /** One pass through the guard loop: one provider call and what comes of it. */
    method Attempt(seat: Seat, call: Call, passNote: bool, echoNote: bool)
      returns (again: bool, why: Why, stop: bool, ghost moment: Moment)
      requires Sensible(rules)
      modifies this
      ensures var o := Settle(rules, seat, call, passNote, echoNote);
              if stop then
                && messages == old(messages) + StoppedMessages(rules, moment, o)
                && unposted == old(unposted) + StoppedUnposted(rules, call, moment, o)
                && MomentOf(rules, seat, call, passNote, echoNote, moment)
              else
                && messages == old(messages) + MessagesOf(o)
                && unposted == old(unposted) + UnpostedOf(rules, call, o)
                && again == o.Again?
                && (again ==> why == o.why)
                && (!again ==> !live.speaking)
      ensures old(fuse) < 0 ==> !stop && fuse < 0
    {
      again, why, moment := false, Passed, Settled;
      live := Opening();
      ghost var at: Live;
      stop, at := Listen(call);
      if stop {
        moment := Mid(at);
        return;
      }
      HeardSpeaks(call.events);
      if call.fails {
        stop, at := Fail(call);
      } else if live.content == "" && live.tools == [] {
        at := live;
        stop := Suspend();
        live := live.(speaking := false);
      }
      if stop {
        moment := Mid(at);
        return;
      }
      if !live.speaking {
        stop := Suspend();
        if stop {
          moment := Unrecorded(Finished(rules, call));
          return;
        }
        RecordUnposted(live.usage, if call.fails then CutOff else Empty);
        stop := Suspend();
        live := live.(usage := None);
        return;
      }
      again, why, stop, moment := Deliver(seat, call, passNote, echoNote);
    }

    /** One seat's turn: its call, the guards, and at most one retry. */
    method RunSeat(seat: Seat, calls: nat -> Call) returns (made: nat, stop: bool, ghost moment: Moment)
      requires Sensible(rules)
      modifies this
      ensures !stop ==>
                && made == CallsMade(rules, seat, calls) && !live.speaking
                && messages == old(messages) + SeatMessages(rules, seat, calls)
                && unposted == old(unposted) + SeatUnposted(rules, seat, calls)
      ensures stop ==>
                && 1 <= made <= CallsMade(rules, seat, calls)
                && SeatMoment(rules, seat, calls, made - 1, moment)
                && messages == old(messages) + CutTurnMessages(rules, Turn(seat, calls), made, moment)
                && unposted == old(unposted) + CutTurnUnposted(rules, Turn(seat, calls), made, moment)
      ensures old(fuse) < 0 ==> !stop && fuse < 0
    {
      var passNote, echoNote := false, false;
      made := 0;
      while true
        invariant 0 <= made <= 1 && passNote == RefusedPass(rules, seat, calls, made)
        invariant echoNote == (made == 1 && !passNote)
        invariant made == 1 ==> FirstTry(rules, seat, calls).Again?
        invariant old(fuse) < 0 ==> fuse < 0
        invariant messages == old(messages) && unposted == old(unposted) + EarlierUnposted(rules, seat, calls, made)
        decreases 1 - made
      {
        var again, why;
        assert Settle(rules, seat, calls(made), passNote, echoNote) == Try(rules, seat, calls, made);
        again, why, stop, moment := Attempt(seat, calls(made), passNote, echoNote);
        TurnEnds(rules, seat, calls, made, moment, old(unposted));
        made := made + 1;
        if stop || !again {
          return;
        }
        if why == PassRetried {
          passNote := true;
        } else {
          echoNote := true;
        }
      }
    }

    /** The round: every responder in turn, until they are through or a stop comes. */
    method RunRound(turns: seq<Turn>) returns (done: nat, made: nat, stop: bool, ghost moment: Moment)
      requires Sensible(rules) && !live.speaking
      modifies this
      ensures !stop ==> messages == old(messages) + RoundMessages(rules, turns)
                        && unposted == old(unposted) + RoundUnposted(rules, turns)
      ensures stop ==>
                && done < |turns| && 1 <= made <= CallsMade(rules, turns[done].seat, turns[done].calls)
                && SeatMoment(rules, turns[done].seat, turns[done].calls, made - 1, moment)
                && messages == old(messages) + RoundMessages(rules, turns[..done]) + CutTurnMessages(rules, turns[done], made, moment)
                && unposted == old(unposted) + RoundUnposted(rules, turns[..done]) + CutTurnUnposted(rules, turns[done], made, moment)
      ensures old(fuse) < 0 ==> !stop
    {
      done, made, stop, moment := 0, 0, false, Settled;
      while done < |turns|
        invariant 0 <= done <= |turns| && !live.speaking && !stop
        invariant old(fuse) < 0 ==> fuse < 0
        invariant messages == old(messages) + RoundMessages(rules, turns[..done])
        invariant unposted == old(unposted) + RoundUnposted(rules, turns[..done])
      {
        RoundNext(rules, turns, done, old(messages), old(unposted));
        made, stop, moment := RunSeat(turns[done].seat, turns[done].calls);
        if stop {
          return;
        }
        done := done + 1;
      }
      assert turns[..|turns|] == turns;
    }
  }

  lemma RoundNext(rules: Rules, turns: seq<Turn>, k: nat, messages: seq<Message>, unposted: seq<Unposted>)
    requires k < |turns|
    ensures messages + RoundMessages(rules, turns[..k + 1])
            == messages + RoundMessages(rules, turns[..k]) + SeatMessages(rules, turns[k].seat, turns[k].calls)
    ensures unposted + RoundUnposted(rules, turns[..k + 1])
            == unposted + RoundUnposted(rules, turns[..k]) + SeatUnposted(rules, turns[k].seat, turns[k].calls)
  {
    assert turns[..k + 1][..k] == turns[..k] && turns[..k + 1][k] == turns[k];
    RegroupMessages(messages, RoundMessages(rules, turns[..k]), SeatMessages(rules, turns[k].seat, turns[k].calls));
    RegroupUnposted(unposted, RoundUnposted(rules, turns[..k]), SeatUnposted(rules, turns[k].seat, turns[k].calls));
  }

  // ---------- where every call's usage lands ----------

  /** What a call owes, from its stream alone: its last usage event, or, when it
      failed before one, what the meter last read. */
  function LastReport(events: seq<StreamEvent>): Option<nat> {
    if events == [] then None
    else if events[|events| - 1].Report? then Some(events[|events| - 1].tokens)
    else LastReport(events[..|events| - 1])
  }

  function LastReading(events: seq<StreamEvent>): Option<nat> {
    if events == [] then None
    else if events[|events| - 1].Metered? then Some(events[|events| - 1].tokens)
    else LastReading(events[..|events| - 1])
  }

  function OwedFrom(events: seq<StreamEvent>, cutShort: bool): Option<Usage> {
    if LastReport(events).Some? then Some(Usage(LastReport(events).value, false))
    else if cutShort && LastReading(events).Some? then Some(Usage(LastReading(events).value, true))
    else None
  }

  function Owed(call: Call): Option<Usage> {
    OwedFrom(call.events, call.fails)
  }

  /** How often the block `u` is there. */
  function Times(usage: Option<Usage>, u: Usage): nat {
    if usage == Some(u) then 1 else 0
  }

  function OnMessages(messages: seq<Message>, u: Usage): nat {
    if messages == [] then 0
    else OnMessages(messages[..|messages| - 1], u) + Times(messages[|messages| - 1].usage, u)
  }

  function InLedger(unposted: seq<Unposted>, u: Usage): nat {
    if unposted == [] then 0
    else InLedger(unposted[..|unposted| - 1], u) + Times(Some(unposted[|unposted| - 1].usage), u)
  }

  function Booked(messages: seq<Message>, unposted: seq<Unposted>, u: Usage): nat {
    OnMessages(messages, u) + InLedger(unposted, u)
  }

  lemma {:induction false} OnMessagesConcat(a: seq<Message>, b: seq<Message>, u: Usage)
    ensures OnMessages(a + b, u) == OnMessages(a, u) + OnMessages(b, u)
  {
    if b == [] {
      assert a + b == a;
    } else {
      OnMessagesConcat(a, b[..|b| - 1], u);
      assert (a + b)[..|a + b| - 1] == a + b[..|b| - 1];
    }
  }

  lemma {:induction false} InLedgerConcat(a: seq<Unposted>, b: seq<Unposted>, u: Usage)
    ensures InLedger(a + b, u) == InLedger(a, u) + InLedger(b, u)
  {
    if b == [] {
      assert a + b == a;
    } else {
      InLedgerConcat(a, b[..|b| - 1], u);
      assert (a + b)[..|a + b| - 1] == a + b[..|b| - 1];
    }
  }

  lemma {:induction false} HeardKnows(events: seq<StreamEvent>)
    ensures Heard(events).usage == OwedFrom(events, false)
    ensures LastReport(events).None? ==> Heard(events).meter == Some(Meter(LastReading(events)))
    ensures Known(Heard(events)) == OwedFrom(events, true)
  {
    if events != [] {
      HeardKnows(events[..|events| - 1]);
    }
  }

  lemma FinishedOwes(rules: Rules, call: Call)
    ensures Finished(rules, call).usage == Owed(call)
    ensures Finished(rules, call).speaking
  {
    HeardKnows(call.events);
    HeardSpeaks(call.events);
  }

  lemma OneRow(m: Message, usage: Option<Usage>, why: Why, u: Usage)
    ensures OnMessages([m], u) == Times(m.usage, u)
    ensures InLedger(Filed(usage, why), u) == Times(usage, u)
  {
    assert OnMessages([], u) == 0 && InLedger([], u) == 0;
    assert [m][..0] == [];
    if usage.Some? {
      assert Filed(usage, why)[..0] == [];
    }
  }

  lemma OutcomeConserves(rules: Rules, seat: Seat, call: Call, passNote: bool, echoNote: bool, u: Usage)
    ensures var o := Settle(rules, seat, call, passNote, echoNote);
            Booked(MessagesOf(o), UnpostedOf(rules, call, o), u) == Times(Owed(call), u)
  {
    FinishedOwes(rules, call);
    var o := Settle(rules, seat, call, passNote, echoNote);
    var l := Finished(rules, call);
    OneRow(Message(Kept(rules, l), l.tools, l.usage, false), l.usage, if o.Post? then Empty else o.why, u);
  }

  function SeatOwed(rules: Rules, seat: Seat, calls: nat -> Call, u: Usage): nat {
    Times(Owed(calls(0)), u) + if CallsMade(rules, seat, calls) == 2 then Times(Owed(calls(1)), u) else 0
  }

  function RoundOwed(rules: Rules, turns: seq<Turn>, u: Usage): nat {
    if turns == [] then 0
    else
      var last := turns[|turns| - 1];
      RoundOwed(rules, turns[..|turns| - 1], u) + SeatOwed(rules, last.seat, last.calls, u)
  }

  /** A seat's calls are each recorded once, on its message or in the ledger. */
  lemma SeatConserves(rules: Rules, seat: Seat, calls: nat -> Call, u: Usage)
    ensures Booked(SeatMessages(rules, seat, calls), SeatUnposted(rules, seat, calls), u)
            == SeatOwed(rules, seat, calls, u)
  {
    OutcomeConserves(rules, seat, calls(0), false, false, u);
    var first := UnpostedOf(rules, calls(0), FirstTry(rules, seat, calls));
    if FirstTry(rules, seat, calls).Again? {
      var refusedPass := FirstTry(rules, seat, calls).why == PassRetried;
      OutcomeConserves(rules, seat, calls(1), refusedPass, !refusedPass, u);
      InLedgerConcat(first, UnpostedOf(rules, calls(1), SecondTry(rules, seat, calls)), u);
    } else {
      assert first + [] == first;
    }
  }

  /** Over a whole round, through accept, pass, refused pass, echo, empty and error,
      every block a call owes is booked exactly as often as it is owed. */
  lemma {:induction false} RoundConserves(rules: Rules, turns: seq<Turn>, u: Usage)
    ensures Booked(RoundMessages(rules, turns), RoundUnposted(rules, turns), u) == RoundOwed(rules, turns, u)
  {
    if turns != [] {
      var init, last := turns[..|turns| - 1], turns[|turns| - 1];
      RoundConserves(rules, init, u);
      SeatConserves(rules, last.seat, last.calls, u);
      OnMessagesConcat(RoundMessages(rules, init), SeatMessages(rules, last.seat, last.calls), u);
      InLedgerConcat(RoundUnposted(rules, init), SeatUnposted(rules, last.seat, last.calls), u);
    }
  }

  // ---------- what a stop records ----------

  /** The stopped call's share of the books. */
  function StopBooked(rules: Rules, call: Call, m: Moment, o: Outcome, u: Usage): nat {
    Booked(StoppedMessages(rules, m, o), StoppedUnposted(rules, call, m, o), u)
  }

  /** A blank reply that has ended owes what it reported; a call still going owes
      what is known so far. */
  function OwedAtStop(call: Call, m: Moment): Option<Usage> {
    if m.Settled? || m.Unrecorded? then Owed(call) else Known(m.at)
  }

  ghost predicate RecordedOnce(rules: Rules, call: Call, m: Moment, o: Outcome) {
    forall u :: StopBooked(rules, call, m, o, u) == Times(OwedAtStop(call, m), u)
  }

  /** Has a worker already taken the usage, to record it or to post it? */
  predicate UsageTaken(m: Moment) {
    m.Recorded? || (m.Posting? && !m.phase.Checked? && !m.phase.WordsRead?)
  }

  /** The call's usage is on the record, reported or taken from the meter when the
      call failed, and the stop finds nothing to save before a worker took it, or
      something to save after; or it was a blank reply whose record never started. */
  predicate Miscounts(rules: Rules, m: Moment) {
    !m.Settled? && m.at.usage.Some? && (m.Unrecorded? || UsageTaken(m) == Savable(rules, m.at))
  }

  lemma MomentSpeaks(rules: Rules, seat: Seat, call: Call, passNote: bool, echoNote: bool, m: Moment)
    requires MomentOf(rules, seat, call, passNote, echoNote, m) && !m.Settled?
    ensures m.at.speaking
  {
    FinishedOwes(rules, call);
    HeardSpeaks(call.events);
    forall k | 0 <= k <= |call.events| ensures Heard(call.events[..k]).speaking {
      HeardSpeaks(call.events[..k]);
    }
  }

  /** What the stop handler books. */
  lemma HandlerBooks(rules: Rules, at: Live, u: Usage)
    requires at.speaking
    ensures OnMessages(CutMessages(rules, at), u) + InLedger(CutUnposted(rules, at), u)
            == if at.usage.None? || Savable(rules, at) then Times(Known(at), u) else 0
  {
    OneRow(Message(rules.stripPartial(if rules.isCutPass(at.content) then "" else at.content),
                   at.tools, Known(at), true), MeterUsage(at), CutOff, u);
  }

  lemma StopBooks(rules: Rules, call: Call, m: Moment, o: Outcome, u: Usage)
    requires !m.Settled? && !m.Unrecorded? && m.at.speaking
    ensures StopBooked(rules, call, m, o, u)
            == (if m.at.usage.None? || Savable(rules, m.at) then Times(Known(m.at), u) else 0)
               + (if UsageTaken(m) then Times(m.at.usage, u) else 0)
  {
    HandlerBooks(rules, m.at, u);
    if m.Recorded? {
      OneRow(Message("", [], None, false), m.at.usage, m.why, u);
      InLedgerConcat(Filed(m.at.usage, m.why), CutUnposted(rules, m.at), u);
    } else if m.Posting? {
      OneRow(WorkersMessage(m.at, m.phase), None, Empty, u);
      OnMessagesConcat([WorkersMessage(m.at, m.phase)], CutMessages(rules, m.at), u);
      OnMessagesConcat(CutMessages(rules, m.at), [WorkersMessage(m.at, m.phase)], u);
    }
  }

  /** A stop records the call's known usage exactly once, unless it miscounts: then
      it is lost (before a worker took it, or with the record never started) or
      counted twice (after). */
  lemma StopRecordsOnceExactly(rules: Rules, seat: Seat, call: Call, passNote: bool, echoNote: bool, m: Moment)
    requires MomentOf(rules, seat, call, passNote, echoNote, m)
    ensures var o := Settle(rules, seat, call, passNote, echoNote);
            && (RecordedOnce(rules, call, m, o) <==> !Miscounts(rules, m))
            && (Miscounts(rules, m) ==>
                  StopBooked(rules, call, m, o, m.at.usage.value) == if UsageTaken(m) then 2 else 0)
  {
    var o := Settle(rules, seat, call, passNote, echoNote);
    if m.Settled? {
      forall u ensures StopBooked(rules, call, m, o, u) == Times(OwedAtStop(call, m), u) {
        OutcomeConserves(rules, seat, call, passNote, echoNote, u);
      }
    } else if m.Unrecorded? {
      FinishedOwes(rules, call);
      NothingBooked(rules, call, m, o);
    } else {
      MomentSpeaks(rules, seat, call, passNote, echoNote, m);
      if Miscounts(rules, m) {
        StopBooks(rules, call, m, o, m.at.usage.value);
      } else {
        forall u ensures StopBooked(rules, call, m, o, u) == Times(OwedAtStop(call, m), u) {
          StopBooks(rules, call, m, o, u);
        }
      }
    }
  }

  /** A blank reply whose record never started leaves nothing. */
  lemma NothingBooked(rules: Rules, call: Call, m: Moment, o: Outcome)
    requires m.Unrecorded?
    ensures forall u :: StopBooked(rules, call, m, o, u) == 0
    ensures RecordedOnce(rules, call, m, o) <==> OwedAtStop(call, m).None?
  {
    forall u ensures StopBooked(rules, call, m, o, u) == 0 {
      assert OnMessages([], u) == 0 && InLedger([], u) == 0;
    }
    if OwedAtStop(call, m).Some? {
      assert StopBooked(rules, call, m, o, OwedAtStop(call, m).value) == 0;
    }
  }

  /** While the call has not reported, a stop always records it once, from the meter. */
  lemma StopWhileStreamingRecordsTheMeter(rules: Rules, seat: Seat, call: Call, passNote: bool, echoNote: bool,
                                          k: nat, u: Usage)
    requires k <= |call.events| && LastReport(call.events[..k]).None?
    ensures var m := Mid(Heard(call.events[..k]));
            && MomentOf(rules, seat, call, passNote, echoNote, m)
            && StopBooked(rules, call, m, Settle(rules, seat, call, passNote, echoNote), u)
               == if LastReading(call.events[..k]) == Some(u.tokens) && u.partial then 1 else 0
  {
    var m := Mid(Heard(call.events[..k]));
    HeardKnows(call.events[..k]);
    HeardSpeaks(call.events[..k]);
    StopBooks(rules, call, m, Settle(rules, seat, call, passNote, echoNote), u);
  }

  /** After a pass is recorded a stop adds nothing; only an echo can be counted twice. */
  lemma ARecordedPassIsNeverCountedTwice(rules: Rules, seat: Seat, call: Call, passNote: bool, echoNote: bool,
                                         m: Moment)
    requires Sensible(rules) && MomentOf(rules, seat, call, passNote, echoNote, m)
    requires m.Recorded? && (m.why == Passed || m.why == PassRetried)
    ensures !Miscounts(rules, m)
  {
    assert rules.isPass(m.at.content);
  }

  // ---------- the guards ----------

  /** The second call always ends the turn, and a pass on it stands. */
  lemma TheSecondTryStands(rules: Rules, seat: Seat, calls: nat -> Call)
    requires FirstTry(rules, seat, calls).Again?
    ensures !SecondTry(rules, seat, calls).Again?
    ensures var l := Finished(rules, calls(1));
            l.tools == [] && l.content != "" && rules.isPass(l.content)
            ==> SeatMessages(rules, seat, calls) == [] && SecondTry(rules, seat, calls) == Drop(Passed)
  {}

  /** A seat is asked twice only when its first reply was a pass it may not make, or
      a restatement in a typed chat. */
  lemma RetriesAreEarned(rules: Rules, seat: Seat, calls: nat -> Call)
    ensures CallsMade(rules, seat, calls) <= 2
    ensures var l := Finished(rules, calls(0));
            CallsMade(rules, seat, calls) == 2 <==>
              && l.tools == [] && l.content != ""
              && if rules.isPass(l.content) then seat.addressed || (seat.first && seat.question)
                 else seat.echoGuard && !seat.repeatAsked && !seat.voice && rules.restates(rules.strip(l.content))
  {}

  /** What a seat posts is never blank and never a bare pass. */
  lemma PostsSaySomething(rules: Rules, seat: Seat, calls: nat -> Call, m: Message)
    requires Sensible(rules) && m in SeatMessages(rules, seat, calls)
    ensures !m.cut && (m.content != "" || m.tools != [])
    ensures var l := Finished(rules, calls(CallsMade(rules, seat, calls) - 1));
            m.tools == [] ==> m.content == rules.strip(l.content) && !rules.isPass(l.content)
  {}

  /** The words and the tools of a stream, in order. */
  function TextIn(events: seq<StreamEvent>): string {
    if events == [] then ""
    else
      var before, e := TextIn(events[..|events| - 1]), events[|events| - 1];
      if e.Text? then before + e.text else before
  }

  function ToolsIn(events: seq<StreamEvent>): seq<Tool> {
    if events == [] then []
    else
      var before, e := ToolsIn(events[..|events| - 1]), events[|events| - 1];
      if e.Tool? then before + [e.tool] else before
  }

  lemma {:induction false} HeardInOrder(events: seq<StreamEvent>)
    ensures Heard(events).content == TextIn(events) && Heard(events).tools == ToolsIn(events)
  {
    if events != [] {
      HeardInOrder(events[..|events| - 1]);
    }
  }

  lemma {:induction false} PostOfCall(rules: Rules, seat: Seat, call: Call, passNote: bool, echoNote: bool, m: Message)
    requires Settle(rules, seat, call, passNote, echoNote) == Post(m)
    ensures m.tools == ToolsIn(call.events) && m.usage == Owed(call)
    ensures !call.fails ==>
              m.content == rules.strip(if m.tools != [] && rules.isPass(TextIn(call.events)) then ""
                                       else TextIn(call.events))
  {
    HeardInOrder(call.events);
    FinishedOwes(rules, call);
  }

  /** A posted message carries its call's own tools, words and usage: every tool
      that ran, in order; the words with a trailing token taken off, or none when
      the words with the tools were only a pass; and what the call owes. */
  lemma {:induction false} PostsWhatWasHeard(rules: Rules, seat: Seat, calls: nat -> Call, m: Message)
    requires m in SeatMessages(rules, seat, calls)
    ensures var call := calls(CallsMade(rules, seat, calls) - 1);
            && m.tools == ToolsIn(call.events) && m.usage == Owed(call)
            && (!call.fails ==>
                  m.content == rules.strip(if m.tools != [] && rules.isPass(TextIn(call.events)) then ""
                                           else TextIn(call.events)))
  {
    if FirstTry(rules, seat, calls).Again? {
      var refusedPass := FirstTry(rules, seat, calls).why == PassRetried;
      assert SecondTry(rules, seat, calls) == Post(m);
      PostOfCall(rules, seat, calls(1), refusedPass, !refusedPass, m);
    } else {
      PostOfCall(rules, seat, calls(0), false, false, m);
    }
  }

  // ---------- what a seat's turn comes to, from its calls' streams alone ----------

  /** The words a finished call is judged by. A failed call's lose a half-written
      token, and all of them when they could have become a pass. */
  function Words(rules: Rules, call: Call): string {
    var text := TextIn(call.events);
    if !call.fails then text else rules.stripPartial(if rules.isCutPass(text) then "" else text)
  }

  /** A reply without tools that says over what was said before. */
  predicate Restates(rules: Rules, seat: Seat, call: Call) {
    seat.echoGuard && !seat.repeatAsked && ToolsIn(call.events) == [] && rules.restates(rules.strip(Words(rules, call)))
  }

  predicate SaysNothing(rules: Rules, call: Call) {
    Words(rules, call) == "" && ToolsIn(call.events) == []
  }

  predicate OnlyPasses(rules: Rules, call: Call) {
    ToolsIn(call.events) == [] && rules.isPass(Words(rules, call))
  }

  lemma FinishedSays(rules: Rules, call: Call)
    requires Sensible(rules)
    ensures Finished(rules, call).content == Words(rules, call)
    ensures Finished(rules, call).tools == ToolsIn(call.events)
  {
    HeardInOrder(call.events);
  }

  /** A seat is asked again exactly when its first reply is a pass it may not make, or
      a restatement in a typed chat. */
  predicate AskedAgain(rules: Rules, seat: Seat, call: Call) {
    && !SaysNothing(rules, call)
    && if OnlyPasses(rules, call) then seat.addressed || (seat.first && seat.question)
       else Restates(rules, seat, call) && !seat.voice
  }

  lemma AskedAgainExactly(rules: Rules, seat: Seat, calls: nat -> Call)
    requires Sensible(rules)
    ensures CallsMade(rules, seat, calls) == if AskedAgain(rules, seat, calls(0)) then 2 else 1
  {
    FinishedSays(rules, calls(0));
  }

  /** Is the reply a turn ends on posted? It says something; with no tools it is no
      pass, and in a typed chat a second reply is no restatement. */
  predicate Posted(rules: Rules, seat: Seat, call: Call, second: bool) {
    && !SaysNothing(rules, call) && !OnlyPasses(rules, call)
    && !(second && !seat.voice && Restates(rules, seat, call))
  }

  /** What becomes of the reply a seat's turn ends on. */
  lemma AReplyIsPostedExactly(rules: Rules, seat: Seat, calls: nat -> Call)
    requires Sensible(rules)
    ensures
      var again := AskedAgain(rules, seat, calls(0));
      var call := if again then calls(1) else calls(0);
      var words, tools := Words(rules, call), ToolsIn(call.events);
      SeatMessages(rules, seat, calls)
      == if Posted(rules, seat, call, again) then
           [Message(rules.strip(if tools != [] && rules.isPass(words) then "" else words), tools, Owed(call), false)]
         else []
  {
    AskedAgainExactly(rules, seat, calls);
    FinishedSays(rules, calls(0));
    FinishedSays(rules, calls(1));
    FinishedOwes(rules, calls(0));
    FinishedOwes(rules, calls(1));
  }

  /** How a reply that is not posted is filed. */
  function DroppedAs(rules: Rules, call: Call): Why {
    if SaysNothing(rules, call) then if call.fails then CutOff else Empty
    else if OnlyPasses(rules, call) then Passed
    else EchoDropped
  }

  /** Where the usage of a turn's unposted replies goes: a refused one by why it was
      refused, the last by why it was dropped. */
  lemma UnpostedRepliesAreFiled(rules: Rules, seat: Seat, calls: nat -> Call)
    requires Sensible(rules)
    ensures
      var again := AskedAgain(rules, seat, calls(0));
      var call := if again then calls(1) else calls(0);
      SeatUnposted(rules, seat, calls)
      == (if again then Filed(Owed(calls(0)), if OnlyPasses(rules, calls(0)) then PassRetried else EchoRetried) else [])
         + (if Posted(rules, seat, call, again) then [] else Filed(Owed(call), DroppedAs(rules, call)))
  {
    AskedAgainExactly(rules, seat, calls);
    FinishedSays(rules, calls(0));
    FinishedSays(rules, calls(1));
    FinishedOwes(rules, calls(0));
    FinishedOwes(rules, calls(1));
  }

  lemma {:induction false} MessagesInTurn(rules: Rules, a: seq<Turn>, b: seq<Turn>)
    ensures RoundMessages(rules, a + b) == RoundMessages(rules, a) + RoundMessages(rules, b)
  {
    if b == [] {
      assert a + b == a;
    } else {
      var init, last := b[..|b| - 1], b[|b| - 1];
      assert (a + b)[..|a + b| - 1] == a + init && (a + b)[|a + b| - 1] == last;
      MessagesInTurn(rules, a, init);
      RegroupMessages(RoundMessages(rules, a), RoundMessages(rules, init), SeatMessages(rules, last.seat, last.calls));
    }
  }

  lemma {:induction false} UnpostedInTurn(rules: Rules, a: seq<Turn>, b: seq<Turn>)
    ensures RoundUnposted(rules, a + b) == RoundUnposted(rules, a) + RoundUnposted(rules, b)
  {
    if b == [] {
      assert a + b == a;
    } else {
      var init, last := b[..|b| - 1], b[|b| - 1];
      assert (a + b)[..|a + b| - 1] == a + init && (a + b)[|a + b| - 1] == last;
      UnpostedInTurn(rules, a, init);
      RegroupUnposted(RoundUnposted(rules, a), RoundUnposted(rules, init), SeatUnposted(rules, last.seat, last.calls));
    }
  }

  lemma RegroupMessages(a: seq<Message>, b: seq<Message>, c: seq<Message>)
    ensures a + (b + c) == (a + b) + c
  {}

  lemma RegroupUnposted(a: seq<Unposted>, b: seq<Unposted>, c: seq<Unposted>)
    ensures a + (b + c) == (a + b) + c
  {}

  /** A round is its turns one after the other, and a round of one turn is that turn. */
  lemma ARoundIsItsTurns(rules: Rules, a: seq<Turn>, turn: Turn, b: seq<Turn>)
    ensures RoundMessages(rules, a + [turn] + b)
            == RoundMessages(rules, a) + SeatMessages(rules, turn.seat, turn.calls) + RoundMessages(rules, b)
    ensures RoundUnposted(rules, a + [turn] + b)
            == RoundUnposted(rules, a) + SeatUnposted(rules, turn.seat, turn.calls) + RoundUnposted(rules, b)
  {
    MessagesInTurn(rules, a + [turn], b);
    UnpostedInTurn(rules, a + [turn], b);
    assert (a + [turn])[..|a|] == a;
  }

  /** A stop while a call streams saves every tool that ran and, unless they could
      still have become a pass, the words so far with no half-written token. */
  lemma AStopSavesWhatWasHeard(rules: Rules, call: Call, k: nat)
    requires k <= |call.events|
    ensures var heard, words, tools := Heard(call.events[..k]), TextIn(call.events[..k]), ToolsIn(call.events[..k]);
            CutMessages(rules, heard)
            == if tools != [] || (words != "" && !rules.isCutPass(words)) then
                 [Message(rules.stripPartial(if rules.isCutPass(words) then "" else words), tools, Known(heard), true)]
               else []
  {
    HeardInOrder(call.events[..k]);
    HeardSpeaks(call.events[..k]);
  }

  // ---------- what a stop saves of an accepted reply ----------

  /** One message, and it is the reply: its tools, and its words as accepted, or as
      a cut message shows them. */
  ghost predicate SavedOnce(messages: seq<Message>, reply: Message, rules: Rules) {
    && |messages| == 1 && messages[0].tools == reply.tools
    && (messages[0].content == reply.content
        || (messages[0].cut
            && messages[0].content == rules.stripPartial(if rules.isCutPass(reply.content) then "" else reply.content)))
  }

  /** A reply being posted, as the worker and the handler find it. */
  lemma AcceptedSays(rules: Rules, seat: Seat, call: Call, passNote: bool, echoNote: bool)
    requires Sensible(rules) && Settle(rules, seat, call, passNote, echoNote).Post?
    ensures
      var at, reply := Accepted(rules, call), Settle(rules, seat, call, passNote, echoNote).message;
      && at.speaking && !Blank(at) && reply.content == at.content && reply.tools == at.tools && reply.usage == at.usage
  {
    FinishedOwes(rules, call);
  }

  /** Exactly when a stop while an accepted reply is posted saves it once: with the
      post settled; before the worker looks, if the cut reply is worth saving; or
      once the worker has its words, if it is not. Between the worker's check and
      its reads it posts a blank or a partial row beside the cut one, and from its
      insert on the reply is there twice, whether or not it carries a usage. */
  lemma {:induction false} AStopSavesAnAcceptedReplyOnceExactly(rules: Rules, seat: Seat, call: Call, passNote: bool,
                                                                echoNote: bool, m: Moment)
    requires Sensible(rules) && Settle(rules, seat, call, passNote, echoNote).Post?
    requires m.Settled? || ((m.Mid? || m.Posting?) && m.at == Accepted(rules, call))
    ensures MomentOf(rules, seat, call, passNote, echoNote, m)
    ensures
      var o := Settle(rules, seat, call, passNote, echoNote);
      && (SavedOnce(StoppedMessages(rules, m, o), o.message, rules)
          <==> || m.Settled?
               || (m.Mid? && Savable(rules, m.at))
               || (m.Posting? && !Savable(rules, m.at) && !m.phase.Checked?))
      && |StoppedMessages(rules, m, o)|
         == if m.Settled? then 1 else (if Savable(rules, m.at) then 1 else 0) + (if m.Posting? then 1 else 0)
  {
    AcceptedSays(rules, seat, call, passNote, echoNote);
  }

  // ---------- the ways a stop miscounts ----------

  function PassRules(): Rules {
    Rules((s: string) => s == "[pass]", (s: string) => s == "[pass]", (s: string) => s, (s: string) => s,
          (s: string) => s == "again")
  }

  /** A stop while a pass is being announced loses the call's cost. */
  lemma AStopOnAPassLosesItsCost()
    ensures var seat := Seat(false, false, false, false, true, false);
            var call := Call([Text("[pass]"), Report(7)], false);
            var m := Mid(Heard(call.events));
            && Sensible(PassRules()) && MomentOf(PassRules(), seat, call, false, false, m)
            && Owed(call) == Some(Usage(7, false))
            && StopBooked(PassRules(), call, m, Settle(PassRules(), seat, call, false, false), Usage(7, false)) == 0
  {
    var call := Call([Text("[pass]"), Report(7)], false);
    assert call.events[..2] == call.events;
    assert call.events[..1] == [Text("[pass]")];
    assert Heard(call.events[..1]) == Live(true, "[pass]", [], None, Some(Meter(None)));
    assert Heard(call.events) == Live(true, "[pass]", [], Some(Usage(7, false)), None);
    assert LastReport(call.events) == Some(7);
  }

  /** A stop right after a restatement was recorded counts its cost twice. */
  lemma AStopOnARecordedEchoCountsItTwice()
    ensures var seat := Seat(false, false, false, false, true, false);
            var call := Call([Text("again"), Report(7)], false);
            var m := Recorded(Heard(call.events), EchoRetried);
            && MomentOf(PassRules(), seat, call, false, false, m)
            && Owed(call) == Some(Usage(7, false))
            && StopBooked(PassRules(), call, m, Settle(PassRules(), seat, call, false, false), Usage(7, false)) == 2
  {
    var call := Call([Text("again"), Report(7)], false);
    assert call.events[..1] == [Text("again")];
    assert Heard(call.events[..1]) == Live(true, "again", [], None, Some(Meter(None)));
    assert Heard(call.events) == Live(true, "again", [], Some(Usage(7, false)), None);
    assert LastReport(call.events) == Some(7);
    var seat := Seat(false, false, false, false, true, false);
    var m := Recorded(Heard(call.events), EchoRetried);
    StopRecordsOnceExactly(PassRules(), seat, call, false, false, m);
  }

  /** A stop while the worker posts an accepted reply, between its insert and the
      clearing of `live`, saves the reply a second time, cut, and counts its cost
      twice. */
  lemma AStopDuringAPostCountsItTwice()
    ensures var seat := Seat(false, false, false, false, true, false);
            var call := Call([Text("hello"), Report(7)], false);
            var m := Posting(Accepted(PassRules(), call), Inserted);
            var o := Settle(PassRules(), seat, call, false, false);
            && MomentOf(PassRules(), seat, call, false, false, m)
            && Owed(call) == Some(Usage(7, false))
            && StoppedMessages(PassRules(), m, o)
               == [Message("hello", [], Some(Usage(7, false)), false)] + [Message("hello", [], Some(Usage(7, false)), true)]
            && StopBooked(PassRules(), call, m, o, Usage(7, false)) == 2
  {
    var call := Call([Text("hello"), Report(7)], false);
    assert call.events[..1] == [Text("hello")];
    assert Heard(call.events[..1]) == Live(true, "hello", [], None, Some(Meter(None)));
    assert Heard(call.events) == Live(true, "hello", [], Some(Usage(7, false)), None);
    assert LastReport(call.events) == Some(7);
    var seat := Seat(false, false, false, false, true, false);
    assert Accepted(PassRules(), call).content == "hello";
    StopRecordsOnceExactly(PassRules(), seat, call, false, false, Posting(Accepted(PassRules(), call), Inserted));
  }

  /** A stop between the worker's check and its first read posts a blank row beside
      the cut reply. */
  lemma AStopDuringAPostCanPostABlankRow()
    ensures var seat := Seat(false, false, false, false, true, false);
            var call := Call([Text("hello"), Report(7)], false);
            var m := Posting(Accepted(PassRules(), call), Checked);
            && MomentOf(PassRules(), seat, call, false, false, m)
            && StoppedMessages(PassRules(), m, Settle(PassRules(), seat, call, false, false))
               == [Message("hello", [], Some(Usage(7, false)), true)] + [Message("", [], None, false)]
  {
    var call := Call([Text("hello"), Report(7)], false);
    assert call.events[..1] == [Text("hello")];
    assert Heard(call.events[..1]) == Live(true, "hello", [], None, Some(Meter(None)));
    assert Heard(call.events) == Live(true, "hello", [], Some(Usage(7, false)), None);
    assert Accepted(PassRules(), call).content == "hello";
  }

  /** A blank reply's cost is lost when the stop cancels its record before it starts. */
  lemma AStopBeforeABlankRecordLosesItsCost()
    ensures var seat := Seat(false, false, false, false, true, false);
            var call := Call([Report(7)], false);
            var m := Unrecorded(Finished(PassRules(), call));
            && MomentOf(PassRules(), seat, call, false, false, m)
            && Owed(call) == Some(Usage(7, false))
            && StopBooked(PassRules(), call, m, Settle(PassRules(), seat, call, false, false), Usage(7, false)) == 0
  {
    var call := Call([Report(7)], false);
    assert call.events[..0] == [];
    assert Heard(call.events) == Live(true, "", [], Some(Usage(7, false)), None);
    assert LastReport(call.events) == Some(7);
    NothingBooked(PassRules(), call, Unrecorded(Finished(PassRules(), call)), Drop(Empty));
  }

  /** A stop while a failed call's error is reported loses what its meter read: the
      usage is on the record by then, and there is nothing to save beside it. */
  lemma AStopOnAnErrorLosesItsCost()
    ensures var seat := Seat(false, false, false, false, true, false);
            var call := Call([Metered(5)], true);
            var m := Mid(Failing(Heard(call.events)));
            && MomentOf(PassRules(), seat, call, false, false, m) && LastReport(call.events).None?
            && Owed(call) == Some(Usage(5, true))
            && StopBooked(PassRules(), call, m, Settle(PassRules(), seat, call, false, false), Usage(5, true)) == 0
  {
    var call := Call([Metered(5)], true);
    assert call.events[..0] == [];
    assert Heard(call.events) == Live(true, "", [], None, Some(Meter(Some(5))));
    assert LastReport(call.events[..0]).None? && LastReading(call.events) == Some(5);
    var seat := Seat(false, false, false, false, true, false);
    var m := Mid(Failing(Heard(call.events)));
    StopBooks(PassRules(), call, m, Settle(PassRules(), seat, call, false, false), Usage(5, true));
  }
}
