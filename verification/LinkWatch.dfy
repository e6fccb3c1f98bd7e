/** The outage reporter (app/core/telegram_link.py): one line per outage, held until it is delivered, with the
    role exits seen while the link was down. */
module LinkWatch {
  import opened Prelude

  const MIN_FAILED := 2

  /** One outage's line. */
  datatype Outage = Outage(since: int, until: int, exits: map<string, nat>)

  datatype State = State(downSince: Option<int>, failed: nat, exits: map<string, nat>,
                         pending: Option<seq<Outage>>)

  const QUIET := State(None, 0, map[], None)

  function OneMore(exits: map<string, nat>, role: string): map<string, nat> {
    exits[role := (if role in exits then exits[role] else 0) + 1]
  }

  function Failed(s: State, now: int): State {
    s.(downSince := if s.downSince.None? then Some(now) else s.downSince, failed := s.failed + 1)
  }

  predicate Reports(s: State) {
    s.downSince.Some? && (s.failed >= MIN_FAILED || s.exits != map[])
  }

  /** A probe answered: the outage, if any, is over; its line joins those not delivered yet. */
  function Answered(s: State, now: int): State {
    if s.downSince.None? then s
    else
      var line := Outage(s.downSince.value, now, s.exits);
      var waiting := if s.pending.None? then [] else s.pending.value;
      State(None, 0, map[], if Reports(s) then Some(waiting + [line]) else s.pending)
  }

  function Sent(s: State, text: seq<Outage>, delivered: bool): State {
    if delivered && s.pending == Some(text) then s.(pending := None) else s
  }

  function Exited(s: State, role: string): State {
    if s.downSince.Some? then s.(exits := OneMore(s.exits, role)) else s
  }

  class Watch {
    var downSince: Option<int>
    var failed: nat
    var exits: map<string, nat>
    var pending: Option<seq<Outage>>

    constructor ()
      ensures Fields() == QUIET
    {
      downSince, failed, exits, pending := None, 0, map[], None;
    }

    function Fields(): State
      reads this
    {
      State(downSince, failed, exits, pending)
    }

    method ChildExited(role: string)
      modifies this`exits
      ensures Fields() == Exited(old(Fields()), role)
    {
      if downSince.Some? {
        exits := exits[role := (if role in exits then exits[role] else 0) + 1];
      }
    }

    /** The first locked section of a tick, when the probe failed. */
    method ProbeFailed(now: int)
      modifies this`downSince, this`failed
      ensures Fields() == Failed(old(Fields()), now)
    {
      if downSince.None? {
        downSince := Some(now);
      }
      failed := failed + 1;
    }

    /** The second, when it answered: what there is to send. */
    method ProbeAnswered(now: int) returns (text: Option<seq<Outage>>)
      modifies this
      ensures Fields() == Answered(old(Fields()), now) && text == pending
    {
      if downSince.Some? {
        if failed >= MIN_FAILED || exits != map[] {
          var line := Outage(downSince.value, now, exits);
          pending := Some((if pending.None? then [] else pending.value) + [line]);
        }
        downSince, failed, exits := None, 0, map[];
      }
      text := pending;
    }

    /** The third, after the send. */
    method Delivered(text: seq<Outage>, delivered: bool)
      modifies this`pending
      ensures Fields() == Sent(old(Fields()), text, delivered)
    {
      if delivered {
        if pending == Some(text) {
          pending := None;
        }
      }
    }
  }

  // ---------- runs ----------

  /** The watch's own thread probes and sends; role exits come from another thread, between any two of its
      locked sections. */
  datatype Event = Fails(now: int) | Answers(now: int) | Sends(delivered: bool) | Exits(role: string)

  /** sending: the text the watch thread holds between its last two sections. */
  datatype World = World(state: State, sending: Option<seq<Outage>>, delivered: seq<Outage>)

  predicate Possible(w: World, e: Event) {
    match e
    case Fails(_) => w.sending.None?
    case Answers(_) => w.sending.None?
    case Sends(_) => w.sending.Some?
    case Exits(_) => true
  }

  function Next(w: World, e: Event): World {
    match e
    case Fails(now) => w.(state := Failed(w.state, now))
    case Answers(now) => w.(state := Answered(w.state, now), sending := Answered(w.state, now).pending)
    case Sends(ok) =>
      if w.sending.None? then w
      else World(Sent(w.state, w.sending.value, ok), None,
                 if ok then w.delivered + w.sending.value else w.delivered)
    case Exits(role) => w.(state := Exited(w.state, role))
  }

  function Run(events: seq<Event>): World {
    if events == [] then World(QUIET, None, [])
    else Next(Run(events[..|events| - 1]), events[|events| - 1])
  }

  ghost predicate Valid(events: seq<Event>) {
    events == [] || (Valid(events[..|events| - 1]) && Possible(Run(events[..|events| - 1]), events[|events| - 1]))
  }

  // what the history itself says, without the watch's fields

  function Before(events: seq<Event>): seq<Event>
    requires events != []
  {
    events[..|events| - 1]
  }

  function Last(events: seq<Event>): Event
    requires events != []
  {
    events[|events| - 1]
  }

  /** The last probe failed. */
  predicate Down(events: seq<Event>) {
    events != [] &&
    match Last(events)
    case Fails(_) => true
    case Answers(_) => false
    case _ => Down(Before(events))
  }

  /** When the probes began to fail, and how many have since. */
  function DownSince(events: seq<Event>): int
    requires Down(events)
  {
    match Last(events)
    case Fails(now) => if Down(Before(events)) then DownSince(Before(events)) else now
    case Sends(_) => DownSince(Before(events))
    case Exits(_) => DownSince(Before(events))
  }

  function FailsSince(events: seq<Event>): nat {
    if events == [] then 0
    else
      match Last(events)
      case Fails(_) => FailsSince(Before(events)) + 1
      case Answers(_) => 0
      case _ => FailsSince(Before(events))
  }

  /** The exits of a role since then. */
  function ExitsSince(events: seq<Event>, role: string): nat {
    if events == [] then 0
    else
      match Last(events)
      case Answers(_) => 0
      case Exits(r) => ExitsSince(Before(events), role) + if r == role && Down(Before(events)) then 1 else 0
      case _ => ExitsSince(Before(events), role)
  }

  /** Every exit of a role while the link was down, over the whole history. */
  function ExitsWhileDown(events: seq<Event>, role: string): nat {
    if events == [] then 0
    else
      ExitsWhileDown(Before(events), role)
      + match Last(events)
        case Exits(r) => if r == role && Down(Before(events)) then 1 else 0
        case _ => 0
  }

  function CountOf(exits: map<string, nat>, role: string): nat {
    if role in exits then exits[role] else 0
  }

  /** The line tells of the outage that the answer `now` ended. */
  ghost predicate Tells(line: Outage, events: seq<Event>, now: int)
    requires Down(events)
  {
    line.since == DownSince(events) && line.until == now
    && forall role :: CountOf(line.exits, role) == ExitsSince(events, role)
  }

  /** The lines are those of the outages worth one, in order, each once. */
  ghost predicate Chronicle(lines: seq<Outage>, events: seq<Event>)
  {
    if events == [] then lines == []
    else
      match Last(events)
      case Answers(now) =>
        if Down(Before(events))
           && (FailsSince(Before(events)) >= MIN_FAILED || exists role :: ExitsSince(Before(events), role) > 0)
        then lines != [] && Tells(lines[|lines| - 1], Before(events), now)
             && Chronicle(lines[..|lines| - 1], Before(events))
        else Chronicle(lines, Before(events))
      case _ => Chronicle(lines, Before(events))
  }

  function Waiting(s: State): seq<Outage> {
    if s.pending.None? then [] else s.pending.value
  }

  ghost predicate FieldsTell(w: World, events: seq<Event>) {
    && (w.state.downSince.Some? <==> Down(events))
    && (Down(events) ==> w.state.downSince.value == DownSince(events))
    && w.state.failed == FailsSince(events)
    && (!Down(events) ==> w.state.exits == map[] && w.state.failed == 0)
    && (forall role :: CountOf(w.state.exits, role) == ExitsSince(events, role))
    && (forall role :: role in w.state.exits ==> w.state.exits[role] > 0)
    && (w.sending.Some? ==> w.state.pending == w.sending)
  }

  lemma ExitsAreSeen(w: World, events: seq<Event>)
    requires FieldsTell(w, events)
    ensures w.state.exits != map[] <==> exists role :: ExitsSince(events, role) > 0
  {
    if w.state.exits != map[] {
      var role :| role in w.state.exits;
      assert CountOf(w.state.exits, role) == ExitsSince(events, role);
    }
    if role :| ExitsSince(events, role) > 0 {
      assert CountOf(w.state.exits, role) > 0;
    }
  }

  lemma StepTells(w: World, events: seq<Event>, e: Event)
    requires FieldsTell(w, events) && Possible(w, e)
    ensures FieldsTell(Next(w, e), events + [e])
  {
  }

  /** In every run, what was delivered followed by what waits is exactly the history's outages: since the first
      failed probe, until the first that answered, with every role exit in between, and nothing about a
      single failed probe without an exit. */
  lemma {:induction false} EveryOutageIsToldOnce(events: seq<Event>)
    requires Valid(events)
    ensures var w := Run(events);
      FieldsTell(w, events) && Chronicle(w.delivered + Waiting(w.state), events)
  {
    if events != [] {
      var before, e := Before(events), Last(events);
      EveryOutageIsToldOnce(before);
      var w := Run(before);
      assert before + [e] == events;
      StepTells(w, before, e);
      ExitsAreSeen(w, before);
      var told, now := w.delivered + Waiting(w.state), Run(events).delivered + Waiting(Run(events).state);
      if e.Answers? && Reports(w.state) {
        assert now == told + [Outage(w.state.downSince.value, e.now, w.state.exits)];
        assert now[..|now| - 1] == told;
      } else {
        assert now == told;
      }
    }
  }

  function TotalExits(lines: seq<Outage>, role: string): nat {
    if lines == [] then 0 else TotalExits(lines[..|lines| - 1], role) + CountOf(lines[|lines| - 1].exits, role)
  }

  lemma {:induction false} ExitsAddUp(lines: seq<Outage>, events: seq<Event>, role: string)
    requires Chronicle(lines, events)
    ensures TotalExits(lines, role) + ExitsSince(events, role) == ExitsWhileDown(events, role)
  {
    if events != [] {
      var before := Before(events);
      match Last(events) {
        case Answers(now) =>
          if Down(before) && (FailsSince(before) >= MIN_FAILED || exists r :: ExitsSince(before, r) > 0) {
            ExitsAddUp(lines[..|lines| - 1], before, role);
          } else {
            ExitsAddUp(lines, before, role);
            if !Down(before) { UpHasNoExits(before, role); }
          }
        case _ => ExitsAddUp(lines, before, role);
      }
    }
  }

  lemma {:induction false} UpHasNoExits(events: seq<Event>, role: string)
    requires !Down(events)
    ensures ExitsSince(events, role) == 0
  {
    if events != [] && !Last(events).Answers? {
      UpHasNoExits(Before(events), role);
    }
  }

  /** Every role exit seen while the link was down is in exactly one line, or in the outage that still lasts. */
  lemma EveryExitIsCountedOnce(events: seq<Event>, role: string)
    requires Valid(events)
    ensures var w := Run(events);
      TotalExits(w.delivered + Waiting(w.state), role) + CountOf(w.state.exits, role) == ExitsWhileDown(events, role)
  {
    EveryOutageIsToldOnce(events);
    var w := Run(events);
    ExitsAddUp(w.delivered + Waiting(w.state), events, role);
  }
}
