/** Broadcasts across pauses, resumes and crashes: the worker as a machine that makes one database write or one
    send at a time, and may die between any two of them. */
module BroadcastRuns {
  import opened Prelude
  import opened Broadcast

  datatype Result = Delivered | Refused | Skipped

  /** Where the worker is in process_job. */
  datatype Pc = Freezing | Counting | Checking | Sending | Recording(result: Result) | NotingError | Saving
    | SavingStop | Stopping | SavingEnd | Completing

  /** i, sent, failed, skipped: its local variables; list: the recipients it goes through. */
  datatype Hand = Hand(job: nat, pc: Pc, list: seq<int>, i: nat, sent: nat, failed: nat, skipped: nat)
  datatype Worker = Dead | Idle | Busy(hand: Hand)

  /** attempts, handled, hits: by job and index, the sends, the recorded events, and the crashes and exceptions
      that fell between a send and the row that says so. */
  datatype World = World(jobs: seq<Job>, worker: Worker, attempts: multiset<(nat, nat)>,
                         handled: multiset<(nat, nat)>, hits: multiset<(nat, nat)>)

  /** Raises: an exception ends the run and leaves its job as it is (mailer_loop). built: the recipients a fresh
      query would give; ok: whether a send goes through; seen: the status that a request to stop read, at any
      time before. */
  datatype Event =
    | Works(built: seq<int>, ok: bool)
    | Claims
    | Dies
    | Raises
    | Restarts
    | Adds(namesItsOwn: bool)
    | Stops(job: nat, seen: Status)
    | Resumes(job: nat)

  function Saved(j: Job, h: Hand, cursor: nat): Job {
    j.(sent := h.sent, failed := h.failed, skipped := h.skipped, cursor := cursor)
  }

  /** What the worker's next operation writes to its job's row. */
  function RowAfter(j: Job, h: Hand, built: seq<int>): Job {
    match h.pc
    case Freezing => if j.recipients != [] then j else j.(recipients := built, total := |built|)
    case Counting => j.(total := |h.list|)
    case Saving => Saved(j, h, h.i + 1)
    case SavingStop => Saved(j, h, h.i)
    case Stopping => j.(status := Paused)
    case SavingEnd => Saved(j, h, h.i)
    case Completing => j.(status := Done)
    case _ => j
  }

  /** The operation after it, and what the worker remembers. */
  function HandAfter(j: Job, h: Hand, built: seq<int>, ok: bool): Worker {
    match h.pc
    case Freezing => Busy(h.(list := if j.recipients != [] then j.recipients else built, pc := Counting))
    case Counting => Busy(h.(pc := Checking))
    case Checking =>
      Busy(h.(pc := if h.i >= |h.list| then SavingEnd
                    else if j.status == CancelRequested then SavingStop else Sending))
    case Sending =>
      Busy(if h.i < |h.list| && IsChannel(h.list[h.i]) then h.(skipped := h.skipped + 1, pc := Recording(Skipped))
           else if ok then h.(sent := h.sent + 1, pc := Recording(Delivered))
           else h.(failed := h.failed + 1, pc := Recording(Refused)))
    case Recording(result) => Busy(h.(pc := if result == Refused then NotingError else Saving))
    case NotingError => Busy(h.(pc := Saving))
    case Saving => Busy(h.(i := h.i + 1, pc := Checking))
    case SavingStop => Busy(h.(pc := Stopping))
    case SavingEnd => Busy(h.(pc := Completing))
    case Stopping => Idle
    case Completing => Idle
  }

  predicate Attempts(h: Hand) {
    h.pc.Sending? && h.i < |h.list| && !IsChannel(h.list[h.i])
  }

  function Work(w: World, h: Hand, built: seq<int>, ok: bool): World
    requires h.job < |w.jobs|
  {
    var j, at := w.jobs[h.job], multiset{(h.job, h.i)};
    World(w.jobs[h.job := RowAfter(j, h, built)], HandAfter(j, h, built, ok),
          if Attempts(h) then w.attempts + at else w.attempts,
          if h.pc.Recording? then w.handled + at else w.handled,
          w.hits)
  }

  /** A send whose result is not saved yet. */
  predicate InHand(h: Hand) {
    h.pc.Recording? || h.pc.NotingError? || h.pc.Saving?
  }

  function HitsAfter(w: World): multiset<(nat, nat)> {
    if w.worker.Busy? && InHand(w.worker.hand)
    then w.hits + multiset{(w.worker.hand.job, w.worker.hand.i)} else w.hits
  }

  function Next(w: World, e: Event): World {
    match e
    case Works(built, ok) =>
      if w.worker.Busy? && w.worker.hand.job < |w.jobs| then Work(w, w.worker.hand, built, ok) else w
    case Claims =>
      var (jobs, i) := ClaimNext(w.jobs);
      if w.worker != Idle || i.None? then w
      else
        var j := jobs[i.value];
        w.(jobs := jobs, worker := Busy(Hand(i.value, Freezing, [], j.cursor, j.sent, j.failed, j.skipped)))
    case Dies => w.(worker := Dead, hits := HitsAfter(w))
    case Raises => if w.worker.Busy? then w.(worker := Idle, hits := HitsAfter(w)) else w
    case Restarts => if w.worker == Dead then w.(jobs := Recover(w.jobs), worker := Idle) else w
    case Adds(own) => w.(jobs := w.jobs + [Job(Queued, 0, 0, 0, 0, 0, [], own)])
    case Stops(i, seen) => if i < |w.jobs| then w.(jobs := w.jobs[i := StopWritten(w.jobs[i], seen)]) else w
    case Resumes(i) => if i < |w.jobs| then w.(jobs := w.jobs[i := ResumedJob(w.jobs[i])]) else w
  }

  function Run(w: World, events: seq<Event>): World
    decreases |events|
  {
    if events == [] then w else Run(Next(w, events[0]), events[1..])
  }

  const START := World([], Dead, multiset{}, multiset{}, multiset{})

  /** A run goes through the list that is frozen; the first one freezes the list it is given. */
  lemma FirstRunFreezes(j: Job, h: Hand, built: seq<int>, ok: bool)
    requires h.pc.Freezing?
    ensures var list := if j.recipients == [] then built else j.recipients;
      && RowAfter(j, h, built).recipients == list
      && (j.recipients == [] ==> RowAfter(j, h, built) == j.(recipients := built, total := |built|))
      && (j.recipients != [] ==> RowAfter(j, h, built) == j)
      && HandAfter(j, h, built, ok) == Busy(h.(list := list, pc := Counting))
  {
  }

  // ---------- what holds throughout ----------

  ghost predicate HandSound(jobs: seq<Job>, h: Hand) {
    && h.job < |jobs|
    && var j := jobs[h.job];
       && j.status != Done && h.i == j.cursor
       && (h.pc != Freezing ==> h.list == j.recipients)
       && (h.pc.Sending? || InHand(h) ==> h.i < |h.list|)
       && (h.pc.SavingEnd? || h.pc.Completing? ==> h.i == |h.list|)
       && (!InHand(h) ==> h.sent == j.sent && h.failed == j.failed && h.skipped == j.skipped)
       && (InHand(h) ==> h.sent + h.failed + h.skipped == h.i + 1)
  }

  /** Index k of job n in the logs. */
  ghost predicate IndexSound(w: World, n: nat, k: nat)
    requires n < |w.jobs|
  {
    var j := w.jobs[n];
    var held := w.worker.Busy? && w.worker.hand.job == n && w.worker.hand.i == k && InHand(w.worker.hand);
    && w.attempts[(n, k)] <= w.hits[(n, k)] + (if k < j.cursor || held then 1 else 0)
    && (k < j.cursor ==> w.handled[(n, k)] >= 1)
    && (held && !w.worker.hand.pc.Recording? ==> w.handled[(n, k)] >= 1)
    && (k < |j.recipients| && IsChannel(j.recipients[k]) ==> w.attempts[(n, k)] == 0)
    && (k < |j.recipients| && !IsChannel(j.recipients[k]) && (k < j.cursor || held) ==> w.attempts[(n, k)] >= 1)
    && (k >= |j.recipients| ==> w.attempts[(n, k)] == 0)
  }

  ghost predicate Inv(w: World) {
    && (forall n :: 0 <= n < |w.jobs| ==> JobSound(w.jobs[n]))
    && (w.worker.Busy? ==> HandSound(w.jobs, w.worker.hand))
    && (forall n, k :: 0 <= n < |w.jobs| && 0 <= k ==> IndexSound(w, n, k))
    && (forall n, k :: n >= |w.jobs| ==> w.attempts[(n, k)] == 0)
  }

  lemma RowStaysSound(j: Job, h: Hand, built: seq<int>)
    requires JobSound(j) && HandSound([j], h.(job := 0))
    ensures JobSound(RowAfter(j, h, built))
  {
  }

  lemma HandStaysSound(j: Job, h: Hand, built: seq<int>, ok: bool)
    requires JobSound(j) && HandSound([j], h.(job := 0))
    ensures var after := HandAfter(j, h, built, ok);
      after.Busy? ==> after.hand.job == h.job && HandSound([RowAfter(j, h, built)], after.hand.(job := 0))
  {
  }

  lemma WorkKeepsJobs(w: World, built: seq<int>, ok: bool)
    requires Inv(w) && w.worker.Busy?
    ensures var w' := Work(w, w.worker.hand, built, ok);
      && |w'.jobs| == |w.jobs|
      && (forall n :: 0 <= n < |w.jobs| ==> JobSound(w'.jobs[n]))
      && (w'.worker.Busy? ==> HandSound(w'.jobs, w'.worker.hand))
  {
    var h := w.worker.hand;
    RowStaysSound(w.jobs[h.job], h, built);
    HandStaysSound(w.jobs[h.job], h, built, ok);
  }

  lemma WorkKeepsIndexes(w: World, built: seq<int>, ok: bool, n: nat, k: nat)
    requires Inv(w) && w.worker.Busy? && n < |w.jobs|
    ensures var w' := Work(w, w.worker.hand, built, ok);
      |w'.jobs| == |w.jobs| && IndexSound(w', n, k)
  {
    var h := w.worker.hand;
    assert JobSound(w.jobs[h.job]);
    assert IndexSound(w, n, k);
  }

  lemma WorkKeepsInv(w: World, built: seq<int>, ok: bool)
    requires Inv(w) && w.worker.Busy?
    ensures Inv(Work(w, w.worker.hand, built, ok))
  {
    WorkKeepsJobs(w, built, ok);
    var w' := Work(w, w.worker.hand, built, ok);
    forall n, k | 0 <= n < |w'.jobs| && 0 <= k
      ensures IndexSound(w', n, k)
    {
      WorkKeepsIndexes(w, built, ok, n, k);
    }
  }

  lemma OtherStepsKeepJobs(w: World, e: Event, n: nat)
    requires Inv(w) && !e.Works? && n < |Next(w, e).jobs|
    ensures JobSound(Next(w, e).jobs[n])
    ensures n < |w.jobs| ==> Next(w, e).jobs[n] == w.jobs[n].(status := Next(w, e).jobs[n].status)
  {
  }

  lemma OtherStepsKeepHand(w: World, e: Event)
    requires Inv(w) && !e.Works? && Next(w, e).worker.Busy?
    ensures HandSound(Next(w, e).jobs, Next(w, e).worker.hand)
  {
  }

  lemma OtherStepsKeepLogs(w: World, e: Event)
    requires !e.Works?
    ensures var w' := Next(w, e);
      && w'.attempts == w.attempts && w'.handled == w.handled && |w.jobs| <= |w'.jobs|
      && w'.hits == (if e.Dies? || e.Raises? then HitsAfter(w) else w.hits)
      && (w'.worker.Busy? ==> w'.worker == w.worker || w'.worker.hand.pc == Freezing)
      && (w.worker.Busy? ==> w'.worker == w.worker || e.Dies? || e.Raises?)
  {
  }

  lemma OtherStepsKeepIndexes(w: World, e: Event, n: nat, k: nat)
    requires Inv(w) && !e.Works? && n < |Next(w, e).jobs|
    ensures IndexSound(Next(w, e), n, k)
  {
    OtherStepsKeepJobs(w, e, n);
    OtherStepsKeepLogs(w, e);
    if n < |w.jobs| {
      assert IndexSound(w, n, k);
    } else {
      assert w.attempts[(n, k)] == 0;
    }
  }

  /** Steps that send nothing leave every row's counters and list alone. */
  lemma OtherStepsKeepInv(w: World, e: Event)
    requires Inv(w) && !e.Works?
    ensures Inv(Next(w, e))
  {
    var w' := Next(w, e);
    forall n | 0 <= n < |w'.jobs|
      ensures JobSound(w'.jobs[n])
    {
      OtherStepsKeepJobs(w, e, n);
    }
    if w'.worker.Busy? {
      OtherStepsKeepHand(w, e);
    }
    forall n, k | 0 <= n < |w'.jobs| && 0 <= k
      ensures IndexSound(w', n, k)
    {
      OtherStepsKeepIndexes(w, e, n, k);
    }
    OtherStepsKeepLogs(w, e);
  }

  lemma {:induction false} RunKeepsInv(w: World, events: seq<Event>)
    requires Inv(w)
    ensures Inv(Run(w, events))
    decreases |events|
  {
    if events != [] {
      if events[0].Works? {
        if w.worker.Busy? { WorkKeepsInv(w, events[0].built, events[0].ok); }
      } else {
        OtherStepsKeepInv(w, events[0]);
      }
      RunKeepsInv(Next(w, events[0]), events[1..]);
    }
  }

  /** Over every run, whatever pauses, resumes, exceptions and crashes it has: a job's cursor counts what was
      sent, failed and skipped; every index below it was handled; an index is attempted at most once more than
      the crashes that hit it between its send and its save; channels never are; and done means the cursor is
      at the end. */
  lemma BroadcastsSurviveCrashes(events: seq<Event>, n: nat, k: nat)
    requires n < |Run(START, events).jobs|
    ensures var w := Run(START, events); var j := w.jobs[n];
      && j.cursor == j.sent + j.failed + j.skipped <= |j.recipients|
      && (k < j.cursor ==> w.handled[(n, k)] >= 1)
      && w.attempts[(n, k)] <= w.hits[(n, k)] + 1
      && (k < |j.recipients| && IsChannel(j.recipients[k]) ==> w.attempts[(n, k)] == 0)
      && (j.status == Done ==> j.cursor == |j.recipients|)
  {
    RunKeepsInv(START, events);
    var w := Run(START, events);
    assert JobSound(w.jobs[n]) && IndexSound(w, n, k);
  }

  /** A job no crash hit has sent to each recipient below its cursor exactly once, channels excepted, and to
      nobody else but the one in hand; done, to every recipient of the list. */
  lemma CrashFreeIsExactlyOnce(events: seq<Event>, n: nat)
    requires n < |Run(START, events).jobs|
    requires forall k :: Run(START, events).hits[(n, k)] == 0
    ensures var w := Run(START, events); var j := w.jobs[n];
      && j.cursor <= |j.recipients|
      && (forall k :: 0 <= k < j.cursor ==> w.attempts[(n, k)] == if IsChannel(j.recipients[k]) then 0 else 1)
      && (j.status == Done ==>
            forall k :: 0 <= k < |j.recipients| ==> w.attempts[(n, k)] == if IsChannel(j.recipients[k]) then 0 else 1)
  {
    RunKeepsInv(START, events);
    var w := Run(START, events);
    var j := w.jobs[n];
    assert JobSound(j);
    forall k | 0 <= k < j.cursor
      ensures w.attempts[(n, k)] == if IsChannel(j.recipients[k]) then 0 else 1
    {
      assert IndexSound(w, n, k);
    }
  }

  // ---------- one frozen list, and nothing stuck ----------

  lemma StepKeepsList(w: World, e: Event, n: nat)
    requires Inv(w) && n < |w.jobs| && w.jobs[n].recipients != []
    ensures n < |Next(w, e).jobs| && Next(w, e).jobs[n].recipients == w.jobs[n].recipients
    ensures Next(w, e).jobs[n].cursor >= w.jobs[n].cursor
  {
  }

  /** The list a job goes through is frozen by its first run and never changes again, and its cursor never
      goes back. */
  lemma {:induction false} ListIsFrozen(w: World, events: seq<Event>, n: nat)
    requires Inv(w) && n < |w.jobs| && w.jobs[n].recipients != []
    ensures n < |Run(w, events).jobs|
    ensures Run(w, events).jobs[n].recipients == w.jobs[n].recipients
    ensures Run(w, events).jobs[n].cursor >= w.jobs[n].cursor
    decreases |events|
  {
    if events != [] {
      StepKeepsList(w, events[0], n);
      RunKeepsInv(w, [events[0]]);
      assert Run(w, [events[0]]) == Next(w, events[0]) by { assert [events[0]][1..] == []; }
      ListIsFrozen(Next(w, events[0]), events[1..], n);
    }
  }

  /** A paused job can be resumed exactly when it never started or has recipients left: a pause loses
      nobody. */
  lemma PausedResumesIffUnfinished(events: seq<Event>, n: nat)
    requires n < |Run(START, events).jobs| && Run(START, events).jobs[n].status == Paused
    ensures var j := Run(START, events).jobs[n];
      CanResume(j) <==> j.cursor == 0 || j.cursor < |j.recipients|
  {
    RunKeepsInv(START, events);
    assert JobSound(Run(START, events).jobs[n]);
  }
}
