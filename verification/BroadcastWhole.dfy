/** The loop of process_job and the machine that may die between any two operations agree: left alone, the
    machine makes of a job's row exactly what the loop is proved to make of it. */
module BroadcastWhole {
  import opened Prelude
  import opened Broadcast
  import opened BroadcastRuns

  lemma {:induction false} ProgressFrom(j: Job, first: nat, end: nat, refused: set<nat>)
    requires first < end <= |j.recipients|
    ensures var one := Progressed(j, first, first + 1, refused);
      one.recipients == j.recipients && Progressed(j, first, end, refused) == Progressed(one, first + 1, end, refused)
    decreases end
  {
    if first + 1 < end {
      ProgressFrom(j, first, end - 1, refused);
    } else {
      assert Progressed(j, first, first, refused) == j.(cursor := first);
    }
  }

  lemma {:induction false} RunInTwo(w: World, a: seq<Event>, b: seq<Event>)
    ensures Run(w, a + b) == Run(Run(w, a), b)
    decreases |a|
  {
    if a == [] {
      assert a + b == b;
    } else {
      assert (a + b)[1..] == a[1..] + b;
      RunInTwo(Next(w, a[0]), a[1..], b);
    }
  }

  ghost predicate OnlyWorks(events: seq<Event>) {
    forall k :: 0 <= k < |events| ==> events[k].Works?
  }

  ghost predicate LeadsTo(w: World, events: seq<Event>, w': World) {
    OnlyWorks(events) && Run(w, events) == w'
  }

  /** The worker, left alone, comes from one world to the other. */
  ghost predicate Reaches(w: World, w': World) {
    exists events :: LeadsTo(w, events, w')
  }

  lemma ReachesInOne(w: World, ok: bool)
    requires w.worker.Busy? && w.worker.hand.job < |w.jobs|
    ensures Reaches(w, Work(w, w.worker.hand, [], ok))
  {
    var e := Works([], ok);
    assert [e][1..] == [];
    assert LeadsTo(w, [e], Work(w, w.worker.hand, [], ok));
  }

  lemma ReachesInTwo(w: World, mid: World, w': World)
    requires Reaches(w, mid) && Reaches(mid, w')
    ensures Reaches(w, w')
  {
    var a :| LeadsTo(w, a, mid);
    var b :| LeadsTo(mid, b, w');
    RunInTwo(w, a, b);
    assert LeadsTo(w, a + b, w');
  }

  /** The worker is at the head of its loop with a row that says what it remembers and does not ask it to stop. */
  ghost predicate AtHead(w: World, n: nat) {
    && w.worker.Busy? && n < |w.jobs|
    && var h, j := w.worker.hand, w.jobs[n];
       && h == Hand(n, Checking, j.recipients, j.cursor, j.sent, j.failed, j.skipped)
       && j.status != CancelRequested && j.cursor <= |j.recipients|
  }

  /** An operation that leaves the row as it is. */
  lemma GoesOn(w: World, h: Hand, ok: bool, next: Hand)
    requires w.worker == Busy(h) && h.job < |w.jobs|
    requires RowAfter(w.jobs[h.job], h, []) == w.jobs[h.job]
    requires HandAfter(w.jobs[h.job], h, [], ok) == Busy(next)
    ensures var at := multiset{(h.job, h.i)};
      Reaches(w, World(w.jobs, Busy(next), if Attempts(h) then w.attempts + at else w.attempts,
                       if h.pc.Recording? then w.handled + at else w.handled, w.hits))
  {
    assert w.jobs[h.job := w.jobs[h.job]] == w.jobs;
    ReachesInOne(w, ok);
  }

  function Sent(h: Hand, refused: set<nat>): Hand
    requires h.i < |h.list|
  {
    if IsChannel(h.list[h.i]) then h.(skipped := h.skipped + 1, pc := Recording(Skipped))
    else if h.i in refused then h.(failed := h.failed + 1, pc := Recording(Refused))
    else h.(sent := h.sent + 1, pc := Recording(Delivered))
  }

  function Counted(w: World, n: nat, h: Hand): multiset<(nat, nat)>
    requires h.i < |h.list|
  {
    if IsChannel(h.list[h.i]) then w.attempts else w.attempts + multiset{(n, h.i)}
  }

  lemma ToResult(w: World, n: nat, h: Hand, refused: set<nat>)
    requires AtHead(w, n) && w.worker == Busy(h) && h.i < |h.list|
    ensures Reaches(w, World(w.jobs, Busy(Sent(h, refused)), Counted(w, n, h), w.handled, w.hits))
  {
    var w1 := w.(worker := Busy(h.(pc := Sending)));
    GoesOn(w, h, true, h.(pc := Sending));
    GoesOn(w1, h.(pc := Sending), h.i !in refused, Sent(h, refused));
    ReachesInTwo(w, w1, World(w.jobs, Busy(Sent(h, refused)), Counted(w, n, h), w.handled, w.hits));
  }

  lemma ToSaving(w: World, h: Hand)
    requires w.worker == Busy(h) && h.job < |w.jobs| && h.pc.Recording?
    ensures Reaches(w, World(w.jobs, Busy(h.(pc := Saving)), w.attempts, w.handled + multiset{(h.job, h.i)}, w.hits))
  {
    var handled := w.handled + multiset{(h.job, h.i)};
    if h.pc.result == Refused {
      var noting := h.(pc := NotingError);
      GoesOn(w, h, true, noting);
      var w1 := World(w.jobs, Busy(noting), w.attempts, handled, w.hits);
      GoesOn(w1, noting, true, h.(pc := Saving));
      ReachesInTwo(w, w1, World(w.jobs, Busy(h.(pc := Saving)), w.attempts, handled, w.hits));
    } else {
      GoesOn(w, h, true, h.(pc := Saving));
    }
  }

  lemma ToHead(w: World, h: Hand)
    requires w.worker == Busy(h) && h.job < |w.jobs| && h.pc == Saving
    ensures Reaches(w, World(w.jobs[h.job := Saved(w.jobs[h.job], h, h.i + 1)],
                             Busy(h.(i := h.i + 1, pc := Checking)), w.attempts, w.handled, w.hits))
  {
    ReachesInOne(w, true);
  }

  function Handled(w: World, n: nat, i: nat): multiset<(nat, nat)> {
    w.handled + multiset{(n, i)}
  }

  /** The world after one index: the row advances as the loop's body does it, and only this index is
      attempted, unless it is a channel. */
  function OneIndex(w: World, n: nat, h: Hand, refused: set<nat>): World
    requires n < |w.jobs| && h.i < |h.list|
  {
    var sent := Sent(h, refused);
    World(w.jobs[n := Saved(w.jobs[n], sent, h.i + 1)], Busy(sent.(i := h.i + 1, pc := Checking)),
          Counted(w, n, h), Handled(w, n, h.i), w.hits)
  }

  lemma OneIndexIsReached(w: World, n: nat, h: Hand, refused: set<nat>)
    requires AtHead(w, n) && w.worker == Busy(h) && h.i < |h.list|
    ensures Reaches(w, OneIndex(w, n, h, refused))
  {
    var sent, attempts, handled := Sent(h, refused), Counted(w, n, h), Handled(w, n, h.i);
    var w1 := World(w.jobs, Busy(sent), attempts, w.handled, w.hits);
    var w2 := World(w.jobs, Busy(sent.(pc := Saving)), attempts, handled, w.hits);
    ToResult(w, n, h, refused);
    ToSaving(w1, sent);
    ReachesInTwo(w, w1, w2);
    ToHead(w2, sent.(pc := Saving));
    ReachesInTwo(w, w2, OneIndex(w, n, h, refused));
  }

  lemma OneIndexProgresses(w: World, n: nat, h: Hand, refused: set<nat>)
    requires AtHead(w, n) && w.worker == Busy(h) && h.i < |h.list|
    ensures var w' := OneIndex(w, n, h, refused);
      AtHead(w', n) && w'.jobs == w.jobs[n := Progressed(w.jobs[n], h.i, h.i + 1, refused)]
  {
  }

  lemma ToDone(w: World, n: nat, h: Hand)
    requires AtHead(w, n) && w.worker == Busy(h) && h.i == |h.list|
    ensures Reaches(w, w.(jobs := w.jobs[n := w.jobs[n].(status := Done)], worker := Idle))
  {
    var w1 := w.(worker := Busy(h.(pc := SavingEnd)));
    var w2 := w.(worker := Busy(h.(pc := Completing)));
    GoesOn(w, h, true, h.(pc := SavingEnd));
    GoesOn(w1, h.(pc := SavingEnd), true, h.(pc := Completing));
    ReachesInTwo(w, w1, w2);
    ReachesInOne(w2, true);
    ReachesInTwo(w, w2, w.(jobs := w.jobs[n := w.jobs[n].(status := Done)], worker := Idle));
  }

  /** The attempts of a run from the cursor to the end of the list. */
  function AttemptsOf(n: nat, addressed: seq<nat>): multiset<(nat, nat)> {
    if addressed == [] then multiset{} else multiset{(n, addressed[0])} + AttemptsOf(n, addressed[1..])
  }

  lemma {:induction false} AddressedFrom(list: seq<int>, first: nat, end: nat)
    requires first < end <= |list|
    ensures Addressed(list, first, end)
         == (if IsChannel(list[first]) then [] else [first]) + Addressed(list, first + 1, end)
    decreases end
  {
    if first + 1 < end {
      AddressedFrom(list, first, end - 1);
    }
  }

  /** What the worker makes of its world when nothing stops it: the row ProcessJob leaves, and one attempt more
      for each index it addresses. */
  ghost predicate Finished(w: World, n: nat, refused: set<nat>, w': World)
    requires n < |w.jobs| && w.jobs[n].cursor <= |w.jobs[n].recipients|
  {
    var j := w.jobs[n];
    && w'.jobs == w.jobs[n := Progressed(j, j.cursor, |j.recipients|, refused).(status := Done)]
    && w'.attempts == w.attempts + AttemptsOf(n, Addressed(j.recipients, j.cursor, |j.recipients|))
    && w'.worker == Idle && w'.hits == w.hits
  }

  /** Left alone, the worker ends with the row of ProcessJob and every addressed index attempted once more. */
  lemma {:induction false} LeftAloneItFinishes(w: World, n: nat, refused: set<nat>)
    requires AtHead(w, n)
    ensures exists w' :: Reaches(w, w') && Finished(w, n, refused, w')
    decreases |w.jobs[n].recipients| - w.jobs[n].cursor
  {
    var j, i, h := w.jobs[n], w.jobs[n].cursor, w.worker.hand;
    if i == |j.recipients| {
      ToDone(w, n, h);
      assert Progressed(j, i, i, refused) == j;
      var w' := w.(jobs := w.jobs[n := w.jobs[n].(status := Done)], worker := Idle);
      assert Reaches(w, w') && Finished(w, n, refused, w');
    } else {
      var w1 := OneIndex(w, n, h, refused);
      OneIndexIsReached(w, n, h, refused);
      OneIndexProgresses(w, n, h, refused);
      ProgressFrom(j, i, |j.recipients|, refused);
      AddressedFrom(j.recipients, i, |j.recipients|);
      LeftAloneItFinishes(w1, n, refused);
      var w' :| Reaches(w1, w') && Finished(w1, n, refused, w');
      ReachesInTwo(w, w1, w');
      AttemptsAdd(w, w1, w', n, h, refused);
    }
  }

  lemma AttemptsAdd(w: World, w1: World, w': World, n: nat, h: Hand, refused: set<nat>)
    requires AtHead(w, n) && w.worker == Busy(h) && h.i < |h.list| && w1 == OneIndex(w, n, h, refused)
    requires n < |w1.jobs| && w1.jobs == w.jobs[n := Progressed(w.jobs[n], h.i, h.i + 1, refused)]
    requires w1.jobs[n].cursor <= |w1.jobs[n].recipients| && Finished(w1, n, refused, w')
    requires Progressed(w.jobs[n], h.i, h.i + 1, refused).recipients == h.list
    requires Progressed(w.jobs[n], h.i, |h.list|, refused)
          == Progressed(w1.jobs[n], h.i + 1, |h.list|, refused)
    requires Addressed(h.list, h.i, |h.list|)
          == (if IsChannel(h.list[h.i]) then [] else [h.i]) + Addressed(h.list, h.i + 1, |h.list|)
    ensures Finished(w, n, refused, w')
  {
    var rest := Addressed(h.list, h.i + 1, |h.list|);
    if IsChannel(h.list[h.i]) {
      assert [] + rest == rest;
    } else {
      assert ([h.i] + rest)[1..] == rest;
    }
  }

  // ---------- a stop that is heard, and one that is lost ----------

  predicate Looping(pc: Pc) {
    pc.Checking? || pc.Sending? || pc.Recording? || pc.NotingError? || pc.Saving?
  }

  /** The worker is anywhere in the loop of job n. */
  ghost predicate InLoop(w: World, n: nat) {
    && Inv(w) && n < |w.jobs| && w.worker.Busy? && w.worker.hand.job == n && Looping(w.worker.hand.pc)
  }

  /** The recipient before which it asks next whether to stop. */
  function NextCheck(h: Hand): nat {
    if h.pc.Checking? then h.i else h.i + 1
  }

  /** The operations the worker has left, at most. */
  function OpsLeft(worker: BroadcastRuns.Worker): int {
    if !worker.Busy? then 0
    else
      var h := worker.hand;
      6 * (|h.list| - h.i) + match h.pc
                             case Freezing => 7
                             case Counting => 6
                             case Checking => 5
                             case Sending => 4
                             case Recording(_) => 3
                             case NotingError => 2
                             case Saving => 1
                             case SavingStop => 2
                             case Stopping => 1
                             case SavingEnd => 2
                             case Completing => 1
  }

  /** The worker of job n, whose row is j, will stop before index `at`. */
  predicate Halts(j: Job, worker: BroadcastRuns.Worker, n: nat, at: nat) {
    match worker
    case Busy(h) =>
      && h.job == n
      && if Looping(h.pc) then j.status == CancelRequested && NextCheck(h) == at < |h.list|
         else (h.pc.SavingStop? || h.pc.Stopping?) && h.i == at <= |h.list|
    case Idle => j.status == Paused && j.cursor == at
    case Dead => false
  }

  /** It will go on to the end. */
  predicate GoesThrough(j: Job, worker: BroadcastRuns.Worker, n: nat) {
    match worker
    case Busy(h) =>
      && h.job == n && h.i <= |h.list|
      && if Looping(h.pc) then j.status != CancelRequested else h.pc.SavingEnd? || h.pc.Completing?
    case Idle => j.status == Done
    case Dead => false
  }

  ghost predicate WillStop(w: World, n: nat, at: nat) {
    Inv(w) && n < |w.jobs| && Halts(w.jobs[n], w.worker, n, at)
  }

  ghost predicate WillFinish(w: World, n: nat) {
    Inv(w) && n < |w.jobs| && GoesThrough(w.jobs[n], w.worker, n)
  }

  lemma HandHalts(j: Job, h: Hand, at: nat, built: seq<int>, ok: bool)
    requires HandSound([j], h.(job := 0)) && Halts(j, Busy(h), h.job, at)
    ensures Halts(RowAfter(j, h, built), HandAfter(j, h, built, ok), h.job, at)
    ensures 0 <= OpsLeft(HandAfter(j, h, built, ok)) < OpsLeft(Busy(h))
  {
  }

  lemma HandGoesThrough(j: Job, h: Hand, built: seq<int>, ok: bool)
    requires HandSound([j], h.(job := 0)) && GoesThrough(j, Busy(h), h.job)
    ensures GoesThrough(RowAfter(j, h, built), HandAfter(j, h, built, ok), h.job)
    ensures 0 <= OpsLeft(HandAfter(j, h, built, ok)) < OpsLeft(Busy(h))
  {
  }

  lemma StepStops(w: World, n: nat, at: nat, e: Event)
    requires WillStop(w, n, at) && e.Works?
    ensures WillStop(Next(w, e), n, at)
    ensures w.worker.Busy? ==> 0 <= OpsLeft(Next(w, e).worker) < OpsLeft(w.worker)
  {
    if w.worker.Busy? {
      WorkKeepsInv(w, e.built, e.ok);
      HandHalts(w.jobs[n], w.worker.hand, at, e.built, e.ok);
    }
  }

  lemma StepFinishes(w: World, n: nat, e: Event)
    requires WillFinish(w, n) && e.Works?
    ensures WillFinish(Next(w, e), n)
    ensures w.worker.Busy? ==> 0 <= OpsLeft(Next(w, e).worker) < OpsLeft(w.worker)
  {
    if w.worker.Busy? {
      WorkKeepsInv(w, e.built, e.ok);
      HandGoesThrough(w.jobs[n], w.worker.hand, e.built, e.ok);
    }
  }

  lemma {:induction false} RunStops(w: World, n: nat, at: nat, events: seq<Event>)
    requires WillStop(w, n, at) && OnlyWorks(events) && |events| >= OpsLeft(w.worker)
    ensures WillStop(Run(w, events), n, at) && Run(w, events).worker == Idle
    decreases |events|
  {
    if events != [] {
      StepStops(w, n, at, events[0]);
      RunStops(Next(w, events[0]), n, at, events[1..]);
    } else if w.worker.Busy? {
      StepStops(w, n, at, Works([], true));
    }
  }

  lemma {:induction false} RunFinishes(w: World, n: nat, events: seq<Event>)
    requires WillFinish(w, n) && OnlyWorks(events) && |events| >= OpsLeft(w.worker)
    ensures WillFinish(Run(w, events), n) && Run(w, events).worker == Idle
    decreases |events|
  {
    if events != [] {
      StepFinishes(w, n, events[0]);
      RunFinishes(Next(w, events[0]), n, events[1..]);
    } else if w.worker.Busy? {
      StepFinishes(w, n, Works([], true));
    }
  }

  lemma StopKeepsInv(w: World, n: nat, seen: Status)
    requires InLoop(w, n)
    ensures InLoop(Next(w, Stops(n, seen)), n) && Next(w, Stops(n, seen)).worker == w.worker
  {
    OtherStepsKeepInv(w, Stops(n, seen));
  }

  /** A stop written to a running job, wherever its worker is in the loop, with a recipient left to ask before:
      however the sends go, the worker left alone pauses right there if and only if the stop was read as
      running; else it goes on to the end. */
  lemma StopIsHeardIff(w: World, n: nat, seen: Status, events: seq<Event>)
    requires InLoop(w, n) && w.jobs[n].status == Running && NextCheck(w.worker.hand) < |w.worker.hand.list|
    requires OnlyWorks(events) && |events| >= OpsLeft(w.worker)
    ensures var end := Run(Next(w, Stops(n, seen)), events);
      && end.worker == Idle && n < |end.jobs|
      && (end.jobs[n].status == Paused <==> seen == Running)
      && (seen == Running ==> end.jobs[n].cursor == NextCheck(w.worker.hand))
      && (seen != Running ==> end.jobs[n].status == Done && end.jobs[n].cursor == |end.jobs[n].recipients|)
  {
    StopKeepsInv(w, n, seen);
    var asked := Next(w, Stops(n, seen));
    if seen == Running {
      RunStops(asked, n, NextCheck(w.worker.hand), events);
    } else {
      RunFinishes(asked, n, events);
      assert JobSound(Run(asked, events).jobs[n]);
    }
  }

  /** Read as queued before the claim and written after it, the stop marks the job paused and the run goes on
      over it: left alone, it has sent to every recipient but the channels when it is done. */
  lemma LostStopSendsToAll(w: World, n: nat, events: seq<Event>)
    requires InLoop(w, n) && OnlyWorks(events) && |events| >= OpsLeft(w.worker)
    ensures var paused := Next(w, Stops(n, Queued)); var end := Run(paused, events);
      && paused.jobs[n].status == Paused
      && n < |end.jobs| && end.jobs[n].status == Done
      && forall k :: 0 <= k < |end.jobs[n].recipients| && !IsChannel(end.jobs[n].recipients[k]) ==>
           end.attempts[(n, k)] >= 1
  {
    StopKeepsInv(w, n, Queued);
    var paused := Next(w, Stops(n, Queued));
    RunFinishes(paused, n, events);
    var end := Run(paused, events);
    assert JobSound(end.jobs[n]);
    forall k | 0 <= k < |end.jobs[n].recipients| && !IsChannel(end.jobs[n].recipients[k])
      ensures end.attempts[(n, k)] >= 1
    {
      assert IndexSound(end, n, k);
    }
  }

  /** A stop read as running and written after the run has ended hides that it is done: the job waits to be
      cancelled until the next restart, and is then a paused one that, but for an empty list, nobody can
      resume. */
  lemma LateStopHidesDone(w: World, n: nat)
    requires Inv(w) && n < |w.jobs| && w.jobs[n].status == Done
    ensures var late := Next(w, Stops(n, Running)).jobs;
      && late[n] == w.jobs[n].(status := CancelRequested) && !CanResume(late[n])
      && Recover(late)[n] == w.jobs[n].(status := Paused)
      && (CanResume(Recover(late)[n]) <==> w.jobs[n].recipients == [])
  {
    assert JobSound(w.jobs[n]);
  }

  // ---------- a job that is waiting, or whose worker died, is finished ----------

  predicate IsActive(j: Job) {
    j.status == Queued || j.status == Running
  }

  /** The jobs process dies, is started again and takes a job. */
  function Reborn(w: World): World {
    Next(Next(Next(w, Dies), Restarts), Claims)
  }

  lemma RebornTakesTheOldest(w: World, n: nat)
    requires Inv(w) && n < |w.jobs| && IsActive(w.jobs[n])
    requires forall k :: 0 <= k < n ==> !IsActive(w.jobs[k])
    ensures var up, j := Reborn(w), w.jobs[n];
      && Inv(up) && |up.jobs| == |w.jobs| && up.jobs[n] == j.(status := Running)
      && (forall k :: 0 <= k < |w.jobs| && k != n ==> up.jobs[k] == RecoveredJob(w.jobs[k]))
      && up.worker == Busy(Hand(n, Freezing, [], j.cursor, j.sent, j.failed, j.skipped))
      && up.attempts == w.attempts
  {
    OtherStepsKeepInv(w, Dies);
    OtherStepsKeepInv(Next(w, Dies), Restarts);
    OtherStepsKeepInv(Next(Next(w, Dies), Restarts), Claims);
    OldestIsClaimed(Recover(w.jobs));
  }

  lemma StartsItsLoop(w: World, n: nat, built: seq<int>, ok: bool)
    requires Inv(w) && n < |w.jobs| && w.jobs[n].status == Running && w.worker.Busy?
    requires w.worker.hand.job == n && w.worker.hand.pc == Freezing
    ensures var going := Next(Next(w, Works(built, ok)), Works(built, ok));
      && WillFinish(going, n) && going.worker.Busy?
      && going.jobs[n].recipients == if w.jobs[n].recipients == [] then built else w.jobs[n].recipients
  {
    WorkKeepsInv(w, built, ok);
    WorkKeepsInv(Next(w, Works(built, ok)), built, ok);
  }

  /** Wherever the worker is, when the jobs process dies and is started again the oldest job that waited or ran
      goes on from its cursor; left alone it is done, with a message sent to everyone on its list but the
      channels. */
  lemma RestartFinishesTheOldest(w: World, n: nat, built: seq<int>, ok: bool, events: seq<Event>)
    requires Inv(w) && n < |w.jobs| && IsActive(w.jobs[n])
    requires forall k :: 0 <= k < n ==> !IsActive(w.jobs[k])
    requires var going := Next(Next(Reborn(w), Works(built, ok)), Works(built, ok));
             OnlyWorks(events) && |events| >= OpsLeft(going.worker)
    ensures var end := Run(Next(Next(Reborn(w), Works(built, ok)), Works(built, ok)), events);
      && end.worker == Idle && n < |end.jobs| && end.jobs[n].status == Done
      && end.jobs[n].recipients == (if w.jobs[n].recipients == [] then built else w.jobs[n].recipients)
      && forall k :: 0 <= k < |end.jobs[n].recipients| && !IsChannel(end.jobs[n].recipients[k]) ==>
           end.attempts[(n, k)] >= 1
  {
    RebornTakesTheOldest(w, n);
    StartsItsLoop(Reborn(w), n, built, ok);
    var going := Next(Next(Reborn(w), Works(built, ok)), Works(built, ok));
    RunFinishes(going, n, events);
    var end := Run(going, events);
    assert JobSound(end.jobs[n]);
    if going.jobs[n].recipients != [] {
      ListIsFrozen(going, events, n);
    } else {
      EmptyStays(going, n, events);
    }
    forall k | 0 <= k < |end.jobs[n].recipients| && !IsChannel(end.jobs[n].recipients[k])
      ensures end.attempts[(n, k)] >= 1
    {
      assert IndexSound(end, n, k);
    }
  }

  /** A loop over an empty list writes no list. */
  lemma {:induction false} EmptyStays(w: World, n: nat, events: seq<Event>)
    requires WillFinish(w, n) && OnlyWorks(events) && w.jobs[n].recipients == []
    ensures n < |Run(w, events).jobs| && Run(w, events).jobs[n].recipients == []
    decreases |events|
  {
    if events != [] {
      StepFinishes(w, n, events[0]);
      EmptyStays(Next(w, events[0]), n, events[1..]);
    }
  }

  /** Job n runs, and nobody is at it. */
  ghost predicate Stranded(w: World, n: nat, j: Job) {
    n < |w.jobs| && w.jobs[n] == j && j.status == Running && (w.worker.Busy? ==> w.worker.hand.job != n)
  }

  ghost predicate LeavesAlone(e: Event, n: nat) {
    e != Restarts && (e.Stops? ==> e.job != n)
  }

  lemma StepStrands(w: World, n: nat, j: Job, e: Event)
    requires Inv(w) && Stranded(w, n, j) && LeavesAlone(e, n)
    ensures Stranded(Next(w, e), n, j)
    ensures forall k {:trigger w.attempts[(n, k)]} :: Next(w, e).attempts[(n, k)] == w.attempts[(n, k)]
  {
    OldestIsClaimed(w.jobs);
  }

  lemma {:induction false} StaysStranded(w: World, n: nat, j: Job, events: seq<Event>, k: nat)
    requires Inv(w) && Stranded(w, n, j) && forall i :: 0 <= i < |events| ==> LeavesAlone(events[i], n)
    ensures Stranded(Run(w, events), n, j) && Run(w, events).attempts[(n, k)] == w.attempts[(n, k)]
    decreases |events|
  {
    if events != [] {
      StepStrands(w, n, j, events[0]);
      assert Run(w, [events[0]]) == Next(w, events[0]) by { assert [events[0]][1..] == []; }
      RunKeepsInv(w, [events[0]]);
      StaysStranded(Next(w, events[0]), n, j, events[1..], k);
    }
  }

  /** An exception in the loop leaves its job running with nobody at it: through every run without a restart or
      a stop of that job, its row stays as it is and it sends nothing, though the worker takes other jobs. */
  lemma RaisedJobWaitsForARestart(w: World, n: nat, events: seq<Event>, k: nat)
    requires Inv(w) && n < |w.jobs| && w.jobs[n].status == Running
    requires w.worker.Busy? && w.worker.hand.job == n
    requires forall i :: 0 <= i < |events| ==> LeavesAlone(events[i], n)
    ensures Next(w, Raises).worker == Idle
    ensures var end := Run(Next(w, Raises), events);
      n < |end.jobs| && end.jobs[n] == w.jobs[n] && end.attempts[(n, k)] == w.attempts[(n, k)]
  {
    OtherStepsKeepInv(w, Raises);
    StaysStranded(Next(w, Raises), n, w.jobs[n], events, k);
  }

  /** A new job waits behind the others, with no list yet and nobody counted. */
  lemma AddedJobWaits(w: World, namesItsOwn: bool)
    ensures var after := Next(w, Adds(namesItsOwn));
      && after == w.(jobs := after.jobs) && |after.jobs| == |w.jobs| + 1 && w.jobs <= after.jobs
      && var j := after.jobs[|w.jobs|];
         && j.status == Queued && j.recipients == [] && j.namesItsOwn == namesItsOwn && JobSound(j)
         && j.total == j.cursor == 0
  {
  }
}
