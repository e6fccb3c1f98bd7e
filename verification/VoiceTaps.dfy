/** Taps on a collection while and after a run of it: a second one while the run is on its way changes nothing, and
    another format of a run that is done costs nothing. */
module VoiceTaps {
  import opened Prelude
  import opened VoiceQueue
  import opened VoiceRuns
  import opened VoiceLaunch

  // ---------- a second tap ----------

  predicate Rivals(t: Tables, a: VoiceRun, b: VoiceRun) {
    a.batch == b.batch && OnItsWay(t, a, a.batch) && OnItsWay(t, b, b.batch)
  }

  /** A batch has at most one run on its way. */
  ghost predicate OneRunEach(t: Tables) {
    forall k, l :: 0 <= k < |t.runs| && 0 <= l < |t.runs| && Rivals(t, t.runs[k], t.runs[l]) ==> k == l
  }

  /** A settle changes nothing but the status of what was uploading, and ends that. */
  lemma SettleMoves(t: Tables, now: int, i: nat)
    requires RunsSound(t) && i < |t.requests|
    ensures |Settle(t, now).requests| == |t.requests|
    ensures var r, r' := t.requests[i], Settle(t, now).requests[i];
      r' == r || (r.status == Uploading && (r' == r.(status := Pending) || r' == r.(status := Failed)))
  {
    StaleKeepsRuns(t, now);
    SettleChangesFinals(FailStale(t.requests, now), t.runs);
    assert Settled(FailStale(t.requests, now), t.runs, i, Settle(t, now).requests[i]);
  }

  /** What is done or failed stays out of the queue. */
  lemma NothingRevives(w: World, s: Step, limits: int -> nat, i: nat)
    requires RunsSound(w.t) && OneWorker(w) && Allowed(w, s, limits) && i < |w.t.requests|
    ensures |w.t.requests| <= |After(w, s).requests|
    ensures InFlight(After(w, s).requests[i].status) ==> InFlight(w.t.requests[i].status)
  {
    if s.Settles? {
      SettleMoves(w.t, s.now, i);
    } else if s.Launches? {
      LaunchKeepsWorking(w.t, s.o, s.limit, s.expected, s.now);
    } else if s.Claims? || s.Completes? || s.Retries? {
      WorkRevivesNothing(w, s, limits, i);
    }
  }

  lemma WorkRevivesNothing(w: World, s: Step, limits: int -> nat, i: nat)
    requires OneWorker(w) && Allowed(w, s, limits) && (s.Claims? || s.Completes? || s.Retries?)
    requires i < |w.t.requests|
    ensures |After(w, s).requests| == |w.t.requests|
    ensures InFlight(After(w, s).requests[i].status) ==> InFlight(w.t.requests[i].status)
  {
  }

  lemma RunsGrowByLaunches(w: World, s: Step)
    ensures !s.Launches? ==> After(w, s).runs == w.t.runs
    ensures s.Launches? && After(w, s).runs != w.t.runs ==>
      Current(w.t, s.o.batch).None? && |After(w, s).runs| == |w.t.runs| + 1
      && After(w, s).runs[..|w.t.runs|] == w.t.runs && After(w, s).runs[|w.t.runs|].batch == s.o.batch
  {
  }

  lemma StepKeepsOneRun(w: World, s: Step, limits: int -> nat)
    requires RunsSound(w.t) && OneWorker(w) && Allowed(w, s, limits) && OneRunEach(w.t)
    ensures OneRunEach(After(w, s))
  {
    var t, t' := w.t, After(w, s);
    RunsGrowByLaunches(w, s);
    forall k | 0 <= k < |t.runs|
      ensures t'.runs[k] == t.runs[k]
      ensures OnItsWay(t', t'.runs[k], t'.runs[k].batch) ==> OnItsWay(t, t.runs[k], t.runs[k].batch)
    {
      assert t'.runs[..|t.runs|][k] == t'.runs[k];
      assert RunShape(t.requests, t.runs[k]);
      NothingRevives(w, s, limits, t.runs[k].request);
    }
  }

  lemma {:induction false} RunKeepsOneRun(w: World, steps: seq<Step>, limits: int -> nat)
    requires RunsSound(w.t) && OneWorker(w) && OneRunEach(w.t) && AllAllowed(w, steps, limits)
    ensures OneRunEach(Run(w, steps).t)
    decreases |steps|
  {
    if steps != [] {
      StepKeepsOneRun(w, steps[0], limits);
      StepKeepsRuns(w, steps[0], limits);
      StepKeepsWorker(w, steps[0], limits);
      RunKeepsOneRun(Next(w, steps[0]), steps[1..], limits);
    }
  }

  lemma CurrentIs(t: Tables, k: nat, batch: nat)
    requires OneRunEach(t) && k < |t.runs| && OnItsWay(t, t.runs[k], batch)
    ensures Current(t, batch) == Some(t.runs[k].request)
  {
    var i := First(t.runs, (r: VoiceRun) => OnItsWay(t, r, batch));
    assert i.Some? && Rivals(t, t.runs[i.value], t.runs[k]);
  }

  /** In every reachable state, while a run of a batch is on its way, whatever else has happened since its
      launch, every order on that batch changes nothing: a stale one is told so, any other is given that run. */
  lemma SecondTapChangesNothing(steps: seq<Step>, limits: int -> nat, k: nat, o: Order, limit: nat, expected: nat,
                                now: int)
    requires AllAllowed(START, steps, limits)
    requires k < |Run(START, steps).t.runs| && OnItsWay(Run(START, steps).t, Run(START, steps).t.runs[k], o.batch)
    ensures var t := Run(START, steps).t;
      Launch(t, o, limit, expected, now)
      == (t, if Fresh(t, o, now) then AlreadyRunning(t.runs[k].request) else Changed)
  {
    RunKeepsOneRun(START, steps, limits);
    var t := Run(START, steps).t;
    CurrentIs(t, k, o.batch);
  }

  // ---------- another format later ----------

  ghost predicate PaidByDone(t: Tables, chat: int, ref: Ref) {
    exists i :: 0 <= i < |t.requests| && PaysFor(t.requests[i], chat, ref) && t.requests[i].status == Done
  }

  /** What the downloads and the worker keep about the charges of private recordings (app/service/ai/voice.py,
      _reconcile, and voice_worker.py, charged): a charge is taken back only when a request that is done has
      paid for the recording; and a recording is done only when it has its text. */
  ghost predicate Charging(w: World, s: Step, refs: set<Ref>) {
    && (s.Releases? && s.charged == Some(0) && s.id < |w.t.requests| && w.t.requests[s.id].ref in refs ==>
          w.t.requests[s.id].seconds == 0)
    && (s.Completes? && w.worker.Some? && w.worker.value < |w.t.requests|
        && w.t.requests[w.worker.value].ref in refs ==>
          var r := w.t.requests[w.worker.value];
          && (s.charge == Some(0) ==> r.seconds == 0 || PaidByDone(w.t, r.chat, r.ref))
          && r.ref in w.t.transcripts)
  }

  ghost predicate AllCharging(w: World, steps: seq<Step>, limits: int -> nat, refs: set<Ref>)
    decreases |steps|
  {
    steps == [] || (Allowed(w, steps[0], limits) && Charging(w, steps[0], refs)
                    && AllCharging(Next(w, steps[0]), steps[1..], limits, refs))
  }

  /** The request still pays for the recording, or one that is done does. */
  ghost predicate StillPaid(t: Tables, p: nat, chat: int, ref: Ref) {
    p < |t.requests| && (PaysFor(t.requests[p], chat, ref) || PaidByDone(t, chat, ref))
  }

  /** Done and failed requests stay what they are. */
  lemma EndedStays(w: World, s: Step, limits: int -> nat, i: nat)
    requires RunsSound(w.t) && OneWorker(w) && Allowed(w, s, limits)
    requires i < |w.t.requests| && (w.t.requests[i].status == Done || w.t.requests[i].status == Failed)
    ensures i < |After(w, s).requests|
    ensures After(w, s).requests[i] == w.t.requests[i]
  {
    if s.Settles? {
      SettleMoves(w.t, s.now, i);
    } else if s.Launches? {
      LaunchKeepsWorking(w.t, s.o, s.limit, s.expected, s.now);
    } else {
      PlainStepKeepsEnded(w, s, limits, i);
    }
  }

  lemma PlainStepKeepsEnded(w: World, s: Step, limits: int -> nat, i: nat)
    requires OneWorker(w) && Allowed(w, s, limits) && !s.Settles? && !s.Launches?
    requires i < |w.t.requests| && (w.t.requests[i].status == Done || w.t.requests[i].status == Failed)
    ensures i < |After(w, s).requests| && After(w, s).requests[i] == w.t.requests[i]
  {
  }

  lemma DoneStaysPaid(w: World, s: Step, limits: int -> nat, chat: int, ref: Ref)
    requires RunsSound(w.t) && OneWorker(w) && Allowed(w, s, limits) && PaidByDone(w.t, chat, ref)
    ensures PaidByDone(After(w, s), chat, ref)
  {
    var i :| 0 <= i < |w.t.requests| && PaysFor(w.t.requests[i], chat, ref) && w.t.requests[i].status == Done;
    EndedStays(w, s, limits, i);
  }

  /** Whose request and for what stays; a step either keeps the charge, or it is one of those that set it. */
  lemma ChargeMoves(w: World, s: Step, limits: int -> nat, p: nat)
    requires RunsSound(w.t) && OneWorker(w) && Allowed(w, s, limits) && p < |w.t.requests|
    ensures p < |After(w, s).requests|
    ensures var r, r' := w.t.requests[p], After(w, s).requests[p];
      && r'.chat == r.chat && r'.ref == r.ref
      && (r'.seconds == r.seconds
          || (s.Releases? && s.id == p && s.charged == Some(r'.seconds))
          || (s.Completes? && w.worker == Some(p) && s.charge == Some(r'.seconds)))
  {
    if s.Settles? {
      SettleMoves(w.t, s.now, p);
    } else if s.Launches? {
      LaunchKeepsWorking(w.t, s.o, s.limit, s.expected, s.now);
    }
  }

  lemma StepStaysPaid(w: World, s: Step, limits: int -> nat, refs: set<Ref>, p: nat, chat: int, ref: Ref)
    requires ref in refs
    requires RunsSound(w.t) && OneWorker(w) && Allowed(w, s, limits) && Charging(w, s, refs)
    requires StillPaid(w.t, p, chat, ref)
    requires p < |After(w, s).requests| ==> After(w, s).requests[p].status != Failed
    ensures StillPaid(After(w, s), p, chat, ref)
  {
    ChargeMoves(w, s, limits, p);
    if PaidByDone(w.t, chat, ref) {
      DoneStaysPaid(w, s, limits, chat, ref);
    }
  }

  lemma {:induction false} EndedStaysOver(w: World, steps: seq<Step>, limits: int -> nat, refs: set<Ref>, i: nat)
    requires RunsSound(w.t) && OneWorker(w) && AllCharging(w, steps, limits, refs)
    requires i < |w.t.requests| && (w.t.requests[i].status == Done || w.t.requests[i].status == Failed)
    ensures i < |Run(w, steps).t.requests| && Run(w, steps).t.requests[i] == w.t.requests[i]
    decreases |steps|
  {
    if steps != [] {
      EndedStays(w, steps[0], limits, i);
      StepKeepsRuns(w, steps[0], limits);
      StepKeepsWorker(w, steps[0], limits);
      EndedStaysOver(Next(w, steps[0]), steps[1..], limits, refs, i);
    }
  }

  /** What a request paid for stays paid, unless that request fails. */
  lemma {:induction false} PaidStaysPaid(w: World, steps: seq<Step>, limits: int -> nat, refs: set<Ref>, p: nat,
                                         chat: int, ref: Ref)
    requires ref in refs
    requires RunsSound(w.t) && OneWorker(w) && AllCharging(w, steps, limits, refs) && StillPaid(w.t, p, chat, ref)
    requires p < |Run(w, steps).t.requests| ==> Run(w, steps).t.requests[p].status != Failed
    ensures StillPaid(Run(w, steps).t, p, chat, ref)
    decreases |steps|
  {
    if steps != [] {
      var w' := Next(w, steps[0]);
      StepKeepsRuns(w, steps[0], limits);
      StepKeepsWorker(w, steps[0], limits);
      ChargeMoves(w, steps[0], limits, p);
      if w'.t.requests[p].status == Failed {
        EndedStaysOver(w', steps[1..], limits, refs, p);
      }
      StepStaysPaid(w, steps[0], limits, refs, p, chat, ref);
      PaidStaysPaid(w', steps[1..], limits, refs, p, chat, ref);
    }
  }

  // the texts

  ghost predicate TextWhenDone(t: Tables, i: nat)
    requires i < |t.requests|
  {
    t.requests[i].status == Done ==> t.requests[i].ref in t.transcripts
  }

  lemma StepKeepsText(w: World, s: Step, limits: int -> nat, refs: set<Ref>, i: nat)
    requires RunsSound(w.t) && OneWorker(w) && Allowed(w, s, limits) && Charging(w, s, refs)
    requires i < |w.t.requests| && w.t.requests[i].ref in refs && TextWhenDone(w.t, i)
    ensures i < |After(w, s).requests| && TextWhenDone(After(w, s), i)
    ensures After(w, s).requests[i].ref == w.t.requests[i].ref
  {
    ChargeMoves(w, s, limits, i);
    if s.Settles? {
      SettleMoves(w.t, s.now, i);
    }
  }

  lemma {:induction false} RunKeepsText(w: World, steps: seq<Step>, limits: int -> nat, refs: set<Ref>, i: nat)
    requires RunsSound(w.t) && OneWorker(w) && AllCharging(w, steps, limits, refs)
    requires i < |w.t.requests| && w.t.requests[i].ref in refs && TextWhenDone(w.t, i)
    ensures i < |Run(w, steps).t.requests| && TextWhenDone(Run(w, steps).t, i)
    ensures Run(w, steps).t.requests[i].ref == w.t.requests[i].ref
    decreases |steps|
  {
    if steps != [] {
      StepKeepsText(w, steps[0], limits, refs, i);
      StepKeepsRuns(w, steps[0], limits);
      StepKeepsWorker(w, steps[0], limits);
      RunKeepsText(Next(w, steps[0]), steps[1..], limits, refs, i);
    }
  }

  // the members of a frozen batch

  /** The batch is closed for good, and every recording in it is one of `refs`. */
  ghost predicate ClosedWith(t: Tables, b: nat, refs: set<Ref>) {
    && b < |t.batches| && t.batches[b].state == Frozen
    && forall i :: 0 <= i < |t.items| && t.items[i].batch == b ==> t.items[i].ref in refs
  }

  lemma {:induction false} WithoutIsPart(items: seq<Item>, id: nat)
    ensures forall i :: 0 <= i < |Without(items, id)| ==> Without(items, id)[i] in items
  {
    if items != [] {
      WithoutIsPart(items[..|items| - 1], id);
    }
  }

  lemma StepKeepsClosed(w: World, s: Step, b: nat, refs: set<Ref>)
    requires ClosedWith(w.t, b, refs)
    ensures ClosedWith(After(w, s), b, refs)
  {
    if s.Discards? {
      WithoutIsPart(w.t.items, s.item);
      forall i | 0 <= i < |After(w, s).items| && After(w, s).items[i].batch == b
        ensures After(w, s).items[i].ref in refs
      {
        assert After(w, s).items[i] in w.t.items;
      }
    }
  }

  lemma {:induction false} RunKeepsClosed(w: World, steps: seq<Step>, b: nat, refs: set<Ref>)
    requires ClosedWith(w.t, b, refs)
    ensures ClosedWith(Run(w, steps).t, b, refs)
    decreases |steps|
  {
    if steps != [] {
      StepKeepsClosed(w, steps[0], b, refs);
      RunKeepsClosed(Next(w, steps[0]), steps[1..], b, refs);
    }
  }

  // the next launch

  ghost function RefsOf(rows: seq<Item>): set<Ref> {
    set i | 0 <= i < |rows| :: rows[i].ref
  }

  /** What is launched is closed, and has the recordings launched. */
  lemma LaunchCloses(t: Tables, o: Order, limit: nat, expected: nat, now: int)
    requires Launch(t, o, limit, expected, now).1.Started?
    ensures ClosedWith(Launch(t, o, limit, expected, now).0, o.batch, RefsOf(Rows(t.items, o.batch)))
  {
    RowsAreTheMembers(t.items, o.batch);
    var rows := Rows(t.items, o.batch);
    forall i | 0 <= i < |t.items| && t.items[i].batch == o.batch
      ensures t.items[i].ref in RefsOf(rows)
    {
      assert t.items[i] in rows;
      var j :| 0 <= j < |rows| && rows[j] == t.items[i];
    }
  }

  /** A run that is done: each of its recordings was, and nobody who had paid for one failed. */
  ghost predicate WentWell(before: Tables, end: Tables, o: Order) {
    var rows, n := Rows(before.items, o.batch), |before.requests|;
    && n + |rows| <= |end.requests|
    && (forall k :: n <= k < n + |rows| ==> end.requests[k].status == Done)
    && (forall p, i :: 0 <= p < n && 0 <= i < |rows| && PaysFor(before.requests[p], o.chat, rows[i].ref) ==>
          end.requests[p].status != Failed)
  }

  /** The request that pays for a launched recording: one of the run, or an older one. */
  lemma SomeonePays(t: Tables, t': Tables, o: Order, now: int, i: nat) returns (p: nat)
    requires Grown(t, t', o, now)
    requires var rows := Rows(t.items, o.batch); i < |rows| && rows[i].seconds > 0 && !SeenBefore(rows, i)
    ensures p < |t.requests| + |Rows(t.items, o.batch)| && p < |t'.requests|
    ensures PaysFor(t'.requests[p], o.chat, Rows(t.items, o.batch)[i].ref)
    ensures p < |t.requests| ==> t'.requests[p] == t.requests[p]
  {
    GrownCarries(t, t', o, now);
    LaunchPays(t, t', o, now, i);
    p :| 0 <= p < |t'.requests| && PaysFor(t'.requests[p], o.chat, Rows(t.items, o.batch)[i].ref);
  }

  lemma RowStaysPaid(before: Tables, o: Order, now: int, w: World, steps: seq<Step>, limits: int -> nat, i: nat)
    requires Grown(before, w.t, o, now)
    requires RunsSound(w.t) && OneWorker(w)
    requires AllCharging(w, steps, limits, RefsOf(Rows(before.items, o.batch)))
    requires WentWell(before, Run(w, steps).t, o)
    requires var rows := Rows(before.items, o.batch); i < |rows| && rows[i].seconds > 0 && !SeenBefore(rows, i)
    ensures Free(Run(w, steps).t, o.chat, Rows(before.items, o.batch)[i].ref)
  {
    var ref := Rows(before.items, o.batch)[i].ref;
    RowHasText(before, o, now, w, steps, limits, i);
    var p := SomeonePays(before, w.t, o, now, i);
    PaidStaysPaid(w, steps, limits, RefsOf(Rows(before.items, o.batch)), p, o.chat, ref);
  }

  lemma ChildOfRow(t: Tables, t': Tables, o: Order, now: int, i: nat)
    requires Grown(t, t', o, now) && i < |Rows(t.items, o.batch)|
    ensures |t.requests| + i < |t'.requests|
    ensures Carries(t'.requests[|t.requests| + i], Rows(t.items, o.batch)[i], o)
  {
    GrownCarries(t, t', o, now);
    assert Carries(t'.requests[|t.requests|..][i], Rows(t.items, o.batch)[i], o);
  }

  lemma DoneHasText(w: World, steps: seq<Step>, limits: int -> nat, refs: set<Ref>, child: nat)
    requires RunsSound(w.t) && OneWorker(w) && AllCharging(w, steps, limits, refs) && child < |w.t.requests|
    requires w.t.requests[child].status == Uploading && w.t.requests[child].ref in refs
    requires child < |Run(w, steps).t.requests| ==> Run(w, steps).t.requests[child].status == Done
    ensures w.t.requests[child].ref in Run(w, steps).t.transcripts
  {
    RunKeepsText(w, steps, limits, refs, child);
  }

  lemma RowHasText(before: Tables, o: Order, now: int, w: World, steps: seq<Step>, limits: int -> nat, i: nat)
    requires Grown(before, w.t, o, now)
    requires RunsSound(w.t) && OneWorker(w)
    requires AllCharging(w, steps, limits, RefsOf(Rows(before.items, o.batch)))
    requires WentWell(before, Run(w, steps).t, o) && i < |Rows(before.items, o.batch)|
    ensures Rows(before.items, o.batch)[i].ref in Run(w, steps).t.transcripts
  {
    ChildOfRow(before, w.t, o, now, i);
    DoneHasText(w, steps, limits, RefsOf(Rows(before.items, o.batch)), |before.requests| + i);
  }

  /** Every recording left in the batch is one of the run's. */
  lemma LeftOfTheRun(w: World, steps: seq<Step>, b: nat, rows: seq<Item>, x: Item) returns (i: nat)
    requires ClosedWith(w.t, b, RefsOf(rows)) && x in Rows(Run(w, steps).t.items, b)
    ensures i < |rows| && rows[i].ref == x.ref && !SeenBefore(rows, i)
  {
    RunKeepsClosed(w, steps, b, RefsOf(rows));
    var end := Run(w, steps).t;
    RowsAreTheMembers(end.items, b);
    assert x in end.items && x.batch == b;
    var k :| 0 <= k < |end.items| && end.items[k] == x;
    assert x.ref in RefsOf(rows);
    i := FirstWith(rows, x.ref).value;
  }

  lemma FreeCostsNothing(t: Tables, chat: int, rows: seq<Item>)
    requires forall x :: x in rows ==> Free(t, chat, x.ref)
    ensures Sum(Charges(t, chat, rows)) == 0
  {
    forall j | 0 <= j < |rows|
      ensures Charges(t, chat, rows)[j] == 0
    {
      assert rows[j] in rows;
    }
    NothingAddsUpToNothing(Charges(t, chat, rows));
  }

  lemma NextIsFree(w: World, o: Order, limit: nat, expected: nat, now: int, w1: World, steps: seq<Step>,
                   limits: int -> nat)
    requires Launch(w.t, o, limit, expected, now).1.Started? && w1.t == Launch(w.t, o, limit, expected, now).0
    requires RunsSound(w.t) && RunsSound(w1.t) && OneWorker(w1)
    requires AllCharging(w1, steps, limits, RefsOf(Rows(w.t.items, o.batch)))
    requires forall x :: x in Rows(w.t.items, o.batch) ==> x.seconds > 0
    requires WentWell(w.t, Run(w1, steps).t, o)
    ensures var end := Run(w1, steps).t; Sum(Charges(end, o.chat, Rows(end.items, o.batch))) == 0
  {
    var rows, end := Rows(w.t.items, o.batch), Run(w1, steps).t;
    LaunchGrows(w.t, o, limit, expected, now);
    LaunchCloses(w.t, o, limit, expected, now);
    forall x | x in Rows(end.items, o.batch)
      ensures Free(end, o.chat, x.ref)
    {
      var i := LeftOfTheRun(w1, steps, o.batch, rows, x);
      assert rows[i] in rows;
      RowStaysPaid(w.t, o, now, w1, steps, limits, i);
    }
    FreeCostsNothing(end, o.chat, Rows(end.items, o.batch));
  }

  /** After any launch, whatever happens next: once each recording of the run is done and nobody who had paid
      for one has failed, the next launch of the batch, in whatever format, costs nothing. */
  lemma AnotherFormatIsFree(before: seq<Step>, o: Order, limit: nat, expected: nat, now: int, steps: seq<Step>,
                            limits: int -> nat)
    requires AllAllowed(START, before, limits)
    requires var w, s := Run(START, before), Launches(o, limit, expected, now);
      && Allowed(w, s, limits) && AllCharging(Next(w, s), steps, limits, RefsOf(Rows(w.t.items, o.batch)))
      && Launch(w.t, o, limit, expected, now).1.Started?
      && (forall x :: x in Rows(w.t.items, o.batch) ==> x.seconds > 0)
      && WentWell(w.t, Run(Next(w, s), steps).t, o)
    ensures var end := Run(Next(Run(START, before), Launches(o, limit, expected, now)), steps).t;
      Sum(Charges(end, o.chat, Rows(end.items, o.batch))) == 0
  {
    RunKeepsOrder(START, before, limits);
    var w, s := Run(START, before), Launches(o, limit, expected, now);
    StepKeepsRuns(w, s, limits);
    StepKeepsWorker(w, s, limits);
    NextIsFree(w, o, limit, expected, now, Next(w, s), steps, limits);
  }
}
