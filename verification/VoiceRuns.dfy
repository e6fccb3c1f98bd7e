/** Whole runs of the queue: collections, launches, uploads, failures, retries and passing time, with one worker
    that finishes what it claims. */
module VoiceRuns {
  import opened Prelude
  import opened VoiceQueue

  datatype Step =
    | Stages(chat: int, ref: Ref, message: int, seconds: nat, bytes: nat, now: int)
    | Discards(item: nat, now: int)
    | Selects(batch: nat, chat: int, output: Option<Output>, now: int)
    | Cancels(batch: nat, chat: int, now: int)
    | ShowsCard(batch: nat, card: Option<int>, now: int)
    | Launches(o: Order, limit: nat, expected: nat, now: int)
    | Releases(id: nat, measured: Option<nat>, charged: Option<nat>, now: int)
    | FailsUpload(id: nat, now: int)
    | Settles(now: int)
    | Claims(now: int)
    | Completes(charge: Option<nat>, now: int)
    | Retries(now: int)
    | Transcribes(ref: Ref, now: int)
    | Enqueues(chat: int, ref: Ref, lang: string, kind: Kind, seconds: nat, replyTo: Option<int>, auto: bool, now: int)

  /** worker: the request in the worker's hands. */
  datatype World = World(t: Tables, clock: int, worker: Option<nat>)

  function After(w: World, s: Step): Tables {
    match s
    case Stages(chat, ref, message, seconds, bytes, now) => Stage(w.t, chat, ref, message, seconds, bytes, now).0
    case Discards(item, _) => Discard(w.t, item)
    case Selects(batch, chat, output, now) => Select(w.t, batch, chat, output, now)
    case Cancels(batch, chat, now) => Cancel(w.t, batch, chat, now)
    case ShowsCard(batch, card, _) => ShowCard(w.t, batch, card)
    case Launches(o, limit, expected, now) => Launch(w.t, o, limit, expected, now).0
    case Releases(id, measured, charged, _) => Release(w.t, id, measured, charged)
    case FailsUpload(id, _) => FailChild(w.t, id)
    case Settles(now) => Settle(w.t, now)
    case Claims(now) => Claim(w.t, now).0
    case Completes(charge, _) => if w.worker.None? then w.t else Finish(w.t, w.worker.value, Done, charge)
    case Retries(_) =>
      if w.worker.None? || w.worker.value >= |w.t.requests| then w.t
      else RetryOrFail(w.t, w.worker.value, w.t.requests[w.worker.value].attempts)
    case Transcribes(ref, _) => w.t.(transcripts := w.t.transcripts + {ref})
    case Enqueues(chat, ref, lang, kind, seconds, replyTo, auto, now) =>
      Enqueue(w.t, chat, ref, lang, kind, seconds, replyTo, auto, now).0
  }

  function Next(w: World, s: Step): World {
    World(After(w, s), s.now,
          if s.Claims? then Claim(w.t, s.now).1 else if s.Completes? || s.Retries? then None else w.worker)
  }

  /** What the callers keep: the clock goes on; the worker finishes or retries what it has before it claims
      again; downloads are of recordings; a charge grows only by what the chat's hours still allow. */
  ghost predicate Allowed(w: World, s: Step, limits: int -> nat) {
    && s.now >= w.clock
    && (s.Launches? ==> s.limit == limits(s.o.chat))
    && (s.Releases? || s.FailsUpload? ==> s.id < |w.t.requests| && !IsFinal(w.t.requests[s.id].kind))
    && (s.Releases? && s.charged.Some? && s.charged.value > w.t.requests[s.id].seconds ==>
          Used(w.t.requests, w.t.requests[s.id].chat, s.now - QUOTA_SECONDS)
          + s.charged.value - w.t.requests[s.id].seconds <= limits(w.t.requests[s.id].chat))
    && (s.Claims? ==> w.worker.None?)
    && (s.Completes? || s.Retries? ==> w.worker.Some? && w.worker.value < |w.t.requests|)
    && (s.Completes? && s.charge.Some? ==> s.charge.value <= w.t.requests[w.worker.value].seconds)
    && (s.Enqueues? ==> !IsFinal(s.kind))
    && (s.Enqueues? && s.seconds > 0 ==>
          Used(w.t.requests, s.chat, s.now - QUOTA_SECONDS) + s.seconds <= limits(s.chat))
  }

  ghost predicate AllAllowed(w: World, steps: seq<Step>, limits: int -> nat)
    decreases |steps|
  {
    steps == [] || (Allowed(w, steps[0], limits) && AllAllowed(Next(w, steps[0]), steps[1..], limits))
  }

  function Run(w: World, steps: seq<Step>): World
    decreases |steps|
  {
    if steps == [] then w else Run(Next(w, steps[0]), steps[1..])
  }

  const START := World(Tables([], [], [], [], {}), 0, None)

  // ---------- one worker ----------

  ghost predicate OneWorker(w: World) {
    && (w.worker.Some? ==> w.worker.value < |w.t.requests|)
    && forall i :: 0 <= i < |w.t.requests| ==> (w.t.requests[i].status == Working <==> w.worker == Some(i))
  }

  /** The run's final request comes after its recordings' and does not wait behind automatic ones. */
  ghost predicate RunShape(requests: seq<Request>, run: VoiceRun) {
    && run.request < |requests|
    && IsFinal(requests[run.request].kind) && !requests[run.request].auto
    && forall j :: 0 <= j < |run.members| ==> MemberShape(requests, run, run.members[j].request)
  }

  ghost predicate MemberShape(requests: seq<Request>, run: VoiceRun, m: nat) {
    m < run.request && m < |requests| && !IsFinal(requests[m].kind) && !requests[m].auto
  }

  /** It is not let go before every recording has arrived or failed. */
  ghost predicate Waits(requests: seq<Request>, run: VoiceRun)
    requires RunShape(requests, run)
  {
    requests[run.request].status == Pending || requests[run.request].status == Working ==>
      forall j :: 0 <= j < |run.members| ==> requests[run.members[j].request].status != Uploading
  }

  ghost predicate RunsSound(t: Tables) {
    && (forall k :: 0 <= k < |t.runs| ==> RunShape(t.requests, t.runs[k]) && Waits(t.requests, t.runs[k]))
    && (forall k, l :: 0 <= k < l < |t.runs| ==> t.runs[k].request < t.runs[l].request)
  }

  /** A change of one request that keeps what runs need: its kind, and no upload or early start of a final. */
  ghost predicate Steady(r: Request, r': Request) {
    && r'.kind == r.kind && (!r.auto ==> !r'.auto)
    && (r'.status == Uploading ==> r.status == Uploading)
    && (IsFinal(r.kind) && (r'.status == Pending || r'.status == Working) ==>
          r.status == Pending || r.status == Working)
  }

  lemma SteadyKeepsRuns(t: Tables, t': Tables)
    requires RunsSound(t) && t'.runs == t.runs && |t.requests| <= |t'.requests|
    requires forall i :: 0 <= i < |t.requests| ==> Steady(t.requests[i], t'.requests[i])
    ensures RunsSound(t')
  {
  }

  /** What a settle changes: a final that waited for its recordings goes on, or fails when one failed. */
  ghost predicate Settled(requests: seq<Request>, runs: seq<VoiceRun>, i: nat, r': Request)
    requires i < |requests|
  {
    || r' == requests[i]
    || (&& requests[i].status == Uploading
        && (r' == requests[i].(status := Pending) || r' == requests[i].(status := Failed))
        && exists k :: 0 <= k < |runs| && runs[k].request == i && !SomeMember(requests, runs[k], Uploading))
  }

  lemma {:induction false} SettleChangesFinals(requests: seq<Request>, runs: seq<VoiceRun>)
    requires forall k :: 0 <= k < |runs| ==> RunShape(requests, runs[k])
    ensures |SettleRuns(requests, runs)| == |requests|
    ensures forall i :: 0 <= i < |requests| ==> Settled(requests, runs, i, SettleRuns(requests, runs)[i])
    ensures forall i :: 0 <= i < |requests| && !IsFinal(requests[i].kind) ==>
              SettleRuns(requests, runs)[i] == requests[i]
  {
    if runs != [] {
      var rest, run := runs[..|runs| - 1], runs[|runs| - 1];
      SettleChangesFinals(requests, rest);
      var mid := SettleRuns(requests, rest);
      assert RunShape(requests, run);
      forall j | 0 <= j < |run.members|
        ensures mid[run.members[j].request] == requests[run.members[j].request]
      {
        assert MemberShape(requests, run, run.members[j].request);
      }
      assert SomeMember(mid, run, Uploading) <==> SomeMember(requests, run, Uploading);
      forall i | 0 <= i < |requests|
        ensures Settled(requests, runs, i, SettleRuns(requests, runs)[i])
      {
        assert Settled(requests, rest, i, mid[i]);
        if mid[i] != requests[i] {
          var k :| 0 <= k < |rest| && rest[k].request == i && !SomeMember(requests, rest[k], Uploading);
          assert runs[k] == rest[k];
        }
        assert runs[|runs| - 1] == run;
      }
    }
  }

  lemma StaleKeepsRuns(t: Tables, now: int)
    requires RunsSound(t)
    ensures RunsSound(t.(requests := FailStale(t.requests, now)))
  {
  }

  lemma SettleKeepsRuns(t: Tables, now: int)
    requires RunsSound(t)
    ensures RunsSound(Settle(t, now))
  {
    StaleKeepsRuns(t, now);
    var stale, t' := FailStale(t.requests, now), Settle(t, now);
    SettleChangesFinals(stale, t.runs);
    forall k | 0 <= k < |t.runs|
      ensures RunShape(t'.requests, t.runs[k]) && Waits(t'.requests, t.runs[k])
    {
      var run := t.runs[k];
      assert RunShape(stale, run) && Waits(stale, run);
      forall j | 0 <= j < |run.members|
        ensures MemberShape(t'.requests, run, run.members[j].request)
        ensures t'.requests[run.members[j].request] == stale[run.members[j].request]
      {
        assert MemberShape(stale, run, run.members[j].request);
      }
      assert Settled(stale, t.runs, run.request, t'.requests[run.request]);
      if t'.requests[run.request] != stale[run.request] {
        var l :| 0 <= l < |t.runs| && t.runs[l].request == run.request && !SomeMember(stale, t.runs[l], Uploading);
        assert l == k;
      }
    }
  }

  /** A run added with its requests, the final one last, is sound and leaves the others so. */
  lemma AddedRunIsSound(t: Tables, t': Tables, added: seq<Request>, final: Request, run: VoiceRun)
    requires RunsSound(t) && t'.requests == t.requests + added + [final] && t'.runs == t.runs + [run]
    requires forall j :: 0 <= j < |added| ==> !IsFinal(added[j].kind) && !added[j].auto
    requires IsFinal(final.kind) && !final.auto && final.status == Uploading
    requires run.request == |t.requests| + |added| && |run.members| == |added|
    requires forall j :: 0 <= j < |added| ==> run.members[j].request == |t.requests| + j
    ensures RunsSound(t')
  {
    var same := t'.(runs := t.runs);
    SteadyKeepsRuns(t, same);
    forall j | 0 <= j < |run.members|
      ensures MemberShape(t'.requests, run, run.members[j].request)
    {
      assert t'.requests[|t.requests| + j] == added[j];
    }
    forall k | 0 <= k < |t'.runs|
      ensures RunShape(t'.requests, t'.runs[k]) && Waits(t'.requests, t'.runs[k])
      ensures k < |t.runs| ==> t'.runs[k].request < run.request
    {
      if k < |t.runs| {
        assert RunShape(t.requests, t.runs[k]);
        assert RunShape(same.requests, same.runs[k]) && Waits(same.requests, same.runs[k]);
      }
    }
  }

  lemma LaunchKeepsRuns(t: Tables, o: Order, limit: nat, expected: nat, now: int)
    requires RunsSound(t)
    ensures RunsSound(Launch(t, o, limit, expected, now).0)
  {
    if Launch(t, o, limit, expected, now).1.Started? {
      LaunchedKeepsRuns(t, o, now);
    }
  }

  lemma LaunchedKeepsRuns(t: Tables, o: Order, now: int)
    requires RunsSound(t) && o.batch < |t.batches|
    ensures RunsSound(LaunchedTables(t, o, now))
  {
    var rows, t' := Rows(t.items, o.batch), LaunchedTables(t, o, now);
    AddedRunIsSound(t, t', Children(o, rows, Charges(t, o.chat, rows), now),
                    FinalOf(o, t.batches[o.batch].card, now), t'.runs[|t.runs|]);
  }

  /** What the worker does to the request in its hands. */
  lemma WorkIsSteady(w: World, s: Step, limits: int -> nat, i: nat)
    requires OneWorker(w) && Allowed(w, s, limits) && (s.Claims? || s.Completes? || s.Retries?)
    requires i < |w.t.requests|
    ensures |After(w, s).requests| == |w.t.requests| && Steady(w.t.requests[i], After(w, s).requests[i])
  {
  }

  /** What arrives, and what is asked for. */
  lemma ArrivalIsSteady(w: World, s: Step, limits: int -> nat, i: nat)
    requires Allowed(w, s, limits) && (s.Releases? || s.FailsUpload? || s.Enqueues?)
    requires i < |w.t.requests|
    ensures |w.t.requests| <= |After(w, s).requests| && Steady(w.t.requests[i], After(w, s).requests[i])
  {
  }

  lemma PlainStepIsSteady(w: World, s: Step, limits: int -> nat, i: nat)
    requires OneWorker(w) && Allowed(w, s, limits) && !s.Launches? && !s.Settles? && i < |w.t.requests|
    ensures |w.t.requests| <= |After(w, s).requests| && Steady(w.t.requests[i], After(w, s).requests[i])
  {
    if s.Claims? || s.Completes? || s.Retries? {
      WorkIsSteady(w, s, limits, i);
    } else if s.Releases? || s.FailsUpload? || s.Enqueues? {
      ArrivalIsSteady(w, s, limits, i);
    }
  }

  lemma NoNewRuns(w: World, s: Step)
    requires !s.Launches?
    ensures After(w, s).runs == w.t.runs && |w.t.requests| <= |After(w, s).requests|
  {
  }

  lemma StepKeepsRuns(w: World, s: Step, limits: int -> nat)
    requires RunsSound(w.t) && OneWorker(w) && Allowed(w, s, limits)
    ensures RunsSound(After(w, s))
  {
    if s.Launches? {
      LaunchKeepsRuns(w.t, s.o, s.limit, s.expected, s.now);
    } else if s.Settles? {
      SettleKeepsRuns(w.t, s.now);
    } else {
      NoNewRuns(w, s);
      forall i | 0 <= i < |w.t.requests|
        ensures Steady(w.t.requests[i], After(w, s).requests[i])
      {
        PlainStepIsSteady(w, s, limits, i);
      }
      SteadyKeepsRuns(w.t, After(w, s));
    }
  }

  /** The request costs its chat no more than before. */
  predicate NoDearer(r: Request, r': Request) {
    r'.chat == r.chat && r'.created == r.created && r'.seconds <= r.seconds && (Live(r'.status) ==> Live(r.status))
  }

  lemma SettleKeepsWorking(t: Tables, now: int, i: nat)
    requires RunsSound(t) && i < |t.requests|
    ensures |Settle(t, now).requests| == |t.requests|
    ensures Settle(t, now).requests[i].status == Working <==> t.requests[i].status == Working
    ensures NoDearer(t.requests[i], Settle(t, now).requests[i])
  {
    StaleKeepsRuns(t, now);
    var stale := FailStale(t.requests, now);
    SettleChangesFinals(stale, t.runs);
    assert Settled(stale, t.runs, i, Settle(t, now).requests[i]);
  }

  lemma LaunchKeepsWorking(t: Tables, o: Order, limit: nat, expected: nat, now: int)
    ensures var t' := Launch(t, o, limit, expected, now).0;
      |t.requests| <= |t'.requests| && forall i :: 0 <= i < |t'.requests| ==>
        if i < |t.requests| then t'.requests[i] == t.requests[i] else t'.requests[i].status == Uploading
  {
  }

  /** The other steps change one request, or add one that is pending. */
  lemma PlainStepKeepsWorker(w: World, s: Step, limits: int -> nat)
    requires OneWorker(w) && Allowed(w, s, limits) && !s.Settles? && !s.Launches?
    ensures OneWorker(Next(w, s))
  {
  }

  lemma StepKeepsWorker(w: World, s: Step, limits: int -> nat)
    requires RunsSound(w.t) && OneWorker(w) && Allowed(w, s, limits)
    ensures OneWorker(Next(w, s))
  {
    if s.Settles? {
      forall i | 0 <= i < |w.t.requests|
        ensures Settle(w.t, s.now).requests[i].status == Working <==> w.t.requests[i].status == Working
      {
        SettleKeepsWorking(w.t, s.now, i);
      }
      assert |Settle(w.t, s.now).requests| == |w.t.requests|;
    } else if s.Launches? {
      LaunchKeepsWorking(w.t, s.o, s.limit, s.expected, s.now);
    } else {
      PlainStepKeepsWorker(w, s, limits);
    }
  }

  lemma {:induction false} RunKeepsOrder(w: World, steps: seq<Step>, limits: int -> nat)
    requires RunsSound(w.t) && OneWorker(w) && AllAllowed(w, steps, limits)
    ensures RunsSound(Run(w, steps).t) && OneWorker(Run(w, steps))
    decreases |steps|
  {
    if steps != [] {
      StepKeepsRuns(w, steps[0], limits);
      StepKeepsWorker(w, steps[0], limits);
      RunKeepsOrder(Next(w, steps[0]), steps[1..], limits);
    }
  }

  /** Whenever a worker with empty hands claims the final request of a run, every one of the run's recordings
      is done or has failed for good: retries included, nothing is left out silently. */
  lemma FinalRunsLast(steps: seq<Step>, limits: int -> nat, now: int, k: nat, j: nat)
    requires AllAllowed(START, steps, limits)
    requires var w := Run(START, steps);
      w.worker.None? && k < |w.t.runs| && Claim(w.t, now).1 == Some(w.t.runs[k].request) && j < |w.t.runs[k].members|
    ensures var w := Run(START, steps); var m := w.t.runs[k].members[j].request;
      m < |w.t.requests| && (w.t.requests[m].status == Done || w.t.requests[m].status == Failed)
  {
    RunKeepsOrder(START, steps, limits);
    var w := Run(START, steps);
    var run := w.t.runs[k];
    assert RunShape(w.t.requests, run) && Waits(w.t.requests, run);
    assert MemberShape(w.t.requests, run, run.members[j].request);
    var m := run.members[j].request;
    assert Claimable(w.t.requests[m], now) ==> run.request <= m;
  }

  // ---------- the quota ----------

  lemma {:induction false} UsedShrinks(requests: seq<Request>, chat: int, since: int, later: int)
    requires since <= later
    ensures Used(requests, chat, later) <= Used(requests, chat, since)
  {
    if requests != [] {
      UsedShrinks(requests[..|requests| - 1], chat, since, later);
    }
  }

  lemma {:induction false} UsedNoMore(requests: seq<Request>, after: seq<Request>, chat: int, since: int)
    requires |requests| == |after| && forall i :: 0 <= i < |requests| ==> NoDearer(requests[i], after[i])
    ensures Used(after, chat, since) <= Used(requests, chat, since)
  {
    if requests != [] {
      var n := |requests| - 1;
      UsedNoMore(requests[..n], after[..n], chat, since);
      assert NoDearer(requests[n], after[n]);
    }
  }

  lemma {:induction false} UsedChanged(requests: seq<Request>, i: nat, r: Request, chat: int, since: int)
    requires i < |requests|
    ensures Used(requests[i := r], chat, since)
         == Used(requests, chat, since) - Contribution(requests[i], chat, since) + Contribution(r, chat, since)
  {
    var n := |requests| - 1;
    if i < n {
      UsedChanged(requests[..n], i, r, chat, since);
      assert requests[i := r][..n] == requests[..n][i := r];
    } else {
      assert requests[i := r][..n] == requests[..n];
    }
  }

  lemma {:induction false} UsedAppended(requests: seq<Request>, more: seq<Request>, chat: int, since: int)
    ensures Used(requests + more, chat, since) == Used(requests, chat, since) + Used(more, chat, since)
  {
    if more == [] {
      assert requests + more == requests;
    } else {
      var n := |more| - 1;
      UsedAppended(requests, more[..n], chat, since);
      assert (requests + more)[..|requests| + n] == requests + more[..n];
    }
  }

  lemma {:induction false} UsedByChildren(o: Order, rows: seq<Item>, charges: seq<nat>, now: int, chat: int, since: int)
    requires |charges| == |rows|
    ensures Used(Children(o, rows, charges, now), chat, since) <= if chat == o.chat then Sum(charges) else 0
  {
    if rows != [] {
      var n := |rows| - 1;
      UsedByChildren(o, rows[..n], charges[..n], now, chat, since);
      assert Children(o, rows, charges, now)[..n] == Children(o, rows[..n], charges[..n], now);
    }
  }

  ghost predicate WithinQuota(w: World, limits: int -> nat) {
    forall chat :: Used(w.t.requests, chat, w.clock - QUOTA_SECONDS) <= limits(chat)
  }

  lemma LaunchKeepsQuota(w: World, s: Step, limits: int -> nat, chat: int)
    requires s.Launches? && s.limit == limits(s.o.chat)
    requires Used(w.t.requests, chat, s.now - QUOTA_SECONDS) <= limits(chat)
    ensures Used(After(w, s).requests, chat, s.now - QUOTA_SECONDS) <= limits(chat)
  {
    var (t', launched) := Launch(w.t, s.o, s.limit, s.expected, s.now);
    if launched.Started? {
      var rows, since := Rows(w.t.items, s.o.batch), s.now - QUOTA_SECONDS;
      var charges := Charges(w.t, s.o.chat, rows);
      var children := Children(s.o, rows, charges, s.now);
      var final := FinalOf(s.o, w.t.batches[s.o.batch].card, s.now);
      UsedAppended(w.t.requests + children, [final], chat, since);
      UsedAppended(w.t.requests, children, chat, since);
      UsedByChildren(s.o, rows, charges, s.now, chat, since);
    }
  }

  lemma ReleaseKeepsQuota(w: World, s: Step, limits: int -> nat, chat: int)
    requires s.Releases? && Allowed(w, s, limits)
    requires Used(w.t.requests, chat, s.now - QUOTA_SECONDS) <= limits(chat)
    ensures Used(After(w, s).requests, chat, s.now - QUOTA_SECONDS) <= limits(chat)
  {
    if w.t.requests[s.id].status == Uploading {
      UsedChanged(w.t.requests, s.id, After(w, s).requests[s.id], chat, s.now - QUOTA_SECONDS);
    }
  }

  lemma EnqueueKeepsQuota(w: World, s: Step, limits: int -> nat, chat: int)
    requires s.Enqueues? && Allowed(w, s, limits)
    requires Used(w.t.requests, chat, s.now - QUOTA_SECONDS) <= limits(chat)
    ensures Used(After(w, s).requests, chat, s.now - QUOTA_SECONDS) <= limits(chat)
  {
    var t' := After(w, s);
    if |t'.requests| > |w.t.requests| {
      UsedAppended(w.t.requests, [t'.requests[|w.t.requests|]], chat, s.now - QUOTA_SECONDS);
      assert t'.requests == w.t.requests + [t'.requests[|w.t.requests|]];
    } else {
      UsedNoMore(w.t.requests, t'.requests, chat, s.now - QUOTA_SECONDS);
    }
  }

  lemma SettleKeepsQuota(t: Tables, now: int, chat: int, since: int)
    requires RunsSound(t)
    ensures Used(Settle(t, now).requests, chat, since) <= Used(t.requests, chat, since)
  {
    var after := Settle(t, now).requests;
    assert |after| == |t.requests|;
    forall i | 0 <= i < |t.requests|
      ensures NoDearer(t.requests[i], after[i])
    {
      SettleKeepsWorking(t, now, i);
    }
    UsedNoMore(t.requests, after, chat, since);
  }

  lemma PlainStepIsNoDearer(w: World, s: Step, limits: int -> nat)
    requires OneWorker(w) && Allowed(w, s, limits)
    requires !s.Launches? && !s.Releases? && !s.Enqueues? && !s.Settles?
    ensures |After(w, s).requests| == |w.t.requests|
    ensures forall i :: 0 <= i < |w.t.requests| ==> NoDearer(w.t.requests[i], After(w, s).requests[i])
  {
  }

  lemma StepKeepsQuota(w: World, s: Step, limits: int -> nat)
    requires RunsSound(w.t) && OneWorker(w) && WithinQuota(w, limits) && Allowed(w, s, limits)
    ensures WithinQuota(Next(w, s), limits)
  {
    forall chat
      ensures Used(After(w, s).requests, chat, s.now - QUOTA_SECONDS) <= limits(chat)
    {
      StepKeepsChatQuota(w, s, limits, chat);
    }
  }

  lemma StepKeepsChatQuota(w: World, s: Step, limits: int -> nat, chat: int)
    requires RunsSound(w.t) && OneWorker(w) && Allowed(w, s, limits)
    requires Used(w.t.requests, chat, w.clock - QUOTA_SECONDS) <= limits(chat)
    ensures Used(After(w, s).requests, chat, s.now - QUOTA_SECONDS) <= limits(chat)
  {
    UsedShrinks(w.t.requests, chat, w.clock - QUOTA_SECONDS, s.now - QUOTA_SECONDS);
    if s.Launches? {
      LaunchKeepsQuota(w, s, limits, chat);
    } else if s.Releases? {
      ReleaseKeepsQuota(w, s, limits, chat);
    } else if s.Enqueues? {
      EnqueueKeepsQuota(w, s, limits, chat);
    } else if s.Settles? {
      SettleKeepsQuota(w.t, s.now, chat, s.now - QUOTA_SECONDS);
    } else {
      PlainStepIsNoDearer(w, s, limits);
      UsedNoMore(w.t.requests, After(w, s).requests, chat, s.now - QUOTA_SECONDS);
    }
  }

  lemma {:induction false} RunKeepsQuota(w: World, steps: seq<Step>, limits: int -> nat)
    requires RunsSound(w.t) && OneWorker(w) && WithinQuota(w, limits) && AllAllowed(w, steps, limits)
    ensures WithinQuota(Run(w, steps), limits)
    decreases |steps|
  {
    if steps != [] {
      StepKeepsRuns(w, steps[0], limits);
      StepKeepsWorker(w, steps[0], limits);
      StepKeepsQuota(w, steps[0], limits);
      RunKeepsQuota(Next(w, steps[0]), steps[1..], limits);
    }
  }

  lemma QuotaLasts(w: World, limits: int -> nat, chat: int, now: int)
    requires WithinQuota(w, limits) && now >= w.clock
    ensures Used(w.t.requests, chat, now - QUOTA_SECONDS) <= limits(chat)
  {
    UsedShrinks(w.t.requests, chat, w.clock - QUOTA_SECONDS, now - QUOTA_SECONDS);
  }

  /** At every instant of every run, the seconds of a chat's requests of the last 30 days, on their way or
      done, are within its limit. */
  lemma QuotaHoldsAlways(steps: seq<Step>, limits: int -> nat, chat: int, now: int)
    requires AllAllowed(START, steps, limits) && now >= Run(START, steps).clock
    ensures Used(Run(START, steps).t.requests, chat, now - QUOTA_SECONDS) <= limits(chat)
  {
    RunKeepsQuota(START, steps, limits);
    QuotaLasts(Run(START, steps), limits, chat, now);
  }
}
