/** What each transaction of the queue answers and leaves: when a launch is accepted and what it costs each
    recording, what becomes of a run's result, who is claimed, and that nothing else is touched. */
module VoiceAnswers {
  import opened Prelude
  import opened VoiceQueue
  import opened VoiceRuns
  import opened VoiceLaunch

  // ---------- the sums ----------

  ghost function Charged(requests: seq<Request>, chat: int, since: int): set<int> {
    set i | 0 <= i < |requests| && requests[i].chat == chat && requests[i].created >= since
            && requests[i].status != Failed
  }

  ghost function SecondsOf(requests: seq<Request>): int -> nat {
    i => if 0 <= i < |requests| then requests[i].seconds else 0
  }

  /** The used seconds are those of the chat's requests since then that have not failed. */
  lemma {:induction false} UsedIsTheSum(requests: seq<Request>, chat: int, since: int)
    ensures Used(requests, chat, since) == SetSum(Charged(requests, chat, since), SecondsOf(requests))
  {
    if requests != [] {
      var n, rest := |requests| - 1, requests[..|requests| - 1];
      UsedIsTheSum(rest, chat, since);
      SetSumAgrees(Charged(rest, chat, since), SecondsOf(rest), SecondsOf(requests));
      OneMoreIn(Charged(rest, chat, since), Charged(requests, chat, since), n, SecondsOf(requests));
    }
  }

  /** A set grows by n or not at all, and so does a sum over it. */
  lemma OneMoreIn(before: set<int>, after: set<int>, n: int, cost: int -> nat)
    requires n !in before && forall i :: i in after <==> i in before || (i == n && n in after)
    ensures SetSum(after, cost) == SetSum(before, cost) + if n in after then cost(n) else 0
  {
    if n in after {
      forall i
        ensures i in after <==> i in before + {n}
      {
      }
      SetSumWith(before, n, cost);
      assert after == before + {n};
    } else {
      forall i
        ensures i in after <==> i in before
      {
      }
      assert after == before;
    }
  }

  ghost function RowsOf(items: seq<Item>, b: nat): set<int> {
    set i | 0 <= i < |items| && items[i].batch == b
  }

  ghost function Lengths(items: seq<Item>): int -> nat {
    i => if 0 <= i < |items| then items[i].seconds else 0
  }

  ghost function Sizes(items: seq<Item>): int -> nat {
    i => if 0 <= i < |items| then items[i].bytes else 0
  }

  /** The caps are on the seconds and on the bytes of a batch's recordings. */
  lemma {:induction false} SumsAreOfTheBatch(items: seq<Item>, b: nat)
    ensures SumSeconds(items, b) == SetSum(RowsOf(items, b), Lengths(items))
    ensures SumBytes(items, b) == SetSum(RowsOf(items, b), Sizes(items))
  {
    if items != [] {
      var n, rest := |items| - 1, items[..|items| - 1];
      SumsAreOfTheBatch(rest, b);
      SetSumAgrees(RowsOf(rest, b), Lengths(rest), Lengths(items));
      SetSumAgrees(RowsOf(rest, b), Sizes(rest), Sizes(items));
      OneMoreIn(RowsOf(rest, b), RowsOf(items, b), n, Lengths(items));
      OneMoreIn(RowsOf(rest, b), RowsOf(items, b), n, Sizes(items));
    }
  }

  // ---------- collecting ----------

  /** The chat's batch that collects, and has not run out. */
  predicate Collects(t: Tables, b: nat, chat: int, now: int) {
    b < |t.batches| && t.batches[b].chat == chat && t.batches[b].state == Collecting && t.batches[b].expires > now
  }

  /** Before anything is staged, the chat's batches that collect and have run out expire, and every other batch is
      as it was; without one that collects, a new one opens for a day. */
  lemma OpensOne(batches: seq<Batch>, chat: int, now: int)
    ensures var after, b := Opened(batches, chat, now), Target(batches, chat, now);
      && |batches| <= |after| <= |batches| + 1 && b < |after|
      && (forall i :: 0 <= i < |batches| ==>
            after[i] == if batches[i].chat == chat && batches[i].state == Collecting && batches[i].expires <= now
                        then batches[i].(state := Expired) else batches[i])
      && (|after| > |batches| <==>
            (forall i :: 0 <= i < |batches| ==>
              !(batches[i].chat == chat && batches[i].state == Collecting && batches[i].expires > now)))
      && (|after| > |batches| ==>
            b == |batches| && after[b] == Batch(chat, Collecting, now + DRAFT_SECONDS, 0, None, None))
      && (|after| == |batches| ==>
            batches[b].chat == chat && batches[b].state == Collecting && batches[b].expires > now)
  {
  }

  /** A recording is refused exactly when it is not there yet and would break a cap, and then nothing is written;
      one that is there is told; any other joins the batch as it came, under a new id, and raises the revision. */
  lemma StagingAnswers(t: Tables, chat: int, ref: Ref, message: int, seconds: nat, bytes: nat, now: int)
    ensures var (after, staged) := Stage(t, chat, ref, message, seconds, bytes, now);
            var opened', b := Opened(t.batches, chat, now), Target(t.batches, chat, now);
            var there := exists i :: 0 <= i < |t.items| && t.items[i].batch == b && t.items[i].message == message;
            var over := SumSeconds(t.items, b) + seconds > MAX_BATCH_SECONDS
                        || SumBytes(t.items, b) + bytes > MAX_BATCH_BYTES;
      && b < |opened'|
      && (staged == Limit <==> !there && over)
      && (staged == Limit ==> after == t)
      && (staged.Known? <==> there)
      && (staged.Known? ==>
            && staged.batch == b && after == t.(batches := opened')
            && exists i :: 0 <= i < |t.items| && t.items[i].batch == b && t.items[i].message == message
                           && t.items[i].id == staged.item)
      && (staged.Added? ==>
            && staged.batch == b
            && (forall i :: 0 <= i < |t.items| ==> t.items[i].id < staged.item)
            && after == t.(batches := opened'[b := opened'[b].(revision := opened'[b].revision + 1)],
                           items := t.items + [Item(staged.item, b, ref, message, seconds, bytes, true)]))
  {
    OpensOne(t.batches, chat, now);
    var known := FindItem(t.items, Target(t.batches, chat, now), message);
    if known.Some? {
      assert t.items[known.value].batch == Target(t.batches, chat, now) && t.items[known.value].message == message;
    }
  }

  lemma {:induction false} WithoutTakesIt(items: seq<Item>, id: nat, x: Item)
    ensures x in Without(items, id) <==> x in items && x.id != id
  {
    if items != [] {
      var n := |items| - 1;
      WithoutTakesIt(items[..n], id, x);
      assert items == items[..n] + [items[n]];
    }
  }

  predicate IsFirstOf(items: seq<Item>, i: int, id: nat)
    requires 0 <= i < |items|
  {
    items[i].id == id && forall j :: 0 <= j < i ==> items[j].id != id
  }

  /** A discard takes the row with that id and no other, and raises the revision of its batch. */
  lemma DiscardTakesOne(t: Tables, id: nat)
    ensures var after := Discard(t, id);
      && after == t.(batches := after.batches, items := after.items)
      && (forall x :: x in after.items <==> x in t.items && x.id != id)
      && |after.batches| == |t.batches|
      && ((forall i :: 0 <= i < |t.items| ==> t.items[i].id != id) ==> after.batches == t.batches)
      && (forall i, b :: 0 <= i < |t.items| && IsFirstOf(t.items, i, id) && 0 <= b < |t.batches| ==>
            after.batches[b] == if b == t.items[i].batch then t.batches[b].(revision := t.batches[b].revision + 1)
                                else t.batches[b])
  {
    forall x
      ensures x in Discard(t, id).items <==> x in t.items && x.id != id
    {
      WithoutTakesIt(t.items, id, x);
    }
    var found := First(t.items, (x: Item) => x.id == id);
    if found.Some? {
      assert t.items[found.value].id == id;
    }
  }

  /** An output is chosen, a batch cancelled and a card shown for that batch only: the first while it is shown to
      its chat, the second while it collects. */
  lemma ButtonsAnswer(t: Tables, b: nat, chat: int, output: Option<Output>, card: Option<int>, now: int)
    ensures var known := b < |t.batches|;
      && Select(t, b, chat, output, now)
         == (if known && t.batches[b].chat == chat && t.batches[b].expires > now
             then t.(batches := t.batches[b := t.batches[b].(selected := output)]) else t)
      && Cancel(t, b, chat, now)
         == (if known && t.batches[b].chat == chat && t.batches[b].state == Collecting
             then t.(batches := t.batches[b := t.batches[b].(state := Cancelled, expires := now)]) else t)
      && ShowCard(t, b, card) == (if known then t.(batches := t.batches[b := t.batches[b].(card := card)]) else t)
  {
  }

  // ---------- launching ----------

  /** The chat has paid for the recording, or is paying, and its text is there. */
  ghost predicate PaidFor(t: Tables, chat: int, ref: Ref) {
    && ref in t.transcripts
    && exists i :: 0 <= i < |t.requests| && t.requests[i].ref == ref && t.requests[i].chat == chat
         && t.requests[i].seconds > 0 && t.requests[i].status != Failed
  }

  lemma PaidForIsFree(t: Tables, chat: int, ref: Ref)
    ensures Free(t, chat, ref) <==> PaidFor(t, chat, ref)
  {
    if PaidFor(t, chat, ref) {
      var i :| 0 <= i < |t.requests| && t.requests[i].ref == ref && t.requests[i].chat == chat
               && t.requests[i].seconds > 0 && t.requests[i].status != Failed;
      assert PaysFor(t.requests[i], chat, ref);
    }
    if Free(t, chat, ref) {
      var i :| 0 <= i < |t.requests| && PaysFor(t.requests[i], chat, ref);
      assert t.requests[i].ref == ref && t.requests[i].chat == chat && t.requests[i].seconds > 0;
    }
  }

  /** A row costs its seconds when its recording is the first of its kind in the batch and not paid for, and else
      nothing. */
  lemma RowCosts(t: Tables, chat: int, rows: seq<Item>, i: nat)
    requires i < |rows|
    ensures var first := forall j :: 0 <= j < i ==> rows[j].ref != rows[i].ref;
      Charges(t, chat, rows)[i] == if first && !PaidFor(t, chat, rows[i].ref) then rows[i].seconds else 0
  {
    PaidForIsFree(t, chat, rows[i].ref);
  }

  /** The run is of the batch, and its result is on its way. */
  predicate Runs(t: Tables, k: nat, batch: nat) {
    && k < |t.runs| && t.runs[k].batch == batch && t.runs[k].request < |t.requests|
    && (var status := t.requests[t.runs[k].request].status;
        status == Uploading || status == Pending || status == Working)
  }

  /** A launch is accepted exactly when it is of what the chat was shown, nothing of it runs, there is something and
      all of it ready, and the whole charge is within the quote and what the limit leaves. What runs is told. */
  lemma LaunchIsAcceptedIff(t: Tables, o: Order, limit: nat, expected: nat, now: int)
    ensures var (after, launched) := Launch(t, o, limit, expected, now);
            var rows := Rows(t.items, o.batch);
            var shown := o.batch < |t.batches| && t.batches[o.batch].chat == o.chat && t.batches[o.batch].expires > now
                         && t.batches[o.batch].revision == o.revision && t.batches[o.batch].selected == Some(o.output);
            var charge := Sum(Charges(t, o.chat, rows));
            var runs := exists k :: 0 <= k < |t.runs| && Runs(t, k, o.batch);
      && (launched.Started? <==>
            && shown && !runs && rows != [] && (forall i :: 0 <= i < |rows| ==> rows[i].ready)
            && charge <= expected && Used(t.requests, o.chat, now - QUOTA_SECONDS) + charge <= limit)
      && (launched.AlreadyRunning? <==> shown && runs)
      && (launched.AlreadyRunning? ==>
            exists k :: 0 <= k < |t.runs| && Runs(t, k, o.batch) && t.runs[k].request == launched.request)
      && (!launched.Started? ==> after == t)
  {
    RunningIsFound(t, o.batch);
  }

  lemma RunningIsFound(t: Tables, batch: nat)
    ensures Current(t, batch).Some? <==> exists k :: 0 <= k < |t.runs| && Runs(t, k, batch)
    ensures Current(t, batch).Some? ==>
      exists k :: 0 <= k < |t.runs| && Runs(t, k, batch) && t.runs[k].request == Current(t, batch).value
  {
    var found := Current(t, batch);
    if found.Some? {
      var k :| 0 <= k < |t.runs| && OnItsWay(t, t.runs[k], batch) && t.runs[k].request == found.value;
      assert Runs(t, k, batch);
    }
    if k :| 0 <= k < |t.runs| && Runs(t, k, batch) {
      assert OnItsWay(t, t.runs[k], batch);
    }
  }

  /** An accepted launch freezes its batch, for a week from its first launch; it writes requests and a run beside
      that, and nothing else. */
  lemma LaunchFreezes(t: Tables, o: Order, limit: nat, expected: nat, now: int)
    requires Launch(t, o, limit, expected, now).1.Started?
    ensures var after := Launch(t, o, limit, expected, now).0;
      && after == t.(batches := after.batches, requests := after.requests, runs := after.runs)
      && o.batch < |t.batches|
      && after.batches == t.batches[o.batch := after.batches[o.batch]]
      && var b := t.batches[o.batch];
         after.batches[o.batch]
         == b.(state := Frozen, expires := if b.state == Frozen then b.expires else now + KEEP_SECONDS)
  {
  }

  /** Each of its requests costs what its row does, and the run ties each row to its request. */
  lemma LaunchTiesRows(t: Tables, o: Order, limit: nat, expected: nat, now: int, i: nat)
    requires Launch(t, o, limit, expected, now).1.Started? && i < |Rows(t.items, o.batch)|
    ensures var after := Launch(t, o, limit, expected, now).0;
            var rows, n := Rows(t.items, o.batch), |t.requests|;
      && |after.requests| == n + |rows| + 1 && |after.runs| == |t.runs| + 1 && t.runs <= after.runs
      && after.requests[n + i].seconds == Charges(t, o.chat, rows)[i]
      && var run := after.runs[|t.runs|];
         && run.request == n + |rows| && run.batch == o.batch && |run.members| == |rows|
         && run.members[i].item == rows[i].id && run.members[i].request == n + i
  {
    LaunchGrows(t, o, limit, expected, now);
    ChildCosts(t, Launch(t, o, limit, expected, now).0, o, now, i);
  }

  lemma ChildCosts(t: Tables, t': Tables, o: Order, now: int, i: nat)
    requires Grown(t, t', o, now) && i < |Rows(t.items, o.batch)|
    ensures |t'.requests| == |t.requests| + |Rows(t.items, o.batch)| + 1
    ensures t'.requests[|t.requests| + i].seconds == Charges(t, o.chat, Rows(t.items, o.batch))[i]
  {
    var rows := Rows(t.items, o.batch);
    assert t'.requests[|t.requests| + i] == Children(o, rows, Charges(t, o.chat, rows), now)[i];
  }

  // ---------- the requests on their way ----------

  predicate OneRequestChanges(t: Tables, after: Tables, id: nat) {
    && after == t.(requests := after.requests)
    && |after.requests| == |t.requests|
    && forall i :: 0 <= i < |t.requests| && i != id ==> after.requests[i] == t.requests[i]
  }

  /** Audio that arrives for a request that waits for it lets it be claimed, at the charge it is told, and gives the
      recording it is for its measured length; for any other request nothing happens. */
  lemma ArrivalAnswers(t: Tables, id: nat, measured: Option<nat>, charged: Option<nat>)
    ensures var after := Release(t, id, measured, charged);
            var waits := id < |t.requests| && t.requests[id].status == Uploading;
      && (!waits ==> after == t)
      && (waits ==>
            && OneRequestChanges(t.(items := after.items), after, id)
            && after.requests[id]
               == t.requests[id].(status := Pending,
                                  seconds := if charged.Some? then charged.value else t.requests[id].seconds)
            && |after.items| == |t.items|
            && forall i :: 0 <= i < |t.items| ==>
                 var isMine := exists k, j :: 0 <= k < |t.runs| && 0 <= j < |t.runs[k].members|
                                              && t.runs[k].members[j] == Member(t.items[i].id, id);
                 after.items[i] == if isMine && measured.Some? then t.items[i].(seconds := measured.value)
                                   else t.items[i])
  {
  }

  /** An upload that fails, fails its request; nothing else does. */
  lemma FailureAnswers(t: Tables, id: nat)
    ensures var after := FailChild(t, id);
      && (id < |t.requests| && t.requests[id].status == Uploading ==>
            && OneRequestChanges(t, after, id)
            && after.requests[id] == t.requests[id].(status := Failed, leasedUntil := None))
      && (!(id < |t.requests| && t.requests[id].status == Uploading) ==> after == t)
  {
  }

  predicate CanBeClaimed(r: Request, now: int) {
    r.status == Pending || (r.status == Working && r.leasedUntil.Some? && r.leasedUntil.value < now)
  }

  /** A claim takes the oldest request a tap asked for, or the oldest of the others when no tap waits: pending, or
      held past its lease. It is leased for LEASE_SECONDS and its attempts counted. */
  lemma ClaimTakesTapsFirst(t: Tables, now: int)
    ensures var (after, i) := Claim(t, now);
      && (i.None? ==> after == t && forall k :: 0 <= k < |t.requests| ==> !CanBeClaimed(t.requests[k], now))
      && (i.Some? ==>
            && i.value < |t.requests| && CanBeClaimed(t.requests[i.value], now)
            && (forall k :: 0 <= k < |t.requests| && CanBeClaimed(t.requests[k], now) ==>
                  if t.requests[k].auto == t.requests[i.value].auto then i.value <= k else t.requests[k].auto)
            && OneRequestChanges(t, after, i.value)
            && after.requests[i.value]
               == t.requests[i.value].(status := Working, attempts := t.requests[i.value].attempts + 1,
                                       leasedUntil := Some(now + LEASE_SECONDS)))
  {
    var i := ToClaim(t.requests, now);
    assert forall k :: 0 <= k < |t.requests| ==> (Claimable(t.requests[k], now) <==> CanBeClaimed(t.requests[k], now));
  }

  /** A request that is finished has the status and the charge it is given, and no lease; one that failed waits
      again while it has attempts left. */
  lemma FinishAnswers(t: Tables, id: nat, status: Status, seconds: Option<nat>, attempts: nat)
    requires id < |t.requests|
    ensures var done, again := Finish(t, id, status, seconds), RetryOrFail(t, id, attempts);
      && OneRequestChanges(t, done, id) && OneRequestChanges(t, again, id)
      && done.requests[id]
         == t.requests[id].(status := status, leasedUntil := None,
                            seconds := if seconds.Some? then seconds.value else t.requests[id].seconds)
      && again.requests[id] == t.requests[id].(status := again.requests[id].status, leasedUntil := None)
      && (again.requests[id].status == Failed <==> attempts >= MAX_ATTEMPTS)
      && (again.requests[id].status == Pending <==> attempts < MAX_ATTEMPTS)
  {
  }

  predicate IsAsked(r: Request, chat: int, ref: Ref, lang: string, kind: Kind) {
    && r.chat == chat && r.ref == ref && r.lang == lang && r.kind == kind
    && (r.status == Uploading || r.status == Pending || r.status == Working)
  }

  /** What is on its way already is found again, and wanted now when it is a tap that asks; else a new request is
      queued at the given charge. */
  lemma AskingAnswers(t: Tables, chat: int, ref: Ref, lang: string, kind: Kind, seconds: nat, replyTo: Option<int>,
                      auto: bool, now: int)
    ensures var (after, id, isNew) := Enqueue(t, chat, ref, lang, kind, seconds, replyTo, auto, now);
      && (isNew <==> forall i :: 0 <= i < |t.requests| ==> !IsAsked(t.requests[i], chat, ref, lang, kind))
      && (isNew ==>
            && id == |t.requests|
            && after == t.(requests := t.requests + [Request(chat, ref, lang, kind, Pending, 0, now, None, seconds,
                                                             replyTo, auto)]))
      && (!isNew ==>
            && id < |t.requests| && IsAsked(t.requests[id], chat, ref, lang, kind)
            && OneRequestChanges(t, after, id)
            && (auto ==> after == t)
            && (!auto ==> after.requests[id]
                          == t.requests[id].(auto := false,
                                             replyTo := if t.requests[id].replyTo.Some? then t.requests[id].replyTo
                                                        else replyTo)))
  {
    var found := First(t.requests, (r: Request) => Wanted(r, chat, ref, lang, kind));
    assert found.Some? ==> IsAsked(t.requests[found.value], chat, ref, lang, kind);
  }

  // ---------- the fate of a run ----------

  /** The request still waits for its audio when what waited too long has failed. */
  predicate StillUploads(requests: seq<Request>, i: nat, now: int) {
    i < |requests| && requests[i].status == Uploading && requests[i].created >= now - UPLOAD_SECONDS
  }

  predicate HasFailed(requests: seq<Request>, i: nat, now: int) {
    i < |requests| && (requests[i].status == Failed
                       || (requests[i].status == Uploading && requests[i].created < now - UPLOAD_SECONDS))
  }

  ghost predicate SomeUploads(t: Tables, run: VoiceRun, now: int) {
    exists j :: 0 <= j < |run.members| && StillUploads(t.requests, run.members[j].request, now)
  }

  ghost predicate SomeFailed(t: Tables, run: VoiceRun, now: int) {
    exists j :: 0 <= j < |run.members| && HasFailed(t.requests, run.members[j].request, now)
  }

  ghost predicate Shaped(requests: seq<Request>, runs: seq<VoiceRun>) {
    && (forall k :: 0 <= k < |runs| ==> RunShape(requests, runs[k]))
    && (forall k, l :: 0 <= k < l < |runs| ==> runs[k].request < runs[l].request)
  }

  /** Settling the runs one after another decides each by its own recordings. */
  lemma {:induction false} EachRunDecides(requests: seq<Request>, runs: seq<VoiceRun>, k: nat)
    requires Shaped(requests, runs) && k < |runs|
    ensures |SettleRuns(requests, runs)| == |requests|
    ensures SettleRuns(requests, runs)[runs[k].request] == SettleRun(requests, runs[k])[runs[k].request]
  {
    var n := |runs| - 1;
    var rest, last := runs[..n], runs[n];
    var mid := SettleRuns(requests, rest);
    MembersWait(requests, runs, n);
    if k < n {
      EachRunDecides(requests, rest, k);
      assert runs[k].request < last.request;
    } else {
      EarlierRunsLeaveIt(requests, rest, last.request);
    }
  }

  /** No run changes another's recordings. */
  lemma MembersWait(requests: seq<Request>, runs: seq<VoiceRun>, n: nat)
    requires Shaped(requests, runs) && n == |runs| - 1
    ensures |SettleRuns(requests, runs[..n])| == |requests|
    ensures forall status :: SomeMember(SettleRuns(requests, runs[..n]), runs[n], status)
                        <==> SomeMember(requests, runs[n], status)
  {
    var rest, last := runs[..n], runs[n];
    SettleChangesFinals(requests, rest);
    assert RunShape(requests, last);
    var mid := SettleRuns(requests, rest);
    forall j | 0 <= j < |last.members|
      ensures mid[last.members[j].request] == requests[last.members[j].request]
    {
      assert MemberShape(requests, last, last.members[j].request);
    }
  }

  lemma {:induction false} EarlierRunsLeaveIt(requests: seq<Request>, runs: seq<VoiceRun>, i: nat)
    requires i < |requests| && forall k :: 0 <= k < |runs| ==> runs[k].request != i
    ensures SettleRuns(requests, runs)[i] == requests[i]
  {
    if runs != [] {
      EarlierRunsLeaveIt(requests, runs[..|runs| - 1], i);
    }
  }

  lemma StaleMembers(t: Tables, run: VoiceRun, now: int)
    ensures SomeMember(FailStale(t.requests, now), run, Uploading) <==> SomeUploads(t, run, now)
    ensures SomeMember(FailStale(t.requests, now), run, Failed) <==> SomeFailed(t, run, now)
  {
    var stale := FailStale(t.requests, now);
    forall j | 0 <= j < |run.members| && run.members[j].request < |stale|
      ensures stale[run.members[j].request].status == Uploading
         <==> StillUploads(t.requests, run.members[j].request, now)
      ensures stale[run.members[j].request].status == Failed <==> HasFailed(t.requests, run.members[j].request, now)
    {
    }
    if SomeMember(stale, run, Uploading) {
      var j :| 0 <= j < |run.members| && run.members[j].request < |stale|
               && stale[run.members[j].request].status == Uploading;
      assert StillUploads(t.requests, run.members[j].request, now);
    }
    if SomeMember(stale, run, Failed) {
      var j :| 0 <= j < |run.members| && run.members[j].request < |stale|
               && stale[run.members[j].request].status == Failed;
      assert HasFailed(t.requests, run.members[j].request, now);
    }
    if SomeUploads(t, run, now) {
      var j :| 0 <= j < |run.members| && StillUploads(t.requests, run.members[j].request, now);
      assert stale[run.members[j].request].status == Uploading;
    }
    if SomeFailed(t, run, now) {
      var j :| 0 <= j < |run.members| && HasFailed(t.requests, run.members[j].request, now);
      assert stale[run.members[j].request].status == Failed;
    }
  }

  /** The result of a run that waits for its recordings waits on while one of them does; then it fails when one of
      them failed, and else may be claimed. */
  lemma RunIsSettledByItsRecordings(t: Tables, now: int, k: nat)
    requires RunsSound(t) && k < |t.runs|
    ensures var final, run := t.runs[k].request, t.runs[k];
      && final < |t.requests| == |Settle(t, now).requests|
      && (StillUploads(t.requests, final, now) ==>
            var after := Settle(t, now).requests[final];
            && after == t.requests[final].(status := after.status)
            && (after.status == Uploading <==> SomeUploads(t, run, now))
            && (after.status == Failed <==> !SomeUploads(t, run, now) && SomeFailed(t, run, now))
            && (after.status == Pending <==> !SomeUploads(t, run, now) && !SomeFailed(t, run, now)))
  {
    StaleKeepsRuns(t, now);
    var stale := FailStale(t.requests, now);
    assert RunShape(t.requests, t.runs[k]);
    EachRunDecides(stale, t.runs, k);
    StaleMembers(t, t.runs[k], now);
  }

  /** Every other request stays, but what waited too long for its audio: that has failed. */
  lemma SettleTouchesWhatWaits(t: Tables, now: int, i: nat)
    requires RunsSound(t) && i < |t.requests|
    ensures |Settle(t, now).requests| == |t.requests| && Settle(t, now) == t.(requests := Settle(t, now).requests)
    ensures var r, after := t.requests[i], Settle(t, now).requests[i];
      && (r.status != Uploading ==> after == r)
      && (r.status == Uploading && r.created < now - UPLOAD_SECONDS ==> after == r.(status := Failed))
      && (StillUploads(t.requests, i, now) && !IsFinal(r.kind) ==> after == r)
  {
    StaleKeepsRuns(t, now);
    var stale := FailStale(t.requests, now);
    SettleChangesFinals(stale, t.runs);
    assert Settled(stale, t.runs, i, Settle(t, now).requests[i]);
  }

  /** A settle of this run, after those before it, tells (id, failed). */
  predicate Tells(requests: seq<Request>, run: VoiceRun, id: nat, failed: bool)
    requires run.request < |requests|
  {
    && run.request == id && requests[id].status == Uploading
    && !SomeMember(requests, run, Uploading) && (failed <==> SomeMember(requests, run, Failed))
  }

  function ToldOf(requests: seq<Request>, run: VoiceRun): seq<(nat, bool)>
    requires run.request < |requests|
  {
    if requests[run.request].status == Uploading && !SomeMember(requests, run, Uploading)
    then [(run.request, SomeMember(requests, run, Failed))] else []
  }

  lemma ToldOfOne(requests: seq<Request>, runs: seq<VoiceRun>)
    requires Shaped(requests, runs) && runs != []
    ensures var rest, last := runs[..|runs| - 1], runs[|runs| - 1];
      && Shaped(requests, rest) && last.request < |requests|
      && SettledRuns(requests, runs) == SettledRuns(requests, rest) + ToldOf(requests, last)
  {
    var n := |runs| - 1;
    MembersWait(requests, runs, n);
    EarlierRunsLeaveIt(requests, runs[..n], runs[n].request);
    assert RunShape(requests, runs[n]);
  }

  ghost predicate SomeTells(requests: seq<Request>, runs: seq<VoiceRun>, id: nat, failed: bool)
    requires Shaped(requests, runs)
  {
    exists k :: 0 <= k < |runs| && RunShape(requests, runs[k]) && Tells(requests, runs[k], id, failed)
  }

  lemma OneMoreTells(requests: seq<Request>, runs: seq<VoiceRun>, id: nat, failed: bool)
    requires Shaped(requests, runs) && runs != []
    ensures var rest, last := runs[..|runs| - 1], runs[|runs| - 1];
      && Shaped(requests, rest) && last.request < |requests|
      && (SomeTells(requests, runs, id, failed)
          <==> SomeTells(requests, rest, id, failed) || Tells(requests, last, id, failed))
  {
    var n := |runs| - 1;
    var rest := runs[..n];
    assert RunShape(requests, runs[n]);
    if SomeTells(requests, runs, id, failed) {
      var k :| 0 <= k < |runs| && RunShape(requests, runs[k]) && Tells(requests, runs[k], id, failed);
      assert k < n ==> RunShape(requests, rest[k]);
    }
    if SomeTells(requests, rest, id, failed) {
      var k :| 0 <= k < n && RunShape(requests, rest[k]) && Tells(requests, rest[k], id, failed);
      assert runs[k] == rest[k];
    }
  }

  /** The settled runs are told, and no others, each with whether it failed. */
  lemma {:induction false} ToldOfRuns(requests: seq<Request>, runs: seq<VoiceRun>, id: nat, failed: bool)
    requires Shaped(requests, runs)
    ensures (id, failed) in SettledRuns(requests, runs) <==> SomeTells(requests, runs, id, failed)
  {
    if runs != [] {
      var n := |runs| - 1;
      ToldOfOne(requests, runs);
      OneMoreTells(requests, runs, id, failed);
      ToldOfRuns(requests, runs[..n], id, failed);
    }
  }

  /** They are told in order, so each once. */
  lemma {:induction false} ToldInOrder(requests: seq<Request>, runs: seq<VoiceRun>)
    requires Shaped(requests, runs)
    ensures forall i, j :: 0 <= i < j < |SettledRuns(requests, runs)| ==>
      SettledRuns(requests, runs)[i].0 < SettledRuns(requests, runs)[j].0
    ensures forall i :: 0 <= i < |SettledRuns(requests, runs)| ==>
      runs != [] && SettledRuns(requests, runs)[i].0 <= runs[|runs| - 1].request
  {
    if runs == [] {
      assert SettledRuns(requests, runs) == [];
    } else {
      var n := |runs| - 1;
      ToldOfOne(requests, runs);
      ToldInOrder(requests, runs[..n]);
      var before, told := SettledRuns(requests, runs[..n]), SettledRuns(requests, runs);
      var end := runs[n].request;
      forall i | 0 <= i < |before|
        ensures before[i].0 < end && told[i] == before[i]
      {
        assert before[i].0 <= runs[..n][n - 1].request == runs[n - 1].request;
      }
      assert forall i :: |before| <= i < |told| ==> told[i].0 == end && i == |before|;
      forall i, j | 0 <= i < j < |told|
        ensures told[i].0 < told[j].0
      {
        assert told[i] == before[i];
      }
    }
  }

  /** What a settle tells its caller: the finals that no longer wait, each once, and which of them failed. */
  lemma SettledAreTold(t: Tables, now: int, id: nat, failed: bool)
    requires RunsSound(t)
    ensures (id, failed) in SettledRuns(FailStale(t.requests, now), t.runs) <==>
      exists k :: 0 <= k < |t.runs| && t.runs[k].request == id && StillUploads(t.requests, id, now)
        && !SomeUploads(t, t.runs[k], now) && (failed <==> SomeFailed(t, t.runs[k], now))
    ensures var told := SettledRuns(FailStale(t.requests, now), t.runs);
      forall i, j :: 0 <= i < j < |told| ==> told[i].0 < told[j].0
  {
    StaleKeepsRuns(t, now);
    var stale := FailStale(t.requests, now);
    ToldOfRuns(stale, t.runs, id, failed);
    ToldInOrder(stale, t.runs);
    forall k | 0 <= k < |t.runs|
      ensures SomeMember(stale, t.runs[k], Uploading) <==> SomeUploads(t, t.runs[k], now)
      ensures SomeMember(stale, t.runs[k], Failed) <==> SomeFailed(t, t.runs[k], now)
      ensures t.runs[k].request < |stale|
    {
      StaleMembers(t, t.runs[k], now);
      assert RunShape(stale, t.runs[k]);
    }
  }
}
