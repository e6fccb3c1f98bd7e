/** Voice collections and the AI queue (db/voice.py, db/ai.py): recordings are gathered in a batch, a launch
    freezes it and reserves the whole charge, one request follows per recording and a final one after them. */
module VoiceQueue {
  import opened Prelude

  const MAX_BATCH_BYTES := 200 * 1024 * 1024
  const MAX_BATCH_SECONDS := 6 * 3600
  /** The longest recording that is received, and the longest an upload may turn out to be. */
  const MAX_RECORDING_SECONDS := 3600
  const DRAFT_SECONDS := 86400
  const KEEP_SECONDS := 7 * 86400
  const QUOTA_SECONDS := 30 * 86400
  const UPLOAD_SECONDS := 3600
  const LEASE_SECONDS := 1800
  const MAX_ATTEMPTS := 2

  /** A recording, or a whole collection (the ref of its final request). */
  datatype Ref = Recording(id: string) | Collection(batch: nat)
  datatype Output = Summary | Transcript
  datatype Mode = Each | All
  datatype Kind = One(output: Output) | Part | EachDone | SummaryAll | TextAll
  datatype Status = Uploading | Pending | Working | Done | Failed

  datatype Request = Request(chat: int, ref: Ref, lang: string, kind: Kind, status: Status, attempts: nat,
                             created: int, leasedUntil: Option<int>, seconds: nat, replyTo: Option<int>, auto: bool)
  datatype BatchState = Collecting | Frozen | Expired | Cancelled

  /** card: the message that shows the collection. */
  datatype Batch = Batch(chat: int, state: BatchState, expires: int, revision: nat, selected: Option<Output>,
                         card: Option<int>)
  datatype Item = Item(id: nat, batch: nat, ref: Ref, message: int, seconds: nat, bytes: nat, ready: bool)
  datatype Member = Member(item: nat, request: nat)
  datatype VoiceRun = VoiceRun(request: nat, batch: nat, members: seq<Member>)

  /** A batch's or a request's id is its index. */
  datatype Tables = Tables(batches: seq<Batch>, items: seq<Item>, requests: seq<Request>, runs: seq<VoiceRun>,
                           transcripts: set<Ref>)

  predicate IsFinal(kind: Kind) {
    kind == EachDone || kind == SummaryAll || kind == TextAll
  }

  predicate Live(status: Status) {
    status != Failed
  }

  predicate InFlight(status: Status) {
    status == Uploading || status == Pending || status == Working
  }

  // ---------- reading ----------

  function Contribution(r: Request, chat: int, since: int): nat {
    if r.chat == chat && r.created >= since && Live(r.status) then r.seconds else 0
  }

  /** ai.seconds_used: what the chat's requests since `since` are charged. */
  function Used(requests: seq<Request>, chat: int, since: int): nat {
    if requests == [] then 0
    else
      Used(requests[..|requests| - 1], chat, since) + Contribution(requests[|requests| - 1], chat, since)
  }

  function Members(items: seq<Item>, batch: nat): seq<Item> {
    if items == [] then []
    else
      Members(items[..|items| - 1], batch)
      + if items[|items| - 1].batch == batch then [items[|items| - 1]] else []
  }

  function Insert(rows: seq<Item>, item: Item): seq<Item> {
    if rows == [] then [item]
    else if rows[|rows| - 1].message <= item.message then rows + [item]
    else Insert(rows[..|rows| - 1], item) + [rows[|rows| - 1]]
  }

  function InOrder(rows: seq<Item>): seq<Item> {
    if rows == [] then [] else Insert(InOrder(rows[..|rows| - 1]), rows[|rows| - 1])
  }

  /** The batch's recordings, ORDER BY message_id. */
  function Rows(items: seq<Item>, batch: nat): seq<Item> {
    InOrder(Members(items, batch))
  }

  function SumSeconds(items: seq<Item>, batch: nat): nat {
    if items == [] then 0
    else
      SumSeconds(items[..|items| - 1], batch)
      + if items[|items| - 1].batch == batch then items[|items| - 1].seconds else 0
  }

  function SumBytes(items: seq<Item>, batch: nat): nat {
    if items == [] then 0
    else
      SumBytes(items[..|items| - 1], batch)
      + if items[|items| - 1].batch == batch then items[|items| - 1].bytes else 0
  }

  function Sum(charges: seq<nat>): nat {
    if charges == [] then 0 else Sum(charges[..|charges| - 1]) + charges[|charges| - 1]
  }

  predicate PaysFor(r: Request, chat: int, ref: Ref) {
    r.ref == ref && r.chat == chat && r.seconds > 0 && Live(r.status)
  }

  /** The chat already paid for this recording and it has its text. */
  predicate Free(t: Tables, chat: int, ref: Ref) {
    ref in t.transcripts && exists i :: 0 <= i < |t.requests| && PaysFor(t.requests[i], chat, ref)
  }

  predicate SeenBefore(rows: seq<Item>, i: nat)
    requires i < |rows|
  {
    exists j :: 0 <= j < i && rows[j].ref == rows[i].ref
  }

  /** What each row of a launch is charged. */
  function Charges(t: Tables, chat: int, rows: seq<Item>): (r: seq<nat>)
    ensures |r| == |rows|
  {
    seq(|rows|, i requires 0 <= i < |rows| =>
      if SeenBefore(rows, i) || Free(t, chat, rows[i].ref) then 0 else rows[i].seconds)
  }

  predicate OnItsWay(t: Tables, run: VoiceRun, batch: nat) {
    run.batch == batch && run.request < |t.requests| && InFlight(t.requests[run.request].status)
  }

  /** The final request of the batch's run that is still on its way. */
  function Current(t: Tables, batch: nat): (r: Option<nat>)
    ensures r.Some? ==> exists k :: 0 <= k < |t.runs| && OnItsWay(t, t.runs[k], batch) && t.runs[k].request == r.value
    ensures r.None? ==> forall k :: 0 <= k < |t.runs| ==> !OnItsWay(t, t.runs[k], batch)
  {
    var i := First(t.runs, (r: VoiceRun) => OnItsWay(t, r, batch));
    if i.None? then None else Some(t.runs[i.value].request)
  }

  // ---------- collecting ----------

  datatype Staged = Limit | Known(batch: nat, item: nat) | Added(batch: nat, item: nat)

  predicate Outdated(b: Batch, chat: int, now: int) {
    b.chat == chat && b.state == Collecting && b.expires <= now
  }

  function Expire(batches: seq<Batch>, chat: int, now: int): (r: seq<Batch>)
    ensures |r| == |batches|
    ensures forall i :: 0 <= i < |r| ==>
      r[i] == if Outdated(batches[i], chat, now) then batches[i].(state := Expired) else batches[i]
  {
    seq(|batches|, i requires 0 <= i < |batches| =>
      if Outdated(batches[i], chat, now) then batches[i].(state := Expired) else batches[i])
  }

  function OpenBatch(batches: seq<Batch>, chat: int): Option<nat> {
    First(batches, (b: Batch) => b.chat == chat && b.state == Collecting)
  }

  /** The batches after what is outdated expired and the chat has one to collect in. */
  function Opened(batches: seq<Batch>, chat: int, now: int): seq<Batch> {
    var kept := Expire(batches, chat, now);
    if OpenBatch(kept, chat).Some? then kept else kept + [Batch(chat, Collecting, now + DRAFT_SECONDS, 0, None, None)]
  }

  function Target(batches: seq<Batch>, chat: int, now: int): nat {
    var open := OpenBatch(Expire(batches, chat, now), chat);
    if open.Some? then open.value else |batches|
  }

  function FindItem(items: seq<Item>, batch: nat, message: int): Option<nat> {
    First(items, (i: Item) => i.batch == batch && i.message == message)
  }

  function MaxId(items: seq<Item>): (r: nat)
    ensures forall i :: 0 <= i < |items| ==> items[i].id <= r
    ensures items != [] ==> exists i :: 0 <= i < |items| && items[i].id == r
    ensures items == [] ==> r == 0
  {
    if items == [] then 0
    else
      var before, last := MaxId(items[..|items| - 1]), items[|items| - 1].id;
      if last >= before then last else before
  }

  /** The id of a new row: one more than the largest there is, so that of a deleted newest row comes again. */
  function NewId(items: seq<Item>): nat {
    MaxId(items) + 1
  }

  function Stage(t: Tables, chat: int, ref: Ref, message: int, seconds: nat, bytes: nat, now: int)
    : (r: (Tables, Staged))
  {
    var batches := Opened(t.batches, chat, now);
    var b := Target(t.batches, chat, now);
    var known := FindItem(t.items, b, message);
    if known.Some? then (t.(batches := batches), Known(b, t.items[known.value].id))
    else if SumSeconds(t.items, b) + seconds > MAX_BATCH_SECONDS || SumBytes(t.items, b) + bytes > MAX_BATCH_BYTES
    then (t, Limit)
    else
      (t.(batches := if b < |batches| then batches[b := batches[b].(revision := batches[b].revision + 1)] else batches,
          items := t.items + [Item(NewId(t.items), b, ref, message, seconds, bytes, true)]),
       Added(b, NewId(t.items)))
  }

  function Without(items: seq<Item>, id: nat): seq<Item> {
    if items == [] then []
    else Without(items[..|items| - 1], id) + if items[|items| - 1].id == id then [] else [items[|items| - 1]]
  }

  function Discard(t: Tables, id: nat): Tables {
    var i := First(t.items, (x: Item) => x.id == id);
    var b := if i.Some? then t.items[i.value].batch else |t.batches|;
    t.(batches := if b < |t.batches| then t.batches[b := t.batches[b].(revision := t.batches[b].revision + 1)]
                  else t.batches,
       items := Without(t.items, id))
  }

  predicate Shown(t: Tables, batch: nat, chat: int, now: int) {
    batch < |t.batches| && t.batches[batch].chat == chat && t.batches[batch].expires > now
  }

  function Select(t: Tables, batch: nat, chat: int, output: Option<Output>, now: int): Tables {
    if Shown(t, batch, chat, now) then t.(batches := t.batches[batch := t.batches[batch].(selected := output)]) else t
  }

  /** The cancel button: only what still collects. */
  function Cancel(t: Tables, batch: nat, chat: int, now: int): Tables {
    if batch < |t.batches| && t.batches[batch].chat == chat && t.batches[batch].state == Collecting
    then t.(batches := t.batches[batch := t.batches[batch].(state := Cancelled, expires := now)]) else t
  }

  function ShowCard(t: Tables, batch: nat, message: Option<int>): Tables {
    if batch < |t.batches| then t.(batches := t.batches[batch := t.batches[batch].(card := message)]) else t
  }

  // ---------- launching ----------

  datatype Order = Order(batch: nat, chat: int, revision: nat, output: Output, mode: Mode, lang: string)
  datatype Launched = Changed | AlreadyRunning(request: nat) | Started(request: nat)

  function Child(o: Order, row: Item, charge: nat, now: int): Request {
    Request(o.chat, row.ref, if o.output == Summary then o.lang else "", if o.mode == Each then One(o.output) else Part,
            Uploading, 0, now, None, charge, Some(row.message), false)
  }

  function FinalOf(o: Order, card: Option<int>, now: int): Request {
    Request(o.chat, Collection(o.batch), o.lang,
            if o.mode == Each then EachDone else if o.output == Summary then SummaryAll else TextAll,
            Uploading, 0, now, None, 0, card, false)
  }

  function Children(o: Order, rows: seq<Item>, charges: seq<nat>, now: int): (r: seq<Request>)
    requires |charges| == |rows|
    ensures |r| == |rows| && forall i :: 0 <= i < |r| ==> r[i] == Child(o, rows[i], charges[i], now)
  {
    seq(|rows|, i requires 0 <= i < |rows| => Child(o, rows[i], charges[i], now))
  }

  function RunMembers(rows: seq<Item>, first: nat): (r: seq<Member>)
    ensures |r| == |rows| && forall i :: 0 <= i < |r| ==> r[i] == Member(rows[i].id, first + i)
  {
    seq(|rows|, i requires 0 <= i < |rows| => Member(rows[i].id, first + i))
  }

  /** The preview the order was made from is still what is there. */
  predicate Fresh(t: Tables, o: Order, now: int) {
    && Shown(t, o.batch, o.chat, now)
    && t.batches[o.batch].revision == o.revision
    && t.batches[o.batch].selected == Some(o.output)
  }

  /** Something to launch, at no more than was quoted, within the chat's hours. */
  predicate Affordable(t: Tables, o: Order, limit: nat, expected: nat, now: int) {
    var rows := Rows(t.items, o.batch);
    var charge := Sum(Charges(t, o.chat, rows));
    && rows != [] && (forall i :: 0 <= i < |rows| ==> rows[i].ready)
    && charge <= expected
    && Used(t.requests, o.chat, now - QUOTA_SECONDS) + charge <= limit
  }

  function Frozen'(b: Batch, now: int): Batch {
    b.(state := Frozen, expires := if b.state == Frozen then b.expires else now + KEEP_SECONDS)
  }

  /** The batch frozen, a request per row and the final one after them. */
  function LaunchedTables(t: Tables, o: Order, now: int): Tables
    requires o.batch < |t.batches|
  {
    var rows := Rows(t.items, o.batch);
    t.(batches := t.batches[o.batch := Frozen'(t.batches[o.batch], now)],
       requests := t.requests + Children(o, rows, Charges(t, o.chat, rows), now)
                   + [FinalOf(o, t.batches[o.batch].card, now)],
       runs := t.runs + [VoiceRun(|t.requests| + |rows|, o.batch, RunMembers(rows, |t.requests|))])
  }

  function Launch(t: Tables, o: Order, limit: nat, expected: nat, now: int): (r: (Tables, Launched)) {
    if !Fresh(t, o, now) then (t, Changed)
    else if Current(t, o.batch).Some? then (t, AlreadyRunning(Current(t, o.batch).value))
    else if !Affordable(t, o, limit, expected, now) then (t, Changed)
    else (LaunchedTables(t, o, now), Started(|t.requests| + |Rows(t.items, o.batch)|))
  }

  // ---------- the requests on their way ----------

  /** The item is a member of the request. */
  predicate IsItemOf(runs: seq<VoiceRun>, item: nat, request: nat) {
    exists i, j :: 0 <= i < |runs| && 0 <= j < |runs[i].members| && runs[i].members[j] == Member(item, request)
  }

  function Measured(t: Tables, request: nat, seconds: nat): (r: seq<Item>)
    ensures |r| == |t.items|
    ensures forall i :: 0 <= i < |r| ==>
      r[i] == if IsItemOf(t.runs, t.items[i].id, request) then t.items[i].(seconds := seconds) else t.items[i]
  {
    seq(|t.items|, i requires 0 <= i < |t.items| =>
      if IsItemOf(t.runs, t.items[i].id, request) then t.items[i].(seconds := seconds) else t.items[i])
  }

  function Release(t: Tables, id: nat, measured: Option<nat>, charged: Option<nat>): Tables {
    if id >= |t.requests| || t.requests[id].status != Uploading then t
    else
      t.(items := if measured.Some? then Measured(t, id, measured.value) else t.items,
         requests := t.requests[id := t.requests[id].(status := Pending,
                       seconds := if charged.Some? then charged.value else t.requests[id].seconds)])
  }

  function FailChild(t: Tables, id: nat): Tables {
    if id >= |t.requests| || t.requests[id].status != Uploading then t
    else t.(requests := t.requests[id := t.requests[id].(status := Failed, leasedUntil := None)])
  }

  function FailStale(requests: seq<Request>, now: int): (r: seq<Request>)
    ensures |r| == |requests|
    ensures forall i :: 0 <= i < |r| ==>
      r[i] == if requests[i].status == Uploading && requests[i].created < now - UPLOAD_SECONDS
              then requests[i].(status := Failed) else requests[i]
  {
    seq(|requests|, i requires 0 <= i < |requests| =>
      if requests[i].status == Uploading && requests[i].created < now - UPLOAD_SECONDS
      then requests[i].(status := Failed) else requests[i])
  }

  predicate SomeMember(requests: seq<Request>, run: VoiceRun, status: Status) {
    exists j :: 0 <= j < |run.members| && run.members[j].request < |requests|
      && requests[run.members[j].request].status == status
  }

  function SettleRun(requests: seq<Request>, run: VoiceRun): (r: seq<Request>)
    ensures |r| == |requests|
  {
    if run.request >= |requests| || requests[run.request].status != Uploading
       || SomeMember(requests, run, Uploading)
    then requests
    else
      requests[run.request := requests[run.request].(status :=
        if SomeMember(requests, run, Failed) then Failed else Pending)]
  }

  function SettleRuns(requests: seq<Request>, runs: seq<VoiceRun>): (r: seq<Request>)
    ensures |r| == |requests|
  {
    if runs == [] then requests
    else SettleRun(SettleRuns(requests, runs[..|runs| - 1]), runs[|runs| - 1])
  }

  /** The finals a settle ends or starts, in run order, and whether each failed. */
  function SettledRuns(requests: seq<Request>, runs: seq<VoiceRun>): seq<(nat, bool)> {
    if runs == [] then []
    else
      var rest, run := runs[..|runs| - 1], runs[|runs| - 1];
      var mid := SettleRuns(requests, rest);
      SettledRuns(requests, rest)
      + if run.request < |mid| && mid[run.request].status == Uploading && !SomeMember(mid, run, Uploading)
        then [(run.request, SomeMember(mid, run, Failed))] else []
  }

  function Settle(t: Tables, now: int): Tables {
    t.(requests := SettleRuns(FailStale(t.requests, now), t.runs))
  }

  predicate Claimable(r: Request, now: int) {
    r.status == Pending || (r.status == Working && r.leasedUntil.Some? && r.leasedUntil.value < now)
  }

  /** ORDER BY auto, id LIMIT 1: taps before what nobody asked for. */
  function ToClaim(requests: seq<Request>, now: int): (r: Option<nat>)
    ensures r.Some? ==> r.value < |requests| && Claimable(requests[r.value], now)
    ensures r.Some? ==> forall i :: 0 <= i < |requests| && Claimable(requests[i], now) ==>
              (requests[r.value].auto ==> requests[i].auto)
              && (requests[r.value].auto == requests[i].auto ==> r.value <= i)
    ensures r.None? ==> forall i :: 0 <= i < |requests| ==> !Claimable(requests[i], now)
  {
    var tap := First(requests, (r: Request) => Claimable(r, now) && !r.auto);
    if tap.Some? then tap else First(requests, (r: Request) => Claimable(r, now))
  }

  function Claim(t: Tables, now: int): (r: (Tables, Option<nat>)) {
    var i := ToClaim(t.requests, now);
    if i.None? then (t, None)
    else
      var row := t.requests[i.value];
      (t.(requests := t.requests[i.value := row.(status := Working, attempts := row.attempts + 1,
                                                 leasedUntil := Some(now + LEASE_SECONDS))]), i)
  }

  function Finish(t: Tables, id: nat, status: Status, seconds: Option<nat>): Tables {
    if id >= |t.requests| then t
    else
      t.(requests := t.requests[id := t.requests[id].(status := status, leasedUntil := None,
           seconds := if seconds.Some? then seconds.value else t.requests[id].seconds)])
  }

  /** attempts: what the worker read at its claim. */
  function RetryOrFail(t: Tables, id: nat, attempts: nat): Tables {
    Finish(t, id, if attempts >= MAX_ATTEMPTS then Failed else Pending, None)
  }

  predicate Wanted(r: Request, chat: int, ref: Ref, lang: string, kind: Kind) {
    r.chat == chat && r.ref == ref && r.lang == lang && r.kind == kind && InFlight(r.status)
  }

  function Enqueue(t: Tables, chat: int, ref: Ref, lang: string, kind: Kind, seconds: nat, replyTo: Option<int>,
                   auto: bool, now: int): (r: (Tables, nat, bool))
  {
    var found := First(t.requests, (r: Request) => Wanted(r, chat, ref, lang, kind));
    if found.Some? then
      var row := t.requests[found.value];
      (if auto then t
       else t.(requests := t.requests[found.value := row.(auto := false,
                 replyTo := if row.replyTo.Some? then row.replyTo else replyTo)]),
       found.value, false)
    else
      (t.(requests := t.requests + [Request(chat, ref, lang, kind, Pending, 0, now, None, seconds, replyTo, auto)]),
       |t.requests|, true)
  }
}
