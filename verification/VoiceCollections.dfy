/** Collections: at most one open per chat, within its caps, frozen for good by a launch, and versioned so that a
    launch covers exactly what was previewed. */
module VoiceCollections {
  import opened Prelude
  import opened VoiceQueue
  import opened VoiceRuns
  import VoiceLaunch

  // ---------- one collecting batch, and rows apart ----------

  predicate Rival(a: Batch, b: Batch) {
    a.state == Collecting && b.state == Collecting && a.chat == b.chat
  }

  ghost predicate OneCollecting(batches: seq<Batch>) {
    forall i, j :: 0 <= i < |batches| && 0 <= j < |batches| && Rival(batches[i], batches[j]) ==> i == j
  }

  ghost predicate Differ(a: Item, b: Item) {
    a.id != b.id && !(a.batch == b.batch && a.message == b.message)
  }

  ghost predicate Apart(items: seq<Item>) {
    forall i, j :: 0 <= i < j < |items| ==> Differ(items[i], items[j])
  }

  ghost predicate Filed(t: Tables) {
    && OneCollecting(t.batches)
    && Apart(t.items)
    && (forall i :: 0 <= i < |t.items| ==> t.items[i].batch < |t.batches|)
  }

  lemma {:induction false} WithoutKeeps(items: seq<Item>, id: nat)
    requires Apart(items)
    ensures Apart(Without(items, id))
    ensures forall i :: 0 <= i < |Without(items, id)| ==> Without(items, id)[i] in items
  {
    if items != [] {
      var n := |items| - 1;
      var rest := Without(items[..n], id);
      WithoutKeeps(items[..n], id);
      forall i | 0 <= i < |rest|
        ensures rest[i] in items && Differ(rest[i], items[n])
      {
        assert rest[i] in items[..n];
        var k :| 0 <= k < n && items[..n][k] == rest[i];
        assert items[k] == rest[i];
      }
    }
  }

  lemma OpenedBatches(batches: seq<Batch>, chat: int, now: int)
    requires OneCollecting(batches)
    ensures var live, b := Opened(batches, chat, now), Target(batches, chat, now);
      && |batches| <= |live| <= |batches| + 1 && b < |live|
      && OneCollecting(live)
      && live[b].state == Collecting && live[b].chat == chat
      && (forall i :: 0 <= i < |batches| ==>
            live[i] == batches[i] || (batches[i].state == Collecting && live[i] == batches[i].(state := Expired)))
  {
  }

  lemma AddKeepsApart(t: Tables, x: Item)
    requires Filed(t) && x.id == NewId(t.items) && FindItem(t.items, x.batch, x.message).None?
    ensures Apart(t.items + [x])
  {
    forall i | 0 <= i < |t.items|
      ensures Differ(t.items[i], x)
    {
      assert !(t.items[i].batch == x.batch && t.items[i].message == x.message);
    }
  }

  lemma StageKeepsFiled(t: Tables, chat: int, ref: Ref, message: int, seconds: nat, bytes: nat, now: int)
    requires Filed(t)
    ensures Filed(Stage(t, chat, ref, message, seconds, bytes, now).0)
  {
    var (t', staged) := Stage(t, chat, ref, message, seconds, bytes, now);
    OpenedBatches(t.batches, chat, now);
    if staged.Added? {
      AddKeepsApart(t, t'.items[|t.items|]);
    }
  }

  lemma MeasuringKeepsApart(items: seq<Item>, later: seq<Item>)
    requires Apart(items) && |later| == |items|
    requires forall i :: 0 <= i < |items| ==> later[i] == items[i].(seconds := later[i].seconds)
    ensures Apart(later)
  {
    forall i, j | 0 <= i < j < |later|
      ensures Differ(later[i], later[j])
    {
      assert Differ(items[i], items[j]);
    }
  }

  lemma DiscardKeepsFiled(t: Tables, item: nat)
    requires Filed(t)
    ensures Filed(Discard(t, item))
  {
    WithoutKeeps(t.items, item);
    forall i | 0 <= i < |Discard(t, item).items|
      ensures Discard(t, item).items[i].batch < |t.batches|
    {
      assert Discard(t, item).items[i] in t.items;
    }
  }

  lemma StepKeepsFiled(w: World, s: Step)
    requires Filed(w.t)
    ensures Filed(After(w, s))
  {
    match s
    case Stages(chat, ref, message, seconds, bytes, now) =>
      StageKeepsFiled(w.t, chat, ref, message, seconds, bytes, now);
    case Discards(item, _) => DiscardKeepsFiled(w.t, item);
    case Releases(id, measured, charged, _) => MeasuringKeepsApart(w.t.items, After(w, s).items);
    case _ => OthersKeepRows(w, s);
  }

  lemma OthersKeepRows(w: World, s: Step)
    requires !s.Stages? && !s.Discards? && !s.Releases? && OneCollecting(w.t.batches)
    ensures After(w, s).items == w.t.items && |After(w, s).batches| == |w.t.batches|
    ensures OneCollecting(After(w, s).batches)
  {
  }

  lemma {:induction false} RunKeepsFiled(w: World, steps: seq<Step>)
    requires Filed(w.t)
    ensures Filed(Run(w, steps).t)
    decreases |steps|
  {
    if steps != [] {
      StepKeepsFiled(w, steps[0]);
      RunKeepsFiled(Next(w, steps[0]), steps[1..]);
    }
  }

  // ---------- within the caps ----------

  ghost predicate WithinCaps(t: Tables, b: nat)
    requires b < |t.batches|
  {
    t.batches[b].state == Collecting ==>
      SumSeconds(t.items, b) <= MAX_BATCH_SECONDS && SumBytes(t.items, b) <= MAX_BATCH_BYTES
  }

  ghost predicate Capped(t: Tables) {
    forall b :: 0 <= b < |t.batches| ==> WithinCaps(t, b)
  }

  /** The row is a recording that a request still uploading will measure. */
  ghost predicate Uploads(t: Tables, item: nat, request: nat) {
    request < |t.requests| && t.requests[request].status == Uploading && IsItemOf(t.runs, item, request)
  }

  /** What is still uploading is out of every open collection. */
  ghost predicate UploadsClosed(t: Tables) {
    && (forall k, j :: 0 <= k < |t.runs| && 0 <= j < |t.runs[k].members| ==>
          t.runs[k].members[j].request < |t.requests|)
    && (forall i, r :: 0 <= i < |t.items| && Uploads(t, t.items[i].id, r) ==>
          t.items[i].batch < |t.batches| && t.batches[t.items[i].batch].state != Collecting)
  }

  ghost predicate Bounded(t: Tables) {
    Filed(t) && Capped(t) && UploadsClosed(t)
  }

  /** The recording is added under the id of a row that was discarded while its upload goes on. */
  ghost predicate ReusesUpload(t: Tables, s: Step) {
    && s.Stages?
    && Stage(t, s.chat, s.ref, s.message, s.seconds, s.bytes, s.now).1.Added?
    && exists r :: Uploads(t, NewId(t.items), r)
  }

  lemma {:induction false} SumsOfNone(items: seq<Item>, b: nat)
    requires forall i :: 0 <= i < |items| ==> items[i].batch != b
    ensures SumSeconds(items, b) == 0 && SumBytes(items, b) == 0
  {
    if items != [] {
      SumsOfNone(items[..|items| - 1], b);
    }
  }

  ghost predicate AgreeOn(x: Item, y: Item, b: nat) {
    y.batch == x.batch && y.bytes == x.bytes && (x.batch == b ==> y.seconds == x.seconds)
  }

  lemma {:induction false} SumsAgree(items: seq<Item>, after: seq<Item>, b: nat)
    requires |items| == |after| && forall i :: 0 <= i < |items| ==> AgreeOn(items[i], after[i], b)
    ensures SumSeconds(after, b) == SumSeconds(items, b) && SumBytes(after, b) == SumBytes(items, b)
  {
    if items != [] {
      var n := |items| - 1;
      SumsAgree(items[..n], after[..n], b);
      assert AgreeOn(items[n], after[n], b);
    }
  }

  lemma {:induction false} SumsWithout(items: seq<Item>, id: nat, b: nat)
    ensures SumSeconds(Without(items, id), b) <= SumSeconds(items, b)
    ensures SumBytes(Without(items, id), b) <= SumBytes(items, b)
  {
    if items != [] {
      var n := |items| - 1;
      SumsWithout(items[..n], id, b);
      var rest := Without(items[..n], id);
      if items[n].id == id {
        assert Without(items, id) == rest;
      } else {
        assert Without(items, id) == rest + [items[n]] && (rest + [items[n]])[..|rest|] == rest;
      }
    }
  }

  /** Nothing is over a cap or open that was not, when batches only close and the rows are the same. */
  lemma ClosingKeepsBounded(t: Tables, t': Tables)
    requires Bounded(t) && Filed(t') && t'.items == t.items && t'.runs == t.runs
    requires |t.batches| <= |t'.batches| && |t.requests| <= |t'.requests|
    requires forall b :: 0 <= b < |t.batches| && t'.batches[b].state == Collecting ==> t.batches[b].state == Collecting
    requires forall i :: 0 <= i < |t.requests| && t'.requests[i].status == Uploading ==>
               t.requests[i].status == Uploading
    ensures Bounded(t')
  {
    forall i, r | 0 <= i < |t'.items| && Uploads(t', t'.items[i].id, r)
      ensures t'.items[i].batch < |t'.batches| && t'.batches[t'.items[i].batch].state != Collecting
    {
      assert Uploads(t, t.items[i].id, r) by { MemberIsStored(t, t.items[i].id, r); }
    }
    forall b | 0 <= b < |t'.batches|
      ensures WithinCaps(t', b)
    {
      if b < |t.batches| {
        assert WithinCaps(t, b);
      } else {
        SumsOfNone(t.items, b);
      }
    }
  }

  lemma MemberIsStored(t: Tables, item: nat, r: nat)
    requires UploadsClosed(t) && IsItemOf(t.runs, item, r)
    ensures r < |t.requests|
  {
    var k, j :| 0 <= k < |t.runs| && 0 <= j < |t.runs[k].members| && t.runs[k].members[j] == Member(item, r);
    assert t.runs[k].members[j].request < |t.requests|;
  }

  lemma AddKeepsBounded(t: Tables, t': Tables, x: Item)
    requires Bounded(t) && x.batch < |t.batches| && t.batches[x.batch].state == Collecting && x.id == NewId(t.items)
    requires FindItem(t.items, x.batch, x.message).None?
    requires SumSeconds(t.items, x.batch) + x.seconds <= MAX_BATCH_SECONDS
    requires SumBytes(t.items, x.batch) + x.bytes <= MAX_BATCH_BYTES
    requires forall r :: !Uploads(t, x.id, r)
    requires t' == t.(items := t.items + [x],
                      batches := t.batches[x.batch := t.batches[x.batch].(revision := t.batches[x.batch].revision + 1)])
    ensures Bounded(t')
  {
    assert t'.items[..|t.items|] == t.items;
    AddKeepsApart(t, x);
    forall b | 0 <= b < |t'.batches|
      ensures WithinCaps(t', b)
    {
      assert WithinCaps(t, b);
    }
    forall i, r | 0 <= i < |t'.items| && Uploads(t', t'.items[i].id, r)
      ensures t'.batches[t'.items[i].batch].state != Collecting
    {
      assert Uploads(t, t'.items[i].id, r);
    }
  }

  lemma StageKeepsBounded(t: Tables, s: Step)
    requires Bounded(t) && s.Stages? && !ReusesUpload(t, s)
    ensures Bounded(Stage(t, s.chat, s.ref, s.message, s.seconds, s.bytes, s.now).0)
  {
    var (t', staged) := Stage(t, s.chat, s.ref, s.message, s.seconds, s.bytes, s.now);
    if !staged.Limit? {
      OpenKeepsBounded(t, s.chat, s.now);
      var ready := t.(batches := Opened(t.batches, s.chat, s.now));
      if staged.Added? {
        assert forall r :: Uploads(ready, NewId(t.items), r) <==> Uploads(t, NewId(t.items), r);
        OpenedBatches(t.batches, s.chat, s.now);
        AddKeepsBounded(ready, t', t'.items[|t.items|]);
      }
    }
  }

  lemma OpenKeepsBounded(t: Tables, chat: int, now: int)
    requires Bounded(t)
    ensures Bounded(t.(batches := Opened(t.batches, chat, now)))
  {
    OpenedBatches(t.batches, chat, now);
    ClosingKeepsBounded(t, t.(batches := Opened(t.batches, chat, now)));
  }

  lemma DiscardKeepsBounded(t: Tables, id: nat)
    requires Bounded(t) && Filed(Discard(t, id))
    ensures Bounded(Discard(t, id))
  {
    var t' := Discard(t, id);
    WithoutKeeps(t.items, id);
    forall b | 0 <= b < |t'.batches|
      ensures WithinCaps(t', b)
    {
      assert WithinCaps(t, b);
      SumsWithout(t.items, id, b);
    }
    forall i, r | 0 <= i < |t'.items| && Uploads(t', t'.items[i].id, r)
      ensures t'.batches[t'.items[i].batch].state != Collecting
    {
      assert t'.items[i] in t.items;
      var k :| 0 <= k < |t.items| && t.items[k] == t'.items[i];
      assert Uploads(t, t.items[k].id, r);
    }
  }

  lemma LaunchKeepsBounded(t: Tables, o: Order, limit: nat, expected: nat, now: int)
    requires Bounded(t) && Filed(Launch(t, o, limit, expected, now).0)
    ensures Bounded(Launch(t, o, limit, expected, now).0)
  {
    var (t', launched) := Launch(t, o, limit, expected, now);
    if launched.Started? {
      var frozen := t.(batches := t.batches[o.batch := Frozen'(t.batches[o.batch], now)]);
      ClosingKeepsBounded(t, frozen);
      LaunchedUploadsAreClosed(t, o, now);
      forall b | 0 <= b < |t'.batches|
        ensures WithinCaps(t', b)
      {
        assert WithinCaps(frozen, b);
      }
    }
  }

  lemma LaunchedUploadsAreClosed(t: Tables, o: Order, now: int)
    requires Bounded(t) && o.batch < |t.batches|
    ensures UploadsClosed(LaunchedTables(t, o, now))
  {
    var t', n := LaunchedTables(t, o, now), |t.runs|;
    forall k, j | 0 <= k < |t'.runs| && 0 <= j < |t'.runs[k].members|
      ensures t'.runs[k].members[j].request < |t'.requests|
    {
      if k < n {
        assert t'.runs[k] == t.runs[k];
      }
    }
    forall i, r | 0 <= i < |t'.items| && Uploads(t', t'.items[i].id, r)
      ensures t'.items[i].batch < |t'.batches| && t'.batches[t'.items[i].batch].state != Collecting
    {
      LaunchedUploadIsClosed(t, o, now, i, r);
    }
  }

  lemma LaunchedUploadIsClosed(t: Tables, o: Order, now: int, i: nat, r: nat)
    requires Bounded(t) && o.batch < |t.batches| && i < |t.items|
    requires Uploads(LaunchedTables(t, o, now), t.items[i].id, r)
    ensures t.items[i].batch < |t.batches|
    ensures t.items[i].batch == o.batch || t.batches[t.items[i].batch].state != Collecting
  {
    var t', rows, x := LaunchedTables(t, o, now), Rows(t.items, o.batch), t.items[i];
    var k, j :| 0 <= k < |t'.runs| && 0 <= j < |t'.runs[k].members| && t'.runs[k].members[j] == Member(x.id, r);
    if k < |t.runs| {
      assert t'.runs[k] == t.runs[k] && IsItemOf(t.runs, x.id, r);
      MemberIsStored(t, x.id, r);
      assert t'.requests[r] == t.requests[r];
      assert Uploads(t, x.id, r);
    } else {
      VoiceLaunch.RowsAreTheMembers(t.items, o.batch);
      assert rows[j] in rows && rows[j].id == x.id;
      OneRowPerId(t.items, rows[j], x);
    }
  }

  lemma OneRowPerId(items: seq<Item>, x: Item, y: Item)
    requires Apart(items) && x in items && y in items && x.id == y.id
    ensures x == y
  {
    var i :| 0 <= i < |items| && items[i] == x;
    var j :| 0 <= j < |items| && items[j] == y;
    assert items[i].id == items[j].id;
  }

  lemma ReleaseKeepsBounded(t: Tables, id: nat, measured: Option<nat>, charged: Option<nat>)
    requires Bounded(t)
    ensures Bounded(Release(t, id, measured, charged))
  {
    var t' := Release(t, id, measured, charged);
    MeasuringKeepsApart(t.items, t'.items);
    forall i, r | 0 <= i < |t'.items| && Uploads(t', t'.items[i].id, r)
      ensures t'.batches[t'.items[i].batch].state != Collecting
    {
      assert Uploads(t, t.items[i].id, r);
    }
    forall b | 0 <= b < |t'.batches|
      ensures WithinCaps(t', b)
    {
      assert WithinCaps(t, b);
      if t.batches[b].state == Collecting {
        forall i | 0 <= i < |t.items|
          ensures AgreeOn(t.items[i], t'.items[i], b)
        {
          assert t'.items[i] != t.items[i] ==> Uploads(t, t.items[i].id, id);
        }
        SumsAgree(t.items, t'.items, b);
      }
    }
  }

  lemma {:induction false} SettleStarts(requests: seq<Request>, runs: seq<VoiceRun>, i: nat)
    requires i < |requests|
    ensures SettleRuns(requests, runs)[i].status == Uploading ==> requests[i].status == Uploading
  {
    if runs != [] {
      SettleStarts(requests, runs[..|runs| - 1], i);
    }
  }

  lemma StepKeepsBounded(w: World, s: Step)
    requires Bounded(w.t) && !ReusesUpload(w.t, s)
    ensures Bounded(After(w, s))
  {
    StepKeepsFiled(w, s);
    match s
    case Stages(_, _, _, _, _, _) => StageKeepsBounded(w.t, s);
    case Discards(item, _) => DiscardKeepsBounded(w.t, item);
    case Launches(o, limit, expected, now) => LaunchKeepsBounded(w.t, o, limit, expected, now);
    case Releases(id, measured, charged, _) => ReleaseKeepsBounded(w.t, id, measured, charged);
    case Settles(now) =>
      forall i | 0 <= i < |w.t.requests|
        ensures After(w, s).requests[i].status == Uploading ==> w.t.requests[i].status == Uploading
      {
        SettleStarts(FailStale(w.t.requests, now), w.t.runs, i);
      }
      ClosingKeepsBounded(w.t, After(w, s));
    case _ => ClosingKeepsBounded(w.t, After(w, s));
  }

  // ---------- the exact condition for one recording ----------

  predicate Measurable(measured: Option<nat>) {
    measured.Some? ==> measured.value <= MAX_RECORDING_SECONDS
  }

  /** The seconds of the collection the recording is staged into, were it as long as a recording can be. */
  function AtWorst(w: World, s: Step): int
    requires s.Stages?
  {
    SumSeconds(After(w, s).items, Target(w.t.batches, s.chat, s.now)) - s.seconds + MAX_RECORDING_SECONDS
  }

  predicate IsAdded(t: Tables, s: Step) {
    s.Stages? && Stage(t, s.chat, s.ref, s.message, s.seconds, s.bytes, s.now).1.Added?
  }

  /** The tables with the recording. */
  lemma AddedRow(w: World, s: Step)
    requires Bounded(w.t) && IsAdded(w.t, s)
    ensures var t', b := After(w, s), Target(w.t.batches, s.chat, s.now);
      && |t'.items| == |w.t.items| + 1 && t'.items[..|w.t.items|] == w.t.items
      && t'.items[|w.t.items|] == Item(NewId(w.t.items), b, s.ref, s.message, s.seconds, s.bytes, true)
      && t'.runs == w.t.runs && t'.requests == w.t.requests
      && b < |t'.batches| && t'.batches[b].state == Collecting && |w.t.batches| <= |t'.batches|
      && forall c :: 0 <= c < |w.t.batches| && t'.batches[c].state == Collecting ==> w.t.batches[c].state == Collecting
  {
    OpenedBatches(w.t.batches, s.chat, s.now);
  }

  lemma AddedIsCapped(w: World, s: Step)
    requires Bounded(w.t) && IsAdded(w.t, s)
    ensures Capped(After(w, s))
  {
    var t', opening := After(w, s), w.t.(batches := Opened(w.t.batches, s.chat, s.now));
    OpenKeepsBounded(w.t, s.chat, s.now);
    AddedRow(w, s);
    forall c | 0 <= c < |t'.batches|
      ensures WithinCaps(t', c)
    {
      assert WithinCaps(opening, c);
    }
  }

  /** A release measures nothing of an open collection but the recording just added, if that reuses its id. */
  lemma OldRowsStay(w: World, s: Step, r: nat, measured: Option<nat>, charged: Option<nat>, c: nat)
    requires Bounded(w.t) && IsAdded(w.t, s)
    requires c < |After(w, s).batches| && After(w, s).batches[c].state == Collecting
    ensures var after, n := Release(After(w, s), r, measured, charged), |w.t.items|;
      && |after.items| == n + 1
      && SumSeconds(after.items[..n], c) == SumSeconds(w.t.items, c)
      && SumBytes(after.items[..n], c) == SumBytes(w.t.items, c)
  {
    var t', after, n := After(w, s), Release(After(w, s), r, measured, charged), |w.t.items|;
    AddedRow(w, s);
    forall i | 0 <= i < n
      ensures AgreeOn(w.t.items[i], after.items[..n][i], c)
    {
      assert t'.items[i] == w.t.items[i];
      assert after.items[i] != t'.items[i] ==> Uploads(w.t, w.t.items[i].id, r);
    }
    SumsAgree(w.t.items, after.items[..n], c);
  }

  lemma NewRowIsMeasured(w: World, s: Step, r: nat, measured: Option<nat>, charged: Option<nat>)
    requires Bounded(w.t) && IsAdded(w.t, s)
    ensures var after, n := Release(After(w, s), r, measured, charged), |w.t.items|;
      && |after.items| == n + 1
      && after.items[n] == After(w, s).items[n].(seconds :=
           if measured.Some? && Uploads(w.t, NewId(w.t.items), r) then measured.value else s.seconds)
  {
    AddedRow(w, s);
  }

  lemma ReleaseIsSafe(w: World, s: Step, r: nat, measured: Option<nat>, charged: Option<nat>)
    requires Bounded(w.t) && IsAdded(w.t, s) && Measurable(measured)
    requires !ReusesUpload(w.t, s) || AtWorst(w, s) <= MAX_BATCH_SECONDS
    ensures Capped(Release(After(w, s), r, measured, charged))
  {
    var t', after, n := After(w, s), Release(After(w, s), r, measured, charged), |w.t.items|;
    AddedRow(w, s);
    AddedIsCapped(w, s);
    NewRowIsMeasured(w, s, r, measured, charged);
    forall c | 0 <= c < |after.batches|
      ensures WithinCaps(after, c)
    {
      assert WithinCaps(t', c);
      if t'.batches[c].state == Collecting {
        OldRowsStay(w, s, r, measured, charged, c);
      }
    }
  }

  /** The exact condition: whatever length up to an hour the uploads turn out to have, staging leaves every
      collection within its caps until the next recording is staged if and only if the recording reuses no id
      of a row being uploaded, or there is room for an hour in its place. */
  lemma StageIsSafeIff(w: World, s: Step)
    requires Bounded(w.t) && s.Stages?
    ensures (forall r, measured, charged :: Measurable(measured) ==>
               Capped(Release(After(w, s), r, measured, charged)))
            <==> !ReusesUpload(w.t, s) || AtWorst(w, s) <= MAX_BATCH_SECONDS
  {
    if !IsAdded(w.t, s) {
      StepKeepsBounded(w, s);
      forall r, measured, charged
        ensures Capped(Release(After(w, s), r, measured, charged))
      {
        ReleaseKeepsBounded(After(w, s), r, measured, charged);
      }
    } else if ReusesUpload(w.t, s) && AtWorst(w, s) > MAX_BATCH_SECONDS {
      var r :| Uploads(w.t, NewId(w.t.items), r);
      ReuseBreaksCaps(w, s, r);
      assert Measurable(Some(MAX_RECORDING_SECONDS));
      assert !Capped(Release(After(w, s), r, Some(MAX_RECORDING_SECONDS), None));
    } else {
      forall r, measured, charged | Measurable(measured)
        ensures Capped(Release(After(w, s), r, measured, charged))
      {
        ReleaseIsSafe(w, s, r, measured, charged);
      }
    }
  }

  /** The upload of a discarded row is measured into the recording that took its id, in a collection still
      open, perhaps of another chat. */
  lemma ReuseBreaksCaps(w: World, s: Step, r: nat)
    requires Bounded(w.t) && IsAdded(w.t, s) && Uploads(w.t, NewId(w.t.items), r)
    requires AtWorst(w, s) > MAX_BATCH_SECONDS
    ensures !Capped(Release(After(w, s), r, Some(MAX_RECORDING_SECONDS), None))
  {
    var b, after := Target(w.t.batches, s.chat, s.now), Release(After(w, s), r, Some(MAX_RECORDING_SECONDS), None);
    AddedRow(w, s);
    NewRowIsMeasured(w, s, r, Some(MAX_RECORDING_SECONDS), None);
    OldRowsStay(w, s, r, Some(MAX_RECORDING_SECONDS), None, b);
    assert SumSeconds(after.items, b) == AtWorst(w, s);
    assert !WithinCaps(after, b);
  }

  ghost predicate NeverReuses(w: World, steps: seq<Step>)
    decreases |steps|
  {
    steps == [] || (!ReusesUpload(w.t, steps[0]) && NeverReuses(Next(w, steps[0]), steps[1..]))
  }

  lemma {:induction false} RunKeepsBounded(w: World, steps: seq<Step>)
    requires Bounded(w.t) && NeverReuses(w, steps)
    ensures Bounded(Run(w, steps).t)
    decreases |steps|
  {
    if steps != [] {
      StepKeepsBounded(w, steps[0]);
      RunKeepsBounded(Next(w, steps[0]), steps[1..]);
    }
  }

  /** In every reachable state a chat has at most one collecting batch; and it is within the caps while no
      recording is staged under the id of a row that was discarded while its upload went on. */
  lemma CollectionsStayBounded(steps: seq<Step>, b: nat, c: nat)
    requires var t := Run(START, steps).t;
      b < |t.batches| && c < |t.batches| && t.batches[b].state == Collecting
    ensures var t := Run(START, steps).t;
      && (t.batches[c].state == Collecting && t.batches[c].chat == t.batches[b].chat ==> c == b)
      && (NeverReuses(START, steps) ==>
            SumSeconds(t.items, b) <= MAX_BATCH_SECONDS && SumBytes(t.items, b) <= MAX_BATCH_BYTES)
  {
    var t := Run(START, steps).t;
    RunKeepsFiled(START, steps);
    assert t.batches[c].state == Collecting && t.batches[c].chat == t.batches[b].chat ==>
      Rival(t.batches[c], t.batches[b]);
    if NeverReuses(START, steps) {
      RunKeepsBounded(START, steps);
      assert WithinCaps(t, b);
    }
  }

  // ---------- versioned ----------

  /** The same members, though some may have been measured anew. */
  ghost predicate SameMembers(rows: seq<Item>, later: seq<Item>) {
    |rows| == |later| && forall i :: 0 <= i < |rows| ==> later[i] == rows[i].(seconds := later[i].seconds)
  }

  lemma {:induction false} MembersOfOther(items: seq<Item>, id: nat, b: nat)
    requires forall i :: 0 <= i < |items| && items[i].id == id ==> items[i].batch != b
    ensures Members(Without(items, id), b) == Members(items, b)
  {
    if items != [] {
      var n := |items| - 1;
      MembersOfOther(items[..n], id, b);
      var rest := Without(items[..n], id);
      if items[n].id == id {
        assert Without(items, id) == rest;
      } else {
        assert Without(items, id) == rest + [items[n]] && (rest + [items[n]])[..|rest|] == rest;
      }
    }
  }

  lemma {:induction false} MembersMeasured(items: seq<Item>, later: seq<Item>, b: nat)
    requires SameMembers(items, later)
    ensures SameMembers(Members(items, b), Members(later, b))
  {
    if items != [] {
      var n := |items| - 1;
      MembersMeasured(items[..n], later[..n], b);
    }
  }

  /** A batch's members change only with its revision, and its revision never goes back. */
  ghost predicate Versioned(t: Tables, t': Tables, b: nat)
    requires b < |t.batches|
  {
    && b < |t'.batches|
    && t.batches[b].revision <= t'.batches[b].revision
    && (t.batches[b].revision == t'.batches[b].revision ==> SameMembers(Members(t.items, b), Members(t'.items, b)))
  }

  lemma StageIsVersioned(t: Tables, chat: int, ref: Ref, message: int, seconds: nat, bytes: nat, now: int, b: nat)
    requires Filed(t) && b < |t.batches|
    ensures Versioned(t, Stage(t, chat, ref, message, seconds, bytes, now).0, b)
    ensures t.batches[b].state != Collecting ==>
      Members(Stage(t, chat, ref, message, seconds, bytes, now).0.items, b) == Members(t.items, b)
  {
  }

  lemma DiscardIsVersioned(t: Tables, id: nat, b: nat)
    requires Filed(t) && b < |t.batches|
    ensures Versioned(t, Discard(t, id), b)
  {
    var t' := Discard(t, id);
    var found := First(t.items, (x: Item) => x.id == id);
    if found.None? || t.items[found.value].batch != b {
      forall i | 0 <= i < |t.items| && t.items[i].id == id
        ensures t.items[i].batch != b
      {
        assert found.Some? && found.value < i ==> Differ(t.items[found.value], t.items[i]);
      }
      MembersOfOther(t.items, id, b);
    } else {
    }
  }

  lemma ReleaseIsVersioned(t: Tables, id: nat, measured: Option<nat>, charged: Option<nat>, b: nat)
    requires b < |t.batches|
    ensures Versioned(t, Release(t, id, measured, charged), b)
  {
    MembersMeasured(t.items, Release(t, id, measured, charged).items, b);
  }

  lemma StepIsVersioned(w: World, s: Step, b: nat)
    requires Filed(w.t) && b < |w.t.batches|
    ensures Versioned(w.t, After(w, s), b)
  {
    match s
    case Stages(chat, ref, message, seconds, bytes, now) =>
      StageIsVersioned(w.t, chat, ref, message, seconds, bytes, now, b);
    case Discards(item, _) => DiscardIsVersioned(w.t, item, b);
    case Releases(id, measured, charged, _) => ReleaseIsVersioned(w.t, id, measured, charged, b);
    case _ =>
  }

  lemma {:induction false} RunIsVersioned(w: World, steps: seq<Step>, b: nat)
    requires Filed(w.t) && b < |w.t.batches|
    ensures Versioned(w.t, Run(w, steps).t, b)
    decreases |steps|
  {
    if steps != [] {
      StepIsVersioned(w, steps[0], b);
      StepKeepsFiled(w, steps[0]);
      RunIsVersioned(Next(w, steps[0]), steps[1..], b);
    }
  }

  lemma {:induction false} InsertSame(rows: seq<Item>, later: seq<Item>, x: Item, y: Item)
    requires SameMembers(rows, later) && y == x.(seconds := y.seconds)
    ensures SameMembers(Insert(rows, x), Insert(later, y))
  {
    if rows != [] && rows[|rows| - 1].message > x.message {
      InsertSame(rows[..|rows| - 1], later[..|later| - 1], x, y);
    }
  }

  lemma {:induction false} InOrderSame(rows: seq<Item>, later: seq<Item>)
    requires SameMembers(rows, later)
    ensures SameMembers(InOrder(rows), InOrder(later))
  {
    if rows != [] {
      var n := |rows| - 1;
      InOrderSame(rows[..n], later[..n]);
      InsertSame(InOrder(rows[..n]), InOrder(later[..n]), rows[n], later[n]);
    }
  }

  lemma SameRowsAreCarried(t: Tables, preview: seq<Item>, o: Order, limit: nat, expected: nat, now: int)
    requires Launch(t, o, limit, expected, now).1.Started? && SameMembers(preview, Rows(t.items, o.batch))
    ensures var added := Launch(t, o, limit, expected, now).0.requests[|t.requests|..];
      |added| == |preview| + 1 && forall i :: 0 <= i < |preview| ==> VoiceLaunch.Carries(added[i], preview[i], o)
  {
    VoiceLaunch.LaunchGrows(t, o, limit, expected, now);
    var t' := Launch(t, o, limit, expected, now).0;
    VoiceLaunch.GrownCarries(t, t', o, now);
    var rows, queue := Rows(t.items, o.batch), t'.requests[|t.requests|..];
    forall i | 0 <= i < |preview|
      ensures VoiceLaunch.Carries(queue[i], preview[i], o)
    {
      assert VoiceLaunch.Carries(queue[i], rows[i], o);
    }
  }

  lemma LaunchIsFresh(t: Tables, o: Order, limit: nat, expected: nat, now: int)
    requires Launch(t, o, limit, expected, now).1.Started?
    ensures o.batch < |t.batches| && t.batches[o.batch].revision == o.revision
  {
  }

  /** A launch accepted at a revision is of exactly the recordings that a preview at that revision showed, in
      the same order, whatever happened in between. */
  lemma LaunchCoversThePreview(steps: seq<Step>, more: seq<Step>, o: Order, limit: nat, expected: nat, now: int)
    requires var shown := Run(START, steps);
      && o.batch < |shown.t.batches| && shown.t.batches[o.batch].revision == o.revision
      && Launch(Run(shown, more).t, o, limit, expected, now).1.Started?
    ensures var preview := Rows(Run(START, steps).t.items, o.batch);
            var t := Run(Run(START, steps), more).t;
            var added := Launch(t, o, limit, expected, now).0.requests[|t.requests|..];
      && |added| == |preview| + 1
      && forall i :: 0 <= i < |preview| ==> VoiceLaunch.Carries(added[i], preview[i], o)
  {
    var shown := Run(START, steps);
    RunKeepsFiled(START, steps);
    RunIsVersioned(shown, more, o.batch);
    var t := Run(shown, more).t;
    LaunchIsFresh(t, o, limit, expected, now);
    InOrderSame(Members(shown.t.items, o.batch), Members(t.items, o.batch));
    SameRowsAreCarried(t, Rows(shown.t.items, o.batch), o, limit, expected, now);
  }
}
