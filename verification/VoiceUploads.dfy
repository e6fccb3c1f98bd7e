/** Discarding a recording whose upload goes on: the row's id is given out again when it was the newest, and the
    upload is then measured into another collection. */
module VoiceUploads {
  import opened Prelude
  import opened VoiceQueue
  import opened VoiceRuns
  import opened VoiceCollections
  import VoiceLaunch

  // ---------- what keeps ids apart ----------

  ghost predicate Stored(t: Tables, item: nat) {
    exists i :: 0 <= i < |t.items| && t.items[i].id == item
  }

  /** Every row that is still to be measured is there. */
  ghost predicate UploadsStored(t: Tables) {
    && (forall k, j :: 0 <= k < |t.runs| && 0 <= j < |t.runs[k].members| ==>
          t.runs[k].members[j].request < |t.requests|)
    && (forall item, r :: Uploads(t, item, r) ==> Stored(t, item))
  }

  /** The discarded row is not one that is still uploading. */
  ghost predicate SparesUploads(t: Tables, s: Step) {
    s.Discards? ==> forall r :: !Uploads(t, s.item, r)
  }

  ghost predicate AllSpareUploads(w: World, steps: seq<Step>)
    decreases |steps|
  {
    steps == [] || (SparesUploads(w.t, steps[0]) && AllSpareUploads(Next(w, steps[0]), steps[1..]))
  }

  lemma StoredReusesNothing(t: Tables, s: Step)
    requires UploadsStored(t)
    ensures !ReusesUpload(t, s)
  {
  }

  /** No step but a launch lets anything upload. */
  lemma NothingNewUploads(w: World, s: Step, item: nat, r: nat)
    requires UploadsStored(w.t) && !s.Launches? && Uploads(After(w, s), item, r)
    ensures Uploads(w.t, item, r)
  {
    var k, j :| 0 <= k < |w.t.runs| && 0 <= j < |w.t.runs[k].members| && w.t.runs[k].members[j] == Member(item, r);
    assert w.t.runs[k].members[j].request < |w.t.requests|;
    if s.Settles? {
      SettleStarts(FailStale(w.t.requests, s.now), w.t.runs, r);
    }
  }

  lemma {:induction false} WithoutOthers(items: seq<Item>, id: nat, x: Item)
    requires x in items && x.id != id
    ensures x in Without(items, id)
  {
    var n := |items| - 1;
    if x in items[..n] {
      WithoutOthers(items[..n], id, x);
    } else {
      assert x == items[n];
    }
  }

  lemma RowsStay(w: World, s: Step, item: nat)
    requires Stored(w.t, item) && !(s.Discards? && s.item == item)
    ensures Stored(After(w, s), item)
  {
    var i :| 0 <= i < |w.t.items| && w.t.items[i].id == item;
    var t' := After(w, s);
    if s.Discards? {
      WithoutOthers(w.t.items, s.item, w.t.items[i]);
      var k :| 0 <= k < |t'.items| && t'.items[k] == w.t.items[i];
      assert t'.items[k].id == item;
    } else {
      assert t'.items[i].id == item;
    }
  }

  lemma LaunchStoresUploads(t: Tables, o: Order, now: int)
    requires UploadsStored(t) && o.batch < |t.batches|
    ensures UploadsStored(LaunchedTables(t, o, now))
  {
    var t', rows := LaunchedTables(t, o, now), Rows(t.items, o.batch);
    VoiceLaunch.RowsAreTheMembers(t.items, o.batch);
    forall k, j | 0 <= k < |t'.runs| && 0 <= j < |t'.runs[k].members|
      ensures t'.runs[k].members[j].request < |t'.requests|
    {
      if k < |t.runs| {
        assert t'.runs[k] == t.runs[k];
      }
    }
    forall item, r | Uploads(t', item, r)
      ensures Stored(t', item)
    {
      var k, j :| 0 <= k < |t'.runs| && 0 <= j < |t'.runs[k].members| && t'.runs[k].members[j] == Member(item, r);
      if k < |t.runs| {
        assert t.runs[k].members[j].request < |t.requests|;
        assert Uploads(t, item, r);
      } else {
        assert rows[j] in rows;
      }
    }
  }

  lemma StepStoresUploads(w: World, s: Step)
    requires UploadsStored(w.t) && SparesUploads(w.t, s)
    ensures UploadsStored(After(w, s))
  {
    if s.Launches? {
      if Launch(w.t, s.o, s.limit, s.expected, s.now).1.Started? {
        LaunchStoresUploads(w.t, s.o, s.now);
      }
    } else {
      var t' := After(w, s);
      assert t'.runs == w.t.runs && |w.t.requests| <= |t'.requests|;
      forall item, r | Uploads(t', item, r)
        ensures Stored(t', item)
      {
        NothingNewUploads(w, s, item, r);
        RowsStay(w, s, item);
      }
    }
  }

  /** While no discarded row belongs to a run that is still uploading it, no id is reused and every collection
      stays within its caps, over every run. */
  lemma {:induction false} SparedUploadsKeepCaps(w: World, steps: seq<Step>)
    requires Bounded(w.t) && UploadsStored(w.t) && AllSpareUploads(w, steps)
    ensures NeverReuses(w, steps) && Capped(Run(w, steps).t)
    decreases |steps|
  {
    if steps != [] {
      StoredReusesNothing(w.t, steps[0]);
      StepStoresUploads(w, steps[0]);
      StepKeepsBounded(w, steps[0]);
      SparedUploadsKeepCaps(Next(w, steps[0]), steps[1..]);
    }
  }

  // ---------- a run that breaks a cap ----------

  /** Chat 2 sends five recordings of an hour and then one of a minute. */
  function Length(k: nat): nat {
    if k <= 5 then 3600 else 60
  }

  function Voice(k: nat): Ref {
    Recording(seq(k, i => 'v'))
  }

  function Pile(n: nat): seq<Item> {
    if n == 0 then [] else Pile(n - 1) + [Item(n, 0, Voice(n), n, Length(n), 1000, true)]
  }

  /** n recordings of batch 0 and nothing else, under the ids and messages up to n. */
  ghost predicate IsPile(items: seq<Item>, n: nat) {
    && |items| == n && MaxId(items) == n
    && (forall i :: 0 <= i < n ==> items[i].batch == 0 && items[i].id <= n && items[i].message <= n)
    && SumSeconds(items, 0) == (if n <= 5 then 3600 * n else 18060) && SumBytes(items, 0) == 1000 * n
    && Members(items, 1) == [] && SumSeconds(items, 1) == 0 && SumBytes(items, 1) == 0
    && Without(items, 7) == items
  }

  lemma PileGrows(items: seq<Item>, x: Item, n: nat)
    requires IsPile(items, n) && n < 6 && x.id == n + 1 && x.batch == 0 && x.message == n + 1
    requires x.seconds == Length(n + 1) && x.bytes == 1000
    ensures IsPile(items + [x], n + 1)
  {
    OneMore(items, x, 0);
    OneMore(items, x, 1);
    assert (items + [x])[..|items|] == items;
  }

  lemma NoPile()
    ensures IsPile([], 0)
  {
  }

  lemma {:induction false} PileIs(n: nat)
    requires n <= 6
    ensures IsPile(Pile(n), n)
  {
    if n == 0 {
      NoPile();
    } else {
      PileIs(n - 1);
      var x := Item(n, 0, Voice(n), n, Length(n), 1000, true);
      PileGrows(Pile(n - 1), x, n - 1);
      assert Pile(n) == Pile(n - 1) + [x];
    }
  }

  /** One row more. */
  lemma OneMore(items: seq<Item>, x: Item, b: nat)
    ensures Members(items + [x], b) == Members(items, b) + if x.batch == b then [x] else []
    ensures SumSeconds(items + [x], b) == SumSeconds(items, b) + if x.batch == b then x.seconds else 0
    ensures SumBytes(items + [x], b) == SumBytes(items, b) + if x.batch == b then x.bytes else 0
    ensures Without(items + [x], x.id) == Without(items, x.id)
  {
    assert (items + [x])[..|items|] == items;
  }

  const FIRST := Recording("first")
  const SECOND := Recording("second")
  const TAP := Order(1, 1, 1, Summary, Each, "en")

  function Open2(revision: nat): Batch {
    Batch(2, Collecting, 86400, revision, None, None)
  }

  const OPEN1 := Batch(1, Collecting, 86400, 1, Some(Summary), None)
  const CLOSED1 := Batch(1, Frozen, 604800, 1, Some(Summary), None)
  const LAUNCHED_ITEM := Item(7, 1, FIRST, 7, 60, 1000, true)
  const REUSED := Item(7, 0, SECOND, 8, 60, 1000, true)
  const CHILD := Request(1, FIRST, "en", One(Summary), Uploading, 0, 0, None, 60, Some(7), false)
  const FINAL := Request(1, Collection(1), "en", EachDone, Uploading, 0, 0, None, 0, None, false)
  const LAUNCHED := VoiceRun(1, 1, [Member(7, 0)])

  function Sending(k: nat): Step {
    Stages(2, Voice(k), k, Length(k), 1000, 0)
  }

  const SENDS := Stages(1, FIRST, 7, 60, 1000, 0)
  const SELECTS := Selects(1, 1, Some(Summary), 0)
  const LAUNCHES := Launches(TAP, 36000, 60, 0)
  const DISCARDS := Discards(7, 0)
  const STAGES := Stages(2, SECOND, 8, 60, 1000, 0)

  /** The upload is measured, and charged what was measured. */
  const RELEASES := Releases(0, Some(3600), Some(3600), 0)

  function Piled(items: seq<Item>, n: nat): World {
    World(Tables(if n == 0 then [] else [Open2(n)], items, [], [], {}), 0, None)
  }

  function W2(items: seq<Item>): World {
    World(Tables([Open2(6), OPEN1.(selected := None)], items + [LAUNCHED_ITEM], [], [], {}), 0, None)
  }

  function W3(items: seq<Item>): World {
    World(Tables([Open2(6), OPEN1], items + [LAUNCHED_ITEM], [], [], {}), 0, None)
  }

  function W4(items: seq<Item>): World {
    World(Tables([Open2(6), CLOSED1], items + [LAUNCHED_ITEM], [CHILD, FINAL], [LAUNCHED], {}), 0, None)
  }

  function W5(items: seq<Item>): World {
    World(Tables([Open2(6), CLOSED1.(revision := 2)], items, [CHILD, FINAL], [LAUNCHED], {}), 0, None)
  }

  function W6(items: seq<Item>): World {
    World(Tables([Open2(7), CLOSED1.(revision := 2)], items + [REUSED], [CHILD, FINAL], [LAUNCHED], {}), 0, None)
  }

  ghost function Limits(): int -> nat {
    chat => 36000
  }

  ghost predicate Steps(w: World, s: Step, w': World) {
    Next(w, s) == w' && Allowed(w, s, Limits())
  }

  lemma OpensForChat2(items: seq<Item>, n: nat)
    ensures var batches := Piled(items, n).t.batches;
      Opened(batches, 2, 0) == [Open2(n)] && Target(batches, 2, 0) == 0
  {
    var batches := Piled(items, n).t.batches;
    assert n > 0 ==> batches[0] == Open2(n);
    assert Expire(batches, 2, 0) == batches;
    assert n > 0 ==> OpenBatch(batches, 2) == Some(0);
  }

  /** Each recording of chat 2 joins its collection. */
  lemma PilesUp(items: seq<Item>, n: nat, x: Item)
    requires IsPile(items, n) && n < 6
    requires x == Item(n + 1, 0, Voice(n + 1), n + 1, Length(n + 1), 1000, true)
    ensures Steps(Piled(items, n), Sending(n + 1), Piled(items + [x], n + 1))
  {
    OpensForChat2(items, n);
    var t := Piled(items, n).t;
    assert FindItem(items, 0, n + 1).None? && NewId(items) == n + 1;
    assert [Open2(n)][0 := Open2(n + 1)] == [Open2(n + 1)];
    assert Stage(t, 2, x.ref, n + 1, x.seconds, 1000, 0).0 == Piled(items + [x], n + 1).t;
  }

  lemma OpensForChat1(items: seq<Item>)
    ensures var batches := Piled(items, 6).t.batches;
      Opened(batches, 1, 0) == [Open2(6), OPEN1.(revision := 0, selected := None)] && Target(batches, 1, 0) == 1
  {
    var batches := Piled(items, 6).t.batches;
    assert batches[0].chat == 2;
    assert Expire(batches, 1, 0) == batches;
  }

  /** Chat 1 collects one recording. */
  lemma Collects(items: seq<Item>)
    requires IsPile(items, 6)
    ensures Steps(Piled(items, 6), SENDS, W2(items))
  {
    OpensForChat1(items);
    var batches := [Open2(6), OPEN1.(revision := 0, selected := None)];
    assert batches[1 := OPEN1.(selected := None)] == W2(items).t.batches;
    assert FindItem(items, 1, 7).None? && NewId(items) == 7;
    assert Stage(Piled(items, 6).t, 1, FIRST, 7, 60, 1000, 0).0 == W2(items).t;
  }

  /** And chooses what to make of it. */
  lemma Chooses(items: seq<Item>)
    ensures Steps(W2(items), SELECTS, W3(items))
  {
    assert [Open2(6), OPEN1.(selected := None)][1 := OPEN1] == [Open2(6), OPEN1];
  }

  lemma InOrderOfOne(x: Item)
    ensures InOrder([x]) == [x]
  {
    assert [x][..0] == [];
  }

  lemma LaunchedRows(items: seq<Item>)
    requires IsPile(items, 6)
    ensures Rows(W3(items).t.items, 1) == [LAUNCHED_ITEM]
  {
    OneMore(items, LAUNCHED_ITEM, 1);
    assert Members(W3(items).t.items, 1) == [LAUNCHED_ITEM];
    InOrderOfOne(LAUNCHED_ITEM);
  }

  lemma ChargeOfOne(t: Tables, chat: int, x: Item)
    requires t.transcripts == {}
    ensures Charges(t, chat, [x]) == [x.seconds] && Sum([x.seconds]) == x.seconds
  {
    assert [x.seconds][..0] == [];
  }

  /** What a launch of one recording makes of the tables. */
  function LaunchedAlone(t: Tables, o: Order, x: Item, now: int): Tables
    requires o.batch < |t.batches|
  {
    t.(batches := t.batches[o.batch := Frozen'(t.batches[o.batch], now)],
       requests := t.requests + [Child(o, x, x.seconds, now)] + [FinalOf(o, t.batches[o.batch].card, now)],
       runs := t.runs + [VoiceRun(|t.requests| + 1, o.batch, [Member(x.id, |t.requests|)])])
  }

  lemma LaunchOfOne(t: Tables, o: Order, x: Item, limit: nat, expected: nat, now: int)
    requires Fresh(t, o, now) && Rows(t.items, o.batch) == [x] && x.ready && t.runs == [] && t.transcripts == {}
    requires x.seconds <= expected && Used(t.requests, o.chat, now - QUOTA_SECONDS) + x.seconds <= limit
    ensures Launch(t, o, limit, expected, now) == (LaunchedAlone(t, o, x, now), Started(|t.requests| + 1))
  {
    ChargeOfOne(t, o.chat, x);
    assert Current(t, o.batch).None?;
    assert Children(o, [x], [x.seconds], now) == [Child(o, x, x.seconds, now)];
    assert RunMembers([x], |t.requests|) == [Member(x.id, |t.requests|)];
  }

  lemma IsFresh(items: seq<Item>)
    ensures Fresh(W3(items).t, TAP, 0)
  {
  }

  lemma LaunchedIsW4(items: seq<Item>)
    ensures LaunchedAlone(W3(items).t, TAP, LAUNCHED_ITEM, 0) == W4(items).t
  {
  }

  /** Chat 1 launches it. */
  lemma LaunchesOne(items: seq<Item>)
    requires IsPile(items, 6)
    ensures Steps(W3(items), LAUNCHES, W4(items))
  {
    LaunchedRows(items);
    IsFresh(items);
    LaunchedIsW4(items);
    LaunchSteps(W3(items), TAP, LAUNCHED_ITEM, 36000, 60, 0);
  }

  lemma LaunchSteps(w: World, o: Order, x: Item, limit: nat, expected: nat, now: int)
    requires Fresh(w.t, o, now) && Rows(w.t.items, o.batch) == [x] && x.ready && w.t.runs == [] && w.t.transcripts == {}
    requires w.t.requests == [] && x.seconds <= expected && x.seconds <= limit == 36000 && now >= w.clock
    ensures Steps(w, Launches(o, limit, expected, now), World(LaunchedAlone(w.t, o, x, now), now, w.worker))
  {
    LaunchOfOne(w.t, o, x, limit, expected, now);
  }

  /** Its row is discarded while it uploads. */
  lemma DiscardsIt(items: seq<Item>)
    requires IsPile(items, 6)
    ensures Steps(W4(items), DISCARDS, W5(items))
  {
    OneMore(items, LAUNCHED_ITEM, 1);
    var all := items + [LAUNCHED_ITEM];
    assert all[6] == LAUNCHED_ITEM && forall i :: 0 <= i < 6 ==> all[i] == items[i];
    assert First(all, (x: Item) => x.id == 7) == Some(6);
    assert Without(all, 7) == items;
    assert Discard(W4(items).t, 7) == W5(items).t;
  }

  /** Chat 2's next recording takes the id. */
  lemma ReusesId(items: seq<Item>)
    requires IsPile(items, 6)
    ensures Steps(W5(items), STAGES, W6(items))
  {
    var batches := W5(items).t.batches;
    assert Expire(batches, 2, 0) == batches;
    assert batches[0].chat == 2 && batches[0].state == Collecting;
    assert Target(batches, 2, 0) == 0;
    StagesTheSeventh(items);
  }

  lemma StagesTheSeventh(items: seq<Item>)
    requires IsPile(items, 6)
    requires Opened(W5(items).t.batches, 2, 0) == W5(items).t.batches && Target(W5(items).t.batches, 2, 0) == 0
    ensures Stage(W5(items).t, 2, SECOND, 8, 60, 1000, 0).0 == W6(items).t
  {
    assert NewId(items) == 7 && FindItem(items, 0, 8).None?;
    assert W5(items).t.batches[0 := Open2(7)] == W6(items).t.batches;
  }

  /** And the length of the upload. */
  lemma MeasuresAnother(items: seq<Item>)
    requires IsPile(items, 6)
    ensures Next(W6(items), RELEASES).t.items == items + [REUSED.(seconds := 3600)]
    ensures Next(W6(items), RELEASES).t.batches == W6(items).t.batches
  {
    var t := W6(items).t;
    assert t.runs[0].members[0] == Member(7, 0);
    assert IsItemOf(t.runs, 7, 0);
    forall i | 0 <= i < 6
      ensures !IsItemOf(t.runs, items[i].id, 0)
    {
    }
    assert Measured(t, 0, 3600) == items + [REUSED.(seconds := 3600)];
  }

  lemma UsedByTwo(a: Request, b: Request, chat: int, since: int)
    ensures Used([a, b], chat, since) == Contribution(a, chat, since) + Contribution(b, chat, since)
  {
    assert [a][..0] == [];
    assert Used([a], chat, since) == Contribution(a, chat, since);
    assert [a, b][..1] == [a];
  }

  lemma ChargesWhatWasMeasured(items: seq<Item>)
    ensures Allowed(W6(items), RELEASES, Limits())
  {
    UsedByTwo(CHILD, FINAL, 1, -QUOTA_SECONDS);
  }

  // the run

  lemma RunStarts(w: World, s: Step, w': World, rest: seq<Step>)
    requires Steps(w, s, w') && AllAllowed(w', rest, Limits())
    ensures AllAllowed(w, [s] + rest, Limits()) && Run(w, [s] + rest) == Run(w', rest)
  {
    assert ([s] + rest)[1..] == rest;
  }

  /** Chat 2's recordings after the n-th and up to the last, and what follows. */
  function From(n: nat, last: nat, rest: seq<Step>): seq<Step>
    requires n <= last
    decreases last - n
  {
    if n == last then rest else [Sending(n + 1)] + From(n + 1, last, rest)
  }

  lemma OnePileMore(n: nat, rest: seq<Step>)
    requires n < 6 && AllAllowed(Piled(Pile(n + 1), n + 1), rest, Limits())
    ensures AllAllowed(Piled(Pile(n), n), [Sending(n + 1)] + rest, Limits())
    ensures Run(Piled(Pile(n), n), [Sending(n + 1)] + rest) == Run(Piled(Pile(n + 1), n + 1), rest)
  {
    PileIs(n);
    PilesUp(Pile(n), n, Item(n + 1, 0, Voice(n + 1), n + 1, Length(n + 1), 1000, true));
    RunStarts(Piled(Pile(n), n), Sending(n + 1), Piled(Pile(n + 1), n + 1), rest);
  }

  lemma {:induction false} PilesAndGoesOn(n: nat, last: nat, rest: seq<Step>)
    requires n <= last <= 6 && AllAllowed(Piled(Pile(last), last), rest, Limits())
    ensures AllAllowed(Piled(Pile(n), n), From(n, last, rest), Limits())
    ensures Run(Piled(Pile(n), n), From(n, last, rest)) == Run(Piled(Pile(last), last), rest)
    decreases last - n
  {
    if n < last {
      PilesAndGoesOn(n + 1, last, rest);
      OnePileMore(n, From(n + 1, last, rest));
    }
  }

  function Ending(): seq<Step> {
    [LAUNCHES] + ([DISCARDS] + ([STAGES] + ([RELEASES] + [])))
  }

  lemma TheEndHappens(items: seq<Item>)
    requires IsPile(items, 6)
    ensures AllAllowed(W3(items), Ending(), Limits()) && Run(W3(items), Ending()) == Next(W6(items), RELEASES)
  {
    ChargesWhatWasMeasured(items);
    RunStarts(W6(items), RELEASES, Next(W6(items), RELEASES), []);
    ReusesId(items);
    RunStarts(W5(items), STAGES, W6(items), [RELEASES] + []);
    DiscardsIt(items);
    RunStarts(W4(items), DISCARDS, W5(items), [STAGES] + ([RELEASES] + []));
    LaunchesOne(items);
    RunStarts(W3(items), LAUNCHES, W4(items), [DISCARDS] + ([STAGES] + ([RELEASES] + [])));
  }

  lemma TheRestHappens(items: seq<Item>)
    requires IsPile(items, 6)
    ensures AllAllowed(Piled(items, 6), [SENDS] + ([SELECTS] + Ending()), Limits())
    ensures Run(Piled(items, 6), [SENDS] + ([SELECTS] + Ending())) == Next(W6(items), RELEASES)
  {
    TheEndHappens(items);
    Collects(items);
    Chooses(items);
    RunStarts(W2(items), SELECTS, W3(items), Ending());
    RunStarts(Piled(items, 6), SENDS, W2(items), [SELECTS] + Ending());
  }

  lemma GoesOverTheCap(items: seq<Item>)
    requires IsPile(items, 6)
    ensures var t := Next(W6(items), RELEASES).t;
      |t.batches| == 2 && t.batches[0].state == Collecting && SumSeconds(t.items, 0) == 21660
  {
    MeasuresAnother(items);
    OneMore(items, REUSED.(seconds := 3600), 0);
  }

  /** A step the receiver and the downloads make: no recording is longer than an hour, and an upload is charged
      what was measured. */
  predicate Realistic(s: Step) {
    && (s.Stages? ==> 0 < s.seconds <= MAX_RECORDING_SECONDS)
    && (s.Releases? ==> s.measured == s.charged && Measurable(s.measured))
  }

  lemma {:induction false} PileIsRealistic(n: nat, last: nat, rest: seq<Step>)
    requires n <= last && forall i :: 0 <= i < |rest| ==> Realistic(rest[i])
    ensures forall i :: 0 <= i < |From(n, last, rest)| ==> Realistic(From(n, last, rest)[i])
    decreases last - n
  {
    if n < last {
      PileIsRealistic(n + 1, last, rest);
    }
  }

  /** It happens, with every caller keeping its contract and no recording longer than an hour: a collection of
      one chat goes over its cap by the length of a recording of another. */
  lemma UploadLandsInAnotherChat() returns (story: seq<Step>)
    ensures AllAllowed(START, story, Limits()) && forall i :: 0 <= i < |story| ==> Realistic(story[i])
    ensures var t := Run(START, story).t;
      |t.batches| == 2 && t.batches[0].state == Collecting && SumSeconds(t.items, 0) > MAX_BATCH_SECONDS
  {
    var items := Piles(6);
    var rest := Goes(items);
    story := Begins(0, 6, items, rest);
  }

  /** What follows the pile: its last step takes the collection over the cap. */
  lemma Goes(items: seq<Item>) returns (rest: seq<Step>)
    requires IsPile(items, 6)
    ensures AllAllowed(Piled(items, 6), rest, Limits()) && forall i :: 0 <= i < |rest| ==> Realistic(rest[i])
    ensures var t := Run(Piled(items, 6), rest).t;
      |t.batches| == 2 && t.batches[0].state == Collecting && SumSeconds(t.items, 0) > MAX_BATCH_SECONDS
  {
    rest := [SENDS] + ([SELECTS] + Ending());
    TheRestHappens(items);
    GoesOverTheCap(items);
  }

  lemma Piles(n: nat) returns (items: seq<Item>)
    requires n <= 6
    ensures items == Pile(n) && IsPile(items, n)
  {
    PileIs(n);
    items := Pile(n);
  }

  /** The recordings of chat 2, and what follows. */
  lemma Begins(none: nat, last: nat, items: seq<Item>, rest: seq<Step>) returns (story: seq<Step>)
    requires none == 0 && last <= 6 && items == Pile(last) && AllAllowed(Piled(items, last), rest, Limits())
    requires forall i :: 0 <= i < |rest| ==> Realistic(rest[i])
    ensures forall i :: 0 <= i < |story| ==> Realistic(story[i])
    ensures AllAllowed(START, story, Limits()) && Run(START, story) == Run(Piled(items, last), rest)
  {
    story := From(none, last, rest);
    PileIsRealistic(none, last, rest);
    PilesAndGoesOn(none, last, rest);
    assert START == Piled(Pile(none), none);
  }
}
