/** What a launch inserts and charges: a request per recording in message order, each distinct recording paid
    once, never more than quoted, and nothing for what is already paid. */
module VoiceLaunch {
  import opened Prelude
  import opened VoiceQueue

  // ---------- the rows of a batch ----------

  ghost predicate Sorted(rows: seq<Item>) {
    forall i, j :: 0 <= i < j < |rows| ==> rows[i].message <= rows[j].message
  }

  lemma {:induction false} InsertAdds(rows: seq<Item>, item: Item)
    ensures multiset(Insert(rows, item)) == multiset(rows) + multiset{item}
  {
    if rows != [] {
      var rest, last := rows[..|rows| - 1], rows[|rows| - 1];
      assert rows == rest + [last];
      InsertAdds(rest, item);
    }
  }

  lemma {:induction false} InsertKeepsSorted(rows: seq<Item>, item: Item)
    requires Sorted(rows)
    ensures Sorted(Insert(rows, item))
  {
    if rows != [] && rows[|rows| - 1].message > item.message {
      var rest, last := rows[..|rows| - 1], rows[|rows| - 1];
      InsertKeepsSorted(rest, item);
      InsertAdds(rest, item);
      var inserted := Insert(rest, item);
      forall i | 0 <= i < |inserted|
        ensures inserted[i].message <= last.message
      {
        assert inserted[i] in multiset(inserted);
        assert inserted[i] == item || inserted[i] in rest;
      }
    }
  }

  lemma {:induction false} InOrderSorts(rows: seq<Item>)
    ensures Sorted(InOrder(rows)) && multiset(InOrder(rows)) == multiset(rows)
  {
    if rows != [] {
      var rest, last := rows[..|rows| - 1], rows[|rows| - 1];
      assert rows == rest + [last];
      InOrderSorts(rest);
      InsertAdds(InOrder(rest), last);
      InsertKeepsSorted(InOrder(rest), last);
    }
  }

  lemma {:induction false} MembersAre(items: seq<Item>, batch: nat, x: Item)
    ensures x in Members(items, batch) <==> x in items && x.batch == batch
  {
    if items != [] {
      MembersAre(items[..|items| - 1], batch, x);
      assert items == items[..|items| - 1] + [items[|items| - 1]];
    }
  }

  /** The rows of a batch are its recordings, each once, by message. */
  lemma RowsAreTheMembers(items: seq<Item>, batch: nat)
    ensures Sorted(Rows(items, batch))
    ensures multiset(Rows(items, batch)) == multiset(Members(items, batch))
    ensures forall x :: x in Rows(items, batch) <==> x in items && x.batch == batch
  {
    InOrderSorts(Members(items, batch));
    forall x
      ensures x in Rows(items, batch) <==> x in items && x.batch == batch
    {
      MembersAre(items, batch, x);
      assert x in Rows(items, batch) <==> x in multiset(Rows(items, batch));
      assert x in Members(items, batch) <==> x in multiset(Members(items, batch));
    }
  }

  // ---------- the charge, recording by recording ----------

  function FirstWith(rows: seq<Item>, ref: Ref): Option<nat> {
    First(rows, (x: Item) => x.ref == ref)
  }

  /** The seconds of the first row of a recording. */
  function FirstSeconds(rows: seq<Item>, ref: Ref): nat {
    var i := FirstWith(rows, ref);
    if i.None? then 0 else rows[i.value].seconds
  }

  lemma UnseenIsFirst(rows: seq<Item>, i: nat)
    requires i < |rows| && !SeenBefore(rows, i)
    ensures FirstWith(rows, rows[i].ref) == Some(i)
  {
  }

  ghost function Chargeable(t: Tables, chat: int, rows: seq<Item>, n: nat): set<Ref>
    requires n <= |rows|
  {
    set i | 0 <= i < n && !Free(t, chat, rows[i].ref) :: rows[i].ref
  }

  lemma OneRowMore(t: Tables, chat: int, rows: seq<Item>, m: nat)
    requires m < |rows|
    ensures var before, ref := Chargeable(t, chat, rows, m), rows[m].ref;
      && Chargeable(t, chat, rows, m + 1) == before + (if Free(t, chat, ref) then {} else {ref})
      && (SeenBefore(rows, m) && !Free(t, chat, ref) ==> ref in before)
      && (!SeenBefore(rows, m) ==> ref !in before)
  {
  }

  lemma {:induction false} ChargedUpTo(t: Tables, chat: int, rows: seq<Item>, n: nat)
    requires n <= |rows|
    ensures Sum(Charges(t, chat, rows)[..n]) == SetSum(Chargeable(t, chat, rows, n), ref => FirstSeconds(rows, ref))
  {
    if n > 0 {
      var m, ref, charges := n - 1, rows[n - 1].ref, Charges(t, chat, rows);
      ChargedUpTo(t, chat, rows, m);
      assert charges[..n][..m] == charges[..m];
      OneRowMore(t, chat, rows, m);
      var before := Chargeable(t, chat, rows, m);
      if Free(t, chat, ref) || SeenBefore(rows, m) {
        assert Chargeable(t, chat, rows, n) == before;
      } else {
        SetSumWith(before, ref, ref => FirstSeconds(rows, ref));
        UnseenIsFirst(rows, m);
      }
    }
  }

  /** The charge of a launch is the first row's seconds of each distinct recording not already paid. */
  lemma EachRecordingIsChargedOnce(t: Tables, chat: int, rows: seq<Item>)
    ensures Sum(Charges(t, chat, rows))
         == SetSum(Chargeable(t, chat, rows, |rows|), ref => FirstSeconds(rows, ref))
  {
    ChargedUpTo(t, chat, rows, |rows|);
    assert Charges(t, chat, rows)[..|rows|] == Charges(t, chat, rows);
  }

  /** The seconds of the requests a launch inserted. */
  function Seconds(requests: seq<Request>): seq<nat> {
    seq(|requests|, i requires 0 <= i < |requests| => requests[i].seconds)
  }

  /** The request is for the recording of the row, as it was ordered: a summary in the order's language or a
      transcript, sent by itself or kept as a part of the whole. */
  predicate Carries(r: Request, row: Item, o: Order) {
    && r.ref == row.ref && r.replyTo == Some(row.message) && r.chat == o.chat
    && r.status == Uploading && !IsFinal(r.kind)
    && (o.mode == Each ==> r.kind == One(o.output))
    && (o.mode == All ==> r.kind == Part)
    && (o.output == Summary ==> r.lang == o.lang)
    && (o.output == Transcript ==> r.lang == "")
  }

  /** The request makes the result that was ordered: none but the end of the run when each recording has its own,
      else one summary or one text of all of them. */
  predicate Concludes(r: Request, o: Order, card: Option<int>) {
    && r.ref == Collection(o.batch) && r.chat == o.chat && r.lang == o.lang && r.replyTo == card
    && r.status == Uploading && r.seconds == 0 && IsFinal(r.kind)
    && (r.kind == EachDone <==> o.mode == Each)
    && (r.kind == SummaryAll <==> o.mode == All && o.output == Summary)
    && (r.kind == TextAll <==> o.mode == All && o.output == Transcript)
  }

  /** A request as it is queued: new, wanted now, held by nobody. */
  predicate JustQueued(r: Request, now: int) {
    r.created == now && r.attempts == 0 && r.leasedUntil.None? && !r.auto
  }

  /** The tables grew by the launch's requests and its run. */
  ghost predicate Grown(t: Tables, t': Tables, o: Order, now: int) {
    var rows := Rows(t.items, o.batch);
    && o.batch < |t.batches|
    && t'.requests == t.requests + Children(o, rows, Charges(t, o.chat, rows), now)
                      + [FinalOf(o, t.batches[o.batch].card, now)]
    && t'.runs == t.runs + [VoiceRun(|t.requests| + |rows|, o.batch, RunMembers(rows, |t.requests|))]
  }

  lemma LaunchGrows(t: Tables, o: Order, limit: nat, expected: nat, now: int)
    requires Launch(t, o, limit, expected, now).1.Started?
    ensures Grown(t, Launch(t, o, limit, expected, now).0, o, now)
    ensures Launch(t, o, limit, expected, now).1 == Started(|t.requests| + |Rows(t.items, o.batch)|)
    ensures Affordable(t, o, limit, expected, now) && Current(t, o.batch).None?
  {
  }

  lemma ChildCarries(o: Order, row: Item, charge: nat, now: int)
    ensures Carries(Child(o, row, charge, now), row, o) && JustQueued(Child(o, row, charge, now), now)
  {
  }

  lemma FinalConcludes(o: Order, card: Option<int>, now: int)
    ensures Concludes(FinalOf(o, card, now), o, card) && JustQueued(FinalOf(o, card, now), now)
  {
  }

  lemma QueueCarries(queue: seq<Request>, o: Order, rows: seq<Item>, charges: seq<nat>, card: Option<int>, now: int)
    requires |charges| == |rows|
    requires queue == Children(o, rows, charges, now) + [FinalOf(o, card, now)]
    ensures |queue| == |rows| + 1
    ensures forall i :: 0 <= i < |rows| ==> Carries(queue[i], rows[i], o)
    ensures Concludes(queue[|rows|], o, card)
    ensures forall i :: 0 <= i < |queue| ==> JustQueued(queue[i], now)
  {
    FinalConcludes(o, card, now);
    forall i | 0 <= i < |rows|
      ensures Carries(queue[i], rows[i], o) && JustQueued(queue[i], now)
    {
      ChildCarries(o, rows[i], charges[i], now);
    }
  }

  lemma GrownCarries(t: Tables, t': Tables, o: Order, now: int)
    requires Grown(t, t', o, now)
    ensures t.requests <= t'.requests && |t'.requests| == |t.requests| + |Rows(t.items, o.batch)| + 1
    ensures o.batch < |t.batches|
    ensures var rows, queue := Rows(t.items, o.batch), t'.requests[|t.requests|..];
      && (forall i :: 0 <= i < |rows| ==> Carries(queue[i], rows[i], o))
      && Concludes(queue[|rows|], o, t.batches[o.batch].card)
      && (forall i :: 0 <= i < |queue| ==> JustQueued(queue[i], now))
      && queue[..|rows|] == Children(o, rows, Charges(t, o.chat, rows), now)
  {
    var rows, card := Rows(t.items, o.batch), t.batches[o.batch].card;
    var charges := Charges(t, o.chat, rows);
    var queue := Children(o, rows, charges, now) + [FinalOf(o, card, now)];
    assert t'.requests == t.requests + queue;
    assert t'.requests[|t.requests|..] == queue;
    QueueCarries(queue, o, rows, charges, card, now);
  }

  /** An accepted launch adds exactly one request per recording of the batch, by message, then the final one
      for nothing; together they cost each distinct recording once, within the quote and the hours left.
      Nothing older changes. */
  lemma LaunchInsertsTheBatch(t: Tables, o: Order, limit: nat, expected: nat, now: int)
    requires Launch(t, o, limit, expected, now).1.Started?
    ensures var (t', launched) := Launch(t, o, limit, expected, now);
            var rows, n := Rows(t.items, o.batch), |t.requests|;
      && t.requests <= t'.requests && |t'.requests| == n + |rows| + 1 && o.batch < |t.batches|
      && Sorted(rows) && (forall x :: x in rows <==> x in t.items && x.batch == o.batch)
      && launched == Started(n + |rows|)
      && t'.runs == t.runs + [VoiceRun(n + |rows|, o.batch, RunMembers(rows, n))]
      && var queue := t'.requests[n..];
         && (forall i :: 0 <= i < |rows| ==> Carries(queue[i], rows[i], o))
         && Concludes(queue[|rows|], o, t.batches[o.batch].card)
         && (forall i :: 0 <= i < |queue| ==> JustQueued(queue[i], now))
         && var charge := Sum(Seconds(queue[..|rows|]));
            && charge == SetSum(Chargeable(t, o.chat, rows, |rows|), ref => FirstSeconds(rows, ref))
            && charge <= expected
            && Used(t.requests, o.chat, now - QUOTA_SECONDS) + charge <= limit
  {
    var rows := Rows(t.items, o.batch);
    LaunchGrows(t, o, limit, expected, now);
    GrownCarries(t, Launch(t, o, limit, expected, now).0, o, now);
    RowsAreTheMembers(t.items, o.batch);
    EachRecordingIsChargedOnce(t, o.chat, rows);
    var charges := Charges(t, o.chat, rows);
    assert Seconds(Children(o, rows, charges, now)) == charges;
  }

  // ---------- what a launch pays for ----------

  ghost predicate HasPaid(t: Tables, chat: int, ref: Ref) {
    exists i :: 0 <= i < |t.requests| && PaysFor(t.requests[i], chat, ref)
  }

  /** After a launch every recording of the batch is paid for, or its first row was for nothing. */
  lemma LaunchPays(t: Tables, t': Tables, o: Order, now: int, i: nat)
    requires Grown(t, t', o, now)
    requires i < |Rows(t.items, o.batch)| && !SeenBefore(Rows(t.items, o.batch), i)
    ensures HasPaid(t', o.chat, Rows(t.items, o.batch)[i].ref) || Rows(t.items, o.batch)[i].seconds == 0
  {
    var rows, n := Rows(t.items, o.batch), |t.requests|;
    var row := rows[i];
    if Free(t, o.chat, row.ref) {
      var k :| 0 <= k < |t.requests| && PaysFor(t.requests[k], o.chat, row.ref);
      assert t'.requests[k] == t.requests[k];
    } else if row.seconds > 0 {
      assert t'.requests[n + i] == Children(o, rows, Charges(t, o.chat, rows), now)[i];
      assert PaysFor(t'.requests[n + i], o.chat, row.ref);
    }
  }

  lemma {:induction false} NothingAddsUpToNothing(charges: seq<nat>)
    requires forall i :: 0 <= i < |charges| ==> charges[i] == 0
    ensures Sum(charges) == 0
  {
    if charges != [] {
      NothingAddsUpToNothing(charges[..|charges| - 1]);
    }
  }
}
