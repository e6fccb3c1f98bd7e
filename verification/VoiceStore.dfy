/** The transactions of the voice and AI queue as they run, each proved to leave the tables module VoiceQueue
    says. */
module VoiceStore {
  import opened Prelude
  import opened VoiceQueue

  class Store {
    var batches: seq<Batch>
    var items: seq<Item>
    var requests: seq<Request>
    var runs: seq<VoiceRun>
    var transcripts: set<Ref>

    constructor ()
      ensures Contents() == Tables([], [], [], [], {})
    {
      batches, items, requests, runs, transcripts := [], [], [], [], {};
    }

    function Contents(): Tables
      reads this
    {
      Tables(batches, items, requests, runs, transcripts)
    }

    /** The chat's open batch: an outdated one expires first, and a new one opens when there is none. */
    method OpenFor(chat: int, now: int) returns (b: nat)
      modifies this`batches
      ensures batches == Opened(old(batches), chat, now) && b == Target(old(batches), chat, now)
      ensures b < |batches|
    {
      batches := Expire(batches, chat, now);
      var open := OpenBatch(batches, chat);
      if open.None? {
        b := |batches|;
        batches := batches + [Batch(chat, Collecting, now + DRAFT_SECONDS, 0, None, None)];
      } else {
        b := open.value;
      }
    }

    method StageRecording(chat: int, ref: Ref, message: int, seconds: nat, bytes: nat, now: int)
      returns (staged: Staged)
      modifies this`batches, this`items
      ensures (Contents(), staged) == Stage(old(Contents()), chat, ref, message, seconds, bytes, now)
    {
      var saved := batches;
      var b := OpenFor(chat, now);
      var known := FindItem(items, b, message);
      if known.Some? {
        return Known(b, items[known.value].id);
      }
      if SumSeconds(items, b) + seconds > MAX_BATCH_SECONDS || SumBytes(items, b) + bytes > MAX_BATCH_BYTES {
        batches := saved;
        return Limit;
      }
      var id := NewId(items);
      items := items + [Item(id, b, ref, message, seconds, bytes, true)];
      batches := batches[b := batches[b].(revision := batches[b].revision + 1)];
      staged := Added(b, id);
    }

    method DiscardItem(id: nat)
      modifies this`batches, this`items
      ensures Contents() == Discard(old(Contents()), id)
    {
      var i := First(items, (x: Item) => x.id == id);
      if i.Some? {
        var b := items[i.value].batch;
        if b < |batches| {
          batches := batches[b := batches[b].(revision := batches[b].revision + 1)];
        }
      }
      items := Without(items, id);
    }

    method SelectOutput(batch: nat, chat: int, output: Option<Output>, now: int)
      modifies this`batches
      ensures Contents() == Select(old(Contents()), batch, chat, output, now)
    {
      if batch < |batches| && batches[batch].chat == chat && batches[batch].expires > now {
        batches := batches[batch := batches[batch].(selected := output)];
      }
    }

    method CancelBatch(batch: nat, chat: int, now: int)
      modifies this`batches
      ensures Contents() == Cancel(old(Contents()), batch, chat, now)
    {
      if batch < |batches| && batches[batch].chat == chat && batches[batch].state == Collecting {
        batches := batches[batch := batches[batch].(state := Cancelled, expires := now)];
      }
    }

    method SetMessage(batch: nat, message: Option<int>)
      modifies this`batches
      ensures Contents() == ShowCard(old(Contents()), batch, message)
    {
      if batch < |batches| {
        batches := batches[batch := batches[batch].(card := message)];
      }
    }

    /** voice._needed: what each row takes from the chat's hours. */
    method Needed(chat: int, rows: seq<Item>) returns (needed: seq<nat>)
      ensures needed == Charges(Contents(), chat, rows)
    {
      needed := [];
      var seen: set<Ref> := {};
      var i := 0;
      while i < |rows|
        invariant 0 <= i <= |rows| && |needed| == i
        invariant forall ref :: ref in seen <==> exists j :: 0 <= j < i && rows[j].ref == ref
        invariant forall k :: 0 <= k < i ==> needed[k] == Charges(Contents(), chat, rows)[k]
      {
        var ref := rows[i].ref;
        var cached := ref in transcripts;
        var paid := exists k :: 0 <= k < |requests| && PaysFor(requests[k], chat, ref);
        assert ref in seen <==> SeenBefore(rows, i);
        needed := needed + [if ref in seen || (cached && paid) then 0 else rows[i].seconds];
        seen := seen + {ref};
        i := i + 1;
      }
    }

    /** One request per row, in order, and the final one after them. */
    method InsertRequests(o: Order, card: Option<int>, rows: seq<Item>, needed: seq<nat>, now: int)
      returns (final: nat, members: seq<Member>)
      requires |needed| == |rows|
      modifies this`requests
      ensures requests == old(requests) + Children(o, rows, needed, now) + [FinalOf(o, card, now)]
      ensures final == |old(requests)| + |rows| && members == RunMembers(rows, |old(requests)|)
    {
      members := [];
      ghost var before, children := requests, Children(o, rows, needed, now);
      var first, i := |requests|, 0;
      while i < |rows|
        invariant 0 <= i <= |rows| && |requests| == first + i
        invariant requests == before + children[..i]
        invariant members == RunMembers(rows, first)[..i]
      {
        members := members + [Member(rows[i].id, |requests|)];
        requests := requests + [Child(o, rows[i], needed[i], now)];
        i := i + 1;
      }
      assert children[..|rows|] == children;
      assert RunMembers(rows, first)[..|rows|] == RunMembers(rows, first);
      final := |requests|;
      requests := requests + [FinalOf(o, card, now)];
    }

    /** The charge of a launch, and whether it is within the quote and the chat's hours. */
    method Quoted(o: Order, limit: nat, expected: nat, now: int) returns (needed: seq<nat>, ok: bool)
      ensures needed == Charges(Contents(), o.chat, Rows(items, o.batch))
      ensures ok == Affordable(Contents(), o, limit, expected, now)
    {
      var rows := Rows(items, o.batch);
      needed := Needed(o.chat, rows);
      var used := Used(requests, o.chat, now - QUOTA_SECONDS);
      ok := true;
      if rows == [] || exists i :: 0 <= i < |rows| && !rows[i].ready {
        ok := false;
      } else if Sum(needed) > expected || used + Sum(needed) > limit {
        ok := false;
      }
    }

    method WriteLaunch(o: Order, needed: seq<nat>, now: int) returns (final: nat)
      requires o.batch < |batches| && needed == Charges(Contents(), o.chat, Rows(items, o.batch))
      modifies this`batches, this`requests, this`runs
      ensures Contents() == LaunchedTables(old(Contents()), o, now)
      ensures final == |old(requests)| + |Rows(items, o.batch)|
    {
      var b := batches[o.batch];
      var expires := if b.state == Frozen then b.expires else now + KEEP_SECONDS;
      batches := batches[o.batch := b.(state := Frozen, expires := expires)];
      var members;
      final, members := InsertRequests(o, b.card, Rows(items, o.batch), needed, now);
      runs := runs + [VoiceRun(final, o.batch, members)];
    }

    method LaunchBatch(o: Order, limit: nat, expected: nat, now: int) returns (launched: Launched)
      modifies this`batches, this`requests, this`runs
      ensures (Contents(), launched) == Launch(old(Contents()), o, limit, expected, now)
    {
      if !Fresh(Contents(), o, now) {
        return Changed;
      }
      var running := Current(Contents(), o.batch);
      if running.Some? {
        return AlreadyRunning(running.value);
      }
      var needed, ok := Quoted(o, limit, expected, now);
      if !ok {
        return Changed;
      }
      var final := WriteLaunch(o, needed, now);
      launched := Started(final);
    }

    method ReleaseRequest(id: nat, measured: Option<nat>, charged: Option<nat>)
      modifies this`items, this`requests
      ensures Contents() == Release(old(Contents()), id, measured, charged)
    {
      if id >= |requests| || requests[id].status != Uploading {
        return;
      }
      if measured.Some? {
        items := Measured(Contents(), id, measured.value);
      }
      var row := requests[id];
      requests := requests[id := row.(status := Pending,
                                      seconds := if charged.Some? then charged.value else row.seconds)];
    }

    method FailUpload(id: nat)
      modifies this`requests
      ensures Contents() == FailChild(old(Contents()), id)
    {
      if id < |requests| && requests[id].status == Uploading {
        requests := requests[id := requests[id].(status := Failed, leasedUntil := None)];
      }
    }

    /** Whether a recording of the run still waits for its audio, and whether one has failed. */
    method MemberStates(run: VoiceRun) returns (waits: bool, failed: bool)
      ensures waits <==> SomeMember(requests, run, Uploading)
      ensures failed <==> SomeMember(requests, run, Failed)
    {
      waits, failed := false, false;
      var j := 0;
      while j < |run.members|
        invariant 0 <= j <= |run.members|
        invariant waits <==> exists m :: 0 <= m < j && run.members[m].request < |requests|
                               && requests[run.members[m].request].status == Uploading
        invariant failed <==> exists m :: 0 <= m < j && run.members[m].request < |requests|
                                && requests[run.members[m].request].status == Failed
      {
        var child := run.members[j].request;
        if child < |requests| && requests[child].status == Uploading {
          waits := true;
        }
        if child < |requests| && requests[child].status == Failed {
          failed := true;
        }
        j := j + 1;
      }
    }

    method SettleRequests(now: int) returns (settled: seq<(nat, bool)>)
      modifies this`requests
      ensures Contents() == Settle(old(Contents()), now)
      ensures settled == SettledRuns(FailStale(old(requests), now), runs)
    {
      requests := FailStale(requests, now);
      settled := [];
      ghost var stale := requests;
      var k := 0;
      while k < |runs|
        invariant 0 <= k <= |runs|
        invariant requests == SettleRuns(stale, runs[..k])
        invariant settled == SettledRuns(stale, runs[..k])
      {
        assert runs[..k + 1][..k] == runs[..k];
        var run := runs[k];
        if run.request < |requests| && requests[run.request].status == Uploading {
          var waits, failed := MemberStates(run);
          if !waits {
            requests := requests[run.request := requests[run.request].(status := if failed then Failed else Pending)];
            settled := settled + [(run.request, failed)];
          }
        }
        k := k + 1;
      }
      assert runs[..|runs|] == runs;
    }

    method ClaimRequest(now: int) returns (claimed: Option<nat>)
      modifies this`requests
      ensures (Contents(), claimed) == Claim(old(Contents()), now)
    {
      claimed := ToClaim(requests, now);
      if claimed.Some? {
        var row := requests[claimed.value];
        requests := requests[claimed.value :=
          row.(status := Working, attempts := row.attempts + 1, leasedUntil := Some(now + LEASE_SECONDS))];
      }
    }

    method FinishRequest(id: nat, status: Status, seconds: Option<nat>)
      modifies this`requests
      ensures Contents() == Finish(old(Contents()), id, status, seconds)
    {
      if id < |requests| {
        var row := requests[id];
        requests := requests[id := row.(status := status, leasedUntil := None,
                                        seconds := if seconds.Some? then seconds.value else row.seconds)];
      }
    }

    method RetryRequest(id: nat, attempts: nat) returns (failed: bool)
      modifies this`requests
      ensures Contents() == RetryOrFail(old(Contents()), id, attempts) && (failed <==> attempts >= MAX_ATTEMPTS)
    {
      failed := attempts >= MAX_ATTEMPTS;
      FinishRequest(id, if failed then Failed else Pending, None);
    }

    method EnqueueRequest(chat: int, ref: Ref, lang: string, kind: Kind, seconds: nat, replyTo: Option<int>,
                          auto: bool, now: int) returns (id: nat, isNew: bool)
      modifies this`requests
      ensures (Contents(), id, isNew) == Enqueue(old(Contents()), chat, ref, lang, kind, seconds, replyTo, auto, now)
    {
      var found := First(requests, (r: Request) => Wanted(r, chat, ref, lang, kind));
      if found.Some? {
        id, isNew := found.value, false;
        if !auto {
          var row := requests[id];
          requests := requests[id := row.(auto := false,
                                          replyTo := if row.replyTo.Some? then row.replyTo else replyTo)];
        }
        return;
      }
      id, isNew := |requests|, true;
      requests := requests + [Request(chat, ref, lang, kind, Pending, 0, now, None, seconds, replyTo, auto)];
    }
  }
}
