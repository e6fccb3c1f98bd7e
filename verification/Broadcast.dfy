/** Admin broadcasts: the jobs table (app/admin_web/mail_jobs.py) and the worker that sends one recipient after
    another with a persisted cursor (app/admin_web/mailer.py). */
module Broadcast {
  import opened Prelude

  datatype Status = Queued | Running | Done | CancelRequested | Paused | Cancelled

  /** recipients [] : no list frozen yet. */
  datatype Job = Job(status: Status, total: nat, sent: nat, failed: nat, skipped: nat, cursor: nat,
                     recipients: seq<int>, namesItsOwn: bool)

  // ---------- channels ----------

  /** The first three digits, or all of them. */
  function Leading(n: nat): nat {
    if n < 1000 then n else Leading(n / 10)
  }

  /** A recipient whose id starts with "-100" is a channel: it is skipped. */
  predicate IsChannel(n: int) {
    n < 0 && Leading(-n) == 100
  }

  function Digit(d: nat): char
    requires d < 10
  {
    "0123456789"[d]
  }

  function Digits(n: nat): string {
    if n < 10 then [Digit(n)] else Digits(n / 10) + [Digit(n % 10)]
  }

  lemma {:induction false} DigitsLead(n: nat)
    ensures |Digits(n)| >= 1 && (n >= 10 ==> |Digits(n)| >= 2) && (n >= 100 ==> |Digits(n)| >= 3)
    ensures "100" <= Digits(n) <==> Leading(n) == 100
  {
    if n >= 1000 {
      DigitsLead(n / 10);
      assert Digits(n)[..3] == Digits(n / 10)[..3];
      assert "100" <= Digits(n) <==> Digits(n)[..3] == "100";
      assert "100" <= Digits(n / 10) <==> Digits(n / 10)[..3] == "100";
    } else if n >= 100 {
      assert Digits(n / 10) == [Digit(n / 100), Digit(n / 10 % 10)];
      assert Digits(n) == [Digit(n / 100), Digit(n / 10 % 10), Digit(n % 10)];
      assert "100" <= Digits(n) <==> Digits(n) == "100";
    } else if n >= 10 {
      assert Digits(n) == [Digit(n / 10), Digit(n % 10)];
    }
  }

  /** The same, on the decimal text. */
  lemma ChannelIsByText(n: int)
    ensures IsChannel(n) <==> n < 0 && "-100" <= "-" + Digits(-n)
  {
    if n < 0 {
      DigitsLead(-n);
      var text := "-" + Digits(-n);
      assert text[1..] == Digits(-n);
      if "100" <= Digits(-n) {
        assert text[..4] == "-100" by { assert Digits(-n)[..3] == "100"; }
      }
      if "-100" <= text {
        assert text[..4] == "-100";
        assert Digits(-n)[..3] == text[1..4] == "100";
      }
    }
  }

  // ---------- the jobs table ----------

  function ClaimNext(jobs: seq<Job>): (r: (seq<Job>, Option<nat>))
    ensures |r.0| == |jobs|
  {
    var i := First(jobs, (j: Job) => j.status == Queued);
    if i.None? then (jobs, None) else (jobs[i.value := jobs[i.value].(status := Running)], i)
  }

  /** The jobs process died: what it was running is queued again at its cursor, what was to stop is paused. */
  function RecoveredJob(j: Job): Job {
    if j.status == Running then j.(status := Queued)
    else if j.status == CancelRequested then j.(status := Paused)
    else j
  }

  function Recover(jobs: seq<Job>): (r: seq<Job>)
    ensures |r| == |jobs| && forall i :: 0 <= i < |r| ==> r[i] == RecoveredJob(jobs[i])
  {
    seq(|jobs|, i requires 0 <= i < |jobs| => RecoveredJob(jobs[i]))
  }

  /** A stop is read and written in two steps: it goes by the status that was seen, not by the one that is. */
  function StopWritten(j: Job, seen: Status): Job {
    if seen == Queued then j.(status := Paused)
    else if seen == Running then j.(status := CancelRequested)
    else j
  }

  function Processed(j: Job): nat {
    Max(j.cursor, j.sent + j.failed + j.skipped)
  }

  function Remaining(j: Job): nat {
    Max(j.total - Processed(j), 0)
  }

  predicate CanResume(j: Job) {
    && (j.status == Paused || j.status == Cancelled)
    && (Processed(j) == 0 || (Remaining(j) > 0 && (j.recipients != [] || j.namesItsOwn)))
  }

  function ResumedJob(j: Job): Job {
    if CanResume(j) then j.(status := Queued) else j
  }

  /** The oldest queued job runs, and no other job changes; none runs only when none is queued. */
  lemma OldestIsClaimed(jobs: seq<Job>)
    ensures var (after, i) := ClaimNext(jobs);
      && (i.None? ==> after == jobs && forall k :: 0 <= k < |jobs| ==> jobs[k].status != Queued)
      && (i.Some? ==>
            && i.value < |jobs| && jobs[i.value].status == Queued
            && (forall k :: 0 <= k < i.value ==> jobs[k].status != Queued)
            && after == jobs[i.value := jobs[i.value].(status := Running)])
  {
  }

  /** After a crash what ran is queued again, what was to stop is paused, and every other job, and every cursor, is
      where it was. */
  lemma CrashLosesNoJob(jobs: seq<Job>, k: nat)
    requires k < |jobs|
    ensures var j, after := jobs[k], Recover(jobs)[k];
      && after == j.(status := after.status)
      && (j.status == Running ==> after.status == Queued)
      && (j.status == CancelRequested ==> after.status == Paused)
      && (j.status != Running && j.status != CancelRequested ==> after.status == j.status)
  {
  }

  /** A stop seen queued pauses, one seen running asks the worker, and one seen ended changes nothing; a resume
      queues a stopped job that has not begun, or that has recipients left and still knows them. */
  lemma StopAndResumeAnswer(j: Job, seen: Status)
    ensures StopWritten(j, seen)
         == j.(status := if seen == Queued then Paused else if seen == Running then CancelRequested else j.status)
    ensures var stopped := j.status == Paused || j.status == Cancelled;
            var began, left := j.cursor > 0 || j.sent + j.failed + j.skipped > 0,
                               j.cursor < j.total && j.sent + j.failed + j.skipped < j.total;
      ResumedJob(j)
      == j.(status := if stopped && (!began || (left && (j.recipients != [] || j.namesItsOwn))) then Queued
                      else j.status)
  {
  }

  class MailJobs {
    var jobs: seq<Job>

    constructor ()
      ensures jobs == []
    {
      jobs := [];
    }

    method Claim() returns (claimed: Option<nat>)
      modifies this
      ensures (jobs, claimed) == ClaimNext(old(jobs))
      ensures claimed.Some? ==> forall i :: 0 <= i < claimed.value ==> old(jobs)[i].status != Queued
    {
      claimed := None;
      var i := 0;
      while i < |jobs|
        invariant 0 <= i <= |jobs| && jobs == old(jobs)
        invariant forall k :: 0 <= k < i ==> jobs[k].status != Queued
      {
        if jobs[i].status == Queued {
          jobs := jobs[i := jobs[i].(status := Running)];
          return Some(i);
        }
        i := i + 1;
      }
    }

    method RecoverInterrupted()
      modifies this
      ensures jobs == Recover(old(jobs))
    {
      var i := 0;
      while i < |jobs|
        invariant 0 <= i <= |jobs| == |old(jobs)|
        invariant forall k :: 0 <= k < i ==> jobs[k] == RecoveredJob(old(jobs)[k])
        invariant forall k :: i <= k < |jobs| ==> jobs[k] == old(jobs)[k]
      {
        if jobs[i].status == Running {
          jobs := jobs[i := jobs[i].(status := Queued)];
        } else if jobs[i].status == CancelRequested {
          jobs := jobs[i := jobs[i].(status := Paused)];
        }
        i := i + 1;
      }
    }

    /** The second half of request_cancel: whatever happened since `seen` was read is overwritten. */
    method WriteStop(i: nat, seen: Status)
      modifies this
      ensures jobs == if i < |old(jobs)| then old(jobs)[i := StopWritten(old(jobs)[i], seen)] else old(jobs)
    {
      if i < |jobs| {
        if seen == Queued {
          jobs := jobs[i := jobs[i].(status := Paused)];
        } else if seen == Running {
          jobs := jobs[i := jobs[i].(status := CancelRequested)];
        }
      }
    }

    method Resume(i: nat)
      modifies this
      ensures jobs == if i < |old(jobs)| then old(jobs)[i := ResumedJob(old(jobs)[i])] else old(jobs)
    {
      if i < |jobs| && CanResume(jobs[i]) {
        jobs := jobs[i := jobs[i].(status := Queued)];
      }
    }
  }

  // ---------- one job, worked through ----------

  /** What a job's row keeps at every moment. */
  ghost predicate JobSound(j: Job) {
    && j.cursor == j.sent + j.failed + j.skipped
    && j.cursor <= |j.recipients|
    && (j.recipients != [] ==> j.total == |j.recipients|)
    && (j.status == Done ==> j.cursor == |j.recipients|)
  }

  /** The indexes first..end a message goes to, in order: everyone but channels. */
  function Addressed(list: seq<int>, first: nat, end: nat): seq<nat>
    requires first <= end <= |list|
    decreases end
  {
    if first == end then []
    else Addressed(list, first, end - 1) + if IsChannel(list[end - 1]) then [] else [end - 1]
  }

  function Successes(addressed: seq<nat>, refused: set<nat>): nat {
    if addressed == [] then 0
    else
      Successes(addressed[..|addressed| - 1], refused) + if addressed[|addressed| - 1] in refused then 0 else 1
  }

  /** What sending the indexes from `first` up to `end` makes of a row. */
  function Progressed(j: Job, first: nat, end: nat, refused: set<nat>): Job
    requires first <= end <= |j.recipients|
    decreases end
  {
    if first == end then j.(cursor := end)
    else
      var before := Progressed(j, first, end - 1, refused);
      if IsChannel(j.recipients[end - 1]) then before.(skipped := before.skipped + 1, cursor := end)
      else if end - 1 in refused then before.(failed := before.failed + 1, cursor := end)
      else before.(sent := before.sent + 1, cursor := end)
  }

  lemma OneMore(j: Job, first: nat, end: nat, refused: set<nat>)
    requires first < end <= |j.recipients|
    ensures var before, channel := Progressed(j, first, end - 1, refused), IsChannel(j.recipients[end - 1]);
      && Progressed(j, first, end, refused)
         == before.(cursor := end,
                    skipped := before.skipped + if channel then 1 else 0,
                    failed := before.failed + if !channel && end - 1 in refused then 1 else 0,
                    sent := before.sent + if !channel && end - 1 !in refused then 1 else 0)
      && Addressed(j.recipients, first, end)
         == Addressed(j.recipients, first, end - 1) + if channel then [] else [end - 1]
  {
  }

  /** A run counts every index once: as sent, refused or skipped. */
  lemma {:induction false} ProgressAddsUp(j: Job, first: nat, end: nat, refused: set<nat>)
    requires first <= end <= |j.recipients|
    ensures var after := Progressed(j, first, end, refused); var addressed := Addressed(j.recipients, first, end);
      && after == j.(cursor := end, sent := after.sent, failed := after.failed, skipped := after.skipped)
      && after.sent == j.sent + Successes(addressed, refused)
      && after.failed == j.failed + |addressed| - Successes(addressed, refused)
      && after.skipped == j.skipped + (end - first) - |addressed|
    decreases end
  {
    if first < end {
      ProgressAddsUp(j, first, end - 1, refused);
      var before, all := Addressed(j.recipients, first, end - 1), Addressed(j.recipients, first, end);
      if IsChannel(j.recipients[end - 1]) {
        assert all == before;
      } else {
        assert all == before + [end - 1] && all[..|all| - 1] == before;
      }
    }
  }

  /** So a run keeps the row sound, wherever it stops. */
  lemma RunKeepsJobSound(j: Job, list: seq<int>, end: nat, refused: set<nat>)
    requires JobSound(j) && j.status == Running && (j.recipients == list || j.recipients == [])
    requires j.cursor <= end <= |list|
    ensures JobSound(Progressed(j.(recipients := list, total := |list|), j.cursor, end, refused)
                     .(status := if end == |list| then Done else Paused))
  {
    ProgressAddsUp(j.(recipients := list, total := |list|), j.cursor, end, refused);
  }

  /** Where a run ends: at the end of the list, or at the first check that finds a stop asked. */
  function StopsAt(cursor: nat, size: nat, stopFrom: nat): nat
    requires cursor <= size
  {
    if stopFrom <= cursor then cursor else if stopFrom <= size then stopFrom else size
  }

  lemma EndIsTheStop(cursor: nat, size: nat, stopFrom: nat)
    requires cursor <= size
    ensures var end := StopsAt(cursor, size, stopFrom);
      cursor <= end <= size && (end == size || stopFrom <= end) && (end == cursor || end <= stopFrom)
  {
  }

  /** The addressed indexes are those of the stretch that are no channels, in order and each once. */
  lemma {:induction false} AddressedAreAllButChannels(list: seq<int>, first: nat, end: nat, k: nat)
    requires first <= end <= |list|
    ensures var addressed := Addressed(list, first, end);
      && (k in addressed <==> first <= k < end && !IsChannel(list[k]))
      && (forall i :: 0 <= i < |addressed| ==> addressed[i] < end)
      && forall i, j :: 0 <= i < j < |addressed| ==> addressed[i] < addressed[j]
    decreases end
  {
    if first < end {
      AddressedAreAllButChannels(list, first, end - 1, k);
    }
  }

  ghost function Indexes(s: seq<nat>, refused: set<nat>): set<nat> {
    set i: nat | i in s && i !in refused
  }

  lemma OneIndexMore(rest: seq<nat>, last: nat, refused: set<nat>)
    requires last !in rest
    ensures |Indexes(rest + [last], refused)| == |Indexes(rest, refused)| + if last in refused then 0 else 1
  {
    var before, all := Indexes(rest, refused), Indexes(rest + [last], refused);
    if last in refused {
      assert all == before;
    } else {
      assert all == before + {last};
    }
  }

  /** The successes are the addressed indexes whose send was not refused. */
  lemma {:induction false} SuccessesAreTheRest(s: seq<nat>, refused: set<nat>)
    requires forall i, j :: 0 <= i < j < |s| ==> s[i] < s[j]
    ensures Successes(s, refused) == |Indexes(s, refused)|
  {
    if s == [] {
      assert Indexes(s, refused) == {};
    } else {
      var rest, last := s[..|s| - 1], s[|s| - 1];
      SuccessesAreTheRest(rest, refused);
      OneIndexMore(rest, last, refused) by { assert forall i :: 0 <= i < |rest| ==> rest[i] == s[i] < last; }
      assert rest + [last] == s;
    }
  }

  class Worker {
    var job: Job
    ghost var attempted: seq<nat>

    constructor (job: Job)
      ensures this.job == job && attempted == []
    {
      this.job := job;
      attempted := [];
    }

    /** One recipient: a channel is skipped, the others get the message, and the counter of what came of it
        rises. */
    method Handle(list: seq<int>, i: nat, refused: set<nat>, sent: nat, failed: nat, skipped: nat)
      returns (sent': nat, failed': nat, skipped': nat)
      requires i < |list|
      modifies this`attempted
      ensures attempted == old(attempted) + if IsChannel(list[i]) then [] else [i]
      ensures skipped' == skipped + if IsChannel(list[i]) then 1 else 0
      ensures failed' == failed + if !IsChannel(list[i]) && i in refused then 1 else 0
      ensures sent' == sent + if !IsChannel(list[i]) && i !in refused then 1 else 0
    {
      sent', failed', skipped' := sent, failed, skipped;
      if IsChannel(list[i]) {
        skipped' := skipped + 1;
      } else {
        attempted := attempted + [i];
        if i in refused {
          failed' := failed + 1;
        } else {
          sent' := sent + 1;
        }
      }
    }

    /** The loop: from the cursor to the end of the list, or to the first check that finds a stop asked
        (`stopFrom`). `refused`: the indexes whose send fails. */
    method SendFrom(refused: set<nat>, stopFrom: nat)
      requires job.cursor <= |job.recipients| && job.status == Running
      modifies this
      ensures var start := old(job); var end := StopsAt(start.cursor, |start.recipients|, stopFrom);
        && job == Progressed(start, start.cursor, end, refused)
                  .(status := if end == |start.recipients| then Done else Paused)
        && attempted == old(attempted) + Addressed(start.recipients, start.cursor, end)
    {
      var list := job.recipients;
      ghost var start := job;
      var i, sent, failed, skipped := job.cursor, job.sent, job.failed, job.skipped;
      while i < |list|
        invariant start.cursor <= i <= |list|
        invariant job == Progressed(start, start.cursor, i, refused)
        invariant job.status == Running && job.sent == sent && job.failed == failed && job.skipped == skipped
        invariant i > start.cursor ==> i <= stopFrom
        invariant attempted == old(attempted) + Addressed(list, start.cursor, i)
      {
        if stopFrom <= i {
          job := job.(status := Paused);
          return;
        }
        sent, failed, skipped := Handle(list, i, refused, sent, failed, skipped);
        i := i + 1;
        job := job.(sent := sent, failed := failed, skipped := skipped, cursor := i);
        OneMore(start, start.cursor, i, refused);
      }
      job := job.(status := Done);
    }

    /** One uninterrupted run over the job: its list is frozen if it was not, and sent to from the cursor. */
    method ProcessJob(built: seq<int>, refused: set<nat>, stopFrom: nat)
      requires JobSound(job) && job.status == Running
      modifies this
      ensures var list := if old(job).recipients != [] then old(job).recipients else built;
              var start := old(job).(recipients := list, total := |list|);
              var end := StopsAt(start.cursor, |list|, stopFrom);
        && job == Progressed(start, start.cursor, end, refused).(status := if end == |list| then Done else Paused)
        && attempted == old(attempted) + Addressed(list, start.cursor, end)
      ensures JobSound(job)
    {
      ghost var before := job;
      if job.recipients == [] {
        job := job.(recipients := built, total := |built|);
      }
      var list := job.recipients;
      job := job.(total := |list|);
      RunKeepsJobSound(before, list, StopsAt(job.cursor, |list|, stopFrom), refused);
      SendFrom(refused, stopFrom);
    }
  }
}
