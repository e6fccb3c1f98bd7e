/** Running the payment effects: claims with leases, retries with a growing pause, and what workers that
    finish inside their lease keep true of the table. */
module OutboxWorker {
  import opened Prelude
  import opened Outbox

  predicate Due(row: Effect, now: int) {
    (row.status == Pending || row.status == Leased) && row.dueAt <= now
  }

  function Claimed(row: Effect, now: int): Effect {
    row.(status := Leased, attempts := row.attempts + 1, dueAt := now + LEASE_SECONDS)
  }

  /** `attempts` is what the worker read when it claimed the row. */
  function Finished(row: Effect, attempts: nat, failed: bool, now: int): Effect {
    if !failed then row.(status := Done, dueAt := now)
    else if attempts >= MAX_ATTEMPTS then row.(status := Failed, dueAt := now)
    else row.(status := Pending, dueAt := now + RETRY_SECONDS * attempts)
  }

  function Claim(rows: seq<Effect>, now: int): (r: (seq<Effect>, Option<nat>))
    ensures |r.0| == |rows|
  {
    var i := First(rows, row => Due(row, now));
    if i.None? then (rows, None) else (rows[i.value := Claimed(rows[i.value], now)], i)
  }

  function Finish(rows: seq<Effect>, i: nat, attempts: nat, failed: bool, now: int): (r: seq<Effect>)
    ensures |r| == |rows|
  {
    if i < |rows| then rows[i := Finished(rows[i], attempts, failed, now)] else rows
  }

  /** What one pass of the jobs role makes of a row. */
  function PassedRow(row: Effect, failed: bool, now: int): Effect {
    if Due(row, now) then Finished(Claimed(row, now), row.attempts + 1, failed, now) else row
  }

  function Pass(rows: seq<Effect>, fails: set<nat>, now: int): (r: seq<Effect>)
    ensures |r| == |rows| && forall i :: 0 <= i < |r| ==> r[i] == PassedRow(rows[i], i in fails, now)
  {
    seq(|rows|, i requires 0 <= i < |rows| => PassedRow(rows[i], i in fails, now))
  }

  class EffectTable {
    var rows: seq<Effect>

    constructor ()
      ensures rows == []
    {
      rows := [];
    }

    method ClaimNext(now: int) returns (claimed: Option<nat>)
      modifies this
      ensures (rows, claimed) == Claim(old(rows), now)
    {
      claimed := First(rows, row => Due(row, now));
      if claimed.Some? {
        var row := rows[claimed.value];
        rows := rows[claimed.value :=
          row.(status := Leased, attempts := row.attempts + 1, dueAt := now + LEASE_SECONDS)];
      }
    }

    method FinishClaim(i: nat, attempts: nat, failed: bool, now: int)
      modifies this
      ensures rows == Finish(old(rows), i, attempts, failed, now)
    {
      var status, dueAt := Done, now;
      if failed {
        if attempts >= MAX_ATTEMPTS {
          status := Failed;
        } else {
          status, dueAt := Pending, now + RETRY_SECONDS * attempts;
        }
      }
      if i < |rows| {
        rows := rows[i := rows[i].(status := status, dueAt := dueAt)];
      }
    }

    /** One pass of the jobs role: every row that is due runs exactly once, in id order, and nothing is due
        after it. `fails`: the rows whose handler raises. */
    method RunDue(now: int, fails: set<nat>) returns (ran: seq<nat>)
      modifies this
      ensures rows == Pass(old(rows), fails, now)
      ensures forall i :: 0 <= i < |rows| ==> !Due(rows[i], now)
      ensures forall i :: 0 <= i < |rows| ==> (i in ran <==> Due(old(rows)[i], now))
      ensures forall j, k :: 0 <= j < k < |ran| ==> ran[j] < ran[k]
    {
      ran := [];
      ghost var before, upTo := rows, 0;
      while true
        invariant 0 <= upTo <= |rows| == |before|
        invariant forall i :: upTo <= i < |rows| ==> rows[i] == before[i]
        invariant forall i :: 0 <= i < upTo ==> rows[i] == PassedRow(before[i], i in fails, now)
        invariant forall j :: 0 <= j < |ran| ==> 0 <= ran[j] < upTo
        invariant forall i :: 0 <= i < upTo ==> (i in ran <==> Due(before[i], now))
        invariant forall j, k :: 0 <= j < k < |ran| ==> ran[j] < ran[k]
        decreases |before| - upTo
      {
        var claimed := ClaimNext(now);
        if claimed.None? {
          assert forall i :: 0 <= i < |rows| ==> rows[i] == PassedRow(before[i], i in fails, now);
          return;
        }
        var i := claimed.value;
        FinishClaim(i, rows[i].attempts, i in fails, now);
        ran := ran + [i];
        upTo := i + 1;
      }
    }
  }

  // ---------- workers that finish inside their lease ----------

  datatype Job = Job(row: nat, attempts: nat)
  datatype Desk = Desk(rows: seq<Effect>, held: map<nat, Job>, clock: int)
  datatype Event =
    | Queued(payment: Key, user: nat, effect: string, now: int)
    | Claims(worker: nat, now: int)
    | Finishes(worker: nat, failed: bool, now: int)

  /** Time does not go back, nobody claims with a row in hand, and no lease that is held has run out. */
  predicate InTime(d: Desk, e: Event) {
    && e.now >= d.clock
    && (forall w :: w in d.held ==> d.held[w].row < |d.rows| && d.rows[d.held[w].row].dueAt > e.now)
    && (e.Claims? ==> e.worker !in d.held)
    && (e.Finishes? ==> e.worker in d.held)
  }

  function Next(d: Desk, e: Event): Desk
    requires InTime(d, e)
  {
    match e
    case Queued(payment, user, effect, now) =>
      Desk(Insert(d.rows, user, payment, effect, now), d.held, now)
    case Claims(worker, now) =>
      var (rows, i) := Claim(d.rows, now);
      Desk(rows, if i.None? then d.held else d.held[worker := Job(i.value, rows[i.value].attempts)], now)
    case Finishes(worker, failed, now) =>
      var job := d.held[worker];
      Desk(Finish(d.rows, job.row, job.attempts, failed, now), d.held - {worker}, now)
  }

  ghost predicate Holds(d: Desk, worker: nat, i: nat) {
    worker in d.held && d.held[worker].row == i
  }

  ghost predicate RowSound(row: Effect) {
    && row.attempts <= MAX_ATTEMPTS
    && (row.status == Pending ==> row.attempts < MAX_ATTEMPTS)
    && (row.status == Leased ==> row.attempts >= 1)
  }

  ghost predicate JobSound(rows: seq<Effect>, job: Job) {
    job.row < |rows| && rows[job.row].status == Leased && rows[job.row].attempts == job.attempts
  }

  ghost predicate Sound(d: Desk) {
    && (forall i :: 0 <= i < |d.rows| ==> RowSound(d.rows[i]))
    && (forall i :: 0 <= i < |d.rows| && d.rows[i].status == Leased ==> exists w :: Holds(d, w, i))
    && (forall w :: w in d.held ==> JobSound(d.rows, d.held[w]))
    && (forall v, w :: v in d.held && w in d.held && d.held[v].row == d.held[w].row ==> v == w)
  }

  /** A claim takes a pending row, one nobody holds: every leased row is held inside its lease. */
  lemma ClaimIsPending(d: Desk, e: Event)
    requires Sound(d) && e.Claims? && InTime(d, e) && Claim(d.rows, e.now).1.Some?
    ensures var i := Claim(d.rows, e.now).1.value;
            d.rows[i].status == Pending && forall w :: w in d.held ==> d.held[w].row != i
  {
  }

  lemma QueueKeepsSound(d: Desk, e: Event)
    requires Sound(d) && InTime(d, e) && e.Queued?
    ensures Sound(Next(d, e))
  {
    var d' := Next(d, e);
    forall i | 0 <= i < |d'.rows| && d'.rows[i].status == Leased
      ensures exists w :: Holds(d', w, i)
    {
      var w :| Holds(d, w, i);
      assert Holds(d', w, i);
    }
  }

  lemma ClaimKeepsSound(d: Desk, e: Event)
    requires Sound(d) && InTime(d, e) && e.Claims?
    ensures Sound(Next(d, e))
  {
    var taken := Claim(d.rows, e.now).1;
    if taken.Some? {
      ClaimIsPending(d, e);
      TakenKeepsSound(d, Next(d, e), e.worker, taken.value, e.now);
    } else {
      assert Next(d, e) == Desk(d.rows, d.held, e.now);
      forall i | 0 <= i < |d.rows| && d.rows[i].status == Leased
        ensures exists w :: Holds(Next(d, e), w, i)
      {
        var w :| Holds(d, w, i);
        assert Holds(Next(d, e), w, i);
      }
    }
  }

  lemma TakenKeepsSound(d: Desk, d': Desk, worker: nat, i: nat, now: int)
    requires Sound(d) && worker !in d.held && i < |d.rows| && d.rows[i].status == Pending
    requires forall w :: w in d.held ==> d.held[w].row != i
    requires d' == Desk(d.rows[i := Claimed(d.rows[i], now)], d.held[worker := Job(i, d.rows[i].attempts + 1)], now)
    ensures Sound(d')
  {
    assert RowSound(d.rows[i]);
    forall k | 0 <= k < |d'.rows|
      ensures RowSound(d'.rows[k])
    {
      assert RowSound(d.rows[k]);
    }
    forall k | 0 <= k < |d'.rows| && d'.rows[k].status == Leased
      ensures exists w :: Holds(d', w, k)
    {
      if k == i {
        assert Holds(d', worker, k);
      } else {
        var w :| Holds(d, w, k);
        assert Holds(d', w, k);
      }
    }
    forall w | w in d'.held
      ensures JobSound(d'.rows, d'.held[w])
    {
      assert w in d.held ==> JobSound(d.rows, d.held[w]);
    }
  }

  lemma FinishKeepsSound(d: Desk, e: Event)
    requires Sound(d) && InTime(d, e) && e.Finishes?
    ensures Sound(Next(d, e))
  {
    var d', job := Next(d, e), d.held[e.worker];
    assert JobSound(d.rows, job) && RowSound(d.rows[job.row]);
    forall i | 0 <= i < |d'.rows| && d'.rows[i].status == Leased
      ensures exists w :: Holds(d', w, i)
    {
      assert i != job.row && d'.rows[i] == d.rows[i];
      var w :| Holds(d, w, i);
      assert Holds(d', w, i);
    }
    forall w | w in d'.held
      ensures JobSound(d'.rows, d'.held[w])
    {
      assert w != e.worker && JobSound(d.rows, d.held[w]) && d.held[w].row != job.row;
    }
    forall i | 0 <= i < |d'.rows|
      ensures RowSound(d'.rows[i])
    {
      assert RowSound(d.rows[i]);
    }
  }

  lemma StepKeepsSound(d: Desk, e: Event)
    requires Sound(d) && InTime(d, e)
    ensures Sound(Next(d, e))
  {
    match e
    case Queued(_, _, _, _) => QueueKeepsSound(d, e);
    case Claims(_, _) => ClaimKeepsSound(d, e);
    case Finishes(_, _, _) => FinishKeepsSound(d, e);
  }

  ghost predicate RunsInTime(d: Desk, events: seq<Event>)
    decreases |events|
  {
    events == [] || (InTime(d, events[0]) && RunsInTime(Next(d, events[0]), events[1..]))
  }

  ghost function Run(d: Desk, events: seq<Event>): Desk
    requires RunsInTime(d, events)
    decreases |events|
  {
    if events == [] then d else Run(Next(d, events[0]), events[1..])
  }

  /** How many of the run's claims took row i. */
  ghost function ClaimsOf(d: Desk, events: seq<Event>, i: nat): nat
    requires RunsInTime(d, events)
    decreases |events|
  {
    if events == [] then 0
    else
      (if events[0].Claims? && Claim(d.rows, events[0].now).1 == Some(i) then 1 else 0)
      + ClaimsOf(Next(d, events[0]), events[1..], i)
  }

  lemma {:induction false} RunKeepsSound(d: Desk, events: seq<Event>, i: nat)
    requires Sound(d) && RunsInTime(d, events) && i < |d.rows|
    ensures Sound(Run(d, events))
    ensures |d.rows| <= |Run(d, events).rows|
    ensures Run(d, events).rows[i].attempts == d.rows[i].attempts + ClaimsOf(d, events, i)
    decreases |events|
  {
    if events != [] {
      StepKeepsSound(d, events[0]);
      RunKeepsSound(Next(d, events[0]), events[1..], i);
    }
  }

  /** In every run of workers that finish inside their lease: no row is in two hands, a row is claimed at
      most MAX_ATTEMPTS times, and once it has been and nobody holds it, it is done or failed. */
  lemma LeasesAndAttemptsAreBounded(d: Desk, events: seq<Event>, i: nat)
    requires Sound(d) && RunsInTime(d, events) && i < |d.rows|
    ensures var end := Run(d, events);
      && |d.rows| <= |end.rows|
      && (forall v, w :: Holds(end, v, i) && Holds(end, w, i) ==> v == w)
      && ClaimsOf(d, events, i) <= MAX_ATTEMPTS
      && (ClaimsOf(d, events, i) == MAX_ATTEMPTS && (forall w :: !Holds(end, w, i))
          ==> end.rows[i].status == Done || end.rows[i].status == Failed)
  {
    RunKeepsSound(d, events, i);
  }

  /** A failed attempt n < MAX_ATTEMPTS puts the row off by n * RETRY_SECONDS: until a claim takes it, no
      event touches it, and no claim takes it before then. */
  lemma {:induction false} RetryWaits(d: Desk, events: seq<Event>, i: nat)
    requires Sound(d) && RunsInTime(d, events) && i < |d.rows| && d.rows[i].status == Pending
    requires forall k :: 0 <= k < |events| ==> events[k].now < d.rows[i].dueAt
    ensures |d.rows| <= |Run(d, events).rows| && Run(d, events).rows[i] == d.rows[i]
    ensures ClaimsOf(d, events, i) == 0
    decreases |events|
  {
    if events != [] {
      var d' := Next(d, events[0]);
      StepKeepsSound(d, events[0]);
      assert d'.rows[i] == d.rows[i];
      forall k | 0 <= k < |events[1..]|
        ensures events[1..][k].now < d'.rows[i].dueAt
      {
        assert events[1..][k] == events[k + 1];
      }
      RetryWaits(d', events[1..], i);
    }
  }

  lemma FailureBacksOff(d: Desk, worker: nat, now: int)
    requires Sound(d) && InTime(d, Finishes(worker, true, now)) && d.held[worker].attempts < MAX_ATTEMPTS
    ensures var i := d.held[worker].row; var d' := Next(d, Finishes(worker, true, now));
      && d'.rows[i].status == Pending
      && d'.rows[i].dueAt == now + d.rows[i].attempts * RETRY_SECONDS
      && forall w :: !Holds(d', w, i)
  {
  }

  // ---------- how it ends ----------

  /** A claim takes the first row that waits and is due, or whose lease has run out, for LEASE_SECONDS and one
      attempt more; it finds none only when there is none. */
  lemma ClaimLeases(rows: seq<Effect>, now: int)
    ensures var (after, i) := Claim(rows, now);
      && (i.None? ==>
            && after == rows
            && (forall k :: 0 <= k < |rows| && rows[k].dueAt <= now ==>
                  rows[k].status == Done || rows[k].status == Failed))
      && (i.Some? ==>
            && i.value < |rows| && rows[i.value].dueAt <= now
            && (rows[i.value].status == Pending || rows[i.value].status == Leased)
            && (forall k :: 0 <= k < i.value && rows[k].dueAt <= now ==>
                  rows[k].status == Done || rows[k].status == Failed)
            && after == rows[i.value := rows[i.value].(status := Leased, attempts := rows[i.value].attempts + 1,
                                                       dueAt := now + LEASE_SECONDS)])
  {
  }

  /** A pass leaves what is not due; what is due it has tried once more: done when the handler did not raise,
      failed for good when it raised with no attempt left, and else waiting again, the longer the more often it
      was tried. */
  lemma PassDecides(rows: seq<Effect>, fails: set<nat>, now: int, i: nat)
    requires i < |rows|
    ensures var r, after := rows[i], Pass(rows, fails, now)[i];
            var due, tried := (r.status == Pending || r.status == Leased) && r.dueAt <= now, r.attempts + 1;
      && (!due ==> after == r)
      && (due ==> after == r.(status := after.status, attempts := tried, dueAt := after.dueAt))
      && (due && i !in fails ==> after.status == Done && after.dueAt == now)
      && (due && i in fails && tried >= MAX_ATTEMPTS ==> after.status == Failed && after.dueAt == now)
      && (due && i in fails && tried < MAX_ATTEMPTS ==>
            after.status == Pending && after.dueAt == now + tried * RETRY_SECONDS)
  {
  }

  /** A worker that holds the row finishes it. */
  ghost predicate FinishesRow(d: Desk, e: Event, i: nat) {
    e.Finishes? && e.worker in d.held && d.held[e.worker].row == i
  }

  /** The finishes of the row without a failure, and those with one when no attempt was left. */
  ghost function GoodEndings(d: Desk, events: seq<Event>, i: nat): nat
    requires RunsInTime(d, events)
    decreases |events|
  {
    if events == [] then 0
    else
      (if FinishesRow(d, events[0], i) && !events[0].failed then 1 else 0)
      + GoodEndings(Next(d, events[0]), events[1..], i)
  }

  ghost function BadEndings(d: Desk, events: seq<Event>, i: nat): nat
    requires RunsInTime(d, events) && i < |d.rows|
    decreases |events|
  {
    if events == [] then 0
    else
      (if FinishesRow(d, events[0], i) && events[0].failed && d.rows[i].attempts == MAX_ATTEMPTS then 1 else 0)
      + BadEndings(Next(d, events[0]), events[1..], i)
  }

  lemma StepEnds(d: Desk, e: Event, i: nat)
    requires Sound(d) && InTime(d, e) && i < |d.rows|
    ensures var r, after := d.rows[i], Next(d, e).rows[i];
      && (after.status == Done <==> r.status == Done || (FinishesRow(d, e, i) && !e.failed))
      && (after.status == Failed <==>
            r.status == Failed || (FinishesRow(d, e, i) && e.failed && r.attempts == MAX_ATTEMPTS))
  {
    if e.Finishes? {
      assert JobSound(d.rows, d.held[e.worker]) && RowSound(d.rows[d.held[e.worker].row]);
    }
    if e.Claims? && Claim(d.rows, e.now).1.Some? {
      ClaimIsPending(d, e);
    }
  }

  /** In every run of workers that finish inside their lease, a row is done exactly when a finish without a
      failure made it so, and failed for good exactly when its last attempt did. */
  lemma {:induction false} EndingsTell(d: Desk, events: seq<Event>, i: nat)
    requires Sound(d) && RunsInTime(d, events) && i < |d.rows| && !Over(d.rows[i])
    ensures i < |Run(d, events).rows|
    ensures Run(d, events).rows[i].status == Done <==> GoodEndings(d, events, i) > 0
    ensures Run(d, events).rows[i].status == Failed <==> BadEndings(d, events, i) > 0
    decreases |events|
  {
    if events != [] {
      StepKeepsSound(d, events[0]);
      StepEnds(d, events[0], i);
      if Over(Next(d, events[0]).rows[i]) {
        OverIsKept(Next(d, events[0]), events[1..], i);
      } else {
        EndingsTell(Next(d, events[0]), events[1..], i);
      }
    }
  }

  lemma {:induction false} OverIsKept(d: Desk, events: seq<Event>, i: nat)
    requires Sound(d) && RunsInTime(d, events) && i < |d.rows| && Over(d.rows[i])
    ensures i < |Run(d, events).rows| && Run(d, events).rows[i].status == d.rows[i].status
    ensures GoodEndings(d, events, i) == 0 && BadEndings(d, events, i) == 0
    decreases |events|
  {
    if events != [] {
      StepKeepsSound(d, events[0]);
      StepEnds(d, events[0], i);
      if events[0].Finishes? {
        assert JobSound(d.rows, d.held[events[0].worker]);
      }
      OverIsKept(Next(d, events[0]), events[1..], i);
    }
  }

  // ---------- every effect ends ----------

  function Passes(rows: seq<Effect>, passes: seq<(int, set<nat>)>): (r: seq<Effect>)
    ensures |r| == |rows|
    decreases |passes|
  {
    if passes == [] then rows else Passes(Pass(rows, passes[0].1, passes[0].0), passes[1..])
  }

  predicate Over(row: Effect) {
    row.status == Done || row.status == Failed
  }

  /** The passes come in order, at most `gap` apart. */
  ghost predicate Steady(passes: seq<(int, set<nat>)>, gap: nat) {
    forall k :: 0 < k < |passes| ==> passes[k - 1].0 <= passes[k].0 <= passes[k - 1].0 + gap
  }

  /** The attempts the row has left; one when a crash used them all up. */
  function Left(row: Effect): nat {
    if row.attempts < MAX_ATTEMPTS then MAX_ATTEMPTS - row.attempts else 1
  }

  /** The longest a retry waits: the pause a failure asks for, and a pass to come. */
  function Round(gap: nat): nat {
    gap + MAX_ATTEMPTS * RETRY_SECONDS
  }

  /** When the row has been tried, at the latest: its first attempt in time, the others a round each. */
  function Deadline(row: Effect, first: int, gap: nat): int {
    (if row.dueAt <= first then first else row.dueAt + gap) + (Left(row) - 1) * Round(gap)
  }

  /** A pass leaves a row that is not over a deadline no later than before. */
  lemma PassKeepsDeadline(row: Effect, failed: bool, now: int, next: int, gap: nat)
    requires !Over(row) && !Over(PassedRow(row, failed, now)) && now <= next <= now + gap
    ensures Deadline(PassedRow(row, failed, now), next, gap) <= Deadline(row, now, gap)
  {
    if Due(row, now) {
      var after := PassedRow(row, failed, now);
      assert Left(after) == Left(row) - 1 && after.dueAt <= now + MAX_ATTEMPTS * RETRY_SECONDS;
      assert (Left(row) - 1) * Round(gap) == (Left(after) - 1) * Round(gap) + Round(gap);
    }
  }

  lemma PastDeadline(row: Effect, failed: bool, now: int, gap: nat)
    requires !Over(row) && Deadline(row, now, gap) <= now
    ensures Over(PassedRow(row, failed, now))
  {
    assert Left(row) >= 2 ==> (Left(row) - 1) * Round(gap) >= Round(gap);
    assert Left(row) >= 1 && (Left(row) - 1) * Round(gap) >= 0;
  }

  lemma {:induction false} OverStays(rows: seq<Effect>, passes: seq<(int, set<nat>)>, i: nat)
    requires i < |rows| && Over(rows[i])
    ensures Passes(rows, passes)[i] == rows[i]
    decreases |passes|
  {
    if passes != [] {
      OverStays(Pass(rows, passes[0].1, passes[0].0), passes[1..], i);
    }
  }

  /** Whatever fails, and however often the jobs role passes: once a pass comes at or after an effect's
      deadline, the effect is done or failed for good. The deadline is its first pass when due, plus, for each
      further attempt it has left, the longest pause a failure asks for and the longest gap between passes. */
  lemma {:induction false} EveryEffectEnds(rows: seq<Effect>, passes: seq<(int, set<nat>)>, i: nat, gap: nat)
    requires i < |rows| && Steady(passes, gap)
    requires !Over(rows[i]) ==> passes != [] && passes[|passes| - 1].0 >= Deadline(rows[i], passes[0].0, gap)
    ensures Over(Passes(rows, passes)[i])
    decreases |passes|
  {
    if Over(rows[i]) {
      OverStays(rows, passes, i);
      return;
    }
    var now, failed, rest := passes[0].0, i in passes[0].1, passes[1..];
    var after := Pass(rows, passes[0].1, now);
    assert after[i] == PassedRow(rows[i], failed, now);
    if Over(after[i]) {
      OverStays(after, rest, i);
    } else if rest == [] {
      PastDeadline(rows[i], failed, now, gap);
    } else {
      assert rest[0] == passes[1] && rest[|rest| - 1] == passes[|passes| - 1];
      forall k | 0 < k < |rest|
        ensures rest[k - 1].0 <= rest[k].0 <= rest[k - 1].0 + gap
      {
        assert rest[k] == passes[k + 1] && rest[k - 1] == passes[k];
      }
      PassKeepsDeadline(rows[i], failed, now, rest[0].0, gap);
      EveryEffectEnds(after, rest, i, gap);
    }
  }

  /** Passes every 30 seconds, as the jobs role makes them: an effect that fails each time is still waiting
      for its next attempt after five of them. */
  lemma FivePassesAreNotEnough()
    ensures exists rows: seq<Effect>, passes: seq<(int, set<nat>)> ::
      |rows| == 1 && |passes| == MAX_ATTEMPTS && Steady(passes, 30) && Due(rows[0], passes[0].0)
      && !Over(Passes(rows, passes)[0])
  {
    var row := Effect(Ph(0), 1, "paid_models", Pending, 0, 0);
    var fails := {0};
    var passes := [(0, fails), (30, fails), (60, fails), (90, fails), (120, fails)];
    var once := [Finished(Claimed(row, 0), 1, true, 0)];
    assert Pass([row], fails, 0) == once;
    forall now | 30 <= now <= 120
      ensures Pass(once, fails, now) == once
    {
    }
    assert passes[1..] == [(30, fails), (60, fails), (90, fails), (120, fails)];
    assert passes[1..][1..] == [(60, fails), (90, fails), (120, fails)];
    assert passes[1..][1..][1..] == [(90, fails), (120, fails)];
    assert passes[1..][1..][1..][1..] == [(120, fails)];
    assert Passes(once, passes[1..][1..][1..][1..]) == once;
    assert Passes(once, passes[1..][1..][1..]) == once;
    assert Passes(once, passes[1..][1..]) == once;
    assert Passes(once, passes[1..]) == once;
    assert Passes([row], passes) == once;
    assert |[row]| == 1 && Steady(passes, 30) && Due([row][0], passes[0].0) && !Over(Passes([row], passes)[0]);
  }
}
