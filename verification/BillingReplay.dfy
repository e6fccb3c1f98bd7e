/** Webhooks and refund messages come again, in any order: each payment credits once, each payment row is
    taken back once, and everything else a repeated delivery does is nothing. */
module BillingReplay {
  import opened Prelude
  import opened Billing
  import opened BillingRuns
  import Outbox

  /** What a delivery took effect on: a payment not seen before, or a paid row taken back. */
  datatype Key = Credits(user: nat, service: string, invoice: string) | TakesBack(rowid: nat)

  predicate IsDelivery(step: Step) {
    step.Paying? || step.Crediting? || step.Refunding?
  }

  function EffectOf(s: Store, step: Step): Option<Key> {
    match step
    case Paying(p, _, _) =>
      if FindPayment(s.payments, p.user, p.service, p.invoice).None?
      then Some(Credits(p.user, p.service, p.invoice)) else None
    case Crediting(user, month, _, _, _) =>
      if FindPayment(s.payments, user, PATREON, month).None? then Some(Credits(user, PATREON, month)) else None
    case Refunding(charge) =>
      var found := FindPaid(s.payments, charge);
      if found.None? then None else Some(TakesBack(found.value))
    case _ => None
  }

  ghost predicate Settled(s: Store, key: Key) {
    match key
    case Credits(user, service, invoice) => FindPayment(s.payments, user, service, invoice).Some?
    case TakesBack(i) => i < |s.payments| && s.payments[i].status == Refunded
  }

  /** A payment row keeps what it is, and a refunded one stays refunded. */
  ghost predicate Extends(before: seq<Billing.Payment>, after: seq<Billing.Payment>) {
    |before| <= |after| && forall i :: 0 <= i < |before| ==> RowExtends(before[i], after[i])
  }

  predicate RowExtends(p: Billing.Payment, q: Billing.Payment) {
    && p.user == q.user && p.service == q.service && p.invoice == q.invoice && p.amount == q.amount
    && (p.status != q.status ==> q.status == Refunded)
  }

  lemma StepExtends(s: Store, step: Step, period: nat)
    requires period > 0
    ensures Extends(s.payments, Next(s, step, period).payments)
  {
  }

  lemma SettledStays(s: Store, t: Store, key: Key)
    requires Settled(s, key) && Extends(s.payments, t.payments)
    ensures Settled(t, key)
  {
  }

  /** A delivery without an effect leaves every table as it was; one with an effect settles its key, which
      was not settled before. */
  lemma DeliveryEffect(s: Store, step: Step, period: nat)
    requires period > 0 && IsDelivery(step)
    ensures EffectOf(s, step).None? ==> Next(s, step, period) == s
    ensures EffectOf(s, step).Some? ==>
      !Settled(s, EffectOf(s, step).value) && Settled(Next(s, step, period), EffectOf(s, step).value)
  {
  }

  // ---------- a delivery that comes again ----------

  /** The payment a delivery brings, whatever it says of it. */
  function Brings(step: Step): Option<Key> {
    match step
    case Paying(p, _, _) => Some(Credits(p.user, p.service, p.invoice))
    case Crediting(user, month, _, _, _) => Some(Credits(user, PATREON, month))
    case _ => None
  }

  lemma BroughtIsSettled(s: Store, step: Step, period: nat)
    requires period > 0 && Brings(step).Some?
    ensures Settled(Next(s, step, period), Brings(step).value)
  {
  }

  lemma {:induction false} RunStaysSettled(s: Store, steps: seq<Step>, key: Key, period: nat)
    requires period > 0 && Settled(s, key)
    ensures Settled(Run(s, steps, period), key)
    decreases |steps|
  {
    if steps != [] {
      StepExtends(s, steps[0], period);
      SettledStays(s, Next(s, steps[0], period), key);
      RunStaysSettled(Next(s, steps[0], period), steps[1..], key, period);
    }
  }

  /** Once a payment or a Patreon month was delivered, delivering it again changes no table, whatever amount,
      plan, price or period it carries then and whatever happened in between, its refund included. */
  lemma PaidOnceIsSettled(s: Store, first: Step, steps: seq<Step>, again: Step, period: nat)
    requires period > 0 && Brings(first).Some? && Brings(again) == Brings(first)
    ensures var after := Run(Next(s, first, period), steps, period); Next(after, again, period) == after
  {
    BroughtIsSettled(s, first, period);
    RunStaysSettled(Next(s, first, period), steps, Brings(first).value, period);
    DeliveryEffect(Run(Next(s, first, period), steps, period), again, period);
  }

  /** The keys a run's deliveries took effect on, in order. */
  ghost function KeysOf(s: Store, steps: seq<Step>, period: nat): seq<Key>
    requires period > 0
    decreases |steps|
  {
    if steps == [] then []
    else
      (if EffectOf(s, steps[0]).Some? then [EffectOf(s, steps[0]).value] else [])
      + KeysOf(Next(s, steps[0], period), steps[1..], period)
  }

  /** The run without the deliveries that had no effect. */
  ghost function Kept(s: Store, steps: seq<Step>, period: nat): seq<Step>
    requires period > 0
    decreases |steps|
  {
    if steps == [] then []
    else
      (if IsDelivery(steps[0]) && EffectOf(s, steps[0]).None? then [] else [steps[0]])
      + Kept(Next(s, steps[0], period), steps[1..], period)
  }

  ghost predicate Distinct(keys: seq<Key>) {
    forall i, j :: 0 <= i < j < |keys| ==> keys[i] != keys[j]
  }

  lemma {:induction false} SettledIsNeverAgain(s: Store, steps: seq<Step>, key: Key, period: nat)
    requires period > 0 && Settled(s, key)
    ensures key !in KeysOf(s, steps, period)
    decreases |steps|
  {
    if steps != [] {
      if IsDelivery(steps[0]) {
        DeliveryEffect(s, steps[0], period);
      }
      StepExtends(s, steps[0], period);
      SettledStays(s, Next(s, steps[0], period), key);
      SettledIsNeverAgain(Next(s, steps[0], period), steps[1..], key, period);
    }
  }

  lemma {:induction false} EachKeyOnce(s: Store, steps: seq<Step>, period: nat)
    requires period > 0
    ensures Distinct(KeysOf(s, steps, period))
    decreases |steps|
  {
    if steps != [] {
      var t := Next(s, steps[0], period);
      EachKeyOnce(t, steps[1..], period);
      if EffectOf(s, steps[0]).Some? {
        DeliveryEffect(s, steps[0], period);
        SettledIsNeverAgain(t, steps[1..], EffectOf(s, steps[0]).value, period);
      }
    }
  }

  lemma {:induction false} KeptRunsTheSame(s: Store, steps: seq<Step>, period: nat)
    requires period > 0
    ensures Run(s, Kept(s, steps, period), period) == Run(s, steps, period)
    ensures KeysOf(s, Kept(s, steps, period), period) == KeysOf(s, steps, period)
    ensures Effective(s, Kept(s, steps, period), period)
    decreases |steps|
  {
    if steps != [] {
      var t := Next(s, steps[0], period);
      KeptRunsTheSame(t, steps[1..], period);
      if IsDelivery(steps[0]) && EffectOf(s, steps[0]).None? {
        DeliveryEffect(s, steps[0], period);
        assert Kept(s, steps, period) == Kept(t, steps[1..], period);
      } else {
        assert Kept(s, steps, period)[1..] == Kept(t, steps[1..], period);
      }
    }
  }

  /** Every delivery of the run takes effect. */
  ghost predicate Effective(s: Store, steps: seq<Step>, period: nat)
    requires period > 0
    decreases |steps|
  {
    steps == []
    || ((IsDelivery(steps[0]) ==> EffectOf(s, steps[0]).Some?)
        && Effective(Next(s, steps[0], period), steps[1..], period))
  }

  /** Any run, with its deliveries repeated and interleaved in any way, leaves the tables of the run that
      keeps only the deliveries with an effect; those are one per payment and one per refunded row. */
  lemma ReplaysChangeNothing(s: Store, steps: seq<Step>, period: nat)
    requires period > 0
    ensures var kept := Kept(s, steps, period);
      && Run(s, steps, period) == Run(s, kept, period)
      && Effective(s, kept, period)
      && Distinct(KeysOf(s, kept, period))
  {
    KeptRunsTheSame(s, steps, period);
    EachKeyOnce(s, steps, period);
  }

  // ---------- the outbox: one row per payment and effect ----------

  function Count(rows: seq<Outbox.Effect>, payment: Outbox.Key, effect: string): nat {
    if rows == [] then 0
    else
      Count(rows[..|rows| - 1], payment, effect)
      + if Outbox.IsRow(rows[|rows| - 1], payment, effect) then 1 else 0
  }

  lemma CountInsert(rows: seq<Outbox.Effect>, user: nat, key: Outbox.Key, effect: string, now: int,
                    k: Outbox.Key, e: string)
    ensures Count(Outbox.Insert(rows, user, key, effect, now), k, e)
         == if k == key && e == effect then Max(1, Count(rows, k, e)) else Count(rows, k, e)
  {
  }

  lemma {:induction false} CountQueue(rows: seq<Outbox.Effect>, user: nat, key: Outbox.Key, effects: seq<string>,
                                      now: int, k: Outbox.Key, e: string)
    ensures Count(Outbox.Queue(rows, user, key, effects, now), k, e)
         == if k == key && e in effects then Max(1, Count(rows, k, e)) else Count(rows, k, e)
    decreases effects
  {
    if effects != [] {
      CountInsert(rows, user, key, effects[0], now, k, e);
      CountQueue(Outbox.Insert(rows, user, key, effects[0], now), user, key, effects[1..], now, k, e);
      assert e in effects <==> e == effects[0] || e in effects[1..];
    }
  }

  lemma {:induction false} CountSameKeys(rows: seq<Outbox.Effect>, after: seq<Outbox.Effect>, k: Outbox.Key, e: string)
    requires SameKeys(rows, after)
    ensures Count(rows, k, e) == Count(after, k, e)
  {
    if rows != [] {
      CountSameKeys(rows[..|rows| - 1], after[..|after| - 1], k, e);
    }
  }

  ghost predicate QueuedOnce(s: Store, i: nat, e: string)
    requires i < |s.payments|
  {
    var n := Count(s.outbox, Outbox.Ph(i), e);
    && n <= 1
    && (s.payments[i].status == Paid && e in Outbox.EFFECTS ==> n == 1)
    && (s.payments[i].status == Credited || s.payments[i].status == Unpaid ==> n == 0)
  }

  ghost predicate OutboxMatches(s: Store) {
    && (forall i, e :: 0 <= i < |s.payments| ==> QueuedOnce(s, i, e))
    && (forall i, e :: i >= |s.payments| ==> Count(s.outbox, Outbox.Ph(i), e) == 0)
  }

  /** What a payment adds to the counts: one row per effect under its own id, when it is paid. */
  lemma AppendedCount(s: Store, p: Billing.Payment, outbox: seq<Outbox.Effect>, now: int, i: nat, e: string)
    requires OutboxMatches(s)
    requires outbox == if p.status == Paid
                       then Outbox.Queue(s.outbox, p.user, Outbox.Ph(|s.payments|), Outbox.EFFECTS, now)
                       else s.outbox
    ensures Count(outbox, Outbox.Ph(i), e)
         == if i == |s.payments| && p.status == Paid && e in Outbox.EFFECTS then 1
            else Count(s.outbox, Outbox.Ph(i), e)
  {
    CountQueue(s.outbox, p.user, Outbox.Ph(|s.payments|), Outbox.EFFECTS, now, Outbox.Ph(i), e);
  }

  lemma AppendKeepsOutbox(s: Store, t: Store, p: Billing.Payment, now: int)
    requires OutboxMatches(s) && t.payments == s.payments + [p]
    requires t.outbox == if p.status == Paid
                         then Outbox.Queue(s.outbox, p.user, Outbox.Ph(|s.payments|), Outbox.EFFECTS, now)
                         else s.outbox
    ensures OutboxMatches(t)
  {
    forall i, e | 0 <= i < |t.payments|
      ensures QueuedOnce(t, i, e)
    {
      AppendedCount(s, p, t.outbox, now, i, e);
      if i < |s.payments| {
        assert QueuedOnce(s, i, e);
      }
    }
    forall i, e | i >= |t.payments|
      ensures Count(t.outbox, Outbox.Ph(i), e) == 0
    {
      AppendedCount(s, p, t.outbox, now, i, e);
    }
  }

  lemma RefundKeepsOutbox(s: Store, charge: string, period: nat)
    requires period > 0 && OutboxMatches(s)
    ensures OutboxMatches(Refund(s, charge, period).0)
  {
    var t := Refund(s, charge, period).0;
    forall i, e | 0 <= i < |t.payments|
      ensures QueuedOnce(t, i, e)
    {
      assert QueuedOnce(s, i, e);
    }
  }

  lemma WorkKeepsOutbox(s: Store, t: Store)
    requires OutboxMatches(s) && t.payments == s.payments && SameKeys(s.outbox, t.outbox)
    ensures OutboxMatches(t)
  {
    forall k, e
      ensures Count(s.outbox, k, e) == Count(t.outbox, k, e)
    {
      CountSameKeys(s.outbox, t.outbox, k, e);
    }
    forall i, e | 0 <= i < |t.payments|
      ensures QueuedOnce(t, i, e)
    {
      assert QueuedOnce(s, i, e);
    }
  }

  lemma StepKeepsOutbox(s: Store, step: Step, period: nat)
    requires period > 0 && OutboxMatches(s)
    ensures OutboxMatches(Next(s, step, period))
  {
    var t := Next(s, step, period);
    match step
    case Paying(p, _, now) =>
      if EffectOf(s, step).Some? {
        AppendKeepsOutbox(s, t, Billing.Payment(p.user, p.service, p.invoice, p.status, p.amount), now);
      }
    case Crediting(user, month, _, paid, now) =>
      if EffectOf(s, step).Some? {
        AppendKeepsOutbox(s, t, Billing.Payment(user, PATREON, month, if paid > 0 then Paid else Credited, paid), now);
      }
    case Refunding(charge) => RefundKeepsOutbox(s, charge, period);
    case ClaimingEffect(now) =>
      WorkersKeepKeys(s.outbox, 0, 0, false, now);
      WorkKeepsOutbox(s, t);
    case FinishingEffect(i, attempts, failed, now) =>
      WorkersKeepKeys(s.outbox, i, attempts, failed, now);
      WorkKeepsOutbox(s, t);
    case _ => WorkKeepsOutbox(s, t);
  }

  /** After any run from empty tables, a payment with status paid has exactly one outbox row per effect, one
      that brought no money has none, and no payment ever has two of one effect. */
  lemma {:induction false} PaymentsAreQueuedOnce(s: Store, steps: seq<Step>, period: nat)
    requires period > 0 && OutboxMatches(s)
    ensures OutboxMatches(Run(s, steps, period))
    decreases |steps|
  {
    if steps != [] {
      StepKeepsOutbox(s, steps[0], period);
      PaymentsAreQueuedOnce(Next(s, steps[0], period), steps[1..], period);
    }
  }
}
