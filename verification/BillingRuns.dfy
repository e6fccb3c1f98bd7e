/** Whole runs of the billing machine: every mix of payments, Patreon months, refunds, ticks and grants, in
    any order and with any repetition. `period` is the tick's; each payment says the period it turns on, as a
    Stars subscription buys a period with some hours of grace. */
module BillingRuns {
  import opened Prelude
  import opened Billing
  import Outbox
  import OutboxWorker

  /** The tick is two transactions, Prolonging and Burning; Ticking is both with nothing in between. */
  datatype Step =
    | Paying(p: Invoice, term: nat, now: int)
    | Crediting(user: nat, month: string, credit: nat, paid: nat, now: int)
    | Refunding(charge: string)
    | Prolonging
    | Burning
    | Ticking
    | Starting(user: nat, kind: string, level: nat, now: int)
    | Holding(user: nat, now: int)
    | Warning(user: nat, now: int)
    | Stopping(user: nat, reason: string, restore: bool, now: int)
    | Subscribing(user: nat, row: Row, now: int)
    | Marking(user: nat, deleted: bool)
    | ClaimingEffect(now: int)
    | FinishingEffect(i: nat, attempts: nat, failed: bool, now: int)

  function Next(s: Store, step: Step, period: nat): Store
    requires period > 0
  {
    match step
    case Paying(p, term, now) => Pay(s, p, term, now).0
    case Crediting(user, month, credit, paid, now) => CreditMonth(s, user, month, credit, paid, now).0
    case Refunding(charge) => Refund(s, charge, period).0
    case Prolonging => Prolong(s, period)
    case Burning => Decrease(s)
    case Ticking => Tick(s, period)
    case Starting(user, kind, level, now) => Start(s, user, kind, level, now, period).0
    case Holding(user, now) => Hold(s, user, now, period).0
    case Warning(user, now) => MarkMissing(s, user, now).0
    case Stopping(user, reason, restore, now) => EndGrant(s, user, reason, now, restore).0
    case Subscribing(user, row, now) => Subscribe(s, user, row, now)
    case Marking(user, deleted) => s.(users := s.users[user := deleted])
    case ClaimingEffect(now) => s.(outbox := OutboxWorker.Claim(s.outbox, now).0)
    case FinishingEffect(i, attempts, failed, now) =>
      s.(outbox := OutboxWorker.Finish(s.outbox, i, attempts, failed, now))
  }

  /** What a worker does to the outbox: every row keeps its payment and its effect. */
  predicate SameKeys(before: seq<Outbox.Effect>, after: seq<Outbox.Effect>) {
    |before| == |after| && forall i :: 0 <= i < |before| ==>
      before[i].payment == after[i].payment && before[i].effect == after[i].effect
  }

  lemma WorkersKeepKeys(rows: seq<Outbox.Effect>, i: nat, attempts: nat, failed: bool, now: int)
    ensures SameKeys(rows, OutboxWorker.Claim(rows, now).0)
    ensures SameKeys(rows, OutboxWorker.Finish(rows, i, attempts, failed, now))
  {
  }

  function Run(s: Store, steps: seq<Step>, period: nat): Store
    requires period > 0
    decreases |steps|
  {
    if steps == [] then s else Run(Next(s, steps[0], period), steps[1..], period)
  }

  // ---------- the ledger of one user ----------

  /** What happened to a user's money and hours, written down event by event. `given`: the hours of the periods
      that were charged. */
  datatype Book = Book(credited: int, charges: nat, spent: int, given: nat, refunded: int, paidInHours: int,
                       burned: nat, taken: nat)

  const EMPTY := Book(0, 0, 0, 0, 0, 0, 0, 0)

  function Charge(b: Book, price: int, hours: nat): Book {
    b.(charges := b.charges + 1, spent := b.spent + price, given := b.given + hours)
  }

  function PostPayment(b: Book, s: Store, p: Invoice, user: nat, term: nat): Book {
    if p.user != user || FindPayment(s.payments, p.user, p.service, p.invoice).Some? then b
    else
      var credited := b.(credited := b.credited + p.amount);
      if PaidRow(s, p, term).1 == TurnedOn then Charge(credited, PriceTaken(s, p), term) else credited
  }

  function PostRefund(b: Book, s: Store, charge: string, user: nat, period: nat): Book
    requires period > 0
  {
    var found := FindPaid(s.payments, charge);
    if found.None? || s.payments[found.value].user != user then b
    else
      var amount := s.payments[found.value].amount;
      var back := b.(refunded := b.refunded + amount);
      if user in s.rows && MayTakeHours(s, user, amount - s.rows[user].balance) then
        var price := s.tariffs[s.rows[user].tariff].price;
        var owed: nat := amount - s.rows[user].balance;
        var hours: nat := HoursFor(owed, s.rows[user].hours, price, period);
        back.(taken := back.taken + hours,
              paidInHours := back.paidInHours + Min(owed, hours * price / period))
      else back
  }

  function PostProlong(b: Book, s: Store, user: nat, period: nat): Book {
    if Renews(s, user) then Charge(b, s.tariffs[s.rows[user].tariff].price, period) else b
  }

  function PostBurn(b: Book, s: Store, user: nat): Book {
    if Burns(s, user) then b.(burned := b.burned + 1) else b
  }

  function Post(b: Book, s: Store, step: Step, user: nat, period: nat): Book
    requires period > 0
  {
    match step
    case Paying(p, term, _) => PostPayment(b, s, p, user, term)
    case Crediting(u, month, credit, _, _) =>
      if u == user && FindPayment(s.payments, u, PATREON, month).None?
      then b.(credited := b.credited + credit) else b
    case Refunding(charge) => PostRefund(b, s, charge, user, period)
    case Prolonging => PostProlong(b, s, user, period)
    case Burning => PostBurn(b, s, user)
    case Ticking => PostBurn(PostProlong(b, s, user, period), Prolong(s, period), user)
    case _ => b
  }

  function Books(b: Book, s: Store, steps: seq<Step>, user: nat, period: nat): Book
    requires period > 0
    decreases |steps|
  {
    if steps == [] then b
    else Books(Post(b, s, steps[0], user, period), Next(s, steps[0], period), steps[1..], user, period)
  }

  /** The row a user without one has: no tariff. */
  function RowOf(s: Store, user: nat): Row {
    if user in s.rows then s.rows[user] else Row(0, 0, 0, 0)
  }

  /** The Stars money of the user that could still be taken back. */
  function Refundable(payments: seq<Billing.Payment>, user: nat): int {
    if payments == [] then 0
    else
      var p := payments[|payments| - 1];
      Refundable(payments[..|payments| - 1], user)
      + if p.user == user && p.service == STARS && p.status == Paid then p.amount else 0
  }

  /** The step credits no negative amount and is not a write of the user's whole row, as the page that changes
      a plan makes it. */
  predicate Booked(step: Step, user: nat) {
    (step.Paying? ==> step.p.amount >= 0) && !(step.Subscribing? && step.user == user)
  }

  ghost predicate PaymentsSound(s: Store, user: nat) {
    && (forall i :: 0 <= i < |s.payments| ==> s.payments[i].amount >= 0)
    && (forall i :: 0 <= i < |s.payments| && s.payments[i].user == user ==> user in s.rows)
  }

  ghost predicate MoneyBalances(s: Store, b: Book, user: nat) {
    && RowOf(s, user).balance == b.credited - b.spent - b.refunded + b.paidInHours
    && -RowOf(s, user).balance <= b.refunded
    && b.paidInHours >= 0
    && b.refunded >= 0
    && b.credited - b.refunded >= Refundable(s.payments, user)
    && PaymentsSound(s, user)
  }

  ghost predicate HoursBalance(s: Store, b: Book, user: nat) {
    && RowOf(s, user).hours == b.given - b.burned - b.taken
    && RowOf(s, user).hours >= 0
    && (RowOf(s, user).tariff == 0 ==> RowOf(s, user).hours == 0)
    && Active(s.grants, user).None?
  }

  // ---------- money: every step, grants included ----------

  lemma RefundableAfter(payments: seq<Billing.Payment>, p: Billing.Payment, user: nat)
    ensures Refundable(payments + [p], user)
         == Refundable(payments, user)
            + if p.user == user && p.service == STARS && p.status == Paid then p.amount else 0
  {
  }

  lemma {:induction false} RefundableIsMoney(payments: seq<Billing.Payment>, user: nat)
    requires forall i :: 0 <= i < |payments| ==> payments[i].amount >= 0
    ensures Refundable(payments, user) >= 0
  {
    if payments != [] {
      RefundableIsMoney(payments[..|payments| - 1], user);
    }
  }

  lemma {:induction false} RefundableDrops(payments: seq<Billing.Payment>, charge: string, i: nat, user: nat)
    requires forall j :: 0 <= j < |payments| ==> payments[j].amount >= 0
    requires i < |payments| && HasCharge(payments[i], charge) && payments[i].status == Paid
    ensures Refundable(MarkRefunded(payments, charge), user)
         <= Refundable(payments, user) - if payments[i].user == user then payments[i].amount else 0
  {
    var rest, marked := payments[..|payments| - 1], MarkRefunded(payments, charge);
    assert marked[..|payments| - 1] == MarkRefunded(rest, charge);
    if i < |rest| {
      RefundableDrops(rest, charge, i, user);
    } else {
      RefundableNeverGrows(rest, charge, user);
    }
  }

  lemma {:induction false} RefundableNeverGrows(payments: seq<Billing.Payment>, charge: string, user: nat)
    requires forall j :: 0 <= j < |payments| ==> payments[j].amount >= 0
    ensures Refundable(MarkRefunded(payments, charge), user) <= Refundable(payments, user)
  {
    if payments != [] {
      var rest, marked := payments[..|payments| - 1], MarkRefunded(payments, charge);
      assert marked[..|payments| - 1] == MarkRefunded(rest, charge);
      RefundableNeverGrows(rest, charge, user);
    }
  }

  /** A payment adds its amount and takes the price of the period it turns on, if it can. */
  lemma PaymentMovesBalance(s: Store, p: Invoice, period: nat)
    ensures var (row, mode) := PaidRow(s, p, period);
      && (mode == TurnedOn ==>
            && (TakesPlan(s, p) || (p.user in s.rows && s.rows[p.user].tariff in s.tariffs))
            && row.balance == RowOf(s, p.user).balance + p.amount - PriceTaken(s, p) && row.balance >= 0
            && row.hours == period && row.deliveries == s.tariffs[row.tariff].deliveries)
      && (mode != TurnedOn ==> row.balance == RowOf(s, p.user).balance + p.amount)
  {
  }

  lemma PaymentKeepsMoney(s: Store, b: Book, p: Invoice, term: nat, now: int, user: nat)
    requires MoneyBalances(s, b, user) && p.amount >= 0
    ensures MoneyBalances(Pay(s, p, term, now).0, PostPayment(b, s, p, user, term), user)
    ensures PostPayment(b, s, p, user, term).charges > b.charges ==>
              RowOf(Pay(s, p, term, now).0, user).balance >= 0
  {
    var payment := Billing.Payment(p.user, p.service, p.invoice, p.status, p.amount);
    RefundableAfter(s.payments, payment, user);
    PaymentMovesBalance(s, p, term);
    var t := Pay(s, p, term, now).0;
    if FindPayment(s.payments, p.user, p.service, p.invoice).None? {
      assert t.payments == s.payments + [payment] && t.rows == s.rows[p.user := PaidRow(s, p, term).0];
      PaymentsGrow(s, t, payment, user);
    }
  }

  lemma PaymentsGrow(s: Store, t: Store, p: Billing.Payment, user: nat)
    requires PaymentsSound(s, user) && p.amount >= 0 && t.payments == s.payments + [p]
    requires s.rows.Keys + {p.user} <= t.rows.Keys
    ensures PaymentsSound(t, user)
  {
  }

  lemma MonthKeepsMoney(s: Store, b: Book, step: Step, user: nat, period: nat)
    requires period > 0 && MoneyBalances(s, b, user) && step.Crediting?
    ensures MoneyBalances(Next(s, step, period), Post(b, s, step, user, period), user)
  {
  }

  lemma RefundMovesBalance(s: Store, b: Book, charge: string, user: nat, period: nat)
    requires period > 0 && FindPaid(s.payments, charge).Some?
    requires s.payments[FindPaid(s.payments, charge).value].user == user && user in s.rows
    ensures var t, c := Refund(s, charge, period).0, PostRefund(b, s, charge, user, period);
            var amount := s.payments[FindPaid(s.payments, charge).value].amount;
      && t.rows.Keys == s.rows.Keys
      && t.rows[user].balance == s.rows[user].balance - amount + (c.paidInHours - b.paidInHours)
      && c == b.(refunded := b.refunded + amount, paidInHours := c.paidInHours, taken := c.taken)
      && c.paidInHours >= b.paidInHours
  {
    var p := s.payments[FindPaid(s.payments, charge).value];
    if MayTakeHours(s, user, p.amount - s.rows[user].balance) {
      PaidPartOfDebt(p.amount - s.rows[user].balance, s.rows[user].hours,
                     s.tariffs[s.rows[user].tariff].price, period);
    }
  }

  lemma RefundKeepsMoney(s: Store, b: Book, charge: string, user: nat, period: nat)
    requires period > 0 && MoneyBalances(s, b, user)
    ensures MoneyBalances(Refund(s, charge, period).0, PostRefund(b, s, charge, user, period), user)
  {
    var found := FindPaid(s.payments, charge);
    if found.Some? {
      RefundableDrops(s.payments, charge, found.value, user);
      if s.payments[found.value].user == user {
        RefundMovesBalance(s, b, charge, user, period);
      }
    }
  }

  lemma PaidPartOfDebt(owed: nat, hours: nat, price: nat, period: nat)
    requires price > 0 && period > 0
    ensures var h := HoursFor(owed, hours, price, period);
      h >= 0 && h * price / period >= 0
      && BalanceAfter(owed, h, price, period) == Min(owed, h * price / period) - owed
  {
  }

  lemma ProlongKeepsMoney(s: Store, b: Book, user: nat, period: nat)
    requires MoneyBalances(s, b, user)
    ensures MoneyBalances(Prolong(s, period), PostProlong(b, s, user, period), user)
    ensures PostProlong(b, s, user, period).charges > b.charges ==> RowOf(Prolong(s, period), user).balance >= 0
  {
  }

  lemma BurnKeepsMoney(s: Store, b: Book, user: nat)
    requires MoneyBalances(s, b, user)
    ensures MoneyBalances(Decrease(s), PostBurn(b, s, user), user)
    ensures RowOf(Decrease(s), user).balance == RowOf(s, user).balance
  {
  }

  predicate IsGrantStep(step: Step) {
    step.Starting? || step.Holding? || step.Warning? || step.Stopping?
  }

  /** No grant step changes a balance, of anyone. */
  lemma GrantStepsMoveNoMoney(s: Store, step: Step, user: nat, period: nat)
    requires period > 0 && IsGrantStep(step)
    ensures RowOf(Next(s, step, period), user).balance == RowOf(s, user).balance
    ensures Next(s, step, period).payments == s.payments
    ensures s.rows.Keys <= Next(s, step, period).rows.Keys
  {
  }

  lemma StepKeepsMoney(s: Store, b: Book, step: Step, user: nat, period: nat)
    requires period > 0 && MoneyBalances(s, b, user) && Booked(step, user)
    ensures MoneyBalances(Next(s, step, period), Post(b, s, step, user, period), user)
    ensures Post(b, s, step, user, period).charges > b.charges ==>
              RowOf(Next(s, step, period), user).balance >= 0
  {
    match step
    case Paying(p, term, now) => PaymentKeepsMoney(s, b, p, term, now, user);
    case Crediting(_, _, _, _, _) => MonthKeepsMoney(s, b, step, user, period);
    case Refunding(charge) => RefundKeepsMoney(s, b, charge, user, period);
    case Prolonging => ProlongKeepsMoney(s, b, user, period);
    case Burning => BurnKeepsMoney(s, b, user);
    case Ticking =>
      ProlongKeepsMoney(s, b, user, period);
      BurnKeepsMoney(Prolong(s, period), PostProlong(b, s, user, period), user);
    case Starting(_, _, _, _) => GrantStepsMoveNoMoney(s, step, user, period);
    case Holding(_, _) => GrantStepsMoveNoMoney(s, step, user, period);
    case Warning(_, _) => GrantStepsMoveNoMoney(s, step, user, period);
    case Stopping(_, _, _, _) => GrantStepsMoveNoMoney(s, step, user, period);
    case Subscribing(_, _, _) =>
    case Marking(_, _) =>
    case ClaimingEffect(_) =>
    case FinishingEffect(_, _, _, _) =>
  }

  /** A user who never paid and has no plan. */
  ghost predicate NewUser(s: Store, user: nat) {
    && RowOf(s, user).balance == 0 && RowOf(s, user).hours == 0 && RowOf(s, user).tariff == 0
    && PaymentsSound(s, user)
    && (forall i :: 0 <= i < |s.payments| ==> s.payments[i].user != user)
    && Active(s.grants, user).None?
  }

  lemma {:induction false} NothingRefundable(payments: seq<Billing.Payment>, user: nat)
    requires forall i :: 0 <= i < |payments| ==> payments[i].user != user
    ensures Refundable(payments, user) == 0
  {
    if payments != [] {
      NothingRefundable(payments[..|payments| - 1], user);
    }
  }

  lemma {:induction false} RunKeepsMoney(s: Store, b: Book, steps: seq<Step>, user: nat, period: nat)
    requires period > 0 && MoneyBalances(s, b, user)
    requires forall i :: 0 <= i < |steps| ==> Booked(steps[i], user)
    ensures MoneyBalances(Run(s, steps, period), Books(b, s, steps, user, period), user)
    decreases |steps|
  {
    if steps != [] {
      StepKeepsMoney(s, b, steps[0], user, period);
      RunKeepsMoney(Next(s, steps[0], period), Post(b, s, steps[0], user, period), steps[1..], user, period);
    }
  }

  /** Money is conserved over every run, grants included: the balance is what was credited less the periods
      charged and the refunds, plus the part of them paid in hours; a debt is never more than the refunds,
      and the refunds are never more than the credits. */
  lemma MoneyIsConserved(s: Store, steps: seq<Step>, user: nat, period: nat)
    requires period > 0 && NewUser(s, user)
    requires forall i :: 0 <= i < |steps| ==> Booked(steps[i], user)
    ensures var end := RowOf(Run(s, steps, period), user);
            var b := Books(EMPTY, s, steps, user, period);
      && end.balance == b.credited - b.spent - b.refunded + b.paidInHours
      && -end.balance <= b.refunded <= b.credited
      && b.paidInHours >= 0
  {
    NothingRefundable(s.payments, user);
    RunKeepsMoney(s, EMPTY, steps, user, period);
    RefundableIsMoney(Run(s, steps, period).payments, user);
  }

  // ---------- hours: runs without a grant for the user ----------

  predicate GrantsNothingTo(step: Step, user: nat) {
    !(step.Starting? && step.user == user)
  }

  lemma OthersGrantStays(s: Store, user: nat, other: nat, now: int, reason: string)
    requires Active(s.grants, user).None?
    ensures Active(CloseGrant(s.grants, other, now, reason), user).None?
  {
  }

  lemma {:induction false} PaymentKeepsHours(s: Store, b: Book, p: Invoice, term: nat, now: int, user: nat)
    requires HoursBalance(s, b, user) && 0 !in s.tariffs
    ensures HoursBalance(Pay(s, p, term, now).0, PostPayment(b, s, p, user, term), user)
  {
  }

  lemma RefundKeepsHours(s: Store, b: Book, charge: string, user: nat, period: nat)
    requires period > 0 && HoursBalance(s, b, user)
    ensures HoursBalance(Refund(s, charge, period).0, PostRefund(b, s, charge, user, period), user)
  {
  }

  lemma ProlongKeepsHours(s: Store, b: Book, user: nat, period: nat)
    requires HoursBalance(s, b, user) && 0 !in s.tariffs
    ensures HoursBalance(Prolong(s, period), PostProlong(b, s, user, period), user)
  {
  }

  lemma BurnKeepsHours(s: Store, b: Book, user: nat)
    requires HoursBalance(s, b, user)
    ensures HoursBalance(Decrease(s), PostBurn(b, s, user), user)
  {
  }

  /** A user without a grant is untouched by every grant step but a start of their own. */
  lemma HoldTouchesHolders(s: Store, user: nat, other: nat, now: int, period: nat)
    requires Active(s.grants, user).None?
    ensures RowOf(Hold(s, other, now, period).0, user) == RowOf(s, user)
    ensures Active(Hold(s, other, now, period).0.grants, user).None?
  {
  }

  lemma StartTouchesStarted(s: Store, user: nat, step: Step, period: nat)
    requires period > 0 && step.Starting? && step.user != user && Active(s.grants, user).None?
    ensures RowOf(Next(s, step, period), user) == RowOf(s, user)
    ensures Active(Next(s, step, period).grants, user).None?
  {
  }

  lemma GrantStepsKeepHours(s: Store, step: Step, user: nat, period: nat)
    requires period > 0 && IsGrantStep(step) && GrantsNothingTo(step, user) && Active(s.grants, user).None?
    ensures RowOf(Next(s, step, period), user) == RowOf(s, user)
    ensures Active(Next(s, step, period).grants, user).None?
  {
    match step
    case Starting(_, _, _, _) => StartTouchesStarted(s, user, step, period);
    case Holding(other, now) => HoldTouchesHolders(s, user, other, now, period);
    case Warning(other, now) =>
      var t := MarkMissing(s, other, now).0;
      forall i | 0 <= i < |t.grants|
        ensures !Open(t.grants[i], user)
      {
        assert !Open(s.grants[i], user);
      }
    case Stopping(other, reason, restore, now) => OthersGrantStays(s, user, other, now, reason);
  }

  lemma TariffsStay(s: Store, step: Step, period: nat)
    requires period > 0
    ensures Next(s, step, period).tariffs == s.tariffs
  {
  }

  lemma StepKeepsHours(s: Store, b: Book, step: Step, user: nat, period: nat)
    requires period > 0 && HoursBalance(s, b, user) && 0 !in s.tariffs
    requires GrantsNothingTo(step, user) && Booked(step, user)
    ensures HoursBalance(Next(s, step, period), Post(b, s, step, user, period), user)
  {
    match step
    case Paying(p, term, now) => PaymentKeepsHours(s, b, p, term, now, user);
    case Crediting(_, _, _, _, _) =>
    case Refunding(charge) => RefundKeepsHours(s, b, charge, user, period);
    case Prolonging => ProlongKeepsHours(s, b, user, period);
    case Burning => BurnKeepsHours(s, b, user);
    case Ticking =>
      ProlongKeepsHours(s, b, user, period);
      BurnKeepsHours(Prolong(s, period), PostProlong(b, s, user, period), user);
    case Starting(_, _, _, _) => GrantStepsKeepHours(s, step, user, period);
    case Holding(_, _) => GrantStepsKeepHours(s, step, user, period);
    case Warning(_, _) => GrantStepsKeepHours(s, step, user, period);
    case Stopping(_, _, _, _) => GrantStepsKeepHours(s, step, user, period);
    case Subscribing(_, _, _) =>
    case Marking(_, _) =>
    case ClaimingEffect(_) =>
    case FinishingEffect(_, _, _, _) =>
  }

  lemma {:induction false} RunKeepsHours(s: Store, b: Book, steps: seq<Step>, user: nat, period: nat)
    requires period > 0 && HoursBalance(s, b, user) && 0 !in s.tariffs
    requires forall i :: 0 <= i < |steps| ==> GrantsNothingTo(steps[i], user) && Booked(steps[i], user)
    ensures HoursBalance(Run(s, steps, period), Books(b, s, steps, user, period), user)
    decreases |steps|
  {
    if steps != [] {
      StepKeepsHours(s, b, steps[0], user, period);
      TariffsStay(s, steps[0], period);
      RunKeepsHours(Next(s, steps[0], period), Post(b, s, steps[0], user, period), steps[1..], user, period);
    }
  }

  /** Hours are conserved over every run that gives the user no grant: the period each payment turned on and
      one for each renewal, less the hours burned and the hours refunds took; they are never negative. */
  lemma HoursAreConserved(s: Store, steps: seq<Step>, user: nat, period: nat)
    requires period > 0 && NewUser(s, user) && 0 !in s.tariffs
    requires forall i :: 0 <= i < |steps| ==> GrantsNothingTo(steps[i], user) && Booked(steps[i], user)
    ensures var end := RowOf(Run(s, steps, period), user);
            var b := Books(EMPTY, s, steps, user, period);
      0 <= end.hours == b.given - b.burned - b.taken
  {
    RunKeepsHours(s, EMPTY, steps, user, period);
  }

  lemma OneChargeMore(charges: nat, given: nat, hours: nat, lo: nat, hi: nat)
    requires lo <= hours <= hi && lo * charges <= given <= hi * charges
    ensures lo * (charges + 1) <= given + hours <= hi * (charges + 1)
  {
  }

  /** A step gives a charge's hours with every charge and none without. */
  lemma StepGives(s: Store, b: Book, step: Step, user: nat, period: nat, lo: nat, hi: nat)
    requires period > 0 && lo <= period <= hi && (step.Paying? ==> lo <= step.term <= hi)
    ensures var c := Post(b, s, step, user, period);
      || (c.charges == b.charges && c.given == b.given)
      || (c.charges == b.charges + 1 && b.given + lo <= c.given <= b.given + hi)
  {
  }

  lemma {:induction false} GivenByTheTerms(s: Store, b: Book, steps: seq<Step>, user: nat, period: nat,
                                           lo: nat, hi: nat)
    requires period > 0 && lo <= period <= hi && lo * b.charges <= b.given <= hi * b.charges
    requires forall i :: 0 <= i < |steps| && steps[i].Paying? ==> lo <= steps[i].term <= hi
    ensures var after := Books(b, s, steps, user, period); lo * after.charges <= after.given <= hi * after.charges
    decreases |steps|
  {
    if steps != [] {
      var c := Post(b, s, steps[0], user, period);
      StepGives(s, b, steps[0], user, period, lo, hi);
      if c.charges != b.charges {
        OneChargeMore(b.charges, b.given, c.given - b.given, lo, hi);
      }
      GivenByTheTerms(Next(s, steps[0], period), c, steps[1..], user, period, lo, hi);
    }
  }

  /** When every payment buys the tick's period with at most `grace` hours more, as only a Stars subscription
      does, the hours given are between the two for each charge; without subscriptions they are a period each. */
  lemma HoursPerCharge(s: Store, steps: seq<Step>, user: nat, period: nat, grace: nat)
    requires period > 0
    requires forall i :: 0 <= i < |steps| && steps[i].Paying? ==> period <= steps[i].term <= period + grace
    ensures var b := Books(EMPTY, s, steps, user, period);
      && period * b.charges <= b.given <= (period + grace) * b.charges
      && (grace == 0 ==> b.given == period * b.charges)
  {
    GivenByTheTerms(s, EMPTY, steps, user, period, period, period + grace);
  }
}
