/** What each billing transaction does for the user: which payment turns which plan on and at what price, what a
    refund takes, what a grant gives and what its end leaves, and that nothing else is touched. */
module BillingAnswers {
  import opened Prelude
  import opened Billing
  import opened BillingRuns
  import BillingRefund
  import Outbox

  // ---------- finding rows ----------

  ghost predicate HasGrant(s: Store, user: nat) {
    exists i :: 0 <= i < |s.grants| && s.grants[i].user == user && s.grants[i].ended.None?
  }

  /** The user's open grant: the first, if rows ever held two. */
  ghost predicate IsGrant(s: Store, user: nat, i: nat) {
    && i < |s.grants| && s.grants[i].user == user && s.grants[i].ended.None?
    && forall j :: 0 <= j < i && s.grants[j].user == user ==> s.grants[j].ended.Some?
  }

  ghost predicate IsKnown(s: Store, user: nat, service: string, invoice: string) {
    exists i :: 0 <= i < |s.payments| && s.payments[i].user == user && s.payments[i].service == service
                && s.payments[i].invoice == invoice
  }

  lemma GrantIsFound(s: Store, user: nat)
    ensures HasGrant(s, user) <==> Active(s.grants, user).Some?
    ensures forall i: nat :: IsGrant(s, user, i) <==> Active(s.grants, user) == Some(i)
  {
    var found := Active(s.grants, user);
    if found.Some? {
      assert Open(s.grants[found.value], user);
    }
    forall i: nat | IsGrant(s, user, i)
      ensures found == Some(i)
    {
      assert Open(s.grants[i], user);
      assert found.Some? && Open(s.grants[found.value], user);
    }
    if HasGrant(s, user) {
      var i :| 0 <= i < |s.grants| && s.grants[i].user == user && s.grants[i].ended.None?;
      assert Open(s.grants[i], user);
    }
  }

  lemma InvoiceIsFound(s: Store, user: nat, service: string, invoice: string)
    ensures IsKnown(s, user, service, invoice) <==> FindPayment(s.payments, user, service, invoice).Some?
  {
    var found := FindPayment(s.payments, user, service, invoice);
    if found.Some? {
      assert SamePayment(s.payments[found.value], user, service, invoice);
    }
    if i :| 0 <= i < |s.payments| && s.payments[i].user == user && s.payments[i].service == service
            && s.payments[i].invoice == invoice
    {
      assert SamePayment(s.payments[i], user, service, invoice);
    }
  }

  // ---------- payments ----------

  /** What a period of plan t costs the payer of the invoice: today's price, or the one it was sold for, the lower
      of the two. */
  predicate Costs(t: Tariff, p: Invoice, price: nat) {
    && price <= t.price
    && (p.planPrice.Some? ==> price <= p.planPrice.value)
    && (price == t.price || p.planPrice == Some(price))
  }

  predicate SellsPlan(s: Store, p: Invoice) {
    p.plan > 0 && p.plan in s.tariffs && s.tariffs[p.plan].price > 0
  }

  predicate HasPlan(s: Store, user: nat) {
    RowOf(s, user).tariff > 0 && RowOf(s, user).hours > 0
  }

  function Money(s: Store, p: Invoice): int {
    RowOf(s, p.user).balance + p.amount
  }

  /** A new payment for a plan turns it on exactly when the money reaches what the plan costs, and no other plan
      runs unless it is a grant; then it takes that cost, no more and no less, for a full period. */
  lemma PlanTurnsOnForItsPrice(s: Store, p: Invoice, price: nat, term: nat, now: int)
    requires !IsKnown(s, p.user, p.service, p.invoice) && SellsPlan(s, p) && Costs(s.tariffs[p.plan], p, price)
    ensures var (after, r) := Pay(s, p, term, now);
            var free := !HasPlan(s, p.user) || (HasGrant(s, p.user) && Money(s, p) >= price);
      && p.user in after.rows
      && var row := after.rows[p.user];
         && (r == Applied(TurnedOn) <==> price > 0 && Money(s, p) >= price && free)
         && (r == Applied(TurnedOn) ==> row == Row(p.plan, Money(s, p) - price, term, s.tariffs[p.plan].deliveries))
         && (r == Applied(Short) <==> price > 0 && Money(s, p) < price && free)
         && (r == Applied(Credit) <==> price == 0 && free)
         && (r == Applied(Short) || r == Applied(Credit) ==> row == Row(p.plan, Money(s, p), 0, 0))
         && (!free ==> r == Applied(TopUp) && row == s.rows[p.user].(balance := Money(s, p)))
  {
    InvoiceIsFound(s, p.user, p.service, p.invoice);
    GrantIsFound(s, p.user);
  }

  /** Any other new payment tops up a running plan, or turns the row's own plan on again when the money reaches
      today's price, or stays on the balance. */
  lemma OwnPlanTurnsOn(s: Store, p: Invoice, term: nat, now: int)
    requires !IsKnown(s, p.user, p.service, p.invoice) && !SellsPlan(s, p)
    ensures var (after, r) := Pay(s, p, term, now);
            var row := RowOf(s, p.user);
            var sold := row.tariff in s.tariffs && s.tariffs[row.tariff].price > 0 && p.user in s.rows;
      && p.user in after.rows
      && var left := after.rows[p.user];
         && (row.hours > 0 ==> r == Applied(TopUp) && left == row.(balance := Money(s, p)))
         && (row.hours <= 0 && sold && Money(s, p) >= s.tariffs[row.tariff].price ==>
               && r == Applied(TurnedOn)
               && left == Row(row.tariff, Money(s, p) - s.tariffs[row.tariff].price, term,
                              s.tariffs[row.tariff].deliveries))
         && (row.hours <= 0 && sold && Money(s, p) < s.tariffs[row.tariff].price ==>
               r == Applied(Short) && left == row.(balance := Money(s, p), deliveries := 0))
         && (row.hours <= 0 && !sold ==> r == Applied(Credit) && left == row.(balance := Money(s, p), deliveries := 0))
  {
    InvoiceIsFound(s, p.user, p.service, p.invoice);
    GrantIsFound(s, p.user);
  }

  /** A payment writes its own record and its payer's row and nothing else, but for the grant it replaces: that
      ends exactly when the invoice's plan is paid for. */
  lemma PaymentTouchesItsOwn(s: Store, p: Invoice, price: nat, term: nat, now: int)
    requires !IsKnown(s, p.user, p.service, p.invoice) && (SellsPlan(s, p) ==> Costs(s.tariffs[p.plan], p, price))
    ensures var after := Pay(s, p, term, now).0;
            var paidFor := p.user in s.rows && SellsPlan(s, p) && Money(s, p) >= price;
      && after.tariffs == s.tariffs && after.users == s.users
      && after.payments == s.payments + [Billing.Payment(p.user, p.service, p.invoice, p.status, p.amount)]
      && after.rows.Keys == s.rows.Keys + {p.user}
      && (forall u :: u in s.rows && u != p.user ==> after.rows[u] == s.rows[u])
      && |after.grants| == |s.grants|
      && (forall i :: 0 <= i < |s.grants| ==>
            after.grants[i] == if paidFor && IsGrant(s, p.user, i)
                               then s.grants[i].(ended := Some(Ending(now, "purchase"))) else s.grants[i])
  {
    InvoiceIsFound(s, p.user, p.service, p.invoice);
    GrantIsFound(s, p.user);
  }

  /** A known invoice is told from its record, and nothing is written. */
  lemma KnownInvoiceIsTold(s: Store, p: Invoice, term: nat, now: int)
    requires IsKnown(s, p.user, p.service, p.invoice)
    ensures var (after, r) := Pay(s, p, term, now);
      && after == s && r.AlreadyProcessed? && r.at < |s.payments|
      && s.payments[r.at].user == p.user && s.payments[r.at].service == p.service
      && s.payments[r.at].invoice == p.invoice
  {
    InvoiceIsFound(s, p.user, p.service, p.invoice);
  }

  /** The rows the outbox gained: pending, due now, for the payer, and only when the payment is paid. */
  lemma {:induction false} QueuedAreDue(rows: seq<Outbox.Effect>, user: nat, key: Outbox.Key, effects: seq<string>,
                                        now: int)
    ensures var after := Outbox.Queue(rows, user, key, effects, now);
      && rows <= after
      && forall i :: |rows| <= i < |after| ==>
           after[i] == Outbox.Effect(key, user, after[i].effect, Outbox.Pending, 0, now) && after[i].effect in effects
    decreases effects
  {
    if effects != [] {
      QueuedAreDue(Outbox.Insert(rows, user, key, effects[0], now), user, key, effects[1..], now);
    }
  }

  lemma PaymentIsQueuedForItsPayer(s: Store, p: Invoice, term: nat, now: int)
    ensures var after := Pay(s, p, term, now).0;
      && s.outbox <= after.outbox
      && (p.status != Paid ==> after.outbox == s.outbox)
      && forall i :: |s.outbox| <= i < |after.outbox| ==>
           after.outbox[i]
           == Outbox.Effect(Outbox.Ph(|s.payments|), p.user, after.outbox[i].effect, Outbox.Pending, 0, now)
  {
    QueuedAreDue(s.outbox, p.user, Outbox.Ph(|s.payments|), Outbox.EFFECTS, now);
  }

  // ---------- Patreon ----------

  /** A month not credited yet adds its credit to the balance and its record, paid when money came, and touches
      nothing else; a month credited before writes nothing. */
  lemma MonthIsCredited(s: Store, user: nat, month: string, credit: int, paid: int, now: int)
    ensures var (after, written) := CreditMonth(s, user, month, credit, paid, now);
      && (written <==> !IsKnown(s, user, PATREON, month))
      && (!written ==> after == s)
      && (written ==>
            && after == s.(rows := after.rows, payments := after.payments, outbox := after.outbox)
            && after.rows == s.rows[user := RowOf(s, user).(balance := RowOf(s, user).balance + credit)]
            && |after.payments| == |s.payments| + 1 && s.payments <= after.payments
            && var last := after.payments[|s.payments|];
               && last.user == user && last.service == PATREON && last.invoice == month && last.amount == paid
               && (last.status == Paid <==> paid > 0) && (last.status == Credited <==> paid <= 0))
      && s.outbox <= after.outbox && (paid <= 0 ==> after.outbox == s.outbox)
      && forall i :: |s.outbox| <= i < |after.outbox| ==>
           after.outbox[i]
           == Outbox.Effect(Outbox.Ph(|s.payments|), user, after.outbox[i].effect, Outbox.Pending, 0, now)
  {
    InvoiceIsFound(s, user, PATREON, month);
    QueuedAreDue(s.outbox, user, Outbox.Ph(|s.payments|), Outbox.EFFECTS, now);
  }

  // ---------- refunds ----------

  predicate IsCharge(p: Billing.Payment, charge: string) {
    p.service == STARS && p.invoice == charge
  }

  ghost predicate IsRefundable(s: Store, charge: string, i: nat) {
    && i < |s.payments| && IsCharge(s.payments[i], charge) && s.payments[i].status == Paid
    && forall j :: 0 <= j < i && IsCharge(s.payments[j], charge) ==> s.payments[j].status != Paid
  }

  /** A refund of a charge that was paid and not taken back marks it, and takes its amount off the payer's
      balance; hours go only for a debt, from a plan that was bought and runs. */
  lemma RefundTakesBack(s: Store, charge: string, i: nat, period: nat)
    requires period > 0 && IsRefundable(s, charge, i)
    ensures var (after, taken) := Refund(s, charge, period);
            var user, amount := s.payments[i].user, s.payments[i].amount;
            var money, row := RowOf(s, user).balance - amount, RowOf(s, user);
            var hoursMayGo := money < 0 && HasPlan(s, user) && row.tariff in s.tariffs
                              && s.tariffs[row.tariff].price > 0 && !HasGrant(s, user);
      && after == s.(payments := after.payments, rows := after.rows)
      && |after.payments| == |s.payments|
      && (forall k :: 0 <= k < |s.payments| ==>
            after.payments[k] == if IsCharge(s.payments[k], charge) then s.payments[k].(status := Refunded)
                                 else s.payments[k])
      && after.rows.Keys == s.rows.Keys
      && (forall u :: u in s.rows && u != user ==> after.rows[u] == s.rows[u])
      && taken.Some? && taken.value.user == user && taken.value.amount == amount
      && (user !in s.rows ==> taken.value == Taken(user, amount, 0, 0, 0, 0))
      && (user in s.rows ==>
            && var left := after.rows[user];
               && left == row.(balance := left.balance, hours := left.hours)
               && taken.value == Taken(user, amount, taken.value.hours, left.hours, left.balance, row.tariff)
               && taken.value.hours == row.hours - left.hours
               && (!hoursMayGo ==> left.hours == row.hours && left.balance == money)
               && (hoursMayGo ==> left.hours < row.hours && money <= left.balance <= 0))
  {
    GrantIsFound(s, s.payments[i].user);
    var found := FindPaid(s.payments, charge);
    assert HasCharge(s.payments[i], charge);
    assert found.Some? && IsCharge(s.payments[found.value], charge);
    assert found == Some(i);
    if RowOf(s, s.payments[i].user).balance - s.payments[i].amount < 0 {
      HoursTakenAreFew(s, s.payments[i], period);
    }
  }

  lemma HoursTakenAreFew(s: Store, p: Billing.Payment, period: nat)
    requires period > 0
    ensures MayTakeHours(s, p.user, p.amount - RowOf(s, p.user).balance) ==>
      var owed: nat := p.amount - s.rows[p.user].balance;
      var price := s.tariffs[s.rows[p.user].tariff].price;
      var h := HoursFor(owed, s.rows[p.user].hours, price, period);
      0 < h <= s.rows[p.user].hours && 0 <= BalanceAfter(owed, h, price, period) + owed <= owed
  {
    var owed := p.amount - RowOf(s, p.user).balance;
    if MayTakeHours(s, p.user, owed) {
      BillingRefund.FewestHours(owed, s.rows[p.user].hours, s.tariffs[s.rows[p.user].tariff].price, period);
    }
  }

  /** Nothing to take back: nothing happens. */
  lemma NothingToRefund(s: Store, charge: string, period: nat)
    requires period > 0 && forall i: nat :: !IsRefundable(s, charge, i)
    ensures Refund(s, charge, period) == (s, None)
  {
    var found := FindPaid(s.payments, charge);
    if found.Some? {
      assert IsRefundable(s, charge, found.value);
    }
  }

  // ---------- the tick ----------

  /** The rows a tick renews, and what it does to each: a live user without a grant on the last hour of a plan of
      the list, with the money for another period, gets exactly that. */
  lemma TickRenews(s: Store, period: nat, user: nat)
    requires user in s.rows
    ensures var row := s.rows[user];
            var renewed := row.tariff in s.tariffs && row.balance >= s.tariffs[row.tariff].price && row.hours <= 1
                           && !(user in s.users && s.users[user]) && !HasGrant(s, user);
      && Prolong(s, period) == s.(rows := Prolong(s, period).rows) && Prolong(s, period).rows.Keys == s.rows.Keys
      && (!renewed ==> Prolong(s, period).rows[user] == row)
      && (renewed ==>
            Prolong(s, period).rows[user] == Row(row.tariff, row.balance - s.tariffs[row.tariff].price,
                                                 row.hours + period, s.tariffs[row.tariff].deliveries))
  {
    GrantIsFound(s, user);
  }

  /** Then every running row of a user not marked deleted loses one hour, and nothing else changes. */
  lemma TickBurns(s: Store, user: nat)
    requires user in s.rows
    ensures var row := s.rows[user];
      && Decrease(s) == s.(rows := Decrease(s).rows) && Decrease(s).rows.Keys == s.rows.Keys
      && Decrease(s).rows[user]
         == if row.tariff > 0 && row.hours > 0 && !(user in s.users && s.users[user])
            then row.(hours := row.hours - 1) else row
  {
  }

  // ---------- grants ----------

  /** Ending a grant closes it with its reason, and stops its plan: no hours, no deliveries, the plan from before
      when it is restored. A row that has moved on to another plan stays. */
  lemma EndStopsItsPlan(s: Store, user: nat, reason: string, now: int, restore: bool)
    ensures var (after, ended) := EndGrant(s, user, reason, now, restore);
      && (ended <==> HasGrant(s, user))
      && (!ended ==> after == s)
      && forall i: nat :: IsGrant(s, user, i) ==>
           && after.grants == s.grants[i := s.grants[i].(ended := Some(Ending(now, reason)))]
           && after == s.(grants := after.grants, rows := after.rows)
           && after.rows.Keys == s.rows.Keys
           && (forall u :: u in s.rows && u != user ==> after.rows[u] == s.rows[u])
           && (user in s.rows ==>
                 var row, left := s.rows[user], after.rows[user];
                 if row.tariff != s.grants[i].tariff then left == row
                 else left.balance == row.balance && left.hours == 0 && left.deliveries == 0
                      && left.tariff == if restore then s.grants[i].prev else row.tariff)
  {
    GrantIsFound(s, user);
  }

  /** A check of a held grant leaves at least HOLD_HOURS on the row and never takes any away, gives the
      deliveries of the plan again once a period has passed since they were last given, and clears a warning. A
      grant whose plan is not on the row any more ends instead. */
  lemma HoldKeepsThePlan(s: Store, user: nat, now: int, period: nat, i: nat)
    requires IsGrant(s, user, i)
    ensures var (after, held) := Hold(s, user, now, period);
            var g := s.grants[i];
      && (held <==> user in s.rows && s.rows[user].tariff == g.tariff)
      && after == s.(grants := after.grants, rows := after.rows)
      && |after.grants| == |s.grants| && (forall j :: 0 <= j < |s.grants| && j != i ==> after.grants[j] == s.grants[j])
      && (!held ==> after.rows == s.rows && after.grants[i] == g.(ended := Some(Ending(now, "replaced"))))
      && (held ==>
            && after.rows == s.rows[user := after.rows[user]]
            && var row, left := s.rows[user], after.rows[user];
               var passed := now - g.periodStart >= period * 3600;
               && left == row.(hours := left.hours, deliveries := left.deliveries)
               && left.hours >= HOLD_HOURS && left.hours >= row.hours
               && (left.hours == HOLD_HOURS || left.hours == row.hours)
               && (passed && g.tariff in s.tariffs ==> left.deliveries == s.tariffs[g.tariff].deliveries)
               && (passed && g.tariff !in s.tariffs ==> left.deliveries == 0)
               && (!passed ==> left.deliveries == row.deliveries)
               && after.grants[i] == g.(checkedAt := now, missing := None,
                                        periodStart := if passed then now else g.periodStart))
  {
    GrantIsFound(s, user);
  }

  lemma NobodyToHold(s: Store, user: nat, now: int, period: nat)
    requires !HasGrant(s, user)
    ensures Hold(s, user, now, period) == (s, false)
  {
    GrantIsFound(s, user);
  }

  /** A start finds the plan of its level with the smallest id; it holds the grant there is, gives way to a plan
      that runs, and else puts the plan on the row for HOLD_HOURS and remembers the one it replaced. */
  lemma StartGivesThePlan(s: Store, user: nat, kind: string, level: nat, now: int, period: nat)
    ensures var (after, outcome) := Start(s, user, kind, level, now, period);
            var checked := Hold(s, user, now, period).0;
            var possible := user in s.users && exists id :: id in s.tariffs && s.tariffs[id].level == level;
      && (outcome == Unknown <==> !possible)
      && (outcome == Unknown ==> after == s)
      && (outcome == Held <==> possible && Hold(s, user, now, period).1)
      && (outcome == Busy <==> possible && !Hold(s, user, now, period).1 && HasPlan(checked, user))
      && (outcome == Held || outcome == Busy ==> after == checked)
      && (outcome == Started ==>
            && |after.grants| == |checked.grants| + 1 && checked.grants <= after.grants
            && var g := after.grants[|checked.grants|];
               && after == checked.(grants := after.grants, rows := after.rows)
               && g == Grant(user, kind, g.tariff, RowOf(checked, user).tariff, now, now, now, None, None)
               && g.tariff in s.tariffs && s.tariffs[g.tariff].level == level
               && (forall id :: id in s.tariffs && s.tariffs[id].level == level ==> g.tariff <= id)
               && after.rows == checked.rows[user := Row(g.tariff, RowOf(checked, user).balance, HOLD_HOURS,
                                                         s.tariffs[g.tariff].deliveries)])
  {
    assert forall id :: id in OfLevel(s, level) <==> id in s.tariffs && s.tariffs[id].level == level;
  }

  /** The first time a holder is found missing is kept, and told, until a check finds them again. */
  lemma FirstMissIsKept(s: Store, user: nat, now: int)
    ensures var (after, since) := MarkMissing(s, user, now);
      && (since.Some? <==> HasGrant(s, user))
      && (since.None? ==> after == s)
      && forall i: nat :: IsGrant(s, user, i) ==>
           && since == (if s.grants[i].missing.Some? then s.grants[i].missing else Some(now))
           && after == s.(grants := s.grants[i := s.grants[i].(checkedAt := now, missing := since)])
  {
    GrantIsFound(s, user);
  }

  /** A write of the whole row writes it, and nothing else but the end of a grant it replaces. */
  lemma RowIsWritten(s: Store, user: nat, row: Row, now: int)
    ensures var after := Subscribe(s, user, row, now);
            var ends := user in s.rows && (s.rows[user].tariff != row.tariff || s.rows[user].hours != row.hours);
      && after == s.(rows := s.rows[user := row], grants := after.grants)
      && |after.grants| == |s.grants|
      && forall i :: 0 <= i < |s.grants| ==>
           after.grants[i] == if ends && IsGrant(s, user, i) then s.grants[i].(ended := Some(Ending(now, "replaced")))
                              else s.grants[i]
  {
    GrantIsFound(s, user);
  }
}
