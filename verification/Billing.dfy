/** The billing tables and what one transaction makes of them.

    A user's row in user_tariff_cs is (tariff, balance, hours left, deliveries left). Payments, Patreon
    months, Stars refunds, the hourly tick and grants change it. Every function here says what the tables
    are after one committed transaction; BillingStore has the transactions themselves. */
module Billing {
  import opened Prelude
  import Outbox

  const STARS := "telegramStars"
  const PATREON := "patreon"
  const HOLD_HOURS := 168

  datatype Tariff = Tariff(level: nat, price: nat, deliveries: int)
  datatype Row = Row(tariff: nat, balance: int, hours: int, deliveries: int)
  datatype Status = Paid | Refunded | Credited | Unpaid
  datatype Payment = Payment(user: nat, service: string, invoice: string, status: Status, amount: int)
  datatype Ending = Ending(at: int, reason: string)
  datatype Grant = Grant(user: nat, kind: string, tariff: nat, prev: nat, startedAt: int, checkedAt: int,
                         periodStart: int, missing: Option<int>, ended: Option<Ending>)

  /** users maps a user to "marked deleted"; a payment's or a grant's id is its index. */
  datatype Store = Store(tariffs: map<nat, Tariff>, users: map<nat, bool>, rows: map<nat, Row>,
                         payments: seq<Payment>, grants: seq<Grant>, outbox: seq<Outbox.Effect>)

  // ---------- reading the tables ----------

  predicate Open(g: Grant, user: nat) {
    g.user == user && g.ended.None?
  }

  function Active(grants: seq<Grant>, user: nat): Option<nat> {
    First(grants, g => Open(g, user))
  }

  predicate SamePayment(p: Payment, user: nat, service: string, invoice: string) {
    p.user == user && p.service == service && p.invoice == invoice
  }

  function FindPayment(payments: seq<Payment>, user: nat, service: string, invoice: string): Option<nat> {
    First(payments, p => SamePayment(p, user, service, invoice))
  }

  predicate HasCharge(p: Payment, charge: string) {
    p.service == STARS && p.invoice == charge
  }

  function FindPaid(payments: seq<Payment>, charge: string): Option<nat> {
    First(payments, p => HasCharge(p, charge) && p.status == Paid)
  }

  predicate Deleted(s: Store, user: nat) {
    user in s.users && s.users[user]
  }

  predicate Running(row: Row) {
    row.tariff > 0 && row.hours > 0
  }

  // ---------- payments (db/sqliteAdapter.py, applyPaymentReplenishmentOnce) ----------

  /** plan 0: the invoice names no plan; planPrice: what the invoice sold a period of it for. */
  datatype Invoice = Invoice(user: nat, service: string, invoice: string, amount: int, status: Status,
                             plan: nat, planPrice: Option<nat>)

  datatype Mode = Credit | TopUp | TurnedOn | Short
  datatype PayResult = AlreadyProcessed(at: nat) | Applied(mode: Mode)

  /** The invoice's plan is one that can be bought. */
  predicate Offers(s: Store, p: Invoice) {
    p.plan > 0 && p.plan in s.tariffs && s.tariffs[p.plan].price > 0
  }

  /** A period costs what the invoice sold it for, or today's price when that is lower. */
  function Asked(t: Tariff, p: Invoice): int {
    if p.planPrice.None? then t.price else Min(t.price, p.planPrice.value)
  }

  /** The payment closes the payer's grant: the invoice's plan is paid for. */
  predicate Replaces(s: Store, p: Invoice) {
    && p.user in s.rows
    && Active(s.grants, p.user).Some?
    && Offers(s, p)
    && s.rows[p.user].balance + p.amount >= Asked(s.tariffs[p.plan], p)
  }

  /** The row takes the invoice's plan: no plan is running, or the one running is a grant this closes. */
  predicate TakesPlan(s: Store, p: Invoice) {
    Offers(s, p) && (p.user !in s.rows || Replaces(s, p) || !Running(s.rows[p.user]))
  }

  function CloseGrant(grants: seq<Grant>, user: nat, now: int, reason: string): seq<Grant> {
    var i := Active(grants, user);
    if i.None? then grants else grants[i.value := grants[i.value].(ended := Some(Ending(now, reason)))]
  }

  /** The row a bought period leaves: the price off the balance, a full period, the plan's deliveries. */
  function Bought(id: nat, t: Tariff, money: int, price: int, period: nat): Row {
    Row(id, money - price, period, t.deliveries)
  }

  /** The row and the mode a payment leaves, by the subscription it meets and the plan it takes. */
  function RowFor(tariffs: map<nat, Tariff>, p: Invoice, subscription: Option<Row>, plan: Option<Tariff>,
                  period: nat): (Row, Mode)
  {
    var row := if subscription.Some? then subscription.value else Row(0, 0, 0, 0);
    var money := row.balance + p.amount;
    if plan.Some? then
      var price := Asked(plan.value, p);
      if price == 0 then (Row(p.plan, money, 0, 0), Credit)
      else if money >= price then (Bought(p.plan, plan.value, money, price, period), TurnedOn)
      else (Row(p.plan, money, 0, 0), Short)
    else if subscription.None? then (row.(balance := money), Credit)
    else if row.hours > 0 then (row.(balance := money), TopUp)
    else if row.tariff !in tariffs || tariffs[row.tariff].price == 0 then
      (row.(balance := money, deliveries := 0), Credit)
    else if money >= tariffs[row.tariff].price then
      (Bought(row.tariff, tariffs[row.tariff], money, tariffs[row.tariff].price, period), TurnedOn)
    else (row.(balance := money, deliveries := 0), Short)
  }

  function PaidRow(s: Store, p: Invoice, period: nat): (Row, Mode) {
    RowFor(s.tariffs, p, if p.user in s.rows then Some(s.rows[p.user]) else None,
           if TakesPlan(s, p) then Some(s.tariffs[p.plan]) else None, period)
  }

  /** The price a payment that turned a plan on took. */
  function PriceTaken(s: Store, p: Invoice): int
    requires TakesPlan(s, p) || (p.user in s.rows && s.rows[p.user].tariff in s.tariffs)
  {
    if TakesPlan(s, p) then Asked(s.tariffs[p.plan], p) else s.tariffs[s.rows[p.user].tariff].price
  }

  function Pay(s: Store, p: Invoice, period: nat, now: int): (r: (Store, PayResult)) {
    var known := FindPayment(s.payments, p.user, p.service, p.invoice);
    if known.Some? then (s, AlreadyProcessed(known.value))
    else
      var (row, mode) := PaidRow(s, p, period);
      var rowid := |s.payments|;
      (s.(rows := s.rows[p.user := row],
          grants := if Replaces(s, p) then CloseGrant(s.grants, p.user, now, "purchase") else s.grants,
          payments := s.payments + [Payment(p.user, p.service, p.invoice, p.status, p.amount)],
          outbox := if p.status == Paid
                    then Outbox.Queue(s.outbox, p.user, Outbox.Ph(rowid), Outbox.EFFECTS, now)
                    else s.outbox),
       Applied(mode))
  }

  // ---------- Patreon (db/patreon.py, credit_month) ----------

  function CreditMonth(s: Store, user: nat, month: string, credit: int, paid: int, now: int): (r: (Store, bool)) {
    if FindPayment(s.payments, user, PATREON, month).Some? then (s, false)
    else
      var row := if user in s.rows then s.rows[user] else Row(0, 0, 0, 0);
      var rowid := |s.payments|;
      (s.(rows := s.rows[user := row.(balance := row.balance + credit)],
          payments := s.payments + [Payment(user, PATREON, month, if paid > 0 then Paid else Credited, paid)],
          outbox := if paid > 0
                    then Outbox.Queue(s.outbox, user, Outbox.Ph(rowid), Outbox.EFFECTS, now)
                    else s.outbox),
       true)
  }

  // ---------- Stars refunds (db/stars_refund.py, apply_refund) ----------

  datatype Taken = Taken(user: nat, amount: int, hours: nat, hoursLeft: int, balance: int, tariff: nat)

  function MarkRefunded(payments: seq<Payment>, charge: string): (r: seq<Payment>)
    ensures |r| == |payments|
    ensures forall i :: 0 <= i < |r| ==>
      r[i] == if HasCharge(payments[i], charge) then payments[i].(status := Refunded) else payments[i]
  {
    seq(|payments|, i requires 0 <= i < |payments| =>
      if HasCharge(payments[i], charge) then payments[i].(status := Refunded) else payments[i])
  }

  /** A debt may be paid in hours only from a plan that was bought and is running. */
  predicate MayTakeHours(s: Store, user: nat, owed: int) {
    && user in s.rows
    && owed > 0
    && Running(s.rows[user])
    && s.rows[user].tariff in s.tariffs
    && s.tariffs[s.rows[user].tariff].price > 0
    && Active(s.grants, user).None?
  }

  /** The hours a debt takes, rounded up, at most those left; what they pay of it, rounded down. */
  function HoursFor(owed: nat, hours: nat, price: nat, period: nat): nat
    requires price > 0
  {
    Min(hours, (owed * period + price - 1) / price)
  }

  function BalanceAfter(owed: nat, hours: nat, price: nat, period: nat): int
    requires period > 0
  {
    Min(0, hours * price / period - owed)
  }

  function Refund(s: Store, charge: string, period: nat): (r: (Store, Option<Taken>))
    requires period > 0
  {
    var found := FindPaid(s.payments, charge);
    if found.None? then (s, None)
    else
      var p := s.payments[found.value];
      var marked := s.(payments := MarkRefunded(s.payments, charge));
      if p.user !in s.rows then (marked, Some(Taken(p.user, p.amount, 0, 0, 0, 0)))
      else
        var row := s.rows[p.user];
        var money := row.balance - p.amount;
        if MayTakeHours(s, p.user, -money) then
          var price := s.tariffs[row.tariff].price;
          var hours := HoursFor(-money, row.hours, price, period);
          var balance := BalanceAfter(-money, hours, price, period);
          (marked.(rows := s.rows[p.user := row.(balance := balance, hours := row.hours - hours)]),
           Some(Taken(p.user, p.amount, hours, row.hours - hours, balance, row.tariff)))
        else
          (marked.(rows := s.rows[p.user := row.(balance := money)]),
           Some(Taken(p.user, p.amount, 0, row.hours, money, row.tariff)))
  }

  // ---------- the hourly tick (db/sqliteAdapter.py, prolong_users, decrease_all_time_left) ----------

  predicate Renews(s: Store, user: nat) {
    && user in s.rows
    && s.rows[user].tariff in s.tariffs
    && s.rows[user].balance >= s.tariffs[s.rows[user].tariff].price
    && s.rows[user].hours <= 1
    && !Deleted(s, user)
    && Active(s.grants, user).None?
  }

  predicate Burns(s: Store, user: nat) {
    user in s.rows && Running(s.rows[user]) && !Deleted(s, user)
  }

  function Renewed(s: Store, user: nat, period: nat): Row
    requires Renews(s, user)
  {
    var row := s.rows[user];
    var t := s.tariffs[row.tariff];
    Row(row.tariff, row.balance - t.price, row.hours + period, t.deliveries)
  }

  function Prolong(s: Store, period: nat): Store {
    s.(rows := map user | user in s.rows :: if Renews(s, user) then Renewed(s, user, period) else s.rows[user])
  }

  function Decrease(s: Store): Store {
    s.(rows := map user | user in s.rows ::
      if Burns(s, user) then s.rows[user].(hours := s.rows[user].hours - 1) else s.rows[user])
  }

  function Tick(s: Store, period: nat): Store {
    Decrease(Prolong(s, period))
  }

  /** The two notice lists the tick reads before it changes anything. */
  function CanBeProlonged(s: Store): set<nat> {
    set user | user in s.rows && user in s.users && Renews(s, user)
  }

  function CannotBeProlonged(s: Store): set<nat> {
    set user | user in s.rows && user in s.users && !s.users[user] && s.rows[user].tariff in s.tariffs
      && s.rows[user].balance < s.tariffs[s.rows[user].tariff].price && s.rows[user].hours == 1
      && Active(s.grants, user).None?
  }

  // ---------- grants (db/plan_grants.py) ----------

  datatype Outcome = Started | Held | Busy | Unknown

  function EndedRow(row: Row, g: Grant, restore: bool): Row {
    if row.tariff == g.tariff then Row(if restore then g.prev else g.tariff, row.balance, 0, 0) else row
  }

  function EndGrant(s: Store, user: nat, reason: string, now: int, restore: bool): (r: (Store, bool)) {
    var i := Active(s.grants, user);
    if i.None? then (s, false)
    else
      (s.(grants := CloseGrant(s.grants, user, now, reason),
          rows := if user in s.rows
                  then s.rows[user := EndedRow(s.rows[user], s.grants[i.value], restore)] else s.rows),
       true)
  }

  function Deliveries(s: Store, tariff: nat): int {
    if tariff in s.tariffs then s.tariffs[tariff].deliveries else 0
  }

  function Hold(s: Store, user: nat, now: int, period: nat): (r: (Store, bool)) {
    var i := Active(s.grants, user);
    if i.None? then (s, false)
    else
      var g := s.grants[i.value];
      if user !in s.rows || s.rows[user].tariff != g.tariff then
        (s.(grants := CloseGrant(s.grants, user, now, "replaced")), false)
      else
        var row := s.rows[user];
        var renews := now - g.periodStart >= period * 3600;
        (s.(rows := s.rows[user := Row(row.tariff, row.balance, Max(row.hours, HOLD_HOURS),
                                       if renews then Deliveries(s, g.tariff) else row.deliveries)],
            grants := s.grants[i.value := g.(periodStart := if renews then now else g.periodStart,
                                             checkedAt := now, missing := None)]),
         true)
  }

  function OfLevel(s: Store, level: nat): set<nat> {
    set id | id in s.tariffs && s.tariffs[id].level == level
  }

  function Start(s: Store, user: nat, kind: string, level: nat, now: int, period: nat): (r: (Store, Outcome)) {
    if user !in s.users || OfLevel(s, level) == {} then (s, Unknown)
    else
      var id := Least(OfLevel(s, level));
      var (s1, held) := Hold(s, user, now, period);
      if held then (s1, Held)
      else if user in s1.rows && Running(s1.rows[user]) then (s1, Busy)
      else
        var prev := if user in s1.rows then s1.rows[user].tariff else 0;
        var balance := if user in s1.rows then s1.rows[user].balance else 0;
        (s1.(grants := s1.grants + [Grant(user, kind, id, prev, now, now, now, None, None)],
             rows := s1.rows[user := Row(id, balance, HOLD_HOURS, s1.tariffs[id].deliveries)]),
         Started)
  }

  function MarkMissing(s: Store, user: nat, now: int): (r: (Store, Option<int>)) {
    var i := Active(s.grants, user);
    if i.None? then (s, None)
    else
      var g := s.grants[i.value];
      var since := if g.missing.Some? then g.missing.value else now;
      (s.(grants := s.grants[i.value := g.(checkedAt := now, missing := Some(since))]), Some(since))
  }

  /** A write of the whole row (db/sqliteAdapter.py, subscribeUserToTariffByUid): it ends a grant when it
      changes the plan or the hours, and leaves it running when it only changes money or deliveries. */
  function Subscribe(s: Store, user: nat, row: Row, now: int): Store {
    var ends := user in s.rows && (s.rows[user].tariff != row.tariff || s.rows[user].hours != row.hours);
    s.(rows := s.rows[user := row],
       grants := if ends then CloseGrant(s.grants, user, now, "replaced") else s.grants)
  }
}
