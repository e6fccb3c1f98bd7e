/** The billing transactions as they run: each method is one BEGIN IMMEDIATE .. COMMIT that reads and
    rewrites the tables step by step, and is proved to leave exactly the tables module Billing says. */
module BillingStore {
  import opened Prelude
  import opened Billing
  import Outbox

  class Database {
    const tariffs: map<nat, Tariff>
    var users: map<nat, bool>
    var rows: map<nat, Row>
    var payments: seq<Payment>
    var grants: seq<Grant>
    var outbox: seq<Outbox.Effect>

    constructor (tariffs: map<nat, Tariff>, users: map<nat, bool>)
      ensures Tables() == Store(tariffs, users, map[], [], [], [])
    {
      this.tariffs := tariffs;
      this.users := users;
      rows, payments, grants, outbox := map[], [], [], [];
    }

    function Tables(): Store
      reads this
    {
      Store(tariffs, users, rows, payments, grants, outbox)
    }

    /** plan_grants.end, inside the caller's transaction. */
    method End(user: nat, reason: string, now: int, restore: bool) returns (ended: bool)
      modifies this`grants, this`rows
      ensures (Tables(), ended) == EndGrant(old(Tables()), user, reason, now, restore)
    {
      var held := Active(grants, user);
      if held.None? {
        return false;
      }
      var g := grants[held.value];
      grants := grants[held.value := g.(ended := Some(Ending(now, reason)))];
      if user in rows && rows[user].tariff == g.tariff {
        rows := rows[user := Row(if restore then g.prev else g.tariff, rows[user].balance, 0, 0)];
      } else if user in rows {
        assert rows == rows[user := rows[user]];
      }
      ended := true;
    }

    method RecordPayment(p: Payment, now: int)
      modifies this`payments, this`outbox
      ensures payments == old(payments) + [p]
      ensures outbox == if p.status == Paid
                        then Outbox.Queue(old(outbox), p.user, Outbox.Ph(|old(payments)|), Outbox.EFFECTS, now)
                        else old(outbox)
    {
      var rowid := |payments|;
      payments := payments + [p];
      if p.status == Paid {
        outbox := Outbox.QueueEffects(outbox, p.user, Outbox.Ph(rowid), now);
      }
    }

    /** The subscription the payment meets: the payer's row, with no hours left on it when the payment
        pays for a plan in the place of the grant that held it, which ends here. */
    method ReplaceGrant(p: Invoice, now: int) returns (subscription: Option<Row>)
      modifies this`grants, this`rows
      ensures grants == if Replaces(old(Tables()), p) then CloseGrant(old(grants), p.user, now, "purchase")
                        else old(grants)
      ensures subscription.Some? <==> p.user in old(rows)
      ensures subscription.Some? ==>
        subscription.value == if Replaces(old(Tables()), p) then old(rows)[p.user].(hours := 0, deliveries := 0)
                              else old(rows)[p.user]
      ensures rows == old(rows) || (p.user in rows && rows == old(rows)[p.user := rows[p.user]])
    {
      subscription := if p.user in rows then Some(rows[p.user]) else None;
      if p.plan > 0 && subscription.Some? && Active(grants, p.user).Some? {
        if p.plan in tariffs && tariffs[p.plan].price > 0 {
          var price := if p.planPrice.None? then tariffs[p.plan].price
                       else Min(tariffs[p.plan].price, p.planPrice.value);
          if subscription.value.balance + p.amount >= price {
            var _ := End(p.user, "purchase", now, false);
            subscription := Some(subscription.value.(hours := 0, deliveries := 0));
          }
        }
      }
    }

    /** The branches that write the row: a new row, a top-up of a running plan, or a plan turned on. */
    method WriteRow(p: Invoice, subscription: Option<Row>, plan: Option<Tariff>, period: nat) returns (mode: Mode)
      requires plan.Some? ==> p.plan in tariffs && plan.value == tariffs[p.plan]
      modifies this`rows
      ensures p.user in rows && rows == old(rows)[p.user := rows[p.user]]
      ensures (rows[p.user], mode) == RowFor(tariffs, p, subscription, plan, period)
    {
      var row := subscription;
      var tariff := if subscription.Some? && subscription.value.tariff in tariffs
                    then tariffs[subscription.value.tariff] else Tariff(0, 0, 0);
      if plan.Some? {
        tariff := plan.value;
        if row.None? {
          row := Some(Row(p.plan, 0, 0, 0));
          rows := rows[p.user := row.value];
        }
      }
      if row.None? {
        rows := rows[p.user := Row(0, p.amount, 0, 0)];
        mode := Credit;
      } else if plan.None? && row.value.hours > 0 {
        rows := rows[p.user := row.value.(balance := row.value.balance + p.amount)];
        mode := TopUp;
      } else {
        var balance := row.value.balance + p.amount;
        var hours := if plan.None? then row.value.hours else 0;
        var deliveries := 0;
        var price := tariff.price;
        if plan.Some? && p.planPrice.Some? {
          price := Min(price, p.planPrice.value);
        }
        if price != 0 && balance >= price {
          balance := balance - price;
          hours := period;
          deliveries := tariff.deliveries;
          mode := TurnedOn;
        } else if price != 0 {
          mode := Short;
        } else {
          mode := Credit;
        }
        rows := rows[p.user := Row(if plan.None? then row.value.tariff else p.plan, balance, hours, deliveries)];
      }
    }

    method ApplyPayment(p: Invoice, period: nat, now: int) returns (r: PayResult)
      modifies this
      ensures (Tables(), r) == Pay(old(Tables()), p, period, now)
    {
      var known := FindPayment(payments, p.user, p.service, p.invoice);
      if known.Some? {
        return AlreadyProcessed(known.value);
      }
      ghost var before := Tables();
      var subscription := ReplaceGrant(p, now);
      var plan := None;
      if p.plan > 0 && (subscription.None? || !(subscription.value.tariff > 0 && subscription.value.hours > 0)) {
        if p.plan in tariffs && tariffs[p.plan].price > 0 {
          plan := Some(tariffs[p.plan]);
        }
      }
      assert plan.Some? <==> TakesPlan(before, p);
      var mode := WriteRow(p, subscription, plan, period);
      assert (rows[p.user], mode) == PaidRow(before, p, period);
      assert rows == before.rows[p.user := rows[p.user]];
      RecordPayment(Payment(p.user, p.service, p.invoice, p.status, p.amount), now);
      r := Applied(mode);
    }

    method CreditPatreonMonth(user: nat, month: string, credit: int, paid: int, now: int) returns (written: bool)
      modifies this
      ensures (Tables(), written) == CreditMonth(old(Tables()), user, month, credit, paid, now)
    {
      if FindPayment(payments, user, PATREON, month).Some? {
        return false;
      }
      if user in rows {
        rows := rows[user := rows[user].(balance := rows[user].balance + credit)];
      } else {
        rows := rows[user := Row(0, credit, 0, 0)];
      }
      RecordPayment(Payment(user, PATREON, month, if paid > 0 then Paid else Credited, paid), now);
      written := true;
    }

    method ApplyRefund(charge: string, period: nat) returns (taken: Option<Taken>)
      requires period > 0
      modifies this`payments, this`rows
      ensures (Tables(), taken) == Refund(old(Tables()), charge, period)
    {
      var found := FindPaid(payments, charge);
      if found.None? {
        return None;
      }
      var user, amount := payments[found.value].user, payments[found.value].amount;
      payments := MarkRefunded(payments, charge);
      if user !in rows {
        return Some(Taken(user, amount, 0, 0, 0, 0));
      }
      var tariff, balance, left := rows[user].tariff, rows[user].balance - amount, rows[user].hours;
      var price := if tariff in tariffs then tariffs[tariff].price else 0;
      var hours: nat := 0;
      if balance < 0 && tariff > 0 && price > 0 && left > 0 && Active(grants, user).None? {
        hours := Min(left, (-balance * period + price - 1) / price);
        balance := Min(0, balance + hours * price / period);
        left := left - hours;
      }
      rows := rows[user := rows[user].(balance := balance, hours := left)];
      taken := Some(Taken(user, amount, hours, left, balance, tariff));
    }

    method ProlongUsers(period: nat)
      modifies this`rows
      ensures Tables() == Prolong(old(Tables()), period)
    {
      rows := map user | user in rows ::
        var row := rows[user];
        if row.tariff in tariffs && row.balance >= tariffs[row.tariff].price && row.hours <= 1
           && !(user in users && users[user]) && Active(grants, user).None?
        then Row(row.tariff, row.balance - tariffs[row.tariff].price, row.hours + period,
                 tariffs[row.tariff].deliveries)
        else row;
    }

    method DecreaseAllTimeLeft()
      modifies this`rows
      ensures Tables() == Decrease(old(Tables()))
    {
      rows := map user | user in rows ::
        var row := rows[user];
        if row.hours > 0 && row.tariff != 0 && !(user in users && users[user])
        then row.(hours := row.hours - 1) else row;
    }

    /** The hourly job: both notice lists first, then renew, then burn an hour. */
    method RunTariffTick(period: nat) returns (prolonged: set<nat>, notProlonged: set<nat>)
      modifies this`rows
      ensures Tables() == Tick(old(Tables()), period)
      ensures prolonged == CanBeProlonged(old(Tables()))
      ensures notProlonged == CannotBeProlonged(old(Tables()))
    {
      prolonged, notProlonged := CanBeProlonged(Tables()), CannotBeProlonged(Tables());
      ProlongUsers(period);
      DecreaseAllTimeLeft();
    }

    /** plan_grants._hold, inside the caller's transaction. */
    method HoldGrant(user: nat, now: int, period: nat) returns (held: bool)
      modifies this`grants, this`rows
      ensures (Tables(), held) == Hold(old(Tables()), user, now, period)
    {
      ghost var before := Tables();
      var active := Active(grants, user);
      if active.None? {
        return false;
      }
      var g := grants[active.value];
      if user !in rows || rows[user].tariff != g.tariff {
        grants := grants[active.value := g.(ended := Some(Ending(now, "replaced")))];
        return false;
      }
      rows := rows[user := rows[user].(hours := Max(rows[user].hours, HOLD_HOURS))];
      if now - g.periodStart >= period * 3600 {
        rows := rows[user := rows[user].(deliveries := Deliveries(Tables(), g.tariff))];
        g := g.(periodStart := now);
      }
      grants := grants[active.value := g.(checkedAt := now, missing := None)];
      held := true;
      assert rows == Hold(before, user, now, period).0.rows;
    }

    method StartGrant(user: nat, kind: string, level: nat, now: int, period: nat) returns (outcome: Outcome)
      modifies this`grants, this`rows
      ensures (Tables(), outcome) == Start(old(Tables()), user, kind, level, now, period)
    {
      if user !in users || OfLevel(Tables(), level) == {} {
        return Unknown;
      }
      var tariff := Least(OfLevel(Tables(), level));
      if Active(grants, user).Some? {
        var held := HoldGrant(user, now, period);
        if held {
          return Held;
        }
      }
      if user in rows && rows[user].tariff > 0 && rows[user].hours > 0 {
        return Busy;
      }
      grants := grants + [Grant(user, kind, tariff, if user in rows then rows[user].tariff else 0,
                                now, now, now, None, None)];
      if user !in rows {
        rows := rows[user := Row(tariff, 0, HOLD_HOURS, tariffs[tariff].deliveries)];
      } else {
        rows := rows[user := Row(tariff, rows[user].balance, HOLD_HOURS, tariffs[tariff].deliveries)];
      }
      outcome := Started;
    }

    method MarkGrantMissing(user: nat, now: int) returns (since: Option<int>)
      modifies this`grants
      ensures (Tables(), since) == MarkMissing(old(Tables()), user, now)
    {
      var active := Active(grants, user);
      if active.None? {
        return None;
      }
      var g := grants[active.value];
      grants := grants[active.value :=
        g.(checkedAt := now, missing := if g.missing.Some? then g.missing else Some(now))];
      since := grants[active.value].missing;
    }

    method SubscribeUser(user: nat, row: Row, now: int)
      modifies this`grants, this`rows
      ensures Tables() == Subscribe(old(Tables()), user, row, now)
    {
      if user !in rows {
        rows := rows[user := row];
      } else {
        if rows[user].tariff != row.tariff || rows[user].hours != row.hours {
          var _ := End(user, "replaced", now, false);
        }
        rows := rows[user := row];
      }
    }
  }
}
