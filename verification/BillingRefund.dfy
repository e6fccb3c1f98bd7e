/** What a Stars refund does to the payer's row: the debt is paid in hours at the running plan's price,
    rounded against the plan by less than one hour, or by less than one cent. */
module BillingRefund {
  import opened Prelude
  import opened Billing
  import opened Arithmetic

  /** k hours are worth at least the debt, at `price` cents for `period` hours. */
  predicate Covers(k: int, owed: nat, price: nat, period: nat) {
    owed * period <= k * price
  }

  lemma RoundedUp(n: nat, p: nat)
    requires p > 0
    ensures var h := (n + p - 1) / p; h >= 0 && n <= h * p && (h - 1) * p < n
  {
  }

  lemma Monotone(a: int, b: int, p: nat)
    requires a <= b
    ensures a * p <= b * p
  {
  }

  /** The hours taken are the fewest that cover the debt, or all of them when they do not cover it. */
  lemma FewestHours(owed: nat, hours: nat, price: nat, period: nat)
    requires owed > 0 && hours > 0 && price > 0 && period > 0
    ensures var h := HoursFor(owed, hours, price, period);
      && 0 < h <= hours
      && (Covers(hours, owed, price, period) ==> Covers(h, owed, price, period))
      && (!Covers(hours, owed, price, period) ==> h == hours)
      && forall k {:trigger Covers(k, owed, price, period)} :: 0 <= k < h ==> !Covers(k, owed, price, period)
  {
    var n := owed * period;
    assert n > 0 by { AtLeastOnce(owed, period); }
    var up := (n + price - 1) / price;
    RoundedUp(n, price);
    if up <= 0 {
      Monotone(up, 0, price);
      assert false;
    }
    if hours < up {
      Monotone(hours, up - 1, price);
    } else {
      Monotone(up, hours, price);
    }
    forall k {:trigger Covers(k, owed, price, period)} | 0 <= k < HoursFor(owed, hours, price, period)
      ensures !Covers(k, owed, price, period)
    {
      Monotone(k, up - 1, price);
    }
  }

  /** The balance is 0 exactly when the hours cover the debt. */
  lemma BalanceCovered(owed: nat, h: nat, price: nat, period: nat)
    requires owed > 0 && price > 0 && period > 0
    ensures BalanceAfter(owed, h, price, period) == 0 <==> Covers(h, owed, price, period)
    ensures !Covers(h, owed, price, period) ==>
      BalanceAfter(owed, h, price, period) * period == h * price - (h * price) % period - owed * period
  {
    var worth := h * price;
    var cents := worth / period;
    assert worth == cents * period + worth % period;
    Distribute(cents, owed, period);
    AtLeastOnce(cents - owed, period);
    AtLeastOnce(owed - cents, period);
  }

  /** A refund that may take hours leaves no debt and the most hours, or a debt and no hours; the row's worth,
      period * balance + price * hours, drops by the refund and a rounding loss below one hour's price
      in the first case and below one cent's hours in the second. */
  lemma RefundIsFair(s: Store, charge: string, period: nat)
    requires period > 0
    requires FindPaid(s.payments, charge).Some?
    requires var p := s.payments[FindPaid(s.payments, charge).value];
             p.user in s.rows && MayTakeHours(s, p.user, p.amount - s.rows[p.user].balance)
    ensures var p := s.payments[FindPaid(s.payments, charge).value];
            var row := s.rows[p.user];
            var price := s.tariffs[row.tariff].price;
            var owed := p.amount - row.balance;
            var (after, taken) := Refund(s, charge, period);
            && p.user in after.rows
            && var left := after.rows[p.user];
               var loss := (period * row.balance + price * row.hours) - period * p.amount
                           - (period * left.balance + price * left.hours);
      && taken == Some(Taken(p.user, p.amount, row.hours - left.hours, left.hours, left.balance, row.tariff))
      && 0 <= left.hours < row.hours
      && left.balance <= 0
      && (left.balance == 0 <==> Covers(row.hours, owed, price, period))
      && (left.balance == 0 ==>
            && Covers(row.hours - left.hours, owed, price, period)
            && (forall k {:trigger Covers(k, owed, price, period)} ::
                  0 <= k < row.hours - left.hours ==> !Covers(k, owed, price, period))
            && 0 <= loss < price)
      && (left.balance < 0 ==> left.hours == 0 && 0 <= loss < period)
  {
    var p := s.payments[FindPaid(s.payments, charge).value];
    var row := s.rows[p.user];
    var price: nat := s.tariffs[row.tariff].price;
    var owed: nat := p.amount - row.balance;
    var h: nat := HoursFor(owed, row.hours, price, period);
    FewestHours(owed, row.hours, price, period);
    BalanceCovered(owed, h, price, period);
    var left := Refund(s, charge, period).0.rows[p.user];
    assert left.hours == row.hours - h && left.balance == BalanceAfter(owed, h, price, period);
    var loss := (period * row.balance + price * row.hours) - period * p.amount
                - (period * left.balance + price * left.hours);
    assert loss == h * price - owed * period - period * left.balance by {
      LossIs(row.balance, row.hours, p.amount, left.balance, h, price, period);
    }
    if Covers(row.hours, owed, price, period) {
      assert !Covers(h - 1, owed, price, period);
      Distribute(h, 1, price);
    }
  }

  lemma LossIs(balance: int, hours: int, amount: int, after: int, h: int, price: nat, period: nat)
    ensures (period * balance + price * hours) - period * amount - (period * after + price * (hours - h))
         == h * price - (amount - balance) * period - period * after
  {
  }
}
