/** The hourly tick over any number of hours: how long a balance runs a plan, whom a tick charges, and
    that the notices it sends say what it does. */
module BillingTick {
  import opened Prelude
  import opened Billing
  import opened Arithmetic

  ghost predicate Priced(tariffs: map<nat, Tariff>) {
    0 !in tariffs && forall id :: id in tariffs ==> tariffs[id].price > 0
  }

  // ---------- one row ----------

  /** A tick on the row of a live user without a grant, on plan t. */
  function TickRow(row: Row, t: Tariff, period: nat): Row {
    var r := if row.balance >= t.price && row.hours <= 1
             then Row(row.tariff, row.balance - t.price, row.hours + period, t.deliveries) else row;
    if Running(r) then r.(hours := r.hours - 1) else r
  }

  function TickRowN(row: Row, t: Tariff, period: nat, n: nat): Row
    decreases n
  {
    if n == 0 then row else TickRowN(TickRow(row, t, period), t, period, n - 1)
  }

  /** The whole periods a balance still buys. */
  function Periods(balance: int, price: int): nat
    requires price > 0
  {
    if balance < 0 then 0 else balance / price
  }

  /** The hours left on the row and those its balance will buy. */
  function Ahead(row: Row, price: int, period: nat): int
    requires price > 0
  {
    row.hours + Periods(row.balance, price) * period
  }

  /** What the balance is once every affordable period is bought. */
  function Rest(balance: int, price: int): int
    requires price > 0
  {
    if balance < 0 then balance else balance % price
  }

  /** A renewal only turns a period's price into its hours. */
  lemma RenewalKeepsAhead(row: Row, t: Tariff, period: nat)
    requires t.price > 0 && row.balance >= t.price
    ensures var paid := row.(balance := row.balance - t.price, hours := row.hours + period);
      && Ahead(paid, t.price, period) == Ahead(row, t.price, period)
      && Rest(paid.balance, t.price) == Rest(row.balance, t.price)
      && Ahead(row, t.price, period) >= row.hours + period
  {
    var q := Periods(row.balance, t.price);
    OneLess(row.balance, t.price);
    AtLeastOnePeriod(row.balance, t.price);
    assert q * period == (q - 1) * period + period;
    assert (q - 1) * period >= 0;
  }

  /** A balance below the price buys nothing. */
  lemma TooLittleAhead(row: Row, t: Tariff, period: nat)
    requires t.price > 0 && row.balance < t.price
    ensures Ahead(row, t.price, period) == row.hours
  {
    if row.balance >= 0 {
      QuotientIs(row.balance, t.price, 0, row.balance);
    }
  }

  lemma TickTakesOneHour(row: Row, t: Tariff, period: nat)
    requires row.tariff > 0 && row.hours >= 0 && t.price > 0 && period >= 2
    ensures var after := TickRow(row, t, period);
      && after.tariff == row.tariff
      && after.hours >= 0
      && Ahead(after, t.price, period) == Max(0, Ahead(row, t.price, period) - 1)
      && Rest(after.balance, t.price) == Rest(row.balance, t.price)
      && (after.hours > 0 <==> Ahead(row, t.price, period) >= 2)
  {
    if row.balance >= t.price {
      RenewalKeepsAhead(row, t, period);
    } else {
      TooLittleAhead(row, t, period);
    }
  }

  /** n ticks take n of the hours ahead: the row keeps running until the last of them, and ends with no
      hours and the part of the balance that buys no period. */
  lemma {:induction false} RowClosedForm(row: Row, t: Tariff, period: nat, n: nat)
    requires row.tariff > 0 && row.hours >= 0 && t.price > 0 && period >= 2
    ensures var after := TickRowN(row, t, period, n);
            var total := Ahead(row, t.price, period);
      && after.tariff == row.tariff
      && after.hours >= 0
      && Ahead(after, t.price, period) == Max(0, total - n)
      && Rest(after.balance, t.price) == Rest(row.balance, t.price)
      && (n > 0 ==> (after.hours > 0 <==> n < total))
      && (n >= total ==> after.hours == 0 && after.balance == Rest(row.balance, t.price))
    decreases n
  {
    if n == 0 {
      if Ahead(row, t.price, period) <= 0 {
        NothingAhead(row, t.price, period);
      }
    } else {
      var next := TickRow(row, t, period);
      TickTakesOneHour(row, t, period);
      RowClosedForm(next, t, period, n - 1);
      assert Ahead(row, t.price, period) >= 0 by {
        assert Periods(row.balance, t.price) * period >= 0;
      }
    }
  }

  lemma NothingAhead(row: Row, price: int, period: nat)
    requires row.hours >= 0 && price > 0 && period >= 1 && Ahead(row, price, period) <= 0
    ensures row.hours == 0 && row.balance == Rest(row.balance, price)
  {
  }

  // ---------- the whole table ----------

  function Ticks(s: Store, period: nat, n: nat): Store
    decreases n
  {
    if n == 0 then s else Ticks(Tick(s, period), period, n - 1)
  }

  /** The user's plan runs on money: live, without a grant, on a tariff of the list. */
  ghost predicate OnMoney(s: Store, user: nat) {
    && user in s.rows
    && !Deleted(s, user)
    && Active(s.grants, user).None?
    && s.rows[user].tariff > 0
    && s.rows[user].tariff in s.tariffs
  }

  lemma TickOnMoney(s: Store, user: nat, period: nat)
    requires OnMoney(s, user)
    ensures OnMoney(Tick(s, period), user)
    ensures Tick(s, period).rows[user] == TickRow(s.rows[user], s.tariffs[s.rows[user].tariff], period)
    ensures Tick(s, period).tariffs == s.tariffs
  {
  }

  lemma {:induction false} TicksOnMoney(s: Store, user: nat, period: nat, n: nat)
    requires OnMoney(s, user)
    ensures user in Ticks(s, period, n).rows
    ensures Ticks(s, period, n).rows[user]
         == TickRowN(s.rows[user], s.tariffs[s.rows[user].tariff], period, n)
    decreases n
  {
    if n > 0 {
      TickOnMoney(s, user, period);
      TicksOnMoney(Tick(s, period), user, period, n - 1);
    }
  }

  /** A live user without a grant, with t hours and balance b on a plan of price p and period P, has hours
      left after each of the first t + (b div p) * P - 1 ticks and none from then on, when the balance is
      b mod p (or still the debt it was). */
  lemma PlanRunsExactly(s: Store, user: nat, period: nat, n: nat)
    requires OnMoney(s, user) && Priced(s.tariffs) && s.rows[user].hours >= 0 && period >= 2
    ensures user in Ticks(s, period, n).rows
    ensures var row := s.rows[user]; var p := s.tariffs[row.tariff].price;
            var total := row.hours + (if row.balance < 0 then 0 else row.balance / p) * period;
            var after := Ticks(s, period, n).rows[user];
      && after.hours >= 0
      && (n > 0 ==> (after.hours > 0 <==> n < total))
      && (n >= total ==> after.hours == 0
                         && after.balance == if row.balance < 0 then row.balance else row.balance % p)
  {
    TicksOnMoney(s, user, period, n);
    RowClosedForm(s.rows[user], s.tariffs[s.rows[user].tariff], period, n);
  }

  /** A user marked deleted keeps the row as it is, for any number of ticks. */
  lemma {:induction false} DeletedRowIsFrozen(s: Store, user: nat, period: nat, n: nat)
    requires user in s.rows && Deleted(s, user)
    ensures user in Ticks(s, period, n).rows && Ticks(s, period, n).rows[user] == s.rows[user]
    decreases n
  {
    if n > 0 {
      assert Tick(s, period).rows[user] == s.rows[user];
      DeletedRowIsFrozen(Tick(s, period), user, period, n - 1);
    }
  }

  /** A holder of a grant is never charged: each tick takes at most an hour. */
  lemma HolderIsNeverCharged(s: Store, user: nat, period: nat)
    requires user in s.rows && Active(s.grants, user).Some?
    ensures user in Tick(s, period).rows
    ensures Tick(s, period).rows[user]
         == if Burns(s, user) then s.rows[user].(hours := s.rows[user].hours - 1) else s.rows[user]
  {
  }

  // ---------- notices ----------

  ghost function Charged(s: Store, period: nat): set<nat> {
    set user | user in s.rows && Prolong(s, period).rows[user].balance < s.rows[user].balance
  }

  /** Live users without a grant whose plan a tick turns off. */
  ghost function RunsOut(s: Store, period: nat): set<nat> {
    set user | user in s.rows && OnMoney(s, user) && s.rows[user].hours == 1
      && Tick(s, period).rows[user].hours == 0
  }

  /** A tick takes money from exactly the rows that meet its condition. */
  lemma ChargedAreTheRenewed(s: Store, period: nat)
    requires Priced(s.tariffs)
    ensures Charged(s, period) == set user | user in s.rows && Renews(s, user)
  {
  }

  /** The rows a tick charges are exactly those it announces as renewed, if and only if every row that renews
      has a user; and with or without orphans, no row is announced that it does not charge. */
  lemma RenewalNoticesMatch(s: Store, period: nat)
    requires Priced(s.tariffs)
    ensures CanBeProlonged(s) <= Charged(s, period)
    ensures CanBeProlonged(s) == Charged(s, period) <==> forall user :: Renews(s, user) ==> user in s.users
  {
    ChargedAreTheRenewed(s, period);
    assert forall user :: Renews(s, user) ==> user in Charged(s, period);
  }

  /** The rows announced as ending are exactly the owned ones whose plan this tick turns off. */
  lemma EndNoticesMatch(s: Store, period: nat)
    requires Priced(s.tariffs) && period >= 1
    ensures CannotBeProlonged(s) == set user | user in RunsOut(s, period) && user in s.users
  {
  }

  /** A row nobody owns: the tick charges it and tells no one. */
  lemma OrphanIsChargedSilently()
    ensures exists s: Store :: Priced(s.tariffs) && CanBeProlonged(s) == {} && Charged(s, 720) == {7}
  {
    var s := Store(map[1 := Tariff(1, 100, 40)], map[], map[7 := Row(1, 100, 1, 0)], [], [], []);
    assert Prolong(s, 720).rows[7].balance == 0;
    assert Priced(s.tariffs) && CanBeProlonged(s) == {} && Charged(s, 720) == {7};
  }
}
