/** Grants and money: a plan held without money is never renewed from the balance, gives way to a plan that
    is paid for, and never touches paid hours again. */
module BillingGrants {
  import opened Prelude
  import opened Billing
  import opened BillingRuns
  import opened BillingTick

  ghost predicate AtMostOneOpen(s: Store) {
    forall i, j, user ::
      (0 <= i < |s.grants| && 0 <= j < |s.grants| && Open(s.grants[i], user) && Open(s.grants[j], user)
       ==> i == j)
  }

  lemma CloseLeavesNone(grants: seq<Grant>, s: Store, user: nat, now: int, reason: string)
    requires AtMostOneOpen(s) && grants == CloseGrant(s.grants, user, now, reason)
    ensures Active(grants, user).None?
    ensures |grants| == |s.grants|
    ensures forall i, other :: 0 <= i < |grants| && Open(grants[i], other) ==> Open(s.grants[i], other)
  {
  }

  lemma HoldKeepsOne(s: Store, user: nat, now: int, period: nat)
    requires AtMostOneOpen(s)
    ensures AtMostOneOpen(Hold(s, user, now, period).0)
    ensures !Hold(s, user, now, period).1 ==> Active(Hold(s, user, now, period).0.grants, user).None?
  {
  }

  lemma StartKeepsOne(s: Store, user: nat, kind: string, level: nat, now: int, period: nat)
    requires AtMostOneOpen(s)
    ensures AtMostOneOpen(Start(s, user, kind, level, now, period).0)
  {
    HoldKeepsOne(s, user, now, period);
    var held := Hold(s, user, now, period).0;
    var t := Start(s, user, kind, level, now, period).0;
    forall i, j, other | 0 <= i < |t.grants| && 0 <= j < |t.grants|
      && Open(t.grants[i], other) && Open(t.grants[j], other)
      ensures i == j
    {
      if t.grants != s.grants && t.grants != held.grants {
        assert t.grants[..|held.grants|] == held.grants;
        if i < |held.grants| { assert Open(held.grants[i], other); }
        if j < |held.grants| { assert Open(held.grants[j], other); }
      }
    }
  }

  lemma CloseKeepsOne(s: Store, t: Store, user: nat, now: int, reason: string)
    requires AtMostOneOpen(s) && (t.grants == CloseGrant(s.grants, user, now, reason) || t.grants == s.grants)
    ensures AtMostOneOpen(t)
  {
  }

  lemma StepKeepsOne(s: Store, step: Step, period: nat)
    requires period > 0 && AtMostOneOpen(s)
    ensures AtMostOneOpen(Next(s, step, period))
  {
    var t := Next(s, step, period);
    match step
    case Paying(p, _, now) => CloseKeepsOne(s, t, p.user, now, "purchase");
    case Subscribing(user, _, now) => CloseKeepsOne(s, t, user, now, "replaced");
    case Starting(user, kind, level, now) => StartKeepsOne(s, user, kind, level, now, period);
    case Holding(user, now) => HoldKeepsOne(s, user, now, period);
    case Stopping(user, reason, _, now) => CloseKeepsOne(s, t, user, now, reason);
    case Warning(user, now) =>
      forall i, j, other | 0 <= i < |t.grants| && 0 <= j < |t.grants|
        && Open(t.grants[i], other) && Open(t.grants[j], other)
        ensures i == j
      {
        assert Open(s.grants[i], other) && Open(s.grants[j], other);
      }
    case _ => CloseKeepsOne(s, t, 0, 0, "");
  }

  /** In every run a user holds at most one grant. */
  lemma {:induction false} OneGrantPerUser(s: Store, steps: seq<Step>, period: nat)
    requires period > 0 && AtMostOneOpen(s)
    ensures AtMostOneOpen(Run(s, steps, period))
    decreases |steps|
  {
    if steps != [] {
      StepKeepsOne(s, steps[0], period);
      OneGrantPerUser(Next(s, steps[0], period), steps[1..], period);
    }
  }

  // ---------- a payment meets a grant ----------

  /** The user's grant is on the row, with hours left. */
  ghost predicate GrantRuns(s: Store, user: nat) {
    && Active(s.grants, user).Some?
    && user in s.rows
    && Running(s.rows[user])
    && s.rows[user].tariff == s.grants[Active(s.grants, user).value].tariff
  }

  /** A new payment of a holder closes the grant exactly when it turns the invoice's plan on in the same
      transaction (or the invoice sold the plan for nothing); else the grant, its plan and its hours stay,
      and only the balance grows. */
  lemma PaymentClosesGrantIffPlanTurnsOn(s: Store, p: Invoice, period: nat, now: int)
    requires AtMostOneOpen(s) && GrantRuns(s, p.user)
    requires FindPayment(s.payments, p.user, p.service, p.invoice).None?
    ensures var (t, r) := Pay(s, p, period, now);
            var closed := Active(t.grants, p.user).None?;
      && p.user in t.rows
      && r.Applied?
      && (closed <==> r.mode == TurnedOn || (Replaces(s, p) && p.planPrice == Some(0)))
      && (r.mode == TurnedOn ==>
            && p.plan in s.tariffs
            && t.rows[p.user] == Row(p.plan, s.rows[p.user].balance + p.amount - Asked(s.tariffs[p.plan], p),
                                     period, s.tariffs[p.plan].deliveries)
            && t.rows[p.user].balance >= 0)
      && (!closed ==>
            && t.grants == s.grants
            && t.rows[p.user] == s.rows[p.user].(balance := s.rows[p.user].balance + p.amount))
  {
  }

  /** An invoice that sold a plan for nothing, to a holder without a debt, ends the grant and leaves no plan
      running: the hours it gave are gone and none are bought. */
  lemma FreeInvoiceEndsGrant(s: Store, p: Invoice, term: nat, now: int)
    requires AtMostOneOpen(s) && GrantRuns(s, p.user) && Offers(s, p) && p.planPrice == Some(0)
    requires s.rows[p.user].balance + p.amount >= 0
    requires FindPayment(s.payments, p.user, p.service, p.invoice).None?
    ensures var t := Pay(s, p, term, now).0;
      && Active(t.grants, p.user).None?
      && p.user in t.rows && t.rows[p.user] == Row(p.plan, s.rows[p.user].balance + p.amount, 0, 0)
  {
    CloseLeavesNone(CloseGrant(s.grants, p.user, now, "purchase"), s, p.user, now, "purchase");
  }

  /** A payment turns a plan on beside an open grant exactly when the row has no hours left and the row's own
      plan, not the invoice's, is what the money turns on. */
  lemma PlanTurnsOnBesideGrant(s: Store, p: Invoice, period: nat, now: int)
    requires AtMostOneOpen(s) && p.user in s.rows && Active(s.grants, p.user).Some?
    requires FindPayment(s.payments, p.user, p.service, p.invoice).None?
    ensures var (t, r) := Pay(s, p, period, now);
            var row := s.rows[p.user];
      (r == Applied(TurnedOn) && Active(t.grants, p.user).Some?)
      <==> (!Offers(s, p) && row.hours <= 0 && row.tariff in s.tariffs && s.tariffs[row.tariff].price > 0
            && row.balance + p.amount >= s.tariffs[row.tariff].price)
  {
  }

  /** Such a plan is not safe: whichever check ends the grant takes the whole paid period with it, and the price
      is gone, exactly when the plan that was turned on is the grant's own. */
  lemma EndTakesPaidPeriod(s: Store, p: Invoice, term: nat, now: int, reason: string, later: int, restore: bool)
    requires AtMostOneOpen(s) && p.user in s.rows && Active(s.grants, p.user).Some?
    requires FindPayment(s.payments, p.user, p.service, p.invoice).None?
    requires var row := s.rows[p.user];
      && !Offers(s, p) && row.hours <= 0 && row.tariff in s.tariffs && s.tariffs[row.tariff].price > 0
      && row.balance + p.amount >= s.tariffs[row.tariff].price
    ensures var row, g := s.rows[p.user], s.grants[Active(s.grants, p.user).value];
            var money := row.balance + p.amount - s.tariffs[row.tariff].price;
            var paid := Pay(s, p, term, now).0;
            var ended := EndGrant(paid, p.user, reason, later, restore).0;
      && p.user in paid.rows && p.user in ended.rows
      && paid.rows[p.user] == Row(row.tariff, money, term, s.tariffs[row.tariff].deliveries)
      && ended.rows[p.user] == if row.tariff == g.tariff then Row(if restore then g.prev else g.tariff, money, 0, 0)
                               else paid.rows[p.user]
  {
    PlanTurnsOnBesideGrant(s, p, term, now);
    assert Pay(s, p, term, now).0.grants == s.grants;
  }

  const PLAN := map[1 := Tariff(1, 50, 30)]
  const HOLDER := Grant(5, "channels", 1, 0, 0, 0, 0, None, None)
  const TOPUP := Billing.Invoice(5, "telegramStars", "c", 50, Paid, 0, None)

  const TOPPED := Billing.Payment(5, "telegramStars", "c", Paid, 50)

  /** User 5, live and never seen before. */
  function Fresh(): Store {
    Store(PLAN, map[5 := false], map[], [], [], [])
  }

  /** The grant of user 5 with the given hours left on the row. */
  function HeldWith(hours: int): Store {
    Store(PLAN, map[5 := false], map[5 := Row(1, 0, hours, 30)], [], [HOLDER], [])
  }

  function Ticks'(n: nat): (r: seq<Step>)
    ensures |r| == n && forall i :: 0 <= i < n ==> r[i] == Ticking
  {
    seq(n, i => Ticking)
  }

  lemma {:induction false} HoursRunOut(n: nat)
    ensures Run(HeldWith(n), Ticks'(n), 720) == HeldWith(0)
  {
    if n > 0 {
      var s := HeldWith(n);
      assert Open(s.grants[0], 5) && Active(s.grants, 5).Some?;
      assert Tick(s, 720).rows == map[5 := Row(1, 0, n - 1, 30)];
      assert Ticks'(n)[1..] == Ticks'(n - 1);
      HoursRunOut(n - 1);
    }
  }

  lemma StartsHeld()
    ensures Next(Fresh(), Starting(5, "channels", 1, 0), 720) == HeldWith(168)
  {
    var s := Fresh();
    assert OfLevel(s, 1) == {1};
    assert Least({1}) == 1;
    assert Start(s, 5, "channels", 1, 0, 720).0 == HeldWith(168);
  }

  lemma {:induction false} RunsJoin(s: Store, steps: seq<Step>, more: seq<Step>, period: nat)
    requires period > 0
    ensures Run(s, steps + more, period) == Run(Run(s, steps, period), more, period)
    decreases |steps|
  {
    if steps == [] {
      assert steps + more == more;
    } else {
      assert (steps + more)[1..] == steps[1..] + more;
      RunsJoin(Next(s, steps[0], period), steps[1..], more, period);
    }
  }

  /** The steps that reach the corner: a grant is started and not checked for a week of ticks, and its holder
      tops up the balance. */
  function ToTheCorner(): seq<Step> {
    [Starting(5, "channels", 1, 0)] + Ticks'(168)
  }

  lemma ReachesTheCorner()
    ensures Run(Fresh(), ToTheCorner(), 720) == HeldWith(0)
  {
    StartsHeld();
    HoursRunOut(168);
    assert ToTheCorner()[1..] == Ticks'(168);
  }

  lemma PaysInTheCorner()
    ensures var paid := Next(HeldWith(0), Paying(TOPUP, 720, 604800), 720);
      paid.rows == map[5 := Row(1, 0, 720, 30)] && paid.payments == [TOPPED] && paid.grants == [HOLDER]
  {
    var s := HeldWith(0);
    assert Open(s.grants[0], 5) && Active(s.grants, 5) == Some(0);
    EndTakesPaidPeriod(s, TOPUP, 720, 604800, "left", 604900, true);
    var paid := Pay(s, TOPUP, 720, 604800).0;
    assert paid.rows == s.rows[5 := paid.rows[5]];
  }

  lemma LosesIt(paid: Store)
    requires paid.rows == map[5 := Row(1, 0, 720, 30)] && paid.grants == [HOLDER]
    ensures RowOf(Next(paid, Stopping(5, "left", true, 604900), 720), 5) == Row(0, 0, 0, 0)
    ensures Next(paid, Stopping(5, "left", true, 604900), 720).payments == paid.payments
  {
    assert Open(paid.grants[0], 5) && Active(paid.grants, 5) == Some(0);
  }

  lemma RunOfTwo(s: Store, a: Step, b: Step, period: nat)
    requires period > 0
    ensures Run(s, [a, b], period) == Next(Next(s, a, period), b, period)
  {
    assert [a, b][1..] == [b] && [b][1..] == [];
    assert Run(Next(Next(s, a, period), b, period), [], period) == Next(Next(s, a, period), b, period);
    assert Run(Next(s, a, period), [b], period) == Next(Next(s, a, period), b, period);
  }

  /** The corner is reached: a user who never paid is given a grant, is not checked for a week, tops up, and
      loses the whole period and the price when the grant is ended. */
  lemma CornerIsReached()
    ensures NewUser(Fresh(), 5) && Priced(Fresh().tariffs)
    ensures var paysAndStops := [Paying(TOPUP, 720, 604800), Stopping(5, "left", true, 604900)];
            var end := Run(Fresh(), ToTheCorner() + paysAndStops, 720);
      end.payments == [TOPPED] && RowOf(end, 5) == Row(0, 0, 0, 0)
  {
    var pays, stops := Paying(TOPUP, 720, 604800), Stopping(5, "left", true, 604900);
    var paid := Next(HeldWith(0), pays, 720);
    NeverPaid();
    ThroughTheCorner(pays, stops);
    PaysInTheCorner();
    assert paid.payments == [TOPPED];
    LosesIt(paid);
    assert Next(paid, stops, 720).payments == [TOPPED];
  }

  lemma ThroughTheCorner(a: Step, b: Step)
    ensures Run(Fresh(), ToTheCorner() + [a, b], 720) == Next(Next(HeldWith(0), a, 720), b, 720)
  {
    ReachesTheCorner();
    RunsJoin(Fresh(), ToTheCorner(), [a, b], 720);
    RunOfTwo(HeldWith(0), a, b, 720);
  }

  lemma NeverPaid()
    ensures NewUser(Fresh(), 5) && Priced(Fresh().tariffs)
  {
  }

  /** A write of the row ends the grant exactly when it changes the plan or the hours. */
  lemma SubscribeEndsGrantIff(s: Store, user: nat, row: Row, now: int)
    requires AtMostOneOpen(s) && user in s.rows && Active(s.grants, user).Some?
    ensures Active(Subscribe(s, user, row, now).grants, user).None?
        <==> (s.rows[user].tariff != row.tariff || s.rows[user].hours != row.hours)
    ensures AtMostOneOpen(Subscribe(s, user, row, now))
  {
  }

  // ---------- paid hours are out of a grant's reach ----------

  function TicksIn(steps: seq<Step>): nat {
    if steps == [] then 0 else (if steps[0].Ticking? then 1 else 0) + TicksIn(steps[1..])
  }

  lemma GrantStepSparesPaidPlan(s: Store, step: Step, user: nat, period: nat)
    requires period > 0 && IsGrantStep(step) && OnMoney(s, user) && Running(s.rows[user])
    ensures OnMoney(Next(s, step, period), user)
    ensures Next(s, step, period).rows[user] == s.rows[user]
    ensures Next(s, step, period).tariffs == s.tariffs
  {
    if GrantsNothingTo(step, user) {
      GrantStepsKeepHours(s, step, user, period);
    }
    TariffsStay(s, step, period);
  }

  /** While a paid plan runs, no sequence of starts, holds, marks and ends changes its row, whoever they are
      for: over any interleaving with the clock the row is what the ticks alone make of it, as long as the
      hours and the balance behind it last. */
  lemma {:induction false} GrantsNeverTouchPaidHours(s: Store, steps: seq<Step>, user: nat, period: nat)
    requires period >= 2 && Priced(s.tariffs) && OnMoney(s, user) && Running(s.rows[user])
    requires forall i :: 0 <= i < |steps| ==> IsGrantStep(steps[i]) || steps[i].Ticking?
    requires TicksIn(steps) < Ahead(s.rows[user], s.tariffs[s.rows[user].tariff].price, period)
    ensures var end := Run(s, steps, period);
      && OnMoney(end, user)
      && Running(end.rows[user])
      && end.rows[user] == TickRowN(s.rows[user], s.tariffs[s.rows[user].tariff], period, TicksIn(steps))
    decreases |steps|
  {
    if steps != [] {
      if steps[0].Ticking? {
        TickOnMoney(s, user, period);
        TickTakesOneHour(s.rows[user], s.tariffs[s.rows[user].tariff], period);
      } else {
        GrantStepSparesPaidPlan(s, steps[0], user, period);
      }
      GrantsNeverTouchPaidHours(Next(s, steps[0], period), steps[1..], user, period);
    }
  }

  // ---------- a grant leaves no trace ----------

  /** The user holds the grant of tariff id that replaced prev, and money is what it was. */
  ghost predicate HoldsGrant(s: Store, user: nat, id: nat, prev: nat, balance: int) {
    && AtMostOneOpen(s)
    && Active(s.grants, user).Some?
    && s.grants[Active(s.grants, user).value].tariff == id
    && s.grants[Active(s.grants, user).value].prev == prev
    && user in s.rows && s.rows[user].tariff == id && s.rows[user].balance == balance
  }

  /** What may happen while a grant is held: checks and ticks, and what is only about others. */
  predicate WhileHeld(step: Step, user: nat) {
    || step.Holding? || step.Warning? || step.Ticking? || step.Prolonging? || step.Burning?
    || step.Marking? || step.ClaimingEffect? || step.FinishingEffect?
    || ((step.Stopping? || step.Subscribing? || step.Crediting?) && step.user != user)
    || (step.Paying? && step.p.user != user)
  }

  lemma StillActive(s: Store, t: Store, user: nat)
    requires AtMostOneOpen(s) && AtMostOneOpen(t) && Active(s.grants, user).Some? && |s.grants| <= |t.grants|
    requires Open(t.grants[Active(s.grants, user).value], user)
    ensures Active(t.grants, user) == Active(s.grants, user)
  {
    var i, j := Active(s.grants, user).value, Active(t.grants, user);
    assert j.Some?;
    assert Open(t.grants[i], user) && Open(t.grants[j.value], user);
  }

  lemma StepKeepsGrant(s: Store, step: Step, user: nat, id: nat, prev: nat, balance: int, period: nat)
    requires period > 0 && HoldsGrant(s, user, id, prev, balance) && WhileHeld(step, user)
    ensures HoldsGrant(Next(s, step, period), user, id, prev, balance)
  {
    StepKeepsOne(s, step, period);
    var t, i := Next(s, step, period), Active(s.grants, user).value;
    assert Open(s.grants[i], user);
    if step.Holding? || step.Warning? || step.Stopping? || step.Subscribing? {
      var other := Active(s.grants, step.user);
      assert other.Some? && other.value == i ==> step.user == user;
    }
    assert Open(t.grants[i], user) && t.grants[i].tariff == id && t.grants[i].prev == prev;
    StillActive(s, t, user);
  }

  lemma {:induction false} RunKeepsGrant(s: Store, steps: seq<Step>, user: nat, id: nat, prev: nat, balance: int,
                                         period: nat)
    requires period > 0 && HoldsGrant(s, user, id, prev, balance)
    requires forall i :: 0 <= i < |steps| ==> WhileHeld(steps[i], user)
    ensures HoldsGrant(Run(s, steps, period), user, id, prev, balance)
    decreases |steps|
  {
    if steps != [] {
      StepKeepsGrant(s, steps[0], user, id, prev, balance, period);
      RunKeepsGrant(Next(s, steps[0], period), steps[1..], user, id, prev, balance, period);
    }
  }

  lemma StartHolds(s: Store, user: nat, kind: string, level: nat, now: int, period: nat)
    requires AtMostOneOpen(s) && Start(s, user, kind, level, now, period).1 == Started
    ensures OfLevel(s, level) != {}
    ensures HoldsGrant(Start(s, user, kind, level, now, period).0, user, Least(OfLevel(s, level)),
                       RowOf(s, user).tariff, RowOf(s, user).balance)
  {
    StartKeepsOne(s, user, kind, level, now, period);
    HoldKeepsOne(s, user, now, period);
    var held, t := Hold(s, user, now, period).0, Start(s, user, kind, level, now, period).0;
    var i := |held.grants|;
    assert Open(t.grants[i], user);
    var j := Active(t.grants, user);
    assert j.Some? && Open(t.grants[j.value], user);
  }

  /** A grant that is given, checked any number of times and taken back with `restore` leaves the user as a
      chat without a plan was: the tariff and the balance from before, and no hours. */
  lemma GrantLeavesNoTrace(s: Store, user: nat, kind: string, level: nat, now: int, steps: seq<Step>,
                           reason: string, later: int, period: nat)
    requires period > 0 && AtMostOneOpen(s) && Start(s, user, kind, level, now, period).1 == Started
    requires forall i :: 0 <= i < |steps| ==> WhileHeld(steps[i], user)
    ensures var held := Run(Start(s, user, kind, level, now, period).0, steps, period);
            var (after, ended) := EndGrant(held, user, reason, later, true);
      && ended && Active(after.grants, user).None?
      && user in after.rows && after.rows[user] == Row(RowOf(s, user).tariff, RowOf(s, user).balance, 0, 0)
  {
    StartHolds(s, user, kind, level, now, period);
    var t := Start(s, user, kind, level, now, period).0;
    RunKeepsGrant(t, steps, user, Least(OfLevel(s, level)), RowOf(s, user).tariff, RowOf(s, user).balance, period);
    var held := Run(t, steps, period);
    CloseLeavesNone(CloseGrant(held.grants, user, later, reason), held, user, later, reason);
  }
}
