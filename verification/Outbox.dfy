/** The payment effects table (db/payment_effects.py): a transactional outbox with leases and retries. */
module Outbox {
  import opened Prelude

  const LEASE_SECONDS := 300
  const RETRY_SECONDS := 600
  const MAX_ATTEMPTS := 5
  const EFFECTS := ["paid_models"]

  /** What set a row off: a payment_history row, or a chat that paid before the effect existed. */
  datatype Key = Ph(rowid: nat) | Backfill(chat: nat)
  datatype Status = Pending | Leased | Done | Failed
  datatype Effect = Effect(payment: Key, user: nat, effect: string, status: Status, attempts: nat, dueAt: int)

  predicate IsRow(row: Effect, payment: Key, effect: string) {
    row.payment == payment && row.effect == effect
  }

  function Find(rows: seq<Effect>, payment: Key, effect: string): Option<nat> {
    First(rows, row => IsRow(row, payment, effect))
  }

  /** INSERT OR IGNORE of one pending row. */
  function Insert(rows: seq<Effect>, user: nat, payment: Key, effect: string, now: int): (r: seq<Effect>)
    ensures Find(rows, payment, effect).Some? ==> r == rows
    ensures Find(rows, payment, effect).None? ==> r == rows + [Effect(payment, user, effect, Pending, 0, now)]
  {
    if Find(rows, payment, effect).Some? then rows
    else rows + [Effect(payment, user, effect, Pending, 0, now)]
  }

  /** One row per effect of the list, for one payment. */
  function Queue(rows: seq<Effect>, user: nat, payment: Key, effects: seq<string>, now: int): seq<Effect>
    decreases effects
  {
    if effects == [] then rows
    else Queue(Insert(rows, user, payment, effects[0], now), user, payment, effects[1..], now)
  }

  method QueueEffects(rows: seq<Effect>, user: nat, payment: Key, now: int) returns (r: seq<Effect>)
    ensures r == Queue(rows, user, payment, EFFECTS, now)
  {
    r := rows;
    var i := 0;
    while i < |EFFECTS|
      invariant 0 <= i <= |EFFECTS|
      invariant Queue(r, user, payment, EFFECTS[i..], now) == Queue(rows, user, payment, EFFECTS, now)
    {
      if Find(r, payment, EFFECTS[i]).None? {
        r := r + [Effect(payment, user, EFFECTS[i], Pending, 0, now)];
      }
      assert EFFECTS[i..][1..] == EFFECTS[i + 1..];
      i := i + 1;
    }
  }
}
