/** Feed repair (db/feed_recovery.py): a job per feed with a lease and a fencing token, a cooldown between
    checks, and pause notices that go to one listener at a time. */
module FeedRecovery {
  import opened Prelude

  const RECHECK_SECONDS := 86400
  const MANUAL_GAP_SECONDS := 300
  const LEASE_SECONDS := 300
  const NOTICE_REPEAT_SECONDS := 604800
  const NOTICE_HOLD_SECONDS := 60

  datatype Status = Pending | Leased | Healthy | Gone

  datatype Feed = Feed(status: Status, paused: bool, reason: string, availableAt: int,
                       leasedUntil: Option<int>, leaseToken: Option<nat>,
                       checkedAt: Option<int>, recoveredAt: Option<int>, result: string,
                       noticeCursor: nat, noticeDone: bool, noticeAfter: int, noticeToken: Option<nat>)

  datatype Channel = Channel(url: string, itunes: string, validators: Option<string>)

  /** A subscription with what its listener's plan says now. */
  datatype Sub = Sub(id: nat, listener: int, notify: bool, deleted: bool, deliveries: int, hours: int, tariff: nat)

  /** tokens: the uuids handed out so far, as a counter. A channel's subscriptions are in id order. */
  datatype Db = Db(feeds: map<nat, Feed>, channels: map<nat, Channel>, subs: map<nat, seq<Sub>>, tokens: nat)

  datatype Job = Job(channel: nat, token: nat)
  datatype Notice = Notice(channel: nat, sub: nat, listener: int, token: nat)

  function NewFeed(paused: bool, reason: string, now: int, noticeDone: bool): Feed {
    Feed(Pending, paused, reason, now, None, None, None, None, "", 0, noticeDone, 0, None)
  }

  // ---------- choosing a row ----------

  /** ORDER BY key, id LIMIT 1. */
  ghost predicate IsFirst(m: nat, ids: set<nat>, key: nat -> int) {
    m in ids && forall n :: n in ids ==> key(m) < key(n) || (key(m) == key(n) && m <= n)
  }

  lemma FirstExists(ids: set<nat>, key: nat -> int) returns (m: nat)
    requires ids != {}
    ensures IsFirst(m, ids, key)
  {
    var x :| x in ids;
    assert forall n :: n in ids ==> n == x || n in ids - {x};
    if ids - {x} == {} {
      m := x;
    } else {
      m := FirstExists(ids - {x}, key);
      if key(x) < key(m) || (key(x) == key(m) && x <= m) {
        m := x;
      }
    }
  }

  function Pick(ids: set<nat>, key: nat -> int): (r: Option<nat>)
    ensures r.None? <==> ids == {}
    ensures r.Some? ==> IsFirst(r.value, ids, key)
  {
    if ids == {} then None
    else
      assert exists m :: IsFirst(m, ids, key) by { var m := FirstExists(ids, key); }
      var m :| m in ids && forall n :: n in ids ==> key(m) < key(n) || (key(m) == key(n) && m <= n);
      Some(m)
  }

  predicate Claimable(f: Feed, now: int) {
    || (f.status == Pending && f.availableAt <= now)
    || (f.status == Leased && f.leasedUntil.Some? && f.leasedUntil.value <= now)
  }

  function ToClaim(feeds: map<nat, Feed>, now: int): (r: Option<nat>)
    ensures r.Some? ==> r.value in feeds && Claimable(feeds[r.value], now)
    ensures r.Some? ==> forall c :: c in feeds && Claimable(feeds[c], now) ==>
              feeds[r.value].availableAt < feeds[c].availableAt
              || (feeds[r.value].availableAt == feeds[c].availableAt && r.value <= c)
    ensures r.None? ==> forall c :: c in feeds ==> !Claimable(feeds[c], now)
  {
    var due := set c | c in feeds && Claimable(feeds[c], now);
    var key := c => if c in feeds then feeds[c].availableAt else 0;
    var r := Pick(due, key);
    assert forall c :: c in feeds ==> (Claimable(feeds[c], now) <==> c in due);
    assert r.Some? ==> forall c :: c in due ==>
      key(r.value) < key(c) || (key(r.value) == key(c) && r.value <= c);
    r
  }

  predicate Announces(f: Feed, now: int) {
    f.paused && !f.noticeDone && f.noticeAfter <= now
  }

  function ToAnnounce(feeds: map<nat, Feed>, now: int): (r: Option<nat>)
    ensures r.Some? ==> r.value in feeds && Announces(feeds[r.value], now)
    ensures r.Some? ==> forall c :: c in feeds && Announces(feeds[c], now) ==>
              feeds[r.value].noticeAfter < feeds[c].noticeAfter
              || (feeds[r.value].noticeAfter == feeds[c].noticeAfter && r.value <= c)
    ensures r.None? ==> forall c :: c in feeds ==> !Announces(feeds[c], now)
  {
    var due := set c | c in feeds && Announces(feeds[c], now);
    var key := c => if c in feeds then feeds[c].noticeAfter else 0;
    var r := Pick(due, key);
    assert forall c :: c in feeds ==> (Announces(feeds[c], now) <==> c in due);
    assert r.Some? ==> forall c :: c in due ==>
      key(r.value) < key(c) || (key(r.value) == key(c) && r.value <= c);
    r
  }

  /** Who hears of a pause: listeners of a running plan with deliveries, in private chats. */
  predicate Eligible(s: Sub) {
    s.notify && !s.deleted && s.deliveries != 0 && s.hours > 0 && s.tariff > 0 && s.listener > 0
  }

  /** The feed's subscriptions; a channel that is gone has none to tell. */
  function SubsOf(db: Db, channel: nat): seq<Sub> {
    if channel in db.subs && channel in db.channels then db.subs[channel] else []
  }

  function NextSub(subs: seq<Sub>, cursor: nat): Option<nat> {
    First(subs, (s: Sub) => s.id > cursor && Eligible(s))
  }

  // ---------- the transactions ----------

  function CooledDown(f: Feed, now: int): int {
    Max(now, (if f.checkedAt.Some? then f.checkedAt.value else 0) + MANUAL_GAP_SECONDS)
  }

  /** A new pause notifies again, unless its listeners heard of one within NOTICE_REPEAT_SECONDS. */
  predicate Renotifies(f: Feed, paused: bool, now: int) {
    paused && !f.paused && f.noticeAfter <= now - NOTICE_REPEAT_SECONDS
  }

  function Enqueued(f: Feed, reason: string, paused: bool, manual: bool, now: int): Feed {
    var due := if f.status == Healthy then CooledDown(f, now)
               else if manual && f.status != Leased then Min(f.availableAt, CooledDown(f, now))
               else f.availableAt;
    var g := f.(status := if f.status == Healthy then Pending else f.status,
                paused := f.paused || paused, reason := reason, availableAt := due);
    if Renotifies(f, paused, now)
    then g.(noticeDone := false, noticeCursor := 0, noticeAfter := 0, noticeToken := None) else g
  }

  /** True when a check is due now. */
  function Enqueue(db: Db, channel: nat, reason: string, paused: bool, manual: bool, now: int): (r: (Db, bool)) {
    if channel !in db.feeds then
      (db.(feeds := db.feeds[channel := NewFeed(paused, reason, now, false)]), true)
    else
      var f := Enqueued(db.feeds[channel], reason, paused, manual, now);
      (db.(feeds := db.feeds[channel := f]), f.status != Leased && f.availableAt <= now)
  }

  /** Old dead feeds enter once, with nobody to tell. */
  function Seed(db: Db, dead: set<nat>, now: int): Db {
    db.(feeds := map c | c in db.feeds.Keys + dead ::
      if c in db.feeds then db.feeds[c] else NewFeed(true, "legacy", now, true))
  }

  function Claim(db: Db, now: int): (r: (Db, Option<Job>)) {
    var c := ToClaim(db.feeds, now);
    if c.None? then (db, None)
    else
      (db.(feeds := db.feeds[c.value := db.feeds[c.value].(status := Leased,
             leasedUntil := Some(now + LEASE_SECONDS), leaseToken := Some(db.tokens))],
           tokens := db.tokens + 1),
       Some(Job(c.value, db.tokens)))
  }

  predicate Owns(db: Db, job: Job, now: int) {
    && job.channel in db.feeds
    && var f := db.feeds[job.channel];
       f.status == Leased && f.leaseToken == Some(job.token) && f.leasedUntil.Some? && f.leasedUntil.value > now
  }

  /** The channel is still the one the worker looked at. */
  predicate Unchanged(db: Db, channel: nat, before: Option<Channel>) {
    && channel in db.channels && before.Some?
    && db.channels[channel].url == before.value.url && db.channels[channel].itunes == before.value.itunes
  }

  function Released(f: Feed, status: Status, checkedAt: int, result: string): Feed {
    f.(status := status, checkedAt := Some(checkedAt), result := result, leasedUntil := None, leaseToken := None)
  }

  /** url "": no candidate found. True when the feed recovered. */
  function Finish(db: Db, job: Job, before: Option<Channel>, url: string, result: string, now: int): (r: (Db, bool)) {
    if !Owns(db, job, now) then (db, false)
    else
      var c, f := job.channel, db.feeds[job.channel];
      if c !in db.channels then
        (db.(feeds := db.feeds[c := Released(f, Gone, now, "channel_deleted").(paused := false)]), false)
      else if url != "" && Unchanged(db, c, before) then
        var fixed := db.(feeds := db.feeds[c := Released(f, Healthy, now, "recovered")
                                                .(paused := false, recoveredAt := Some(now))]);
        (if url == db.channels[c].url then fixed
         else fixed.(channels := db.channels[c := db.channels[c].(url := url, validators := None)]), true)
      else
        (db.(feeds := db.feeds[c :=
           Released(f, Pending, now, if Unchanged(db, c, before) then result else "channel_changed")
           .(availableAt := now + RECHECK_SECONDS)]), false)
  }

  function NoteOk(db: Db, channel: nat, now: int): Db {
    if channel !in db.feeds then db
    else db.(feeds := db.feeds[channel := Released(db.feeds[channel], Healthy, now, "available").(paused := false)])
  }

  function NextNotice(db: Db, now: int): (r: (Db, Option<Notice>)) {
    var c := ToAnnounce(db.feeds, now);
    if c.None? then (db, None)
    else
      var f := db.feeds[c.value];
      var i := NextSub(SubsOf(db, c.value), f.noticeCursor);
      if i.None? then (db.(feeds := db.feeds[c.value := f.(noticeDone := true)]), None)
      else
        var s := SubsOf(db, c.value)[i.value];
        (db.(feeds := db.feeds[c.value := f.(noticeAfter := now + NOTICE_HOLD_SECONDS, noticeToken := Some(db.tokens))],
             tokens := db.tokens + 1),
         Some(Notice(c.value, s.id, s.listener, db.tokens)))
  }

  /** The notice is still the one out for its feed, and the pause it tells of goes on: it counts as sent. */
  predicate Records(db: Db, n: Notice) {
    n.channel in db.feeds && db.feeds[n.channel].noticeToken == Some(n.token) && db.feeds[n.channel].paused
  }

  /** retryAfter: the flood wait of a notice that has to go again. */
  function FinishNotice(db: Db, n: Notice, retryAfter: Option<nat>, now: int): Db {
    if retryAfter.None? then
      if Records(db, n) then
        db.(feeds := db.feeds[n.channel := db.feeds[n.channel].(noticeCursor := n.sub, noticeAfter := now,
                                                                noticeToken := None)])
      else db
    else if n.channel in db.feeds && db.feeds[n.channel].noticeToken == Some(n.token) then
      db.(feeds := db.feeds[n.channel := db.feeds[n.channel].(noticeAfter := now + retryAfter.value,
                                                              noticeToken := None)])
    else db
  }

  // ---------- the transactions as they run ----------

  class Store {
    var feeds: map<nat, Feed>
    var channels: map<nat, Channel>
    var subs: map<nat, seq<Sub>>
    var tokens: nat

    constructor (channels: map<nat, Channel>, subs: map<nat, seq<Sub>>)
      ensures Tables() == Db(map[], channels, subs, 0)
    {
      this.feeds, this.channels, this.subs, this.tokens := map[], channels, subs, 0;
    }

    function Tables(): Db
      reads this
    {
      Db(feeds, channels, subs, tokens)
    }

    method EnqueueRepair(channel: nat, reason: string, paused: bool, manual: bool, now: int) returns (dueNow: bool)
      modifies this`feeds
      ensures (Tables(), dueNow) == Enqueue(old(Tables()), channel, reason, paused, manual, now)
    {
      if channel !in feeds {
        feeds := feeds[channel := NewFeed(paused, reason, now, false)];
        return true;
      }
      var row := feeds[channel];
      var due, status := row.availableAt, row.status;
      var checked := if row.checkedAt.Some? then row.checkedAt.value else 0;
      if status == Healthy {
        status := Pending;
        due := Max(now, checked + MANUAL_GAP_SECONDS);
      } else if manual && status != Leased {
        due := Min(due, Max(now, checked + MANUAL_GAP_SECONDS));
      }
      feeds := feeds[channel := row.(status := status, paused := row.paused || paused, reason := reason,
                                     availableAt := due)];
      if paused && !row.paused && row.noticeAfter <= now - NOTICE_REPEAT_SECONDS {
        feeds := feeds[channel := feeds[channel].(noticeDone := false, noticeCursor := 0, noticeAfter := 0,
                                                  noticeToken := None)];
      }
      assert feeds == old(feeds)[channel := Enqueued(row, reason, paused, manual, now)];
      dueNow := status != Leased && due <= now;
    }

    method ClaimRepair(now: int) returns (job: Option<Job>)
      modifies this`feeds, this`tokens
      ensures (Tables(), job) == Claim(old(Tables()), now)
    {
      var found := ToClaim(feeds, now);
      if found.None? {
        return None;
      }
      var token := tokens;
      tokens := tokens + 1;
      feeds := feeds[found.value := feeds[found.value].(status := Leased, leasedUntil := Some(now + LEASE_SECONDS),
                                                        leaseToken := Some(token))];
      job := Some(Job(found.value, token));
    }

    method FinishRepair(job: Job, before: Option<Channel>, url: string, result: string, now: int)
      returns (recovered: bool)
      modifies this`feeds, this`channels
      ensures (Tables(), recovered) == Finish(old(Tables()), job, before, url, result, now)
    {
      if !Owns(Tables(), job, now) {
        return false;
      }
      var c := job.channel;
      var row := feeds[c].(leasedUntil := None, leaseToken := None, checkedAt := Some(now));
      if c !in channels {
        feeds := feeds[c := row.(status := Gone, paused := false, result := "channel_deleted")];
        return false;
      }
      var same := before.Some? && channels[c].url == before.value.url && channels[c].itunes == before.value.itunes;
      if url != "" && same {
        if url != channels[c].url {
          channels := channels[c := channels[c].(url := url, validators := None)];
        }
        feeds := feeds[c := row.(status := Healthy, paused := false, recoveredAt := Some(now), result := "recovered")];
        return true;
      }
      feeds := feeds[c := row.(status := Pending, availableAt := now + RECHECK_SECONDS,
                               result := if same then result else "channel_changed")];
      recovered := false;
    }

    method NoteFetched(channel: nat, now: int)
      modifies this`feeds
      ensures Tables() == NoteOk(old(Tables()), channel, now)
    {
      if channel in feeds {
        feeds := feeds[channel := feeds[channel].(status := Healthy, paused := false, result := "available",
                                                  checkedAt := Some(now), leasedUntil := None, leaseToken := None)];
      }
    }

    method TakeNotice(now: int) returns (notice: Option<Notice>)
      modifies this`feeds, this`tokens
      ensures (Tables(), notice) == NextNotice(old(Tables()), now)
    {
      var found := ToAnnounce(feeds, now);
      if found.None? {
        return None;
      }
      var c := found.value;
      var listeners := SubsOf(Tables(), c);
      var i := NextSub(listeners, feeds[c].noticeCursor);
      if i.None? {
        feeds := feeds[c := feeds[c].(noticeDone := true)];
        return None;
      }
      var token := tokens;
      tokens := tokens + 1;
      feeds := feeds[c := feeds[c].(noticeAfter := now + NOTICE_HOLD_SECONDS, noticeToken := Some(token))];
      notice := Some(Notice(c, listeners[i.value].id, listeners[i.value].listener, token));
    }

    method CompleteNotice(n: Notice, retryAfter: Option<nat>, now: int)
      modifies this`feeds
      ensures Tables() == FinishNotice(old(Tables()), n, retryAfter, now)
    {
      if n.channel in feeds && feeds[n.channel].noticeToken == Some(n.token) {
        if retryAfter.Some? {
          feeds := feeds[n.channel := feeds[n.channel].(noticeAfter := now + retryAfter.value, noticeToken := None)];
        } else if feeds[n.channel].paused {
          feeds := feeds[n.channel := feeds[n.channel].(noticeCursor := n.sub, noticeAfter := now,
                                                        noticeToken := None)];
        }
      }
    }
  }
}
