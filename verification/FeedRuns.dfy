/** Whole runs of feed repair: any number of workers, clicks, fetches, edits and notices, interleaved in any
    way under a clock that does not go back. */
module FeedRuns {
  import opened Prelude
  import opened FeedRecovery

  datatype Leasing = Leasing(channel: nat, at: int)
  datatype Sent = Sent(channel: nat, sub: nat, listener: int, at: int)
  datatype Check = Check(channel: nat, at: int)

  /** The tables, and what has happened: every claim and notice handed out, by token, the notices recorded as
      sent and the checks completed, in order. */
  datatype World = World(db: Db, clock: int, jobs: map<nat, Leasing>, notices: map<nat, Notice>,
                         sent: seq<Sent>, checks: seq<Check>)

  /** A worker finishes with a job or a notice it was given, whenever it likes and as often as it likes. */
  datatype Event =
    | Enqueues(channel: nat, reason: string, paused: bool, manual: bool, now: int)
    | Seeds(dead: set<nat>, now: int)
    | Claims(now: int)
    | Finishes(token: nat, before: Option<Channel>, url: string, result: string, now: int)
    | Fetches(channel: nat, now: int)
    | Takes(now: int)
    | Completes(token: nat, retryAfter: Option<nat>, now: int)
    | Edits(channel: nat, to: Option<Channel>, now: int)
    | Subscribes(channel: nat, subs: seq<Sub>, now: int)

  function JobOf(w: World, token: nat): Job
    requires token in w.jobs
  {
    Job(w.jobs[token].channel, token)
  }

  /** The finish has an effect: its lease still holds. */
  predicate TakesEffect(w: World, e: Event) {
    e.Finishes? && e.token in w.jobs && Owns(w.db, JobOf(w, e.token), e.now)
  }

  function ClaimNow(w: World, now: int): World {
    var (db, job) := Claim(w.db, now);
    w.(db := db, clock := now,
       jobs := if job.None? then w.jobs else w.jobs[job.value.token := Leasing(job.value.channel, now)])
  }

  function FinishNow(w: World, e: Event): World
    requires e.Finishes?
  {
    if e.token !in w.jobs then w.(clock := e.now)
    else
      w.(db := Finish(w.db, JobOf(w, e.token), e.before, e.url, e.result, e.now).0, clock := e.now,
         checks := if TakesEffect(w, e) then w.checks + [Check(w.jobs[e.token].channel, e.now)] else w.checks)
  }

  function TakeNow(w: World, now: int): World {
    var (db, n) := NextNotice(w.db, now);
    w.(db := db, clock := now, notices := if n.None? then w.notices else w.notices[n.value.token := n.value])
  }

  function CompleteNow(w: World, token: nat, retryAfter: Option<nat>, now: int): World {
    if token !in w.notices then w.(clock := now)
    else
      var n := w.notices[token];
      w.(db := FinishNotice(w.db, n, retryAfter, now), clock := now,
         sent := if retryAfter.None? && Records(w.db, n) then w.sent + [Sent(n.channel, n.sub, n.listener, now)]
                 else w.sent)
  }

  function Next(w: World, e: Event): World {
    match e
    case Enqueues(c, reason, paused, manual, now) =>
      w.(db := Enqueue(w.db, c, reason, paused, manual, now).0, clock := now)
    case Seeds(dead, now) => w.(db := Seed(w.db, dead, now), clock := now)
    case Claims(now) => ClaimNow(w, now)
    case Finishes(_, _, _, _, _) => FinishNow(w, e)
    case Fetches(c, now) =>
      w.(db := NoteOk(w.db, c, now), clock := now,
         checks := if c in w.db.feeds then w.checks + [Check(c, now)] else w.checks)
    case Takes(now) => TakeNow(w, now)
    case Completes(token, retryAfter, now) => CompleteNow(w, token, retryAfter, now)
    case Edits(c, to, now) =>
      w.(db := w.db.(channels := if to.None? then w.db.channels - {c} else w.db.channels[c := to.value]), clock := now)
    case Subscribes(c, subs, now) => w.(db := w.db.(subs := w.db.subs[c := subs]), clock := now)
  }

  ghost predicate Timely(w: World, events: seq<Event>)
    decreases |events|
  {
    events == [] || (events[0].now >= w.clock && Timely(Next(w, events[0]), events[1..]))
  }

  ghost function Run(w: World, events: seq<Event>): World
    decreases |events|
  {
    if events == [] then w else Run(Next(w, events[0]), events[1..])
  }

  /** Nothing has happened yet. */
  function Begin(channels: map<nat, Channel>, subs: map<nat, seq<Sub>>): World {
    World(Db(map[], channels, subs, 0), 0, map[], map[], [], [])
  }

  // ---------- what an event does to one feed ----------

  /** The feed as the event leaves it. */
  ghost predicate Moved(w: World, e: Event, c: nat, f: Feed, g: Feed) {
    match e
    case Enqueues(d, reason, paused, manual, now) =>
      g == if c == d then Enqueued(f, reason, paused, manual, now) else f
    case Claims(now) =>
      if ToClaim(w.db.feeds, now) == Some(c)
      then Claimable(f, now) && g == f.(status := Leased, leasedUntil := Some(now + LEASE_SECONDS),
                                        leaseToken := Some(w.db.tokens))
      else g == f
    case Finishes(t, _, _, _, now) =>
      if TakesEffect(w, e) && w.jobs[t].channel == c
      then
        && (g.status == Gone || g.status == Healthy || g.status == Pending)
        && g == f.(status := g.status, paused := g.paused, checkedAt := Some(now), recoveredAt := g.recoveredAt,
                   result := g.result, availableAt := g.availableAt, leasedUntil := None, leaseToken := None)
        && (g.paused ==> f.paused)
        && (g.status == Pending ==> g.availableAt == now + RECHECK_SECONDS)
      else g == f
    case Fetches(d, now) =>
      g == if c == d then Released(f, Healthy, now, "available").(paused := false) else f
    case Takes(now) =>
      if ToAnnounce(w.db.feeds, now) != Some(c) then g == f
      else
        var i := NextSub(SubsOf(w.db, c), f.noticeCursor);
        Announces(f, now)
        && g == if i.None? then f.(noticeDone := true)
                else f.(noticeAfter := now + NOTICE_HOLD_SECONDS, noticeToken := Some(w.db.tokens))
    case Completes(t, retryAfter, now) =>
      if t in w.notices && w.notices[t].channel == c && f.noticeToken == Some(w.notices[t].token)
         && (retryAfter.Some? || f.paused)
      then g == if retryAfter.Some? then f.(noticeAfter := now + retryAfter.value, noticeToken := None)
                else f.(noticeCursor := w.notices[t].sub, noticeAfter := now, noticeToken := None)
      else g == f
    case _ => g == f
  }

  /** Feeds are never dropped; a new one enters pending, or paused with nobody to tell. */
  lemma FeedMoves(w: World, e: Event, c: nat)
    ensures c in w.db.feeds ==> c in Next(w, e).db.feeds && Moved(w, e, c, w.db.feeds[c], Next(w, e).db.feeds[c])
    ensures c !in w.db.feeds && c in Next(w, e).db.feeds ==>
      exists paused, reason, done :: Next(w, e).db.feeds[c] == NewFeed(paused, reason, e.now, done)
  {
    match e
    case Enqueues(_, _, _, _, _) =>
    case Seeds(_, _) =>
    case Claims(_) =>
    case Finishes(_, _, _, _, _) => FinishMoves(w, e, c);
    case Fetches(_, _) =>
    case Takes(_) =>
    case Completes(_, _, _) => CompleteMoves(w, e, c);
    case Edits(_, _, _) =>
    case Subscribes(_, _, _) =>
  }

  lemma FinishMovesFeed(db: Db, job: Job, before: Option<Channel>, url: string, result: string, now: int)
    requires Owns(db, job, now)
    ensures var t, c := Finish(db, job, before, url, result, now).0, job.channel;
      && c in t.feeds && t.feeds == db.feeds[c := t.feeds[c]]
      && var f, g := db.feeds[c], t.feeds[c];
         && (g.status == Gone || g.status == Healthy || g.status == Pending)
         && g == f.(status := g.status, paused := g.paused, checkedAt := Some(now), recoveredAt := g.recoveredAt,
                    result := g.result, availableAt := g.availableAt, leasedUntil := None, leaseToken := None)
         && (g.paused ==> f.paused)
         && (g.status == Pending ==> g.availableAt == now + RECHECK_SECONDS)
  {
  }

  lemma FinishMoves(w: World, e: Event, c: nat)
    requires e.Finishes?
    ensures c in w.db.feeds ==> c in Next(w, e).db.feeds && Moved(w, e, c, w.db.feeds[c], Next(w, e).db.feeds[c])
    ensures c !in w.db.feeds ==> c !in Next(w, e).db.feeds
  {
    if TakesEffect(w, e) {
      FinishMovesFeed(w.db, JobOf(w, e.token), e.before, e.url, e.result, e.now);
    }
  }

  lemma CompleteMoves(w: World, e: Event, c: nat)
    requires e.Completes?
    ensures c in w.db.feeds ==> c in Next(w, e).db.feeds && Moved(w, e, c, w.db.feeds[c], Next(w, e).db.feeds[c])
    ensures c !in w.db.feeds ==> c !in Next(w, e).db.feeds
  {
  }

  lemma ChecksGrow(w: World, e: Event)
    ensures w.checks <= Next(w, e).checks
  {
  }

  // ---------- the cooldown ----------

  ghost predicate Rested(f: Feed) {
    var checked := if f.checkedAt.Some? then f.checkedAt.value else 0;
    && (f.status == Pending && f.checkedAt.Some? ==> f.availableAt >= checked + MANUAL_GAP_SECONDS)
    && (f.status == Leased ==> f.leasedUntil.Some?)
    && (f.status == Leased && f.checkedAt.Some? ==> f.leasedUntil.value >= checked + MANUAL_GAP_SECONDS)
  }

  ghost predicate CheckKnown(w: World, c: Check) {
    && c.at <= w.clock
    && c.channel in w.db.feeds
    && w.db.feeds[c.channel].checkedAt.Some?
    && c.at <= w.db.feeds[c.channel].checkedAt.value
  }

  ghost predicate CooldownInv(w: World) {
    && (forall c :: c in w.db.feeds ==> Rested(w.db.feeds[c]))
    && (forall k :: 0 <= k < |w.checks| ==> CheckKnown(w, w.checks[k]))
  }

  lemma StepRests(w: World, e: Event, c: nat)
    requires e.now >= w.clock && c in Next(w, e).db.feeds && (c in w.db.feeds ==> Rested(w.db.feeds[c]))
    ensures Rested(Next(w, e).db.feeds[c])
  {
    FeedMoves(w, e, c);
  }

  lemma StepKeepsCheck(w: World, e: Event, c: Check)
    requires e.now >= w.clock && CheckKnown(w, c)
    ensures CheckKnown(Next(w, e), c)
  {
    FeedMoves(w, e, c.channel);
  }

  lemma NewCheckIsKnown(w: World, e: Event, k: nat)
    requires e.now >= w.clock && |w.checks| <= k < |Next(w, e).checks|
    ensures CheckKnown(Next(w, e), Next(w, e).checks[k])
  {
  }

  lemma StepKeepsCooldown(w: World, e: Event)
    requires CooldownInv(w) && e.now >= w.clock
    ensures CooldownInv(Next(w, e))
  {
    var w' := Next(w, e);
    forall c | c in w'.db.feeds
      ensures Rested(w'.db.feeds[c])
    {
      StepRests(w, e, c);
    }
    forall k | 0 <= k < |w'.checks|
      ensures CheckKnown(w', w'.checks[k])
    {
      if k < |w.checks| {
        ChecksGrow(w, e);
        StepKeepsCheck(w, e, w.checks[k]);
      } else {
        NewCheckIsKnown(w, e, k);
      }
    }
  }

  lemma {:induction false} RunKeepsCooldown(w: World, events: seq<Event>)
    requires CooldownInv(w) && Timely(w, events)
    ensures CooldownInv(Run(w, events)) && Run(w, events).clock >= w.clock
    decreases |events|
  {
    if events != [] {
      StepKeepsCooldown(w, events[0]);
      RunKeepsCooldown(Next(w, events[0]), events[1..]);
    }
  }

  /** No claim begins within MANUAL_GAP_SECONDS of the feed's last completed check, whatever failures, clicks,
      leases and successful fetches came before it. */
  lemma ChecksAreSpaced(channels: map<nat, Channel>, subs: map<nat, seq<Sub>>, events: seq<Event>, now: int, k: nat)
    requires Timely(Begin(channels, subs), events)
    requires var w := Run(Begin(channels, subs), events);
      now >= w.clock && Claim(w.db, now).1.Some? && k < |w.checks|
      && w.checks[k].channel == Claim(w.db, now).1.value.channel
    ensures now >= Run(Begin(channels, subs), events).checks[k].at + MANUAL_GAP_SECONDS
  {
    RunKeepsCooldown(Begin(channels, subs), events);
    var w := Run(Begin(channels, subs), events);
    assert CheckKnown(w, w.checks[k]);
    assert Rested(w.db.feeds[w.checks[k].channel]);
  }

  // ---------- leases ----------

  ghost predicate LeaseInv(w: World) {
    && (forall t :: t in w.jobs ==> t < w.db.tokens)
    && (forall c :: c in w.db.feeds && w.db.feeds[c].status == Leased ==> LeaseKnown(w, c))
  }

  ghost predicate LeaseKnown(w: World, c: nat)
    requires c in w.db.feeds
  {
    var f := w.db.feeds[c];
    && f.leaseToken.Some? && f.leaseToken.value in w.jobs
    && w.jobs[f.leaseToken.value].channel == c
    && f.leasedUntil == Some(w.jobs[f.leaseToken.value].at + LEASE_SECONDS)
  }

  /** A job that was handed out and cannot finish any more. */
  ghost predicate Dead(w: World, token: nat) {
    && token in w.jobs
    && token < w.db.tokens
    && !Owns(w.db, JobOf(w, token), w.clock)
  }

  /** Jobs are only added, each under a token not used before. */
  lemma JobsGrow(w: World, e: Event, t: nat)
    requires forall t :: t in w.jobs ==> t < w.db.tokens
    ensures t in w.jobs ==> t in Next(w, e).jobs && Next(w, e).jobs[t] == w.jobs[t]
    ensures t in Next(w, e).jobs ==> t < Next(w, e).db.tokens
    ensures w.db.tokens <= Next(w, e).db.tokens
  {
  }

  lemma StepKnowsLease(w: World, e: Event, c: nat)
    requires LeaseInv(w) && c in Next(w, e).db.feeds && Next(w, e).db.feeds[c].status == Leased
    ensures LeaseKnown(Next(w, e), c)
  {
    FeedMoves(w, e, c);
    if c in w.db.feeds && w.db.feeds[c].status == Leased {
      assert LeaseKnown(w, c);
      JobsGrow(w, e, w.db.feeds[c].leaseToken.value);
    }
  }

  lemma StepKeepsLeases(w: World, e: Event)
    requires LeaseInv(w) && e.now >= w.clock
    ensures LeaseInv(Next(w, e))
  {
    var w' := Next(w, e);
    forall t | t in w'.jobs
      ensures t < w'.db.tokens
    {
      JobsGrow(w, e, t);
    }
    forall c | c in w'.db.feeds && w'.db.feeds[c].status == Leased
      ensures LeaseKnown(w', c)
    {
      StepKnowsLease(w, e, c);
    }
  }

  lemma StepKeepsDead(w: World, e: Event, token: nat)
    requires LeaseInv(w) && e.now >= w.clock && Dead(w, token)
    ensures Dead(Next(w, e), token)
    ensures e.Finishes? && e.token == token ==> !TakesEffect(w, e) && Next(w, e).db == w.db
  {
    JobsGrow(w, e, token);
    FeedMoves(w, e, w.jobs[token].channel);
    ClockMoves(w, e);
  }

  lemma ClockMoves(w: World, e: Event)
    ensures Next(w, e).clock == e.now
  {
  }

  ghost function EffectsOf(w: World, events: seq<Event>, token: nat): nat
    decreases |events|
  {
    if events == [] then 0
    else
      (if TakesEffect(w, events[0]) && events[0].token == token then 1 else 0)
      + EffectsOf(Next(w, events[0]), events[1..], token)
  }

  lemma {:induction false} DeadNeverFinishes(w: World, events: seq<Event>, token: nat)
    requires LeaseInv(w) && Timely(w, events) && Dead(w, token)
    ensures EffectsOf(w, events, token) == 0
    decreases |events|
  {
    if events != [] {
      StepKeepsLeases(w, events[0]);
      StepKeepsDead(w, events[0], token);
      DeadNeverFinishes(Next(w, events[0]), events[1..], token);
    }
  }

  /** What ends a claim: its own finish, a claim of the same feed, a successful fetch, the end of its lease. */
  ghost predicate Ends(w: World, e: Event, token: nat)
    requires token in w.jobs
  {
    || (TakesEffect(w, e) && e.token == token)
    || (e.Claims? && Claim(w.db, e.now).1.Some? && Claim(w.db, e.now).1.value.channel == w.jobs[token].channel)
    || (e.Fetches? && e.channel == w.jobs[token].channel)
    || e.now >= w.jobs[token].at + LEASE_SECONDS
  }

  lemma EndsMakeDead(w: World, e: Event, token: nat)
    requires LeaseInv(w) && token in w.jobs && e.now >= w.clock && Ends(w, e, token)
    ensures Dead(Next(w, e), token)
  {
    var c := w.jobs[token].channel;
    JobsGrow(w, e, token);
    ClockMoves(w, e);
    FeedMoves(w, e, c);
    assert c in w.db.feeds && w.db.feeds[c].status == Leased ==> LeaseKnown(w, c);
  }

  /** Leases hold from the start of every run. */
  lemma {:induction false} RunKeepsLeases(w: World, events: seq<Event>)
    requires LeaseInv(w) && Timely(w, events)
    ensures LeaseInv(Run(w, events))
    decreases |events|
  {
    if events != [] {
      StepKeepsLeases(w, events[0]);
      RunKeepsLeases(Next(w, events[0]), events[1..]);
    }
  }

  /** In any interleaving of workers, a claim's finish has no effect after the claim was finished once, taken
      again, overtaken by a successful fetch, or held for LEASE_SECONDS. */
  lemma ClaimsAreFenced(channels: map<nat, Channel>, subs: map<nat, seq<Sub>>, before: seq<Event>, e: Event,
                        after: seq<Event>, token: nat)
    requires Timely(Begin(channels, subs), before)
    requires var w := Run(Begin(channels, subs), before);
      token in w.jobs && Timely(w, [e] + after) && Ends(w, e, token)
    ensures EffectsOf(Next(Run(Begin(channels, subs), before), e), after, token) == 0
  {
    var w := Run(Begin(channels, subs), before);
    RunKeepsLeases(Begin(channels, subs), before);
    assert ([e] + after)[1..] == after;
    StepKeepsLeases(w, e);
    EndsMakeDead(w, e, token);
    DeadNeverFinishes(Next(w, e), after, token);
  }

  lemma {:induction false} FinishesAtMostOnce(w: World, events: seq<Event>, token: nat)
    requires LeaseInv(w) && Timely(w, events) && token in w.jobs
    ensures EffectsOf(w, events, token) <= 1
    decreases |events|
  {
    if events != [] {
      var e := events[0];
      StepKeepsLeases(w, e);
      if TakesEffect(w, e) && e.token == token {
        EndsMakeDead(w, e, token);
        DeadNeverFinishes(Next(w, e), events[1..], token);
      } else {
        FinishesAtMostOnce(Next(w, e), events[1..], token);
      }
    }
  }

  /** Only an effective finish changes a channel of its own accord, and only the one whose URL and iTunes id
      are still those its worker saw: then the new URL replaces the old one and nothing else but the
      validators goes. Every other event but an edit leaves all channels alone. */
  lemma UrlIsComparedAndSwapped(w: World, e: Event, c: nat)
    requires !e.Edits? && c in w.db.channels
    ensures c in Next(w, e).db.channels
    ensures var seen := w.db.channels[c]; var now := Next(w, e).db.channels[c];
      now != seen ==>
        && TakesEffect(w, e) && w.jobs[e.token].channel == c
        && e.before.Some? && e.before.value.url == seen.url && e.before.value.itunes == seen.itunes
        && e.url != "" && now == Channel(e.url, seen.itunes, None)
        && Next(w, e).db.feeds[c].status == Healthy
  {
  }

  // ---------- pause notices ----------

  ghost predicate NoticeOut(w: World, c: nat)
    requires c in w.db.feeds
  {
    var f := w.db.feeds[c];
    f.noticeToken.Some? ==>
      && f.noticeToken.value in w.notices
      && w.notices[f.noticeToken.value].channel == c
      && w.notices[f.noticeToken.value].sub > f.noticeCursor
  }

  /** A recorded notice is behind the feed's last send, or a week old; and one to a subscription the cursor
      has still to reach is a week old. */
  ghost predicate SentKnown(w: World, s: Sent) {
    && s.at <= w.clock
    && s.channel in w.db.feeds
    && var f := w.db.feeds[s.channel];
       && (s.at <= f.noticeAfter || s.at + NOTICE_REPEAT_SECONDS <= w.clock)
       && (s.sub > f.noticeCursor ==> s.at + NOTICE_REPEAT_SECONDS <= w.clock)
  }

  /** Two records of one feed are a week apart, or the later one is to a newer subscription. */
  predicate Follows(a: Sent, b: Sent) {
    a.channel == b.channel ==> a.at + NOTICE_REPEAT_SECONDS <= b.at || a.sub < b.sub
  }

  ghost predicate Spaced(sent: seq<Sent>) {
    forall i, j :: 0 <= i < j < |sent| ==> Follows(sent[i], sent[j])
  }

  ghost predicate NoticeInv(w: World) {
    && (forall t :: t in w.notices ==> t < w.db.tokens && w.notices[t].token == t)
    && (forall c :: c in w.db.feeds ==> NoticeOut(w, c))
    && (forall k :: 0 <= k < |w.sent| ==> SentKnown(w, w.sent[k]))
    && Spaced(w.sent)
  }

  lemma NoticesGrow(w: World, e: Event, t: nat)
    requires forall t :: t in w.notices ==> t < w.db.tokens && w.notices[t].token == t
    ensures t in w.notices ==> t in Next(w, e).notices && Next(w, e).notices[t] == w.notices[t]
    ensures t in Next(w, e).notices ==> t < Next(w, e).db.tokens && Next(w, e).notices[t].token == t
  {
  }

  lemma StepKnowsNotice(w: World, e: Event, c: nat)
    requires NoticeInv(w) && c in Next(w, e).db.feeds
    ensures NoticeOut(Next(w, e), c)
  {
    FeedMoves(w, e, c);
    if c in w.db.feeds {
      assert NoticeOut(w, c);
      if w.db.feeds[c].noticeToken.Some? {
        NoticesGrow(w, e, w.db.feeds[c].noticeToken.value);
      }
    }
  }

  lemma StepKeepsSent(w: World, e: Event, s: Sent)
    requires NoticeInv(w) && e.now >= w.clock && SentKnown(w, s)
    ensures SentKnown(Next(w, e), s)
  {
    FeedMoves(w, e, s.channel);
    ClockMoves(w, e);
    assert NoticeOut(w, s.channel);
  }

  /** What a new record says: it goes to a subscription past the cursor, now. */
  lemma NewRecord(w: World, e: Event)
    requires NoticeInv(w)
    ensures w.sent <= Next(w, e).sent
    ensures |Next(w, e).sent| > |w.sent| ==>
      var s := Next(w, e).sent[|w.sent|];
      && |Next(w, e).sent| == |w.sent| + 1
      && s.at == e.now
      && s.channel in w.db.feeds && s.sub > w.db.feeds[s.channel].noticeCursor
      && s.channel in Next(w, e).db.feeds
      && Next(w, e).db.feeds[s.channel].noticeCursor == s.sub
      && Next(w, e).db.feeds[s.channel].noticeAfter == e.now
  {
  }

  lemma StepKeepsNotices(w: World, e: Event)
    requires NoticeInv(w) && e.now >= w.clock
    ensures NoticeInv(Next(w, e))
  {
    var w' := Next(w, e);
    NewRecord(w, e);
    ClockMoves(w, e);
    forall t | t in w'.notices
      ensures t < w'.db.tokens && w'.notices[t].token == t
    {
      NoticesGrow(w, e, t);
    }
    forall c | c in w'.db.feeds
      ensures NoticeOut(w', c)
    {
      StepKnowsNotice(w, e, c);
    }
    forall k | 0 <= k < |w.sent|
      ensures SentKnown(w', w'.sent[k])
    {
      StepKeepsSent(w, e, w.sent[k]);
    }
    forall i, j | 0 <= i < j < |w'.sent|
      ensures Follows(w'.sent[i], w'.sent[j])
    {
      if j >= |w.sent| {
        assert SentKnown(w, w.sent[i]);
      } else {
        assert Follows(w.sent[i], w.sent[j]);
      }
    }
  }

  lemma {:induction false} RunKeepsNotices(w: World, events: seq<Event>)
    requires NoticeInv(w) && Timely(w, events)
    ensures NoticeInv(Run(w, events))
    decreases |events|
  {
    if events != [] {
      StepKeepsNotices(w, events[0]);
      RunKeepsNotices(Next(w, events[0]), events[1..]);
    }
  }

  /** Over every run, two notices recorded as sent for the same subscription are at least a week apart. */
  lemma NoticesAreAWeekApart(channels: map<nat, Channel>, subs: map<nat, seq<Sub>>, events: seq<Event>,
                             i: nat, j: nat)
    requires Timely(Begin(channels, subs), events)
    requires var sent := Run(Begin(channels, subs), events).sent;
      i < j < |sent| && sent[i].channel == sent[j].channel && sent[i].sub == sent[j].sub
    ensures var sent := Run(Begin(channels, subs), events).sent;
      sent[j].at >= sent[i].at + NOTICE_REPEAT_SECONDS
  {
    RunKeepsNotices(Begin(channels, subs), events);
    assert Follows(Run(Begin(channels, subs), events).sent[i], Run(Begin(channels, subs), events).sent[j]);
  }
}
