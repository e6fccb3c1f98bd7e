/** What each transaction of feed repair answers and leaves: which finish repairs a feed and what it writes, when a
    check is due, when a pause is announced anew, whom a notice goes to, and that no other feed is touched. */
module FeedAnswers {
  import opened Prelude
  import opened FeedRecovery
  import opened FeedRuns

  /** The tables differ in this feed's row at most. */
  predicate OnlyFeed(db: Db, after: Db, c: nat) {
    && c in db.feeds && c in after.feeds && after.feeds == db.feeds[c := after.feeds[c]]
    && after.subs == db.subs
  }

  // ---------- enqueue ----------

  function CheckedAt(f: Feed): int {
    if f.checkedAt.Some? then f.checkedAt.value else 0
  }

  /** The first trouble of a feed makes its job, due at once. */
  lemma FirstTroubleIsDue(db: Db, c: nat, reason: string, paused: bool, manual: bool, now: int)
    requires c !in db.feeds
    ensures var (after, due) := Enqueue(db, c, reason, paused, manual, now);
      && due && after == db.(feeds := after.feeds) && after.feeds.Keys == db.feeds.Keys + {c}
      && (forall d :: d in db.feeds ==> after.feeds[d] == db.feeds[d])
      && after.feeds[c] == Feed(Pending, paused, reason, now, None, None, None, None, "", 0, false, 0, None)
  {
  }

  /** Later trouble joins the job: a healthy feed is checked again, but not before its cooldown; a click moves a
      waiting check forward, but not before its cooldown either, and never back; a check under way stays. A pause
      is only added. The answer is whether a check is due now. */
  lemma TroubleJoinsTheJob(db: Db, c: nat, reason: string, paused: bool, manual: bool, now: int)
    requires c in db.feeds
    ensures var (after, due) := Enqueue(db, c, reason, paused, manual, now);
            var f, g := db.feeds[c], after.feeds[c];
            var cooled := CheckedAt(f) + MANUAL_GAP_SECONDS;
      && OnlyFeed(db, after, c) && after.channels == db.channels && after.tokens == db.tokens
      && g.reason == reason && g.paused == (f.paused || paused)
      && g.status == (if f.status == Healthy then Pending else f.status)
      && (f.status == Healthy ==> g.availableAt >= now && g.availableAt >= cooled
                                  && (g.availableAt == now || g.availableAt == cooled))
      && (f.status != Healthy && (!manual || f.status == Leased) ==> g.availableAt == f.availableAt)
      && (f.status != Healthy && manual && f.status != Leased ==>
            && g.availableAt <= f.availableAt
            && (g.availableAt == f.availableAt || (g.availableAt >= now && g.availableAt >= cooled))
            && (f.availableAt <= now || f.availableAt <= cooled || g.availableAt == now || g.availableAt == cooled))
      && g == f.(status := g.status, paused := g.paused, reason := reason, availableAt := g.availableAt,
                 noticeDone := g.noticeDone, noticeCursor := g.noticeCursor, noticeAfter := g.noticeAfter,
                 noticeToken := g.noticeToken)
      && (due <==> (g.status != Leased && g.availableAt <= now))
  {
  }

  /** A pause that begins is announced from the first listener again exactly when the last notice of the feed is a
      week old; else every notice stays as it is. */
  lemma PauseIsAnnouncedAnewIff(db: Db, c: nat, reason: string, paused: bool, manual: bool, now: int)
    requires c in db.feeds
    ensures var f, g := db.feeds[c], Enqueue(db, c, reason, paused, manual, now).0.feeds[c];
            var anew := paused && !f.paused && f.noticeAfter + NOTICE_REPEAT_SECONDS <= now;
      && (anew ==> !g.noticeDone && g.noticeCursor == 0 && g.noticeAfter == 0 && g.noticeToken.None?)
      && (!anew ==> g.noticeDone == f.noticeDone && g.noticeCursor == f.noticeCursor
                    && g.noticeAfter == f.noticeAfter && g.noticeToken == f.noticeToken)
  {
  }

  /** Seeding adds a job for each dead feed without one, with nobody to tell, and changes none. */
  lemma SeedingOnlyAdds(db: Db, dead: set<nat>, now: int)
    ensures var after := Seed(db, dead, now);
      && after == db.(feeds := after.feeds) && after.feeds.Keys == db.feeds.Keys + dead
      && (forall c :: c in db.feeds ==> after.feeds[c] == db.feeds[c])
      && forall c :: c in dead && c !in db.feeds ==>
           after.feeds[c] == Feed(Pending, true, "legacy", now, None, None, None, None, "", 0, true, 0, None)
  {
  }

  // ---------- claims and finishes ----------

  predicate CanBeChecked(f: Feed, now: int) {
    || (f.status == Pending && f.availableAt <= now)
    || (f.status == Leased && f.leasedUntil.Some? && f.leasedUntil.value <= now)
  }

  /** A claim leases the check that is due the longest for LEASE_SECONDS under a token never used, and none only when
      none is due. */
  lemma ClaimLeasesTheOldest(db: Db, now: int)
    ensures var (after, job) := Claim(db, now);
      && (job.None? ==> after == db && forall c :: c in db.feeds ==> !CanBeChecked(db.feeds[c], now))
      && (job.Some? ==>
            && var c := job.value.channel;
               && c in db.feeds && CanBeChecked(db.feeds[c], now)
               && (forall d :: d in db.feeds && CanBeChecked(db.feeds[d], now) ==>
                     db.feeds[c].availableAt < db.feeds[d].availableAt
                     || (db.feeds[c].availableAt == db.feeds[d].availableAt && c <= d))
               && OnlyFeed(db, after, c) && after.channels == db.channels
               && job.value.token == db.tokens && after.tokens == db.tokens + 1
               && after.feeds[c] == db.feeds[c].(status := Leased, leasedUntil := Some(now + LEASE_SECONDS),
                                                 leaseToken := Some(db.tokens)))
  {
    var c := ToClaim(db.feeds, now);
    assert forall d :: d in db.feeds ==> (Claimable(db.feeds[d], now) <==> CanBeChecked(db.feeds[d], now));
  }

  /** The lease the job was given still holds. */
  predicate LeaseHolds(db: Db, job: Job, now: int) {
    && job.channel in db.feeds
    && db.feeds[job.channel].status == Leased && db.feeds[job.channel].leaseToken == Some(job.token)
    && db.feeds[job.channel].leasedUntil.Some? && now < db.feeds[job.channel].leasedUntil.value
  }

  /** The channel is the one the worker looked at: same URL, same iTunes id. */
  predicate StillTheSame(db: Db, c: nat, before: Option<Channel>) {
    && c in db.channels && before.Some?
    && before.value.url == db.channels[c].url && before.value.itunes == db.channels[c].itunes
  }

  /** Without its lease a finish does nothing; with it, the feed is repaired exactly when a candidate was found for
      a channel that is still the same. Then the channel has the candidate's URL, its validators gone if that is
      another, and the feed is healthy and not paused. */
  lemma FinishRepairsIff(db: Db, job: Job, before: Option<Channel>, url: string, result: string, now: int)
    ensures var (after, recovered) := Finish(db, job, before, url, result, now); var c := job.channel;
      && (recovered <==> LeaseHolds(db, job, now) && url != "" && StillTheSame(db, c, before))
      && (!LeaseHolds(db, job, now) ==> after == db)
      && (!recovered ==> after.channels == db.channels)
      && (recovered ==>
            && OnlyFeed(db, after, c) && after.tokens == db.tokens && c in after.channels
            && after.channels == db.channels[c := after.channels[c]]
            && (url != db.channels[c].url ==> after.channels[c] == Channel(url, db.channels[c].itunes, None))
            && (url == db.channels[c].url ==> after.channels[c] == db.channels[c])
            && after.feeds[c]
               == db.feeds[c].(status := Healthy, paused := false, checkedAt := Some(now), recoveredAt := Some(now),
                               result := "recovered", leasedUntil := None, leaseToken := None))
  {
  }

  /** A finish in its lease that repairs nothing ends the job of a channel that is gone, and its pause; for any other
      it puts the next check off by a day and says why. */
  lemma UnrepairedIsCheckedTomorrow(db: Db, job: Job, before: Option<Channel>, url: string, result: string, now: int)
    requires LeaseHolds(db, job, now) && !(url != "" && StillTheSame(db, job.channel, before))
    ensures var after := Finish(db, job, before, url, result, now).0; var c := job.channel;
            var checked := db.feeds[c].(checkedAt := Some(now), leasedUntil := None, leaseToken := None);
      && OnlyFeed(db, after, c) && after.tokens == db.tokens && after.channels == db.channels
      && after.feeds[c]
         == if c !in db.channels then checked.(status := Gone, paused := false, result := "channel_deleted")
            else checked.(status := Pending, availableAt := now + RECHECK_SECONDS,
                          result := if StillTheSame(db, c, before) then result else "channel_changed")
  {
  }

  /** The same over runs: of all events but an edit, exactly an effective finish with a candidate for a channel that
      is still the same changes it, and to exactly that. */
  lemma RepairReplacesTheUrl(w: World, e: Event, c: nat)
    requires !e.Edits? && c in w.db.channels
    ensures c in Next(w, e).db.channels
    ensures var repairs := TakesEffect(w, e) && w.jobs[e.token].channel == c && e.url != ""
                           && StillTheSame(w.db, c, e.before);
            var seen, left := w.db.channels[c], Next(w, e).db.channels[c];
      && (repairs && e.url != seen.url ==> left == Channel(e.url, seen.itunes, None))
      && (!repairs || e.url == seen.url ==> left == seen)
      && (repairs ==> c in Next(w, e).db.feeds && Next(w, e).db.feeds[c].status == Healthy
                      && !Next(w, e).db.feeds[c].paused)
  {
    if e.Finishes? && e.token in w.jobs {
      FinishRepairsIff(w.db, JobOf(w, e.token), e.before, e.url, e.result, e.now);
    }
  }

  /** A fetch that succeeds makes the feed healthy, ends its pause and frees its lease, and leaves its notices. */
  lemma FetchEndsTheTrouble(db: Db, c: nat, now: int)
    ensures var after := NoteOk(db, c, now);
      && (c !in db.feeds ==> after == db)
      && (c in db.feeds ==>
            && OnlyFeed(db, after, c) && after.channels == db.channels && after.tokens == db.tokens
            && after.feeds[c] == db.feeds[c].(status := Healthy, paused := false, checkedAt := Some(now),
                                              result := "available", leasedUntil := None, leaseToken := None))
  {
  }

  // ---------- notices ----------

  predicate IsToldOf(s: Sub) {
    s.notify && !s.deleted && s.deliveries != 0 && s.hours > 0 && s.tariff > 0 && s.listener > 0
  }

  predicate WaitsToTell(f: Feed, now: int) {
    f.paused && !f.noticeDone && f.noticeAfter <= now
  }

  /** The first subscription past the cursor whose listener is told of a pause. */
  predicate IsNext(subs: seq<Sub>, cursor: nat, i: nat) {
    && i < |subs| && subs[i].id > cursor && IsToldOf(subs[i])
    && forall j :: 0 <= j < i ==> !(subs[j].id > cursor && IsToldOf(subs[j]))
  }

  /** The feed has waited the longest to tell somebody, the smaller id on a tie. */
  predicate WaitsTheLongest(db: Db, c: nat, now: int) {
    && c in db.feeds && WaitsToTell(db.feeds[c], now)
    && forall d :: d in db.feeds && WaitsToTell(db.feeds[d], now) ==>
         db.feeds[c].noticeAfter < db.feeds[d].noticeAfter
         || (db.feeds[c].noticeAfter == db.feeds[d].noticeAfter && c <= d)
  }

  lemma LongestIsPicked(db: Db, now: int)
    ensures forall c: nat :: WaitsTheLongest(db, c, now) ==> ToAnnounce(db.feeds, now) == Some(c)
    ensures (forall c :: c in db.feeds ==> !WaitsToTell(db.feeds[c], now)) ==> ToAnnounce(db.feeds, now).None?
  {
    var picked := ToAnnounce(db.feeds, now);
    assert forall c :: c in db.feeds ==> (Announces(db.feeds[c], now) <==> WaitsToTell(db.feeds[c], now));
    forall c: nat | WaitsTheLongest(db, c, now)
      ensures picked == Some(c)
    {
      assert Announces(db.feeds[c], now);
      assert WaitsToTell(db.feeds[picked.value], now);
    }
  }

  /** With no feed waiting, nothing happens. */
  lemma NobodyWaits(db: Db, now: int)
    requires forall c :: c in db.feeds ==> !WaitsToTell(db.feeds[c], now)
    ensures NextNotice(db, now) == (db, None)
  {
    LongestIsPicked(db, now);
  }

  /** The feed that waits the longest gives the next notice: to its first listener past the cursor, under a token
      never used, held for 60 seconds. With nobody left its announcement is done. */
  lemma NoticeGoesToTheNext(db: Db, c: nat, now: int)
    requires WaitsTheLongest(db, c, now)
    ensures var (after, n) := NextNotice(db, now);
            var f := db.feeds[c];
            var subs := if c in db.channels && c in db.subs then db.subs[c] else [];
      && OnlyFeed(db, after, c) && after.channels == db.channels
      && (n.None? <==> forall i: nat :: !IsNext(subs, f.noticeCursor, i))
      && (n.None? ==> after.feeds[c] == f.(noticeDone := true) && after.tokens == db.tokens)
      && (n.Some? ==>
            && n.value.channel == c && n.value.token == db.tokens && after.tokens == db.tokens + 1
            && after.feeds[c] == f.(noticeAfter := now + NOTICE_HOLD_SECONDS, noticeToken := Some(db.tokens))
            && exists i: nat :: IsNext(subs, f.noticeCursor, i) && n.value.sub == subs[i].id
                                && n.value.listener == subs[i].listener)
  {
    LongestIsPicked(db, now);
    NextIsFirst(SubsOf(db, c), db.feeds[c].noticeCursor);
  }

  lemma NextIsFirst(subs: seq<Sub>, cursor: nat)
    ensures forall i: nat :: IsNext(subs, cursor, i) <==> NextSub(subs, cursor) == Some(i)
    ensures NextSub(subs, cursor).Some? <==> exists i: nat :: IsNext(subs, cursor, i)
  {
    var found := NextSub(subs, cursor);
    assert forall s: Sub :: IsToldOf(s) <==> Eligible(s);
    if found.Some? {
      assert IsNext(subs, cursor, found.value);
    }
  }

  /** A notice still out, of a pause that goes on, counts as sent: the cursor moves to its subscription, and the next
      may go at once. A flood frees it and puts the feed off; a notice that is not out any more changes nothing. */
  lemma NoticeIsRecordedIff(db: Db, n: Notice, retryAfter: Option<nat>, now: int)
    ensures var after := FinishNotice(db, n, retryAfter, now); var c := n.channel;
            var out := c in db.feeds && db.feeds[c].noticeToken == Some(n.token);
      && (!out || (retryAfter.None? && !db.feeds[c].paused) ==> after == db)
      && (out && retryAfter.None? && db.feeds[c].paused ==>
            && OnlyFeed(db, after, c) && after.channels == db.channels && after.tokens == db.tokens
            && after.feeds[c] == db.feeds[c].(noticeCursor := n.sub, noticeAfter := now, noticeToken := None))
      && (out && retryAfter.Some? ==>
            && OnlyFeed(db, after, c) && after.channels == db.channels && after.tokens == db.tokens
            && after.feeds[c] == db.feeds[c].(noticeAfter := now + retryAfter.value, noticeToken := None))
  {
  }
}
