/** One announced pause: who hears of it, in which order, how often, and that the announcement ends. */
module FeedNotices {
  import opened Prelude
  import opened FeedRecovery
  import opened FeedRuns

  ghost predicate Ordered(subs: seq<Sub>) {
    forall i, j :: 0 <= i < j < |subs| ==> subs[i].id < subs[j].id
  }

  /** The eligible subscriptions after `lo` up to `hi`, in subscription order. */
  function Between(subs: seq<Sub>, lo: nat, hi: nat): seq<nat> {
    if subs == [] then []
    else
      var s := subs[|subs| - 1];
      Between(subs[..|subs| - 1], lo, hi) + if Eligible(s) && lo < s.id <= hi then [s.id] else []
  }

  function AllAfter(subs: seq<Sub>, lo: nat): seq<nat> {
    if subs == [] then []
    else
      var s := subs[|subs| - 1];
      AllAfter(subs[..|subs| - 1], lo) + if Eligible(s) && lo < s.id then [s.id] else []
  }

  /** The subscriptions of a feed whose notices were recorded, in the order of the records. */
  function Heard(sent: seq<Sent>, c: nat): seq<nat> {
    if sent == [] then []
    else
      var s := sent[|sent| - 1];
      Heard(sent[..|sent| - 1], c) + if s.channel == c then [s.sub] else []
  }

  lemma {:induction false} NobodyBetween(subs: seq<Sub>, lo: nat, a: nat, b: nat)
    requires a <= b && forall i :: 0 <= i < |subs| && Eligible(subs[i]) ==> !(a < subs[i].id <= b)
    ensures Between(subs, lo, a) == Between(subs, lo, b)
  {
    if subs != [] {
      NobodyBetween(subs[..|subs| - 1], lo, a, b);
    }
  }

  /** The next listener extends the list by itself: nobody is passed over. */
  lemma {:induction false} NextExtends(subs: seq<Sub>, lo: nat, cursor: nat, i: nat)
    requires Ordered(subs) && lo <= cursor && i < |subs|
    requires Eligible(subs[i]) && subs[i].id > cursor
    requires forall j :: 0 <= j < i ==> !(subs[j].id > cursor && Eligible(subs[j]))
    ensures Between(subs, lo, subs[i].id) == Between(subs, lo, cursor) + [subs[i].id]
  {
    var rest := subs[..|subs| - 1];
    if i < |rest| {
      NextExtends(rest, lo, cursor, i);
    } else {
      NobodyBetween(rest, lo, cursor, subs[i].id);
    }
  }

  lemma {:induction false} NobodyAfter(subs: seq<Sub>, lo: nat, cursor: nat)
    requires lo <= cursor && forall i :: 0 <= i < |subs| ==> !(subs[i].id > cursor && Eligible(subs[i]))
    ensures Between(subs, lo, cursor) == AllAfter(subs, lo)
  {
    if subs != [] {
      NobodyAfter(subs[..|subs| - 1], lo, cursor);
    }
  }

  lemma {:induction false} FirstOfAll(subs: seq<Sub>, cursor: nat, i: nat)
    requires Ordered(subs) && i < |subs| && Eligible(subs[i]) && subs[i].id > cursor
    requires forall j :: 0 <= j < i ==> !(subs[j].id > cursor && Eligible(subs[j]))
    ensures AllAfter(subs, cursor) == [subs[i].id] + AllAfter(subs, subs[i].id)
  {
    var rest := subs[..|subs| - 1];
    if i < |rest| {
      FirstOfAll(rest, cursor, i);
    } else {
      NobodyAfter(rest, cursor, cursor);
      NobodyAfter(rest, subs[i].id, subs[i].id);
      NothingBetween(rest, cursor);
      NothingBetween(rest, subs[i].id);
    }
  }

  lemma {:induction false} NothingBetween(subs: seq<Sub>, lo: nat)
    ensures Between(subs, lo, lo) == []
  {
    if subs != [] {
      NothingBetween(subs[..|subs| - 1], lo);
    }
  }

  // ---------- every interleaving ----------

  /** The announcement goes on under the event: the feed is not announced anew, its subscriptions stay, and
      nobody edits or deletes the channel. */
  ghost predicate SameAnnouncement(w: World, e: Event, c: nat)
    requires c in w.db.feeds
  {
    && !AnnouncesAnew(w, e, c)
    && !(e.Subscribes? && e.channel == c)
    && !(e.Edits? && e.channel == c)
  }

  ghost predicate Announcing(w: World, events: seq<Event>, c: nat)
    decreases |events|
  {
    events == []
    || (c in w.db.feeds && events[0].now >= w.clock && SameAnnouncement(w, events[0], c)
        && Announcing(Next(w, events[0]), events[1..], c))
  }

  /** Since the announcement began with the cursor at `lo`, exactly the eligible listeners up to the cursor
      have heard, in order; the notice that is out goes to the next of them; done means nobody is left. */
  ghost predicate AnnouncedInOrder(w: World, c: nat, subs: seq<Sub>, lo: nat, from: nat) {
    && c in w.db.feeds
    && SubsOf(w.db, c) == subs
    && from <= |w.sent|
    && var f := w.db.feeds[c];
       && lo <= f.noticeCursor
       && Heard(w.sent[from..], c) == Between(subs, lo, f.noticeCursor)
       && (f.noticeToken.Some? ==>
             && f.noticeToken.value in w.notices
             && NextSub(subs, f.noticeCursor).Some?
             && w.notices[f.noticeToken.value].sub == subs[NextSub(subs, f.noticeCursor).value].id)
       && (f.noticeDone ==> NextSub(subs, f.noticeCursor).None?)
  }

  lemma HeardMore(w: World, e: Event, c: nat, from: nat)
    requires NoticeInv(w) && from <= |w.sent|
    ensures from <= |Next(w, e).sent|
    ensures |Next(w, e).sent| == |w.sent| ==> Next(w, e).sent == w.sent
    ensures |Next(w, e).sent| > |w.sent| ==>
      Heard(Next(w, e).sent[from..], c)
      == Heard(w.sent[from..], c)
         + if Next(w, e).sent[|w.sent|].channel == c then [Next(w, e).sent[|w.sent|].sub] else []
  {
    NewRecord(w, e);
    var sent := Next(w, e).sent;
    if |sent| > |w.sent| {
      assert sent[from..][..|sent| - from - 1] == w.sent[from..];
    } else {
      assert sent == w.sent;
    }
  }

  lemma SubsStay(w: World, e: Event, c: nat)
    requires !(e.Subscribes? && e.channel == c) && !(e.Edits? && e.channel == c)
    ensures SubsOf(Next(w, e).db, c) == SubsOf(w.db, c)
  {
  }

  lemma RecordedIsCompleted(w: World, e: Event)
    requires NoticeInv(w) && |Next(w, e).sent| > |w.sent|
    ensures e.Completes? && e.token in w.notices && e.retryAfter.None? && Records(w.db, w.notices[e.token])
    ensures var n := w.notices[e.token];
      Next(w, e).sent == w.sent + [Sent(n.channel, n.sub, n.listener, e.now)]
  {
  }

  lemma StepAnnounces(w: World, e: Event, c: nat, subs: seq<Sub>, lo: nat, from: nat)
    requires NoticeInv(w) && e.now >= w.clock && Ordered(subs)
    requires AnnouncedInOrder(w, c, subs, lo, from) && SameAnnouncement(w, e, c)
    ensures AnnouncedInOrder(Next(w, e), c, subs, lo, from)
  {
    var w' := Next(w, e);
    FeedMoves(w, e, c);
    HeardMore(w, e, c, from);
    SubsStay(w, e, c);
    var f, g := w.db.feeds[c], w'.db.feeds[c];
    if f.noticeToken.Some? {
      NoticesGrow(w, e, f.noticeToken.value);
    }
    if |w'.sent| > |w.sent| {
      RecordedIsCompleted(w, e);
      if w.notices[e.token].channel == c {
        var i := NextSub(subs, f.noticeCursor).value;
        NextExtends(subs, lo, f.noticeCursor, i);
        assert g.noticeCursor == subs[i].id;
      } else {
        assert g.noticeCursor == f.noticeCursor by { OthersRecord(w, e, c); }
      }
    } else {
      NoRecordNoMove(w, e, c);
    }
    if g.noticeToken.Some? && g.noticeToken != f.noticeToken {
      TakenIsNext(w, e, c);
    }
    if g.noticeDone && g.noticeCursor != f.noticeCursor {
      RecordedIsCompleted(w, e);
    }
  }

  lemma OthersRecord(w: World, e: Event, c: nat)
    requires NoticeInv(w) && c in w.db.feeds && e.Completes? && e.token in w.notices && w.notices[e.token].channel != c
    ensures c in Next(w, e).db.feeds && Next(w, e).db.feeds[c] == w.db.feeds[c]
  {
  }

  /** Only a record moves the cursor of an announcement. */
  lemma NoRecordNoMove(w: World, e: Event, c: nat)
    requires NoticeInv(w) && c in w.db.feeds && SameAnnouncement(w, e, c) && |Next(w, e).sent| == |w.sent|
    ensures c in Next(w, e).db.feeds
    ensures Next(w, e).db.feeds[c].noticeCursor == w.db.feeds[c].noticeCursor
  {
    FeedMoves(w, e, c);
    if e.Completes? && e.token in w.notices && w.notices[e.token].channel == c && e.retryAfter.None? {
      assert w.notices[e.token].token == e.token;
    }
  }

  lemma TakenIsNext(w: World, e: Event, c: nat)
    requires NoticeInv(w) && c in w.db.feeds && c in Next(w, e).db.feeds
    requires Next(w, e).db.feeds[c].noticeToken.Some?
    requires Next(w, e).db.feeds[c].noticeToken != w.db.feeds[c].noticeToken
    ensures e.Takes? && ToAnnounce(w.db.feeds, e.now) == Some(c)
    ensures var i := NextSub(SubsOf(w.db, c), w.db.feeds[c].noticeCursor);
      && i.Some?
      && var t := Next(w, e).db.feeds[c].noticeToken.value;
         t in Next(w, e).notices && Next(w, e).notices[t].sub == SubsOf(w.db, c)[i.value].id
  {
    FeedMoves(w, e, c);
  }

  /** Within one announced pause, under any interleaving, the listeners recorded are exactly the eligible ones
      between where it began and the cursor, each once and in subscription order; when it is done, they are
      all of them. */
  lemma {:induction false} EachListenerOnceInOrder(w: World, events: seq<Event>, c: nat, subs: seq<Sub>,
                                                   lo: nat, from: nat)
    requires NoticeInv(w) && Ordered(subs) && AnnouncedInOrder(w, c, subs, lo, from) && Announcing(w, events, c)
    ensures var end := Run(w, events);
      && AnnouncedInOrder(end, c, subs, lo, from)
      && Heard(end.sent[from..], c) == Between(subs, lo, end.db.feeds[c].noticeCursor)
      && (end.db.feeds[c].noticeDone ==> Heard(end.sent[from..], c) == AllAfter(subs, lo))
    decreases |events|
  {
    if events == [] {
      if w.db.feeds[c].noticeDone {
        NobodyAfter(subs, lo, w.db.feeds[c].noticeCursor);
      }
    } else {
      StepKeepsNotices(w, events[0]);
      StepAnnounces(w, events[0], c, subs, lo, from);
      EachListenerOnceInOrder(Next(w, events[0]), events[1..], c, subs, lo, from);
    }
  }

  /** An announcement begins in order: with a pause of a feed not known before, or one that is announced anew,
      nobody has heard and nobody is passed over. */
  lemma AnnouncementBegins(w: World, e: Event, c: nat)
    requires NoticeInv(w) && e.Enqueues? && e.channel == c && e.paused
    requires c in w.db.feeds ==> Renotifies(w.db.feeds[c], true, e.now)
    ensures var w' := Next(w, e);
      && Unannounced(w'.db, c)
      && AnnouncedInOrder(w', c, SubsOf(w'.db, c), 0, |w'.sent|)
      && RisingTo(w', c, |w'.sent|)
      && forall sub: nat :: sub > 0 ==> NotPassedOver(w', c, sub, |w'.sent|)
  {
    NothingBetween(SubsOf(w.db, c), 0);
    assert Next(w, e).sent[|w.sent|..] == [];
  }

  // ---------- while subscriptions and plans change ----------

  /** A pause is still to be announced to somebody, or to be found done. */
  predicate Unannounced(db: Db, c: nat) {
    c in db.feeds && db.feeds[c].paused && !db.feeds[c].noticeDone
  }

  predicate AnnouncesAnew(w: World, e: Event, c: nat)
    requires c in w.db.feeds
  {
    e.Enqueues? && e.channel == c && Renotifies(w.db.feeds[c], e.paused, e.now)
  }

  /** No event of the run announces the feed anew. */
  ghost predicate NotAnew(w: World, events: seq<Event>, c: nat)
    decreases |events|
  {
    events == []
    || (c in w.db.feeds && events[0].now >= w.clock && !AnnouncesAnew(w, events[0], c)
        && NotAnew(Next(w, events[0]), events[1..], c))
  }

  ghost predicate Rising(ids: seq<nat>) {
    forall i, j :: 0 <= i < j < |ids| ==> ids[i] < ids[j]
  }

  /** The records of a feed since `from` rise up to its cursor. */
  ghost predicate RisingTo(w: World, c: nat, from: nat) {
    && c in w.db.feeds
    && from <= |w.sent|
    && Rising(Heard(w.sent[from..], c))
    && forall i :: 0 <= i < |Heard(w.sent[from..], c)| ==>
         Heard(w.sent[from..], c)[i] <= w.db.feeds[c].noticeCursor
  }

  /** Only a record moves the cursor of a feed that is not announced anew, and only up. */
  lemma CursorMoves(w: World, e: Event, c: nat)
    requires NoticeInv(w) && c in w.db.feeds && !AnnouncesAnew(w, e, c)
    ensures c in Next(w, e).db.feeds
    ensures Next(w, e).db.feeds[c].noticeCursor >= w.db.feeds[c].noticeCursor
    ensures |Next(w, e).sent| > |w.sent| && Next(w, e).sent[|w.sent|].channel == c ==>
      Next(w, e).db.feeds[c].noticeCursor == Next(w, e).sent[|w.sent|].sub > w.db.feeds[c].noticeCursor
  {
    FeedMoves(w, e, c);
    NewRecord(w, e);
    assert NoticeOut(w, c);
  }

  lemma StepRises(w: World, e: Event, c: nat, from: nat)
    requires NoticeInv(w) && RisingTo(w, c, from) && !AnnouncesAnew(w, e, c)
    ensures RisingTo(Next(w, e), c, from)
  {
    CursorMoves(w, e, c);
    HeardMore(w, e, c, from);
  }

  /** Within one announced pause the cursor only rises, and so do the subscriptions recorded: each has at most
      one notice, whatever else happens, whoever subscribes, leaves, or has a plan run out meanwhile. */
  lemma {:induction false} CursorOnlyRises(w: World, events: seq<Event>, c: nat, from: nat)
    requires NoticeInv(w) && NotAnew(w, events, c) && RisingTo(w, c, from)
    ensures RisingTo(Run(w, events), c, from)
    ensures Run(w, events).db.feeds[c].noticeCursor >= w.db.feeds[c].noticeCursor
    decreases |events|
  {
    if events != [] {
      StepKeepsNotices(w, events[0]);
      CursorMoves(w, events[0], c);
      StepRises(w, events[0], c, from);
      CursorOnlyRises(Next(w, events[0]), events[1..], c, from);
    }
  }

  /** The subscription is there, and its listener is one to be told. */
  ghost predicate Listens(db: Db, c: nat, sub: nat) {
    exists i :: 0 <= i < |SubsOf(db, c)| && SubsOf(db, c)[i].id == sub && Eligible(SubsOf(db, c)[i])
  }

  ghost predicate StaysOn(w: World, events: seq<Event>, c: nat, sub: nat)
    decreases |events|
  {
    && Ordered(SubsOf(w.db, c)) && Listens(w.db, c, sub)
    && (events == [] || StaysOn(Next(w, events[0]), events[1..], c, sub))
  }

  /** The subscription has been told, or the announcement has still to come to it. */
  ghost predicate NotPassedOver(w: World, c: nat, sub: nat, from: nat) {
    && c in w.db.feeds
    && from <= |w.sent|
    && var f := w.db.feeds[c];
       && (sub <= f.noticeCursor ==> sub in Heard(w.sent[from..], c))
       && (f.noticeToken.Some? ==>
             f.noticeToken.value in w.notices
             && (sub <= f.noticeCursor || w.notices[f.noticeToken.value].sub <= sub))
       && (f.noticeDone ==> sub <= f.noticeCursor)
  }

  /** The next listener is at or before anyone who is to be told and is past the cursor. */
  lemma NextIsNoLater(db: Db, c: nat, sub: nat, cursor: nat)
    requires Ordered(SubsOf(db, c)) && Listens(db, c, sub) && sub > cursor
    ensures NextSub(SubsOf(db, c), cursor).Some?
    ensures SubsOf(db, c)[NextSub(SubsOf(db, c), cursor).value].id <= sub
  {
  }

  lemma CursorTells(w: World, e: Event, c: nat, sub: nat, from: nat)
    requires NoticeInv(w) && NotPassedOver(w, c, sub, from) && !AnnouncesAnew(w, e, c)
    ensures c in Next(w, e).db.feeds && from <= |Next(w, e).sent|
    ensures sub <= Next(w, e).db.feeds[c].noticeCursor ==> sub in Heard(Next(w, e).sent[from..], c)
  {
    var w' := Next(w, e);
    CursorMoves(w, e, c);
    HeardMore(w, e, c, from);
    if |w'.sent| > |w.sent| {
      RecordedIsCompleted(w, e);
    }
    if w'.db.feeds[c].noticeCursor != w.db.feeds[c].noticeCursor {
      FeedMoves(w, e, c);
      assert |w'.sent| > |w.sent| && w'.sent[|w.sent|].channel == c;
    }
  }

  lemma OutIsNoLater(w: World, e: Event, c: nat, sub: nat, from: nat)
    requires NoticeInv(w) && NotPassedOver(w, c, sub, from) && !AnnouncesAnew(w, e, c)
    requires Ordered(SubsOf(w.db, c)) && Listens(w.db, c, sub)
    ensures c in Next(w, e).db.feeds
    ensures var g := Next(w, e).db.feeds[c];
      && (g.noticeToken.Some? ==>
            g.noticeToken.value in Next(w, e).notices
            && (sub <= g.noticeCursor || Next(w, e).notices[g.noticeToken.value].sub <= sub))
      && (g.noticeDone ==> sub <= g.noticeCursor)
  {
    CursorMoves(w, e, c);
    FeedMoves(w, e, c);
    var f, g := w.db.feeds[c], Next(w, e).db.feeds[c];
    if f.noticeToken.Some? {
      NoticesGrow(w, e, f.noticeToken.value);
    }
    if sub > f.noticeCursor {
      NextIsNoLater(w.db, c, sub, f.noticeCursor);
    }
    if g.noticeToken.Some? && g.noticeToken != f.noticeToken {
      TakenIsNext(w, e, c);
    }
  }

  lemma StepPassesNobodyOver(w: World, e: Event, c: nat, sub: nat, from: nat)
    requires NoticeInv(w) && NotPassedOver(w, c, sub, from) && !AnnouncesAnew(w, e, c)
    requires Ordered(SubsOf(w.db, c)) && Listens(w.db, c, sub)
    ensures NotPassedOver(Next(w, e), c, sub, from)
  {
    CursorTells(w, e, c, sub, from);
    OutIsNoLater(w, e, c, sub, from);
  }

  /** Whoever stays subscribed with a running plan throughout an announcement is told exactly once by the time
      it is done, whatever the other listeners do. */
  lemma {:induction false} WhoStaysIsTold(w: World, events: seq<Event>, c: nat, sub: nat, from: nat)
    requires NoticeInv(w) && NotAnew(w, events, c) && StaysOn(w, events, c, sub)
    requires RisingTo(w, c, from) && NotPassedOver(w, c, sub, from)
    ensures var end := Run(w, events);
      && NotPassedOver(end, c, sub, from)
      && Rising(Heard(end.sent[from..], c))
      && (end.db.feeds[c].noticeDone ==> sub in Heard(end.sent[from..], c))
    decreases |events|
  {
    if events != [] {
      var e := events[0];
      StepKeepsNotices(w, e);
      StepRises(w, e, c, from);
      StepPassesNobodyOver(w, e, c, sub, from);
      WhoStaysIsTold(Next(w, e), events[1..], c, sub, from);
    }
  }
}
