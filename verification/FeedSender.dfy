/** The sender of pause notices: its hold protects the notice that is out, and left to complete what it takes it
    announces every pause, whatever workers, clicks, subscribers and plans do in between. */
module FeedSender {
  import opened Prelude
  import opened FeedRecovery
  import opened FeedRuns
  import opened FeedNotices

  // ---------- pauses begin and end ----------

  predicate BeginsPause(w: World, e: Event, c: nat) {
    e.Enqueues? && e.channel == c && e.paused && !(c in w.db.feeds && w.db.feeds[c].paused)
  }

  /** A successful fetch, or a finish that finds the channel gone or repairs it. */
  predicate EndsPause(w: World, e: Event, c: nat) {
    && c in w.db.feeds && w.db.feeds[c].paused
    && ((e.Fetches? && e.channel == c)
        || (TakesEffect(w, e) && w.jobs[e.token].channel == c
            && (c !in w.db.channels || (e.url != "" && Unchanged(w.db, c, e.before)))))
  }

  /** Nothing else moves a pause, except that old dead feeds enter paused with nobody to tell. */
  lemma PauseMoves(w: World, e: Event, c: nat)
    ensures c in w.db.feeds ==> c in Next(w, e).db.feeds
    ensures c in w.db.feeds ==>
      (Next(w, e).db.feeds[c].paused
       <==> BeginsPause(w, e, c) || (w.db.feeds[c].paused && !EndsPause(w, e, c)))
    ensures c !in w.db.feeds && c in Next(w, e).db.feeds && Next(w, e).db.feeds[c].paused ==>
      BeginsPause(w, e, c) || Next(w, e).db.feeds[c].noticeDone
  {
    FeedMoves(w, e, c);
  }

  // ---------- the hold ----------

  /** Before `until`, nobody completes the notice and its feed's pause goes on. */
  ghost predicate Undecided(w: World, events: seq<Event>, c: nat, token: nat, until: int)
    decreases |events|
  {
    events == []
    || (w.clock <= events[0].now < until && !EndsPause(w, events[0], c)
        && !(events[0].Completes? && events[0].token == token)
        && Undecided(Next(w, events[0]), events[1..], c, token, until))
  }

  /** The notice stays the one out for its feed while its hold lasts and its pause goes on, whatever else
      happens meanwhile: completing it then still counts. */
  lemma {:induction false} HoldProtectsNotice(w: World, events: seq<Event>, c: nat, token: nat, until: int)
    requires NoticeInv(w) && c in w.db.feeds && token in w.notices && Undecided(w, events, c, token, until)
    requires var f := w.db.feeds[c];
      f.paused && f.noticeToken == Some(token) && f.noticeAfter >= until
    ensures token in Run(w, events).notices && Run(w, events).notices[token] == w.notices[token]
    ensures Records(Run(w, events).db, w.notices[token])
    decreases |events|
  {
    if events == [] {
      assert NoticeOut(w, c);
    } else {
      var e := events[0];
      FeedMoves(w, e, c);
      PauseMoves(w, e, c);
      NoticesGrow(w, e, token);
      StepKeepsNotices(w, e);
      HoldProtectsNotice(Next(w, e), events[1..], c, token, until);
    }
  }

  // ---------- one sender among everything else ----------

  /** The notice the sender has in hand after the event. */
  function Held(w: World, held: Option<Notice>, e: Event): Option<Notice> {
    if e.Takes? then NextNotice(w.db, e.now).1 else if e.Completes? then None else held
  }

  /** The one sender finishes a notice, sent or put off by a flood, before it takes the next. Anything else may
      happen: pauses of any feed begin and end, the one in hand included. */
  ghost predicate Sends(w: World, held: Option<Notice>, e: Event) {
    && e.now >= w.clock
    && (e.Takes? ==> held.None?)
    && (e.Completes? ==> held.Some? && held.value.token == e.token)
    && (e.Subscribes? ==> Ordered(e.subs))
  }

  ghost predicate AllSends(w: World, held: Option<Notice>, events: seq<Event>)
    decreases |events|
  {
    events == [] || (Sends(w, held, events[0]) && AllSends(Next(w, events[0]), Held(w, held, events[0]), events[1..]))
  }

  /** The notice in hand is still the one out for the feed. */
  predicate IsHeld(db: Db, held: Option<Notice>, c: nat) {
    && held.Some? && held.value.channel == c
    && c in db.feeds && db.feeds[c].noticeToken == Some(held.value.token)
  }

  ghost predicate Ready(w: World, held: Option<Notice>) {
    && NoticeInv(w)
    && (forall c :: c in w.db.subs ==> Ordered(w.db.subs[c]))
    && (held.Some? ==> held.value.token in w.notices && w.notices[held.value.token] == held.value)
  }

  /** Where an announcement goes on: past the notice in hand, or past the cursor. */
  function From(db: Db, held: Option<Notice>, c: nat): nat
    requires c in db.feeds
  {
    if IsHeld(db, held, c) then held.value.sub else db.feeds[c].noticeCursor
  }

  /** The turns a feed's announcement still takes: one per listener, and one that finds nobody. */
  function TurnsLeft(db: Db, held: Option<Notice>, c: nat): nat {
    if Unannounced(db, c) then |AllAfter(SubsOf(db, c), From(db, held, c))| + 1 else 0
  }

  ghost function AllTurnsLeft(db: Db, held: Option<Notice>): nat {
    SetSum(db.feeds.Keys, c => TurnsLeft(db, held, c))
  }

  /** The feed whose turns the event changes, if it changes any. */
  function Touched(w: World, held: Option<Notice>, e: Event): nat {
    match e
    case Subscribes(c, _, _) => c
    case Edits(c, _, _) => c
    case Enqueues(c, _, _, _, _) => c
    case Takes(now) => var c := ToAnnounce(w.db.feeds, now); if c.Some? then c.value else 0
    case Completes(_, _, _) => if held.Some? then held.value.channel else 0
    case _ => 0
  }

  /** The turns an event may add: a pause that begins, new subscriptions, and the listeners a flood puts off. */
  function Extra(w: World, held: Option<Notice>, e: Event): nat {
    match e
    case Subscribes(_, subs, _) => |subs|
    case Edits(c, to, _) => if to.Some? && c in w.db.subs then |w.db.subs[c]| else 0
    case Enqueues(c, _, _, _, _) => if BeginsPause(w, e, c) then |SubsOf(w.db, c)| + 1 else 0
    case Completes(_, retryAfter, _) =>
      if held.Some? && retryAfter.Some? && IsHeld(w.db, held, held.value.channel)
      then |Between(SubsOf(w.db, held.value.channel), w.db.feeds[held.value.channel].noticeCursor, held.value.sub)|
      else 0
    case _ => 0
  }

  /** The turn finds a feed to announce. */
  predicate FindsAFeed(w: World, e: Event) {
    e.Takes? && ToAnnounce(w.db.feeds, e.now).Some?
  }

  lemma {:induction false} NotMoreThanAll(subs: seq<Sub>, lo: nat)
    ensures |AllAfter(subs, lo)| <= |subs|
  {
    if subs != [] {
      NotMoreThanAll(subs[..|subs| - 1], lo);
    }
  }

  lemma {:induction false} InTwoParts(subs: seq<Sub>, lo: nat, hi: nat)
    requires lo <= hi
    ensures |AllAfter(subs, lo)| == |Between(subs, lo, hi)| + |AllAfter(subs, hi)|
  {
    if subs != [] {
      InTwoParts(subs[..|subs| - 1], lo, hi);
    }
  }

  lemma NobodyLeft(subs: seq<Sub>, cursor: nat)
    requires NextSub(subs, cursor).None?
    ensures AllAfter(subs, cursor) == []
  {
    NobodyAfter(subs, cursor, cursor);
    NothingBetween(subs, cursor);
  }

  // event by event

  lemma TakeStep(w: World, now: int, c: nat)
    requires Ready(w, None) && now >= w.clock && ToAnnounce(w.db.feeds, now) == Some(c)
    ensures var w', held := Next(w, Takes(now)), NextNotice(w.db, now).1;
      && c in w'.db.feeds && w'.db.feeds == w.db.feeds[c := w'.db.feeds[c]]
      && w'.db.subs == w.db.subs && w'.db.channels == w.db.channels
      && (held.Some? ==> held.value.channel == c)
      && Ready(w', held)
      && TurnsLeft(w'.db, held, c) == TurnsLeft(w.db, None, c) - 1
  {
    StepKeepsNotices(w, Takes(now));
    var subs, cursor := SubsOf(w.db, c), w.db.feeds[c].noticeCursor;
    var i := NextSub(subs, cursor);
    if i.Some? {
      FirstOfAll(subs, cursor, i.value);
    } else {
      NobodyLeft(subs, cursor);
    }
  }

  lemma CompleteStep(w: World, held: Option<Notice>, e: Event)
    requires Ready(w, held) && e.Completes? && Sends(w, held, e)
    ensures var w', c := Next(w, e), held.value.channel;
      && Ready(w', None)
      && w'.db.subs == w.db.subs && w'.db.channels == w.db.channels
      && (forall d :: d != c ==> (d in w'.db.feeds <==> d in w.db.feeds))
      && (forall d :: d != c && d in w.db.feeds ==> w'.db.feeds[d] == w.db.feeds[d])
      && TurnsLeft(w'.db, None, c) <= TurnsLeft(w.db, held, c) + Extra(w, held, e)
  {
    StepKeepsNotices(w, e);
    var c := held.value.channel;
    assert w.notices[e.token].token == e.token;
    if IsHeld(w.db, held, c) {
      assert NoticeOut(w, c);
      InTwoParts(SubsOf(w.db, c), w.db.feeds[c].noticeCursor, held.value.sub);
    }
  }

  /** The other events leave the place of every announcement, unless it begins anew. */
  lemma NoticesStay(w: World, e: Event, c: nat)
    requires !e.Takes? && !e.Completes? && !BeginsPause(w, e, c)
    ensures c in w.db.feeds ==>
      && c in Next(w, e).db.feeds
      && var f, g := w.db.feeds[c], Next(w, e).db.feeds[c];
         && (g.paused ==> f.paused) && g.noticeDone == f.noticeDone && g.noticeCursor == f.noticeCursor
         && g.noticeAfter == f.noticeAfter && g.noticeToken == f.noticeToken
    ensures c !in w.db.feeds ==> !Unannounced(Next(w, e).db, c)
    ensures !(e.Subscribes? && e.channel == c) && !(e.Edits? && e.channel == c) ==>
      SubsOf(Next(w, e).db, c) == SubsOf(w.db, c)
  {
    FeedMoves(w, e, c);
    PauseMoves(w, e, c);
  }

  lemma OtherStep(w: World, held: Option<Notice>, e: Event)
    requires Ready(w, held) && Sends(w, held, e) && !e.Takes? && !e.Completes?
    ensures Ready(Next(w, e), held)
  {
    StepKeepsNotices(w, e);
    if held.Some? {
      NoticesGrow(w, e, held.value.token);
    }
  }

  lemma StepKeepsReady(w: World, held: Option<Notice>, e: Event)
    requires Ready(w, held) && Sends(w, held, e)
    ensures Ready(Next(w, e), Held(w, held, e))
  {
    if e.Takes? {
      if ToAnnounce(w.db.feeds, e.now).Some? {
        TakeStep(w, e.now, ToAnnounce(w.db.feeds, e.now).value);
      } else {
        StepKeepsNotices(w, e);
      }
    } else if e.Completes? {
      CompleteStep(w, held, e);
    } else {
      OtherStep(w, held, e);
    }
  }

  lemma OtherCountsFeed(w: World, held: Option<Notice>, e: Event, c: nat)
    requires !e.Takes? && !e.Completes? && !BeginsPause(w, e, c)
    ensures var left, left' := TurnsLeft(w.db, held, c), TurnsLeft(Next(w, e).db, held, c);
      && (c == Touched(w, held, e) ==> left' <= left + Extra(w, held, e))
      && (c != Touched(w, held, e) ==> left' <= left)
  {
    NoticesStay(w, e, c);
    if Unannounced(w.db, c) {
      NotMoreThanAll(SubsOf(Next(w, e).db, c), From(w.db, held, c));
    }
  }

  lemma BeginningCountsFeed(w: World, held: Option<Notice>, e: Event, c: nat)
    requires BeginsPause(w, e, c)
    ensures TurnsLeft(Next(w, e).db, held, c) <= Extra(w, held, e)
    ensures c == Touched(w, held, e)
  {
    var db := Next(w, e).db;
    assert SubsOf(db, c) == SubsOf(w.db, c);
    if Unannounced(db, c) {
      NotMoreThanAll(SubsOf(db, c), From(db, held, c));
    }
  }

  /** Feed by feed: a turn that finds it takes one, what the event adds is counted, nothing else adds any. */
  lemma StepCountsFeed(w: World, held: Option<Notice>, e: Event, c: nat)
    requires Ready(w, held) && Sends(w, held, e)
    ensures var left, left' := TurnsLeft(w.db, held, c), TurnsLeft(Next(w, e).db, Held(w, held, e), c);
      && (c == Touched(w, held, e) ==>
            left' + (if FindsAFeed(w, e) then 1 else 0) <= left + Extra(w, held, e))
      && (c != Touched(w, held, e) ==> left' <= left)
  {
    if e.Takes? {
      if FindsAFeed(w, e) {
        TakeCountsFeed(w, e.now, c);
      }
    } else if e.Completes? {
      CompleteCountsFeed(w, held, e, c);
    } else if BeginsPause(w, e, c) {
      BeginningCountsFeed(w, held, e, c);
    } else {
      OtherCountsFeed(w, held, e, c);
    }
  }

  lemma TakeCountsFeed(w: World, now: int, c: nat)
    requires Ready(w, None) && now >= w.clock && ToAnnounce(w.db.feeds, now).Some?
    ensures var left, left' := TurnsLeft(w.db, None, c), TurnsLeft(Next(w, Takes(now)).db, NextNotice(w.db, now).1, c);
      left' == if ToAnnounce(w.db.feeds, now) == Some(c) then left - 1 else left
  {
    TakeStep(w, now, ToAnnounce(w.db.feeds, now).value);
  }

  lemma CompleteCountsFeed(w: World, held: Option<Notice>, e: Event, c: nat)
    requires Ready(w, held) && e.Completes? && Sends(w, held, e)
    ensures var left, left' := TurnsLeft(w.db, held, c), TurnsLeft(Next(w, e).db, None, c);
      left' <= left + if c == held.value.channel then Extra(w, held, e) else 0
  {
    CompleteStep(w, held, e);
  }

  // ---------- all feeds together ----------

  /** A sum that grows by at most `up` less `down` at x and nowhere else. */
  lemma {:induction false} SumMoves(s: set<nat>, f: nat -> nat, g: nat -> nat, x: nat, up: nat, down: nat)
    requires forall d :: d in s && d != x ==> g(d) <= f(d)
    requires x in s ==> g(x) + down <= f(x) + up
    ensures SetSum(s, g) + (if x in s then down else 0) <= SetSum(s, f) + up
  {
    if d :| d in s {
      SumMoves(s - {d}, f, g, x, if d == x then 0 else up, if d == x then 0 else down);
      SetSumWith(s - {d}, d, f);
      SetSumWith(s - {d}, d, g);
      assert s == (s - {d}) + {d};
    }
  }

  lemma {:induction false} NothingOutside(s: set<nat>, more: set<nat>, f: nat -> nat)
    requires s <= more && forall d :: d in more - s ==> f(d) == 0
    ensures SetSum(more, f) == SetSum(s, f)
    decreases more
  {
    if more != s {
      var d :| d in more && d !in s;
      NothingOutside(s, more - {d}, f);
      SetSumWith(more - {d}, d, f);
      assert more == (more - {d}) + {d};
    }
  }

  lemma NothingLeft(db: Db, held: Option<Notice>)
    ensures AllTurnsLeft(db, held) == 0 <==> forall c :: !Unannounced(db, c)
  {
    if c :| Unannounced(db, c) {
      SetSumWith(db.feeds.Keys - {c}, c, d => TurnsLeft(db, held, d));
      assert db.feeds.Keys == (db.feeds.Keys - {c}) + {c};
    } else {
      NothingOutside({}, db.feeds.Keys, c => TurnsLeft(db, held, c));
    }
  }

  lemma FeedsStay(w: World, e: Event)
    ensures w.db.feeds.Keys <= Next(w, e).db.feeds.Keys
  {
    forall c | c in w.db.feeds
      ensures c in Next(w, e).db.feeds
    {
      FeedMoves(w, e, c);
    }
  }

  /** Each turn that finds a feed takes one of all the turns left; what the event adds is counted. */
  lemma StepCounts(w: World, held: Option<Notice>, e: Event)
    requires Ready(w, held) && Sends(w, held, e)
    ensures AllTurnsLeft(Next(w, e).db, Held(w, held, e)) + (if FindsAFeed(w, e) then 1 else 0)
         <= AllTurnsLeft(w.db, held) + Extra(w, held, e)
  {
    var w', held' := Next(w, e), Held(w, held, e);
    var f: nat -> nat, g: nat -> nat := c => TurnsLeft(w.db, held, c), c => TurnsLeft(w'.db, held', c);
    var x, up, down: nat := Touched(w, held, e), Extra(w, held, e), if FindsAFeed(w, e) then 1 else 0;
    FeedsStay(w, e);
    forall c: nat
      ensures c != x ==> g(c) <= f(c)
      ensures c == x ==> g(c) + down <= f(c) + up
    {
      StepCountsFeed(w, held, e, c);
    }
    NothingOutside(w.db.feeds.Keys, w'.db.feeds.Keys, f);
    SumMoves(w'.db.feeds.Keys, f, g, x, up, down);
  }

  ghost function ExtraIn(w: World, held: Option<Notice>, events: seq<Event>): nat
    decreases |events|
  {
    if events == [] then 0
    else Extra(w, held, events[0]) + ExtraIn(Next(w, events[0]), Held(w, held, events[0]), events[1..])
  }

  ghost function HeldAfter(w: World, held: Option<Notice>, events: seq<Event>): Option<Notice>
    decreases |events|
  {
    if events == [] then held else HeldAfter(Next(w, events[0]), Held(w, held, events[0]), events[1..])
  }

  /** The turns of a run that found a feed to announce. */
  ghost function FoundIn(w: World, events: seq<Event>): nat
    decreases |events|
  {
    if events == [] then 0 else (if FindsAFeed(w, events[0]) then 1 else 0) + FoundIn(Next(w, events[0]), events[1..])
  }

  /** The turns that find a feed, and those still left, are never more than the turns left before and those the
      run added: one per listener, one per feed, whatever else happens. */
  lemma {:induction false} TurnsAreBounded(w: World, held: Option<Notice>, events: seq<Event>)
    requires Ready(w, held) && AllSends(w, held, events)
    ensures FoundIn(w, events) + AllTurnsLeft(Run(w, events).db, HeldAfter(w, held, events))
         <= AllTurnsLeft(w.db, held) + ExtraIn(w, held, events)
    decreases |events|
  {
    if events != [] {
      StepKeepsReady(w, held, events[0]);
      StepCounts(w, held, events[0]);
      TurnsAreBounded(Next(w, events[0]), Held(w, held, events[0]), events[1..]);
    }
  }

  // ---------- and the announcements end ----------

  /** A turn at a time when no announcement waits for a hold or a flood. */
  ghost predicate InTime(w: World, e: Event) {
    e.Takes? && forall c :: Unannounced(w.db, c) ==> w.db.feeds[c].noticeAfter <= e.now
  }

  ghost function InTimeIn(w: World, events: seq<Event>): nat
    decreases |events|
  {
    if events == [] then 0 else (if InTime(w, events[0]) then 1 else 0) + InTimeIn(Next(w, events[0]), events[1..])
  }

  /** Such a turn finds a feed while anything is left. */
  lemma InTimeFinds(w: World, held: Option<Notice>, e: Event)
    requires InTime(w, e) && AllTurnsLeft(w.db, held) > 0
    ensures FindsAFeed(w, e)
  {
    NothingLeft(w.db, held);
    var c :| Unannounced(w.db, c);
    assert Announces(w.db.feeds[c], e.now);
  }

  /** Everything has been announced after the first n events. */
  ghost predicate AllAnnounced(w: World, events: seq<Event>, n: nat)
    requires n <= |events|
  {
    forall c :: !Unannounced(Run(w, events[..n]).db, c)
  }

  /** Whatever begins, ends, floods and changes meanwhile: a sender that makes, when nothing waits, one turn per
      eligible listener, one per feed and one for each the run adds, comes to a moment when every pause, of
      however many feeds, has been announced. */
  lemma {:induction false} AnnouncementsEnd(w: World, held: Option<Notice>, events: seq<Event>) returns (n: nat)
    requires Ready(w, held) && AllSends(w, held, events)
    requires InTimeIn(w, events) >= AllTurnsLeft(w.db, held) + ExtraIn(w, held, events)
    ensures n <= |events| && AllAnnounced(w, events, n)
    decreases |events|
  {
    if AllTurnsLeft(w.db, held) == 0 {
      NothingLeft(w.db, held);
      n := 0;
    } else {
      var e := events[0];
      StepKeepsReady(w, held, e);
      StepCounts(w, held, e);
      if InTime(w, e) {
        InTimeFinds(w, held, e);
      }
      var m := AnnouncementsEnd(Next(w, e), Held(w, held, e), events[1..]);
      n := m + 1;
      assert events[..n][0] == e && events[..n][1..] == events[1..][..m];
    }
  }

  ghost predicate NoPauseBegins(w: World, events: seq<Event>)
    decreases |events|
  {
    events == [] || ((forall c :: !BeginsPause(w, events[0], c)) && NoPauseBegins(Next(w, events[0]), events[1..]))
  }

  lemma StaysAnnounced(w: World, e: Event, c: nat)
    requires !Unannounced(w.db, c) && !BeginsPause(w, e, c)
    ensures !Unannounced(Next(w, e).db, c)
  {
    FeedMoves(w, e, c);
    PauseMoves(w, e, c);
  }

  /** From then on nothing is left to announce until another pause begins. */
  lemma {:induction false} AnnouncedUntilAPause(w: World, events: seq<Event>)
    requires (forall c :: !Unannounced(w.db, c)) && NoPauseBegins(w, events)
    ensures forall c :: !Unannounced(Run(w, events).db, c)
    decreases |events|
  {
    if events != [] {
      forall c
        ensures !Unannounced(Next(w, events[0]).db, c)
      {
        StaysAnnounced(w, events[0], c);
      }
      AnnouncedUntilAPause(Next(w, events[0]), events[1..]);
    }
  }

  // ---------- and who has heard by then ----------

  /** The feed's own pause goes on. */
  ghost predicate PauseLasts(w: World, events: seq<Event>, c: nat)
    decreases |events|
  {
    events == [] || (!EndsPause(w, events[0], c) && PauseLasts(Next(w, events[0]), events[1..], c))
  }

  lemma DoneStays(w: World, e: Event, c: nat)
    requires c in w.db.feeds && w.db.feeds[c].paused && !EndsPause(w, e, c)
    ensures c in Next(w, e).db.feeds && Next(w, e).db.feeds[c].paused
    ensures w.db.feeds[c].noticeDone ==> Next(w, e).db.feeds[c].noticeDone
    ensures !AnnouncesAnew(w, e, c)
  {
    PauseMoves(w, e, c);
    FeedMoves(w, e, c);
  }

  lemma {:induction false} LastingIsNotAnew(w: World, held: Option<Notice>, events: seq<Event>, c: nat)
    requires AllSends(w, held, events) && PauseLasts(w, events, c) && c in w.db.feeds && w.db.feeds[c].paused
    ensures NotAnew(w, events, c)
    ensures c in Run(w, events).db.feeds
    ensures w.db.feeds[c].noticeDone ==> Run(w, events).db.feeds[c].noticeDone
    decreases |events|
  {
    if events != [] {
      DoneStays(w, events[0], c);
      LastingIsNotAnew(Next(w, events[0]), Held(w, held, events[0]), events[1..], c);
    }
  }

  /** A feed whose own pause goes on is announced by then, and stays so. */
  lemma {:induction false} FeedIsAnnounced(w: World, held: Option<Notice>, events: seq<Event>, c: nat)
    requires Ready(w, held) && AllSends(w, held, events)
    requires InTimeIn(w, events) >= AllTurnsLeft(w.db, held) + ExtraIn(w, held, events)
    requires c in w.db.feeds && w.db.feeds[c].paused && PauseLasts(w, events, c)
    ensures c in Run(w, events).db.feeds && Run(w, events).db.feeds[c].noticeDone
    decreases |events|
  {
    if AllTurnsLeft(w.db, held) == 0 {
      NothingLeft(w.db, held);
      assert !Unannounced(w.db, c);
      LastingIsNotAnew(w, held, events, c);
    } else {
      var e := events[0];
      StepKeepsReady(w, held, e);
      StepCounts(w, held, e);
      DoneStays(w, e, c);
      if InTime(w, e) {
        InTimeFinds(w, held, e);
      }
      FeedIsAnnounced(Next(w, e), Held(w, held, e), events[1..], c);
    }
  }

  /** By then exactly the eligible listeners of a feed whose subscriptions stayed have heard of its pause, each
      once and in order, whatever the other feeds do. */
  lemma AllAreTold(w: World, held: Option<Notice>, events: seq<Event>, c: nat, subs: seq<Sub>, lo: nat, from: nat)
    requires Ready(w, held) && AllSends(w, held, events)
    requires InTimeIn(w, events) >= AllTurnsLeft(w.db, held) + ExtraIn(w, held, events)
    requires Ordered(subs) && AnnouncedInOrder(w, c, subs, lo, from) && Announcing(w, events, c)
    requires w.db.feeds[c].paused && PauseLasts(w, events, c)
    ensures var end := Run(w, events); from <= |end.sent| && Heard(end.sent[from..], c) == AllAfter(subs, lo)
  {
    FeedIsAnnounced(w, held, events, c);
    EachListenerOnceInOrder(w, events, c, subs, lo, from);
  }

  /** And whoever stayed subscribed with a running plan has heard exactly once, whatever the other listeners and
      the other feeds did. */
  lemma WhoStaysHearsOnce(w: World, held: Option<Notice>, events: seq<Event>, c: nat, sub: nat, from: nat)
    requires Ready(w, held) && AllSends(w, held, events)
    requires InTimeIn(w, events) >= AllTurnsLeft(w.db, held) + ExtraIn(w, held, events)
    requires StaysOn(w, events, c, sub) && RisingTo(w, c, from) && NotPassedOver(w, c, sub, from)
    requires w.db.feeds[c].paused && PauseLasts(w, events, c)
    ensures from <= |Run(w, events).sent|
    ensures var heard := Heard(Run(w, events).sent[from..], c);
      && sub in heard
      && forall i, j :: 0 <= i < |heard| && 0 <= j < |heard| && heard[i] == sub && heard[j] == sub ==> i == j
  {
    FeedIsAnnounced(w, held, events, c);
    LastingIsNotAnew(w, held, events, c);
    WhoStaysIsTold(w, events, c, sub, from);
  }

  // ---------- a sender that nothing holds up ----------

  /** No announcement but that of the notice in hand waits for anything. */
  ghost predicate NothingWaits(w: World, held: Option<Notice>) {
    && w.clock >= 0
    && (held.Some? ==> IsHeld(w.db, held, held.value.channel) && w.db.feeds[held.value.channel].paused)
    && forall c :: c in w.db.feeds && !w.db.feeds[c].noticeDone && !IsHeld(w.db, held, c) ==>
         w.db.feeds[c].noticeAfter <= w.clock
  }

  /** It meets no flood, and the pause it is telling of does not end under it. */
  ghost predicate Undisturbed(w: World, held: Option<Notice>, e: Event) {
    && (e.Completes? ==> e.retryAfter.None?)
    && (held.Some? ==> !EndsPause(w, e, held.value.channel))
  }

  ghost predicate AllUndisturbed(w: World, held: Option<Notice>, events: seq<Event>)
    decreases |events|
  {
    events == []
    || (Undisturbed(w, held, events[0])
        && AllUndisturbed(Next(w, events[0]), Held(w, held, events[0]), events[1..]))
  }

  lemma FeedWaitsForNothing(w: World, held: Option<Notice>, e: Event, c: nat)
    requires Ready(w, held) && Sends(w, held, e) && NothingWaits(w, held) && Undisturbed(w, held, e)
    requires c in Next(w, e).db.feeds && !Next(w, e).db.feeds[c].noticeDone
    requires !IsHeld(Next(w, e).db, Held(w, held, e), c)
    ensures Next(w, e).db.feeds[c].noticeAfter <= e.now
  {
    FeedMoves(w, e, c);
    if e.Completes? && held.value.channel == c {
      assert w.notices[e.token].token == e.token;
    }
  }

  lemma StepWaitsForNothing(w: World, held: Option<Notice>, e: Event)
    requires Ready(w, held) && Sends(w, held, e) && NothingWaits(w, held) && Undisturbed(w, held, e)
    ensures NothingWaits(Next(w, e), Held(w, held, e))
  {
    ClockMoves(w, e);
    var w', held' := Next(w, e), Held(w, held, e);
    forall c | c in w'.db.feeds && !w'.db.feeds[c].noticeDone && !IsHeld(w'.db, held', c)
      ensures w'.db.feeds[c].noticeAfter <= w'.clock
    {
      FeedWaitsForNothing(w, held, e, c);
    }
    if held'.Some? {
      var c := held'.value.channel;
      PauseMoves(w, e, c);
      FeedMoves(w, e, c);
    }
  }

  function TakesIn(events: seq<Event>): nat {
    if events == [] then 0 else (if events[0].Takes? then 1 else 0) + TakesIn(events[1..])
  }

  /** Then every turn is made in time: pauses that begin, and pauses of other feeds that end, hold up nothing. */
  lemma {:induction false} EveryTurnIsInTime(w: World, held: Option<Notice>, events: seq<Event>)
    requires Ready(w, held) && AllSends(w, held, events) && NothingWaits(w, held) && AllUndisturbed(w, held, events)
    ensures InTimeIn(w, events) == TakesIn(events)
    decreases |events|
  {
    if events != [] {
      StepKeepsReady(w, held, events[0]);
      StepWaitsForNothing(w, held, events[0]);
      EveryTurnIsInTime(Next(w, events[0]), Held(w, held, events[0]), events[1..]);
    }
  }
}
