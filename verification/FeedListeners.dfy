/** Pause notices listener by listener. The feed remembers subscriptions, not listeners: who unsubscribes loses
    the row, and who subscribes again gets a new one (db/sqliteAdapter.py:843-850, 897-901). */
module FeedListeners {
  import opened Prelude
  import opened FeedRecovery
  import opened FeedRuns

  // ---------- one subscription per listener ----------

  /** Every listener's subscription to the channel has the id that `id` says. */
  ghost predicate Known(channel: nat, subs: seq<Sub>, id: (nat, int) -> nat) {
    forall i :: 0 <= i < |subs| ==> subs[i].id == id(channel, subs[i].listener)
  }

  /** Nobody comes back under another id: the initial subscriptions and every later list agree on them. */
  ghost predicate SameIds(subs: map<nat, seq<Sub>>, events: seq<Event>, id: (nat, int) -> nat) {
    && (forall c :: c in subs ==> Known(c, subs[c], id))
    && (forall k :: 0 <= k < |events| && events[k].Subscribes? ==> Known(events[k].channel, events[k].subs, id))
  }

  ghost predicate ByListener(w: World, id: (nat, int) -> nat) {
    && (forall c :: c in w.db.subs ==> Known(c, w.db.subs[c], id))
    && (forall t :: t in w.notices ==> w.notices[t].sub == id(w.notices[t].channel, w.notices[t].listener))
    && (forall k :: 0 <= k < |w.sent| ==> w.sent[k].sub == id(w.sent[k].channel, w.sent[k].listener))
  }

  lemma StepByListener(w: World, e: Event, id: (nat, int) -> nat)
    requires ByListener(w, id) && (e.Subscribes? ==> Known(e.channel, e.subs, id))
    ensures ByListener(Next(w, e), id)
  {
  }

  lemma {:induction false} RunByListener(w: World, events: seq<Event>, id: (nat, int) -> nat)
    requires ByListener(w, id)
    requires forall k :: 0 <= k < |events| && events[k].Subscribes? ==> Known(events[k].channel, events[k].subs, id)
    ensures ByListener(Run(w, events), id)
    decreases |events|
  {
    if events != [] {
      StepByListener(w, events[0], id);
      RunByListener(Next(w, events[0]), events[1..], id);
    }
  }

  /** While no listener comes back under another id, two notices recorded as sent to one listener of one feed
      are at least a week apart, over every run. */
  lemma ListenersHearWeekly(channels: map<nat, Channel>, subs: map<nat, seq<Sub>>, events: seq<Event>,
                            id: (nat, int) -> nat, i: nat, j: nat)
    requires Timely(Begin(channels, subs), events) && SameIds(subs, events, id)
    requires var sent := Run(Begin(channels, subs), events).sent;
      i < j < |sent| && sent[i].channel == sent[j].channel && sent[i].listener == sent[j].listener
    ensures var sent := Run(Begin(channels, subs), events).sent;
      sent[j].at >= sent[i].at + NOTICE_REPEAT_SECONDS
  {
    RunByListener(Begin(channels, subs), events, id);
    NoticesAreAWeekApart(channels, subs, events, i, j);
  }

  // ---------- coming back ----------

  /** One turn of the sender, alone. */
  function Turn(w: World, now: int, done: int): World {
    Next(Next(w, Takes(now)), Completes(w.db.tokens, None, done))
  }

  lemma TakeHandsOut(w: World, c: nat, i: nat, now: int)
    requires ToAnnounce(w.db.feeds, now) == Some(c) && NextSub(SubsOf(w.db, c), w.db.feeds[c].noticeCursor) == Some(i)
    ensures var taken := Next(w, Takes(now)); var next := SubsOf(w.db, c)[i];
      && w.db.tokens in taken.notices
      && taken.notices[w.db.tokens] == Notice(c, next.id, next.listener, w.db.tokens)
      && taken.sent == w.sent && Records(taken.db, taken.notices[w.db.tokens])
  {
  }

  /** A turn goes to the next subscription past the cursor, whoever holds it. */
  lemma TurnRecords(w: World, c: nat, i: nat, now: int, done: int)
    requires ToAnnounce(w.db.feeds, now) == Some(c) && NextSub(SubsOf(w.db, c), w.db.feeds[c].noticeCursor) == Some(i)
    ensures var next := SubsOf(w.db, c)[i];
      Turn(w, now, done).sent == w.sent + [Sent(c, next.id, next.listener, done)]
  {
    TakeHandsOut(w, c, i, now);
  }

  /** Over every run, a listener told of a feed twice within a week was told under two subscriptions, the later
      one newer. */
  lemma HeardAgainIsNewer(channels: map<nat, Channel>, subs: map<nat, seq<Sub>>, events: seq<Event>, i: nat, j: nat)
    requires Timely(Begin(channels, subs), events)
    requires var sent := Run(Begin(channels, subs), events).sent;
      i < j < |sent| && sent[i].channel == sent[j].channel && sent[i].listener == sent[j].listener
      && sent[j].at < sent[i].at + NOTICE_REPEAT_SECONDS
    ensures var sent := Run(Begin(channels, subs), events).sent; sent[i].sub < sent[j].sub
  {
    RunKeepsNotices(Begin(channels, subs), events);
    var sent := Run(Begin(channels, subs), events).sent;
    assert Follows(sent[i], sent[j]);
  }

  /** And whenever a listener told within the week comes back first in line past the cursor, whoever else is
      subscribed, the next notice is a second one: no announcement under way is safe from it. */
  lemma ComingBackHearsAgain(w: World, c: nat, k: nat, subs: seq<Sub>, i: nat, now: int, done: int)
    requires ToAnnounce(w.db.feeds, now) == Some(c) && c in w.db.channels
    requires k < |w.sent| && w.sent[k].channel == c && done < w.sent[k].at + NOTICE_REPEAT_SECONDS
    requires NextSub(subs, w.db.feeds[c].noticeCursor) == Some(i) && subs[i].listener == w.sent[k].listener
    ensures var sent := Turn(Next(w, Subscribes(c, subs, now)), now, done).sent;
      && |sent| == |w.sent| + 1
      && sent[|w.sent|].channel == sent[k].channel && sent[|w.sent|].listener == sent[k].listener
      && sent[|w.sent|].at < sent[k].at + NOTICE_REPEAT_SECONDS
  {
    var back := Next(w, Subscribes(c, subs, now));
    assert SubsOf(back.db, c) == subs && back.db.feeds == w.db.feeds;
    TurnRecords(back, c, i, now, done);
    assert back.sent == w.sent;
    assert Turn(back, now, done).sent == w.sent + [Sent(c, subs[i].id, subs[i].listener, done)];
  }

  lemma RunStarts(w: World, e: Event, rest: seq<Event>)
    requires e.now >= w.clock && Timely(Next(w, e), rest)
    ensures Timely(w, [e] + rest) && Run(w, [e] + rest) == Run(Next(w, e), rest)
  {
    assert ([e] + rest)[1..] == rest;
  }

  lemma TurnIsARun(w: World, first: Event, now: int, done: int)
    requires w.clock <= first.now <= now <= done
    ensures var events := [first, Takes(now), Completes(Next(w, first).db.tokens, None, done)];
      Timely(w, events) && Run(w, events) == Turn(Next(w, first), now, done)
  {
    var w1, take, complete := Next(w, first), Takes(now), Completes(Next(w, first).db.tokens, None, done);
    ClockMoves(w, first);
    ClockMoves(w1, take);
    RunStarts(Next(w1, take), complete, []);
    RunStarts(w1, take, [complete] + []);
    RunStarts(w, first, [take] + ([complete] + []));
    assert [first] + ([take] + ([complete] + [])) == [first, take, complete];
  }

  lemma {:induction false} RunsJoin(w: World, events: seq<Event>, more: seq<Event>)
    requires Timely(w, events) && Timely(Run(w, events), more)
    ensures Timely(w, events + more) && Run(w, events + more) == Run(Run(w, events), more)
    decreases |events|
  {
    if events == [] {
      assert events + more == more;
    } else {
      RunsJoin(Next(w, events[0]), events[1..], more);
      assert (events + more)[1..] == events[1..] + more;
    }
  }

  /** A listener of a plan without deliveries, who is not told and stays throughout, so that the channel does. */
  const STAYS := Sub(3, 88, true, false, 0, 100, 1)
  const TOLD := Sub(5, 77, true, false, 30, 100, 1)
  const BACK := Sub(9, 77, true, false, 30, 100, 1)

  /** Feed 1 of two subscribers. */
  function Opening(): World {
    Begin(map[1 := Channel("u", "i", None)], map[1 := [STAYS, TOLD]])
  }

  /** Paused at 0. */
  function Paused(): World {
    Next(Opening(), Enqueues(1, "dead", true, false, 0))
  }

  /** The pause is told to the one who hears; that listener leaves, comes back, and is told. */
  function Story(): seq<Event> {
    [Enqueues(1, "dead", true, false, 0), Takes(1), Completes(0, None, 2)]
    + ([Subscribes(1, [STAYS], 3)] + [Subscribes(1, [STAYS, BACK], 3), Takes(4), Completes(1, None, 5)])
  }

  lemma FirstTurn()
    ensures var told := Turn(Paused(), 1, 2);
      && told.sent == [Sent(1, 5, 77, 2)] && told.db.tokens == 1 && told.clock == 2
      && ToAnnounce(told.db.feeds, 4) == Some(1) && told.db.feeds[1].noticeCursor == 5 && 1 in told.db.channels
  {
    var w := Paused();
    assert w.db.feeds == map[1 := NewFeed(true, "dead", 0, false)];
    var subs := SubsOf(w.db, 1);
    assert subs == [STAYS, TOLD];
    assert !Eligible(subs[0]) && Eligible(subs[1]);
    TurnRecords(w, 1, 1, 1, 2);
    var told := Turn(w, 1, 2);
    assert told.db.feeds.Keys == {1} && Announces(told.db.feeds[1], 4);
  }

  lemma SecondTurn(left: World)
    requires left.sent == [Sent(1, 5, 77, 2)]
    requires ToAnnounce(left.db.feeds, 4) == Some(1) && left.db.feeds[1].noticeCursor == 5 && 1 in left.db.channels
    ensures Turn(Next(left, Subscribes(1, [STAYS, BACK], 3)), 4, 5).sent == [Sent(1, 5, 77, 2), Sent(1, 9, 77, 5)]
  {
    var back := Next(left, Subscribes(1, [STAYS, BACK], 3));
    var subs := SubsOf(back.db, 1);
    assert subs == [STAYS, BACK];
    assert subs[0].id <= 5 && Eligible(subs[1]);
    TurnRecords(back, 1, 1, 4, 5);
  }

  lemma AfterTheFirst(told: World)
    requires told.sent == [Sent(1, 5, 77, 2)] && told.db.tokens == 1 && told.clock == 2
    requires ToAnnounce(told.db.feeds, 4) == Some(1) && told.db.feeds[1].noticeCursor == 5 && 1 in told.db.channels
    ensures var more := [Subscribes(1, [STAYS], 3)]
                        + [Subscribes(1, [STAYS, BACK], 3), Takes(4), Completes(1, None, 5)];
      Timely(told, more) && Run(told, more).sent == [Sent(1, 5, 77, 2), Sent(1, 9, 77, 5)]
  {
    var leaves, back := Subscribes(1, [STAYS], 3), Subscribes(1, [STAYS, BACK], 3);
    var left := Next(told, leaves);
    SecondTurn(left);
    TurnIsARun(left, back, 4, 5);
    RunStarts(told, leaves, [back, Takes(4), Completes(1, None, 5)]);
  }

  /** It happens: a listener told of a pause leaves the feed, whose other listener stays, comes back, and hears
      of it again 3 seconds after the first notice. */
  lemma ListenerHearsTwice()
    ensures Timely(Opening(), Story())
    ensures Run(Opening(), Story()).sent == [Sent(1, 5, 77, 2), Sent(1, 9, 77, 5)]
  {
    var pause := Enqueues(1, "dead", true, false, 0);
    TurnIsARun(Opening(), pause, 1, 2);
    FirstTurn();
    AfterTheFirst(Turn(Paused(), 1, 2));
    RunsJoin(Opening(), [pause, Takes(1), Completes(0, None, 2)],
             [Subscribes(1, [STAYS], 3)] + [Subscribes(1, [STAYS, BACK], 3), Takes(4), Completes(1, None, 5)]);
  }
}
