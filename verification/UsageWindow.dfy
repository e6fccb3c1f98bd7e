/** The usage ledger's sliding window (db/usage.py): how many distinct episodes count now, and when that
    number next falls. */
module UsageWindow {
  import opened Prelude

  const KEEP_SECONDS := 400 * 86400

  datatype Event = Event(at: int, chat: string, kind: string, ref: string)

  predicate Counts(e: Event, chat: string, kind: string, since: int) {
    e.chat == chat && e.kind == kind && e.at >= since
  }

  function EpisodesSince(events: seq<Event>, chat: string, kind: string, since: int): set<string> {
    set i | 0 <= i < |events| && Counts(events[i], chat, kind, since) :: events[i].ref
  }

  /** Per episode, when it was last delivered in the window. */
  function LastDeliveries(events: seq<Event>, chat: string, kind: string, since: int): map<string, int> {
    if events == [] then map[]
    else
      var e := events[|events| - 1];
      var before := LastDeliveries(events[..|events| - 1], chat, kind, since);
      if !Counts(e, chat, kind, since) then before
      else before[e.ref := if e.ref in before then Max(before[e.ref], e.at) else e.at]
  }

  ghost predicate IsEarliest(m: map<string, int>, ref: string) {
    ref in m && forall r :: r in m ==> m[ref] <= m[r]
  }

  lemma EarliestExists(m: map<string, int>) returns (ref: string)
    requires m != map[]
    ensures IsEarliest(m, ref)
    decreases |m|
  {
    assert m.Keys != {} by { var k :| k in m; }
    var k :| k in m;
    var rest := m - {k};
    if rest == map[] {
      ref := k;
      assert forall r :: r in m ==> r == k || r in rest;
    } else {
      ref := EarliestExists(rest);
      assert forall r :: r in m ==> r == k || r in rest;
      if m[k] < m[ref] {
        ref := k;
      }
    }
  }

  function FirstToLeave(events: seq<Event>, chat: string, kind: string, since: int): (r: Option<int>)
  {
    var lasts := LastDeliveries(events, chat, kind, since);
    if lasts == map[] then None
    else
      assert exists at :: at in lasts.Values && forall r :: r in lasts ==> at <= lasts[r] by {
        var ref := EarliestExists(lasts);
        assert lasts[ref] in lasts.Values;
      }
      var at :| at in lasts.Values && forall r :: r in lasts ==> at <= lasts[r];
      Some(at)
  }

  /** An event of the episode that counts. */
  ghost predicate Delivered(events: seq<Event>, i: int, chat: string, kind: string, since: int, ref: string) {
    0 <= i < |events| && Counts(events[i], chat, kind, since) && events[i].ref == ref
  }

  lemma {:induction false} LastDelivery(events: seq<Event>, chat: string, kind: string, since: int, ref: string)
    ensures var lasts := LastDeliveries(events, chat, kind, since);
      && (ref in lasts <==> exists i :: Delivered(events, i, chat, kind, since, ref))
      && (ref in lasts ==>
            && (exists i :: Delivered(events, i, chat, kind, since, ref) && events[i].at == lasts[ref])
            && (forall i :: Delivered(events, i, chat, kind, since, ref) ==> events[i].at <= lasts[ref]))
  {
    if events != [] {
      var n := |events| - 1;
      var rest := events[..n];
      LastDelivery(rest, chat, kind, since, ref);
      var lasts := LastDeliveries(events, chat, kind, since);
      forall i | Delivered(events, i, chat, kind, since, ref)
        ensures ref in lasts && events[i].at <= lasts[ref]
      {
        if i < n { assert Delivered(rest, i, chat, kind, since, ref); }
      }
      if ref in lasts {
        if Counts(events[n], chat, kind, since) && events[n].ref == ref && lasts[ref] == events[n].at {
          assert Delivered(events, n, chat, kind, since, ref);
        } else {
          var i :| Delivered(rest, i, chat, kind, since, ref)
                   && rest[i].at == LastDeliveries(rest, chat, kind, since)[ref];
          assert Delivered(events, i, chat, kind, since, ref);
        }
      }
    }
  }

  lemma InWindow(events: seq<Event>, chat: string, kind: string, since: int, later: int, ref: string)
    requires since <= later
    ensures ref in EpisodesSince(events, chat, kind, since)
       <==> ref in LastDeliveries(events, chat, kind, since)
    ensures ref in LastDeliveries(events, chat, kind, since) ==>
      (ref in EpisodesSince(events, chat, kind, later)
       <==> LastDeliveries(events, chat, kind, since)[ref] >= later)
  {
  }

  /** With nothing new in the ledger, the episodes that count stay the same exactly until a window after
      FirstToLeave, and are strictly fewer from then on; with nothing to leave there are none. */
  lemma WindowChangesAtFirstToLeave(events: seq<Event>, chat: string, kind: string, window: nat, now: int, later: int)
    requires now <= later
    ensures var first := FirstToLeave(events, chat, kind, now - window);
            var before := EpisodesSince(events, chat, kind, now - window);
            var after := EpisodesSince(events, chat, kind, later - window);
      && after <= before
      && (first.None? <==> before == {})
      && (first.Some? ==> (after == before <==> later <= first.value + window))
      && (first.Some? && later > first.value + window ==> after < before)
  {
    var lasts := LastDeliveries(events, chat, kind, now - window);
    var before := EpisodesSince(events, chat, kind, now - window);
    var after := EpisodesSince(events, chat, kind, later - window);
    forall ref
      ensures ref in before <==> ref in lasts
      ensures ref in lasts ==> (ref in after <==> lasts[ref] >= later - window)
    {
      InWindow(events, chat, kind, now - window, later - window, ref);
    }
    forall ref | ref in after
      ensures ref in before
    {
      var i :| 0 <= i < |events| && Counts(events[i], chat, kind, later - window) && events[i].ref == ref;
      assert Counts(events[i], chat, kind, now - window);
    }
    if lasts == map[] {
      assert before == {};
    } else {
      var ref := EarliestExists(lasts);
      assert ref in before;
      var first := FirstToLeave(events, chat, kind, now - window).value;
      var leaver :| leaver in lasts && lasts[leaver] == first;
      assert leaver in before;
    }
  }

  function Prune(events: seq<Event>, now: int): seq<Event> {
    if events == [] then []
    else
      var e := events[|events| - 1];
      Prune(events[..|events| - 1], now) + if e.at < now - KEEP_SECONDS then [] else [e]
  }

  /** What counts: the distinct episodes the chat had of that kind since then, and nothing of another chat or
      kind, or of before. */
  lemma EpisodesAreThoseDelivered(events: seq<Event>, chat: string, kind: string, since: int, ref: string)
    ensures ref in EpisodesSince(events, chat, kind, since) <==>
      exists i :: 0 <= i < |events| && events[i].chat == chat && events[i].kind == kind && events[i].at >= since
                  && events[i].ref == ref
  {
    if ref in EpisodesSince(events, chat, kind, since) {
      var i :| 0 <= i < |events| && Counts(events[i], chat, kind, since) && events[i].ref == ref;
      assert events[i].chat == chat;
    }
    if i :| 0 <= i < |events| && events[i].chat == chat && events[i].kind == kind && events[i].at >= since
            && events[i].ref == ref
    {
      assert Counts(events[i], chat, kind, since);
    }
  }

  /** Pruning drops exactly what is older than KEEP_DAYS. */
  lemma {:induction false} PruneDropsTheOld(events: seq<Event>, now: int, e: Event)
    ensures multiset(Prune(events, now))[e] == if e.at >= now - KEEP_SECONDS then multiset(events)[e] else 0
  {
    if events != [] {
      var rest, last := events[..|events| - 1], events[|events| - 1];
      PruneDropsTheOld(rest, now, e);
      assert events == rest + [last];
    }
  }

  /** Pruning never changes what a window up to KEEP_DAYS counts. */
  lemma {:induction false} PruneKeepsWindows(events: seq<Event>, chat: string, kind: string, now: int, since: int)
    requires since >= now - KEEP_SECONDS
    ensures EpisodesSince(Prune(events, now), chat, kind, since) == EpisodesSince(events, chat, kind, since)
    ensures LastDeliveries(Prune(events, now), chat, kind, since) == LastDeliveries(events, chat, kind, since)
  {
    if events != [] {
      var rest, e := events[..|events| - 1], events[|events| - 1];
      PruneKeepsWindows(rest, chat, kind, now, since);
      EpisodesOneMore(rest, e, chat, kind, since);
      assert rest + [e] == events;
      if e.at >= now - KEEP_SECONDS {
        EpisodesOneMore(Prune(rest, now), e, chat, kind, since);
        var kept := Prune(events, now);
        assert kept == Prune(rest, now) + [e] && kept[..|kept| - 1] == Prune(rest, now);
      } else {
        assert Prune(events, now) == Prune(rest, now);
      }
    }
  }

  lemma EpisodesOneMore(events: seq<Event>, e: Event, chat: string, kind: string, since: int)
    ensures EpisodesSince(events + [e], chat, kind, since)
         == EpisodesSince(events, chat, kind, since) + if Counts(e, chat, kind, since) then {e.ref} else {}
  {
    var all := events + [e];
    forall ref
      ensures ref in EpisodesSince(all, chat, kind, since)
         <==> ref in EpisodesSince(events, chat, kind, since) || (Counts(e, chat, kind, since) && ref == e.ref)
    {
      if ref in EpisodesSince(events, chat, kind, since) {
        var i :| 0 <= i < |events| && Counts(events[i], chat, kind, since) && events[i].ref == ref;
        assert Counts(all[i], chat, kind, since);
      }
      if Counts(e, chat, kind, since) && ref == e.ref {
        assert Counts(all[|events|], chat, kind, since);
      }
      if ref in EpisodesSince(all, chat, kind, since) {
        var i :| 0 <= i < |all| && Counts(all[i], chat, kind, since) && all[i].ref == ref;
        if i < |events| { assert Counts(events[i], chat, kind, since); }
      }
    }
  }
}
