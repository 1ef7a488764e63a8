/** The share schedule: a dictionary from round number to the list of share
    events due in that round, with `defaultdict(list)` semantics (a missing
    round reads as the empty list and appending to it creates it). */
module Schedules {
  import opened Common
  import opened NewsItems

  /** `(uid, news_type)`: agent `uid` is due to share news of type `newsType`. */
  datatype Event = Event(uid: int, newsType: NewsType)

  type Schedule = map<int, seq<Event>>

  /** The events due in `round`; the empty list when the round has none. */
  function EventsAt(s: Schedule, round: int): seq<Event> {
    if round in s then s[round] else []
  }

  /** `schedule[round].append(e)`. */
  function Push(s: Schedule, round: int, e: Event): Schedule {
    s[round := EventsAt(s, round) + [e]]
  }

  /** Appending to one round adds the event at the end of that round's list and
      leaves every other round as it was. */
  lemma PushEventsAt(s: Schedule, round: int, e: Event, k: int)
    ensures Push(s, round, e).Keys == s.Keys + {round}
    ensures EventsAt(Push(s, round, e), k) == if k == round then EventsAt(s, round) + [e] else EventsAt(s, k)
  {
  }

  /** Every scheduled share is by an agent infected with that news type. */
  ghost predicate EventsWithin(s: Schedule, fakeIds: set<int>, realIds: set<int>) {
    forall k, i :: k in s && 0 <= i < |s[k]| ==>
      s[k][i].uid in (if s[k][i].newsType == Fake then fakeIds else realIds)
  }

  /** Scheduling a share by an infected agent keeps every scheduled share by an infected agent. */
  lemma PushWithin(s: Schedule, round: int, e: Event, fakeIds: set<int>, realIds: set<int>)
    requires EventsWithin(s, fakeIds, realIds)
    requires e.uid in (if e.newsType == Fake then fakeIds else realIds)
    ensures EventsWithin(Push(s, round, e), fakeIds, realIds)
  {
    var r: Schedule := Push(s, round, e);
    forall k: int, i: int | k in r && 0 <= i < |r[k]|
      ensures r[k][i].uid in (if r[k][i].newsType == Fake then fakeIds else realIds)
    {
      if k == round && i == |EventsAt(s, round)| {
        assert r[k][i] == e;
      } else {
        assert r[k][i] == s[k][i];
      }
    }
  }

  /** Infecting more agents keeps the schedule within the infected sets. */
  lemma WithinGrow(s: Schedule, fakeIds: set<int>, realIds: set<int>, fakeIds': set<int>, realIds': set<int>)
    requires EventsWithin(s, fakeIds, realIds) && fakeIds <= fakeIds' && realIds <= realIds'
    ensures EventsWithin(s, fakeIds', realIds')
  {
  }

  /** Appending one share for each of the first `|delays|` seeds, agent `seeds[j]`
      at round `delays[j] + offset`, in seed order. */
  function PushAll(s: Schedule, seeds: seq<int>, delays: seq<int>, offset: int, newsType: NewsType)
    : Schedule
    requires |delays| <= |seeds|
  {
    if delays == [] then s
    else
      var n := |delays| - 1;
      Push(PushAll(s, seeds, delays[..n], offset, newsType), delays[n] + offset, Event(seeds[n], newsType))
  }

  /** Appending shares loses nothing scheduled before: every round's old list is a
      prefix of its new list. */
  lemma {:induction false} PushAllKeeps(s: Schedule, seeds: seq<int>, delays: seq<int>, offset: int,
                                        newsType: NewsType, k: int)
    requires |delays| <= |seeds|
    ensures EventsAt(s, k) <= EventsAt(PushAll(s, seeds, delays, offset, newsType), k)
  {
    if delays != [] {
      var n := |delays| - 1;
      PushAllKeeps(s, seeds, delays[..n], offset, newsType, k);
    }
  }

  /** Appending keeps every event already scheduled. */
  lemma PushKeepsEvent(s: Schedule, round: int, e: Event, k: int, x: Event)
    requires x in EventsAt(s, k)
    ensures x in EventsAt(Push(s, round, e), k)
  {
    if k == round {
      assert EventsAt(Push(s, round, e), k) == EventsAt(s, k) + [e];
    }
  }

  /** Every seed's share is in the schedule at the round of its delay. */
  lemma {:induction false} PushAllScheduled(s: Schedule, seeds: seq<int>, delays: seq<int>, offset: int,
                                            newsType: NewsType, j: nat)
    requires |delays| <= |seeds| && j < |delays|
    ensures Event(seeds[j], newsType) in EventsAt(PushAll(s, seeds, delays, offset, newsType), delays[j] + offset)
  {
    var n := |delays| - 1;
    var prev := PushAll(s, seeds, delays[..n], offset, newsType);
    var last := Event(seeds[n], newsType);
    if j < n {
      PushAllScheduled(s, seeds, delays[..n], offset, newsType, j);
      PushKeepsEvent(prev, delays[n] + offset, last, delays[j] + offset, Event(seeds[j], newsType));
    } else {
      var before := EventsAt(prev, delays[n] + offset);
      assert EventsAt(Push(prev, delays[n] + offset, last), delays[n] + offset) == before + [last];
      assert (before + [last])[|before|] == last;
    }
  }

  /** Every seed's share is in the schedule at the round of its delay, for all
      seeds at once. */
  lemma PushAllScheduledAll(s: Schedule, seeds: seq<int>, delays: seq<int>, offset: int, newsType: NewsType)
    requires |delays| <= |seeds|
    ensures forall j :: 0 <= j < |delays| ==>
      Event(seeds[j], newsType) in EventsAt(PushAll(s, seeds, delays, offset, newsType), delays[j] + offset)
  {
    forall j | 0 <= j < |delays|
      ensures Event(seeds[j], newsType) in EventsAt(PushAll(s, seeds, delays, offset, newsType), delays[j] + offset)
    {
      PushAllScheduled(s, seeds, delays, offset, newsType, j);
    }
  }

  /** Scheduling shares by infected seeds keeps every scheduled share by an infected agent. */
  lemma {:induction false} PushAllWithin(s: Schedule, seeds: seq<int>, delays: seq<int>, offset: int,
                                         newsType: NewsType, fakeIds: set<int>, realIds: set<int>)
    requires |delays| <= |seeds| && EventsWithin(s, fakeIds, realIds)
    requires forall j :: 0 <= j < |seeds| ==> seeds[j] in (if newsType == Fake then fakeIds else realIds)
    ensures EventsWithin(PushAll(s, seeds, delays, offset, newsType), fakeIds, realIds)
  {
    if delays != [] {
      var n := |delays| - 1;
      PushAllWithin(s, seeds, delays[..n], offset, newsType, fakeIds, realIds);
      PushWithin(PushAll(s, seeds, delays[..n], offset, newsType), delays[n] + offset,
                 Event(seeds[n], newsType), fakeIds, realIds);
    }
  }
}
