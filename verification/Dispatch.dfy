/** What the outcome of an execution puts into which outbox, and what it leaves on the channels. */
module Dispatch {
  import opened Base
  import opened Messages
  import opened Outboxes

  function Full(app: GenericApplicationId, name: ChannelName): ChannelFullName {
    ChannelFullName(app, name)
  }

  // ---- One outbox ----

  predicate AllBelow(heights: seq<u64>, k: u64) {
    forall i :: 0 <= i < |heights| ==> heights[i] < k
  }

  /** An outbox after scheduling a list of heights to it. */
  function ScheduleList(o: OutboxState, heights: seq<u64>): OutboxState
    requires AllBelow(heights, U64_MAX)
  {
    if heights == [] then o else Schedule(ScheduleList(o, heights[..|heights| - 1]), heights[|heights| - 1])
  }

  /** The height is new for the outbox and occurs in the list before any higher or equal one. */
  ghost predicate NewIn(o: OutboxState, heights: seq<u64>, k: u64) {
    o.nextHeight <= k && exists j :: 0 <= j < |heights| && heights[j] == k && AllBelow(heights[..j], k)
  }

  /** Which heights end up in the queue, and from where on the outbox takes further ones. */
  lemma {:induction false} ScheduleListQueue(o: OutboxState, heights: seq<u64>, k: u64)
    requires AllBelow(heights, U64_MAX)
    ensures k in ScheduleList(o, heights).queue <==> k in o.queue || NewIn(o, heights, k)
    ensures ScheduleList(o, heights).nextHeight <= k <==> o.nextHeight <= k && AllBelow(heights, k)
    decreases |heights|
  {
    if heights != [] {
      var init, last := heights[..|heights| - 1], heights[|heights| - 1];
      ScheduleListQueue(o, init, k);
      ScheduleListQueue(o, init, last);
      assert heights == init + [last];
      NewInLonger(o, init, last, k);
      BelowLonger(init, last, k);
    }
  }

  lemma BelowLonger(init: seq<u64>, last: u64, k: u64)
    ensures AllBelow(init + [last], k) <==> AllBelow(init, k) && last < k
  {
    var longer := init + [last];
    assert longer[|init|] == last;
    assert forall i :: 0 <= i < |init| ==> longer[i] == init[i];
  }

  lemma NewInLonger(o: OutboxState, init: seq<u64>, last: u64, k: u64)
    ensures NewIn(o, init + [last], k) <==> NewIn(o, init, k) || (k == last && o.nextHeight <= k && AllBelow(init, k))
  {
    var longer := init + [last];
    assert longer[..|init|] == init && longer[|init|] == last;
    if NewIn(o, init, k) {
      var j :| 0 <= j < |init| && init[j] == k && AllBelow(init[..j], k);
      assert longer[..j] == init[..j] && longer[j] == k;
    }
    if NewIn(o, longer, k) {
      var j :| 0 <= j < |longer| && longer[j] == k && AllBelow(longer[..j], k);
      if j < |init| {
        assert longer[..j] == init[..j] && init[j] == k;
      }
    }
  }

  /** Where heights are recorded in order, every one that is new for the outbox gets in. */
  lemma OrderedHeightsGetIn(o: OutboxState, heights: seq<u64>, k: u64)
    requires forall i, j :: 0 <= i < j < |heights| ==> heights[i] <= heights[j]
    ensures NewIn(o, heights, k) <==> o.nextHeight <= k && k in heights
  {
    if o.nextHeight <= k && k in heights {
      var j := FirstAt(heights, k);
      assert AllBelow(heights[..j], k);
    }
  }

  lemma {:induction false} FirstAt(heights: seq<u64>, k: u64) returns (j: nat)
    requires k in heights
    ensures j < |heights| && heights[j] == k && forall i :: 0 <= i < j ==> heights[i] != k
  {
    var init := heights[..|heights| - 1];
    if k in init {
      j := FirstAt(init, k);
    } else {
      j := |heights| - 1;
      assert forall i :: 0 <= i < |init| ==> init[i] == heights[i];
    }
  }

  // ---- Scheduling ----

  lemma ScheduleAllEffect(s: ChainOutboxes, targets: set<Target>, h: u64, u: Target)
    requires ScheduleAll(s, targets, h).Ok?
    ensures var after := ScheduleAll(s, targets, h).value;
            && after.channels == s.channels
            && (u in targets ==> h < U64_MAX && OutboxOf(after.outboxes, u) == Schedule(OutboxOf(s.outboxes, u), h))
            && (u !in targets ==> OutboxOf(after.outboxes, u) == OutboxOf(s.outboxes, u))
  {
  }

  lemma {:induction false} ScheduleHeightsEffect(s: ChainOutboxes, t: Target, heights: seq<u64>, u: Target)
    requires ScheduleHeights(s, t, heights).Ok?
    ensures AllBelow(heights, U64_MAX)
    ensures var after := ScheduleHeights(s, t, heights).value;
            && after.channels == s.channels
            && OutboxOf(after.outboxes, u)
               == if u == t then ScheduleList(OutboxOf(s.outboxes, u), heights) else OutboxOf(s.outboxes, u)
    decreases |heights|
  {
    if heights != [] {
      var init, last := heights[..|heights| - 1], heights[|heights| - 1];
      ScheduleHeightsEffect(s, t, init, u);
      ScheduleAllEffect(ScheduleHeights(s, t, init).value, {t}, last, u);
      assert heights == init + [last];
    }
  }

  // ---- Channels ----

  lemma {:induction false} UnsubscribeEffect(s: ChainOutboxes, app: GenericApplicationId,
                                             subscriptions: seq<(ChannelName, ChainId)>, c: ChannelFullName, id: ChainId)
    ensures var after := UnsubscribeEach(s, app, subscriptions);
            && after.outboxes == s.outboxes
            && ChannelOf(after, c).heights == ChannelOf(s, c).heights
            && (id in ChannelOf(after, c).subscribers <==>
                  id in ChannelOf(s, c).subscribers && !(c.application == app && (c.name, id) in subscriptions))
    decreases |subscriptions|
  {
    if subscriptions != [] {
      var init, last := subscriptions[..|subscriptions| - 1], subscriptions[|subscriptions| - 1];
      UnsubscribeEffect(s, app, init, c, id);
      assert subscriptions == init + [last];
    }
  }

  lemma BroadcastEffect(s: ChainOutboxes, app: GenericApplicationId, names: set<ChannelName>, h: u64, c: ChannelFullName)
    ensures var after := Broadcast(s, app, names, h);
            && after.outboxes == s.outboxes
            && ChannelOf(after, c).subscribers == ChannelOf(s, c).subscribers
            && ChannelOf(after, c).heights
               == ChannelOf(s, c).heights + if c.application == app && c.name in names then [h] else []
  {
    var after := Broadcast(s, app, names, h);
    if c.application == app && c.name in names {
      assert c == ChannelFullName(app, c.name);
    }
  }

  /** The subscription that makes the target a new subscriber, if there is one among the given ones. */
  ghost predicate Joins(s: ChainOutboxes, app: GenericApplicationId, subscriptions: seq<(ChannelName, ChainId)>,
                        name: ChannelName, id: ChainId) {
    (name, id) in subscriptions && id !in ChannelOf(s, Full(app, name)).subscribers
  }

  lemma TargetsDiffer(app: GenericApplicationId, m: ChannelName, i: ChainId, n: ChannelName, j: ChainId)
    ensures TargetOf(i, Full(app, m)) == TargetOf(j, Full(app, n)) <==> m == n && i == j
  {
  }

  lemma AddSubscriberEffect(s: ChainOutboxes, c: ChannelFullName, id: ChainId, d: ChannelFullName, u: Target)
    requires AddSubscriber(s, c, id).Ok?
    ensures var after := AddSubscriber(s, c, id).value;
            && ChannelOf(after, d).heights == ChannelOf(s, d).heights
            && ChannelOf(after, d).subscribers == ChannelOf(s, d).subscribers + (if d == c then {id} else {})
            && (u == TargetOf(id, c) && id !in ChannelOf(s, c).subscribers ==>
                  && AllBelow(ChannelOf(s, c).heights, U64_MAX)
                  && OutboxOf(after.outboxes, u) == ScheduleList(OutboxOf(s.outboxes, u), ChannelOf(s, c).heights))
            && (u != TargetOf(id, c) || id in ChannelOf(s, c).subscribers ==>
                  OutboxOf(after.outboxes, u) == OutboxOf(s.outboxes, u))
  {
    var channel := ChannelOf(s, c);
    if id !in channel.subscribers {
      var joined := s.(channels := s.channels[c := channel.(subscribers := channel.subscribers + {id})]);
      ScheduleHeightsEffect(joined, TargetOf(id, c), channel.heights, u);
    }
  }

  lemma {:induction false} SubscribeChannels(s: ChainOutboxes, app: GenericApplicationId,
                                             subscriptions: seq<(ChannelName, ChainId)>, c: ChannelFullName, id: ChainId)
    requires SubscribeEach(s, app, subscriptions).Ok?
    ensures var after := SubscribeEach(s, app, subscriptions).value;
            && ChannelOf(after, c).heights == ChannelOf(s, c).heights
            && (id in ChannelOf(after, c).subscribers <==>
                  id in ChannelOf(s, c).subscribers || (c.application == app && (c.name, id) in subscriptions))
    decreases |subscriptions|
  {
    if subscriptions != [] {
      var init, last := subscriptions[..|subscriptions| - 1], subscriptions[|subscriptions| - 1];
      SubscribeChannels(s, app, init, c, id);
      AddSubscriberEffect(SubscribeEach(s, app, init).value, Full(app, last.0), last.1, c, Target(0, Direct));
      assert subscriptions == init + [last];
    }
  }

  lemma DistinctInit(subscriptions: seq<(ChannelName, ChainId)>)
    requires DistinctNames(subscriptions) && subscriptions != []
    ensures DistinctNames(subscriptions[..|subscriptions| - 1])
    ensures forall x <- subscriptions[..|subscriptions| - 1] :: x.0 != subscriptions[|subscriptions| - 1].0
  {
  }

  /** A new subscriber gets the heights of its channel, and no other outbox changes. */
  lemma {:induction false} SubscribeOutboxes(s: ChainOutboxes, app: GenericApplicationId,
                                             subscriptions: seq<(ChannelName, ChainId)>, name: ChannelName, id: ChainId)
    requires DistinctNames(subscriptions) && SubscribeEach(s, app, subscriptions).Ok?
    ensures var after := SubscribeEach(s, app, subscriptions).value;
            var u := TargetOf(id, Full(app, name));
            var heights := ChannelOf(s, Full(app, name)).heights;
            && (Joins(s, app, subscriptions, name, id) ==>
                  && AllBelow(heights, U64_MAX)
                  && OutboxOf(after.outboxes, u) == ScheduleList(OutboxOf(s.outboxes, u), heights))
            && (!Joins(s, app, subscriptions, name, id) ==> OutboxOf(after.outboxes, u) == OutboxOf(s.outboxes, u))
    decreases |subscriptions|
  {
    if subscriptions != [] {
      var init, last := subscriptions[..|subscriptions| - 1], subscriptions[|subscriptions| - 1];
      DistinctInit(subscriptions);
      SubscribeOutboxes(s, app, init, name, id);
      var t := SubscribeEach(s, app, init).value;
      AddSubscriberEffect(t, Full(app, last.0), last.1, Full(app, name), TargetOf(id, Full(app, name)));
      TargetsDiffer(app, name, id, last.0, last.1);
      SubscribeChannels(s, app, init, Full(app, name), id);
      assert subscriptions == init + [last];
    }
  }

  lemma {:induction false} SubscribeOthers(s: ChainOutboxes, app: GenericApplicationId,
                                           subscriptions: seq<(ChannelName, ChainId)>, u: Target)
    requires SubscribeEach(s, app, subscriptions).Ok?
    requires forall name, id :: u != TargetOf(id, Full(app, name))
    ensures OutboxOf(SubscribeEach(s, app, subscriptions).value.outboxes, u) == OutboxOf(s.outboxes, u)
    decreases |subscriptions|
  {
    if subscriptions != [] {
      var init, last := subscriptions[..|subscriptions| - 1], subscriptions[|subscriptions| - 1];
      SubscribeOthers(s, app, init, u);
      var c := Full(app, last.0);
      AddSubscriberEffect(SubscribeEach(s, app, init).value, c, last.1, c, u);
    }
  }

  // ---- The whole outcome ----

  /** The chain subscribes to the channel after the unsubscriptions of the outcome. */
  ghost predicate StillSubscribed(s: ChainOutboxes, app: GenericApplicationId, o: RawOutcome, name: ChannelName, id: ChainId) {
    id in ChannelOf(s, Full(app, name)).subscribers && (name, id) !in o.unsubscribe
  }

  /** The outcome sends a message to the target at its own height. */
  ghost predicate SentNow(s: ChainOutboxes, app: GenericApplicationId, o: RawOutcome, u: Target) {
    || (u.medium.Direct? && u.recipient in o.recipients)
    || (u.medium.Channel? && u.medium.application == app && u.medium.name in o.broadcasts
        && StillSubscribed(s, app, o, u.medium.name, u.recipient))
  }

  /** The outcome makes the target's chain a new subscriber of the target's channel. */
  ghost predicate NewlySubscribed(s: ChainOutboxes, app: GenericApplicationId, o: RawOutcome, u: Target) {
    && u.medium.Channel? && u.medium.application == app
    && (u.medium.name, u.recipient) in o.subscribe
    && !StillSubscribed(s, app, o, u.medium.name, u.recipient)
  }

  /** The heights recorded on a channel once the outcome has been broadcast. */
  function Recorded(s: ChainOutboxes, app: GenericApplicationId, o: RawOutcome, h: u64, name: ChannelName): seq<u64> {
    ChannelOf(s, Full(app, name)).heights + if name in o.broadcasts then [h] else []
  }

  ghost predicate Succeeds(s: ChainOutboxes, app: GenericApplicationId, h: u64, o: RawOutcome) {
    ProcessOutcome(s, app, h, o).Ok?
  }

  /** The state before the subscriptions of the outcome are handled. */
  ghost function BeforeSubscriptions(s: ChainOutboxes, app: GenericApplicationId, h: u64, o: RawOutcome): ChainOutboxes
    requires Succeeds(s, app, h, o)
  {
    var s1 := ScheduleAll(s, DirectTargets(o.recipients), h).value;
    var s2 := UnsubscribeEach(s1, app, o.unsubscribe);
    ScheduleAll(Broadcast(s2, app, o.broadcasts, h), BroadcastTargets(s2, app, o.broadcasts), h).value
  }

  lemma BeforeChannels(s: ChainOutboxes, app: GenericApplicationId, h: u64, o: RawOutcome, c: ChannelFullName, id: ChainId)
    requires Succeeds(s, app, h, o)
    ensures var t := BeforeSubscriptions(s, app, h, o);
            && (id in ChannelOf(t, c).subscribers <==>
                  id in ChannelOf(s, c).subscribers && !(c.application == app && (c.name, id) in o.unsubscribe))
            && ChannelOf(t, c).heights
               == ChannelOf(s, c).heights + if c.application == app && c.name in o.broadcasts then [h] else []
  {
    var u := Target(0, Direct);
    ScheduleAllEffect(s, DirectTargets(o.recipients), h, u);
    var s1 := ScheduleAll(s, DirectTargets(o.recipients), h).value;
    UnsubscribeEffect(s1, app, o.unsubscribe, c, id);
    var s2 := UnsubscribeEach(s1, app, o.unsubscribe);
    BroadcastEffect(s2, app, o.broadcasts, h, c);
    ScheduleAllEffect(Broadcast(s2, app, o.broadcasts, h), BroadcastTargets(s2, app, o.broadcasts), h, u);
  }

  lemma DirectTarget(recipients: set<ChainId>, u: Target)
    ensures u in DirectTargets(recipients) <==> u.medium.Direct? && u.recipient in recipients
  {
    if u.medium.Direct? && u.recipient in recipients {
      assert u == Target(u.recipient, Direct);
    }
  }

  lemma BroadcastTarget(s: ChainOutboxes, app: GenericApplicationId, names: set<ChannelName>, u: Target)
    ensures u in BroadcastTargets(s, app, names) <==>
              && u.medium.Channel? && u.medium.application == app && u.medium.name in names
              && u.recipient in ChannelOf(s, Full(app, u.medium.name)).subscribers
  {
    if u.medium.Channel? && u.medium.application == app && u.medium.name in names
       && u.recipient in ChannelOf(s, Full(app, u.medium.name)).subscribers {
      assert u == TargetOf(u.recipient, ChannelFullName(app, u.medium.name));
    }
  }

  /** Direct messages and broadcasts reach exactly the outboxes they are meant for. */
  lemma BeforeOutboxes(s: ChainOutboxes, app: GenericApplicationId, h: u64, o: RawOutcome, u: Target)
    requires Succeeds(s, app, h, o)
    ensures var t := BeforeSubscriptions(s, app, h, o);
            && (SentNow(s, app, o, u) ==> h < U64_MAX && OutboxOf(t.outboxes, u) == Schedule(OutboxOf(s.outboxes, u), h))
            && (!SentNow(s, app, o, u) ==> OutboxOf(t.outboxes, u) == OutboxOf(s.outboxes, u))
  {
    ScheduleAllEffect(s, DirectTargets(o.recipients), h, u);
    DirectTarget(o.recipients, u);
    var s1 := ScheduleAll(s, DirectTargets(o.recipients), h).value;
    var c := if u.medium.Channel? then Full(u.medium.application, u.medium.name) else Full(app, 0);
    UnsubscribeEffect(s1, app, o.unsubscribe, c, u.recipient);
    var s2 := UnsubscribeEach(s1, app, o.unsubscribe);
    BroadcastTarget(s2, app, o.broadcasts, u);
    BroadcastEffect(s2, app, o.broadcasts, h, c);
    ScheduleAllEffect(Broadcast(s2, app, o.broadcasts, h), BroadcastTargets(s2, app, o.broadcasts), h, u);
  }

  /** The outbox of a target after a successful outcome. */
  lemma OutcomeOutbox(s: ChainOutboxes, app: GenericApplicationId, h: u64, o: RawOutcome, u: Target)
    requires Succeeds(s, app, h, o)
    ensures var after := ProcessOutcome(s, app, h, o).value;
            var outbox := OutboxOf(s.outboxes, u);
            && (SentNow(s, app, o, u) ==> h < U64_MAX && OutboxOf(after.outboxes, u) == Schedule(outbox, h))
            && (NewlySubscribed(s, app, o, u) ==>
                  && AllBelow(Recorded(s, app, o, h, u.medium.name), U64_MAX)
                  && OutboxOf(after.outboxes, u) == ScheduleList(outbox, Recorded(s, app, o, h, u.medium.name)))
            && (!SentNow(s, app, o, u) && !NewlySubscribed(s, app, o, u) ==> OutboxOf(after.outboxes, u) == outbox)
  {
    var t := BeforeSubscriptions(s, app, h, o);
    BeforeOutboxes(s, app, h, o, u);
    if u.medium.Channel? && u.medium.application == app {
      BeforeChannels(s, app, h, o, Full(app, u.medium.name), u.recipient);
      SubscribeOutboxes(t, app, o.subscribe, u.medium.name, u.recipient);
      assert u == TargetOf(u.recipient, Full(app, u.medium.name));
    } else {
      SubscribeOthers(t, app, o.subscribe, u);
    }
  }

  /**
   What a successful outcome at height `h` leaves in the queue of every target: what was there, its own height
   for direct recipients and for the subscribers of the channels it broadcasts on, and for new subscribers the
   heights recorded on their channel, as far as they are new for the outbox.
   */
  lemma OutcomeQueues(s: ChainOutboxes, app: GenericApplicationId, h: u64, o: RawOutcome, u: Target, k: u64)
    requires ProcessOutcome(s, app, h, o).Ok?
    ensures var outbox := OutboxOf(s.outboxes, u);
            k in OutboxOf(ProcessOutcome(s, app, h, o).value.outboxes, u).queue <==>
              || k in outbox.queue
              || (k == h && outbox.nextHeight <= h && SentNow(s, app, o, u))
              || (NewlySubscribed(s, app, o, u) && NewIn(outbox, Recorded(s, app, o, h, u.medium.name), k))
  {
    OutcomeOutbox(s, app, h, o, u);
    if NewlySubscribed(s, app, o, u) {
      ScheduleListQueue(OutboxOf(s.outboxes, u), Recorded(s, app, o, h, u.medium.name), k);
    }
  }

  /** Which chains subscribe to a channel afterwards, and which heights it records. */
  lemma OutcomeChannels(s: ChainOutboxes, app: GenericApplicationId, h: u64, o: RawOutcome, c: ChannelFullName, id: ChainId)
    requires ProcessOutcome(s, app, h, o).Ok?
    ensures var after := ProcessOutcome(s, app, h, o).value;
            && (id in ChannelOf(after, c).subscribers <==>
                  || (id in ChannelOf(s, c).subscribers && !(c.application == app && (c.name, id) in o.unsubscribe))
                  || (c.application == app && (c.name, id) in o.subscribe))
            && ChannelOf(after, c).heights
               == ChannelOf(s, c).heights + if c.application == app && c.name in o.broadcasts then [h] else []
  {
    BeforeChannels(s, app, h, o, c, id);
    SubscribeChannels(BeforeSubscriptions(s, app, h, o), app, o.subscribe, c, id);
  }

  // ---- When an outcome fails ----

  /** Every channel has recorded only heights below the last one. */
  ghost predicate HeightsFit(s: ChainOutboxes) {
    forall c :: AllBelow(ChannelOf(s, c).heights, U64_MAX)
  }

  lemma {:induction false} HeightsScheduled(s: ChainOutboxes, t: Target, heights: seq<u64>)
    requires AllBelow(heights, U64_MAX)
    ensures ScheduleHeights(s, t, heights).Ok?
    decreases |heights|
  {
    if heights != [] {
      HeightsScheduled(s, t, heights[..|heights| - 1]);
    }
  }

  lemma {:induction false} SubscriptionsSucceed(s: ChainOutboxes, app: GenericApplicationId,
                                                subscriptions: seq<(ChannelName, ChainId)>)
    requires HeightsFit(s)
    ensures SubscribeEach(s, app, subscriptions).Ok?
    decreases |subscriptions|
  {
    if subscriptions != [] {
      var init, last := subscriptions[..|subscriptions| - 1], subscriptions[|subscriptions| - 1];
      SubscriptionsSucceed(s, app, init);
      var t := SubscribeEach(s, app, init).value;
      var c := Full(app, last.0);
      SubscribeChannels(s, app, init, c, last.1);
      assert AllBelow(ChannelOf(s, c).heights, U64_MAX);
      HeightsScheduled(t.(channels := t.channels[c := ChannelOf(t, c).(subscribers := ChannelOf(t, c).subscribers + {last.1})]),
                       TargetOf(last.1, c), ChannelOf(t, c).heights);
    }
  }

  /** Below the last height, an outcome fails exactly if it names a channel twice in one of its two lists. */
  lemma OutcomeVerdict(s: ChainOutboxes, app: GenericApplicationId, h: u64, o: RawOutcome)
    requires h < U64_MAX && HeightsFit(s)
    ensures ProcessOutcome(s, app, h, o).Ok? <==> DistinctNames(o.unsubscribe) && DistinctNames(o.subscribe)
    ensures ProcessOutcome(s, app, h, o).Err? ==> ProcessOutcome(s, app, h, o) == Err(LockedTwice)
  {
    var s1 := ScheduleAll(s, DirectTargets(o.recipients), h).value;
    var s2 := UnsubscribeEach(s1, app, o.unsubscribe);
    var s3 := ScheduleAll(Broadcast(s2, app, o.broadcasts, h), BroadcastTargets(s2, app, o.broadcasts), h).value;
    forall c
      ensures AllBelow(ChannelOf(s3, c).heights, U64_MAX)
    {
      assert AllBelow(ChannelOf(s, c).heights, U64_MAX);
      UnsubscribeEffect(s1, app, o.unsubscribe, c, 0);
      BroadcastEffect(s2, app, o.broadcasts, h, c);
    }
    SubscriptionsSucceed(s3, app, o.subscribe);
  }
}
