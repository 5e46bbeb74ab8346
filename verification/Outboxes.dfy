/**
 The outboxes of a chain, the channels that feed them, and the counters that tell at a glance whether all
 messages up to some height have been delivered.
 */
module Outboxes {
  import opened Base
  import opened Messages

  datatype OutboxState = OutboxState(nextHeight: u64, queue: seq<u64>)

  datatype ChannelState = ChannelState(subscribers: set<ChainId>, heights: seq<u64>)

  datatype ChannelFullName = ChannelFullName(application: GenericApplicationId, name: ChannelName)

  datatype OutboxError = Overflow | LockedTwice

  type Outboxes = map<Target, OutboxState>

  type Counters = map<u64, nat>

  datatype ChainOutboxes = ChainOutboxes(
    outboxes: Outboxes,
    counters: Counters,
    channels: map<ChannelFullName, ChannelState>)

  const NEW_OUTBOX: OutboxState := OutboxState(0, [])

  const NOTHING_SENT: ChainOutboxes := ChainOutboxes(map[], map[], map[])

  function OutboxOf(outboxes: Outboxes, t: Target): OutboxState {
    if t in outboxes then outboxes[t] else NEW_OUTBOX
  }

  function ChannelOf(s: ChainOutboxes, c: ChannelFullName): ChannelState {
    if c in s.channels then s.channels[c] else ChannelState({}, [])
  }

  function TargetOf(id: ChainId, c: ChannelFullName): Target {
    Target(id, Medium.Channel(c.application, c.name))
  }

  // ---- One outbox ----

  predicate Accepts(o: OutboxState, h: u64) {
    o.nextHeight <= h
  }

  /** Schedules a height unless it has been scheduled before; the last height overflows. */
  function Schedule(o: OutboxState, h: u64): OutboxState
    requires Accepts(o, h) ==> h < U64_MAX
  {
    if Accepts(o, h) then OutboxState(h + 1, o.queue + [h]) else o
  }

  /** How many heights at the front of the queue an acknowledgement covers. */
  function Covered(queue: seq<u64>, h: u64): (n: nat)
    ensures n <= |queue|
  {
    if queue == [] || queue[0] > h then 0 else 1 + Covered(queue[1..], h)
  }

  // ---- Scheduling one height to a set of targets ----

  function OutboxesAfter(outboxes: Outboxes, targets: set<Target>, h: u64): Outboxes
    requires h < U64_MAX
  {
    map t | t in outboxes.Keys + targets ::
      if t in targets then Schedule(OutboxOf(outboxes, t), h) else OutboxOf(outboxes, t)
  }

  function Accepting(outboxes: Outboxes, targets: set<Target>, h: u64): set<Target> {
    set t | t in targets && Accepts(OutboxOf(outboxes, t), h)
  }

  function CountersAfter(counters: Counters, h: u64, n: nat): Counters {
    if n == 0 then counters else counters[h := (if h in counters then counters[h] else 0) + n]
  }

  function ScheduleAll(s: ChainOutboxes, targets: set<Target>, h: u64): Result<ChainOutboxes, OutboxError> {
    if h == U64_MAX then (if targets == {} then Ok(s) else Err(Overflow))
    else Ok(s.(outboxes := OutboxesAfter(s.outboxes, targets, h),
               counters := CountersAfter(s.counters, h, |Accepting(s.outboxes, targets, h)|)))
  }

  /** Schedules a list of heights to one target. */
  function ScheduleHeights(s: ChainOutboxes, t: Target, heights: seq<u64>): Result<ChainOutboxes, OutboxError> {
    if heights == [] then Ok(s) else
    match ScheduleHeights(s, t, heights[..|heights| - 1])
    case Err(e) => Err(e)
    case Ok(u) => ScheduleAll(u, {t}, heights[|heights| - 1])
  }

  // ---- Acknowledgements ----

  /** Counts down once for each height; `None` where the source would panic. */
  function Release(counters: Counters, heights: seq<u64>): Option<Counters> {
    if heights == [] then Some(counters)
    else if heights[0] !in counters || counters[heights[0]] == 0 then None
    else Release(CountedDown(counters, heights[0]), heights[1..])
  }

  function CountedDown(counters: Counters, h: u64): Counters
    requires h in counters && counters[h] > 0
  {
    if counters[h] == 1 then counters - {h} else counters[h := counters[h] - 1]
  }

  function MarkReceived(s: ChainOutboxes, t: Target, h: u64): Option<ChainOutboxes> {
    var outbox := OutboxOf(s.outboxes, t);
    var n := Covered(outbox.queue, h);
    if n == 0 then Some(s.(outboxes := s.outboxes[t := outbox])) else
    match Release(s.counters, outbox.queue[..n])
    case None => None
    case Some(counters) =>
      Some(s.(counters := counters,
              outboxes := if n == |outbox.queue| then s.outboxes - {t}
                          else s.outboxes[t := outbox.(queue := outbox.queue[n..])]))
  }

  // ---- Channels ----

  predicate DistinctNames(subscriptions: seq<(ChannelName, ChainId)>) {
    forall i, j :: 0 <= i < j < |subscriptions| ==> subscriptions[i].0 != subscriptions[j].0
  }

  function AddSubscriber(s: ChainOutboxes, c: ChannelFullName, id: ChainId): Result<ChainOutboxes, OutboxError> {
    var channel := ChannelOf(s, c);
    if id in channel.subscribers then Ok(s)
    else ScheduleHeights(s.(channels := s.channels[c := channel.(subscribers := channel.subscribers + {id})]),
                         TargetOf(id, c), channel.heights)
  }

  /** New subscribers get all earlier heights of the channel. Naming a channel twice is an error. */
  function ProcessSubscribes(s: ChainOutboxes, app: GenericApplicationId, subscriptions: seq<(ChannelName, ChainId)>)
    : Result<ChainOutboxes, OutboxError>
  {
    if !DistinctNames(subscriptions) then Err(LockedTwice) else SubscribeEach(s, app, subscriptions)
  }

  function SubscribeEach(s: ChainOutboxes, app: GenericApplicationId, subscriptions: seq<(ChannelName, ChainId)>)
    : Result<ChainOutboxes, OutboxError>
  {
    if subscriptions == [] then Ok(s) else
    var last := subscriptions[|subscriptions| - 1];
    match SubscribeEach(s, app, subscriptions[..|subscriptions| - 1])
    case Err(e) => Err(e)
    case Ok(t) => AddSubscriber(t, ChannelFullName(app, last.0), last.1)
  }

  function ProcessUnsubscribes(s: ChainOutboxes, app: GenericApplicationId, subscriptions: seq<(ChannelName, ChainId)>)
    : Result<ChainOutboxes, OutboxError>
  {
    if !DistinctNames(subscriptions) then Err(LockedTwice) else Ok(UnsubscribeEach(s, app, subscriptions))
  }

  function UnsubscribeEach(s: ChainOutboxes, app: GenericApplicationId, subscriptions: seq<(ChannelName, ChainId)>): ChainOutboxes {
    if subscriptions == [] then s else
      var last := subscriptions[|subscriptions| - 1];
      var t := UnsubscribeEach(s, app, subscriptions[..|subscriptions| - 1]);
      var c := ChannelFullName(app, last.0);
      t.(channels := t.channels[c := ChannelOf(t, c).(subscribers := ChannelOf(t, c).subscribers - {last.1})])
  }

  /** Records a height on the named channels. */
  function Broadcast(s: ChainOutboxes, app: GenericApplicationId, names: set<ChannelName>, h: u64): ChainOutboxes {
    var full := set n <- names :: ChannelFullName(app, n);
    s.(channels := map c | c in s.channels.Keys + full ::
         if c in full then ChannelOf(s, c).(heights := ChannelOf(s, c).heights + [h]) else s.channels[c])
  }

  function BroadcastTargets(s: ChainOutboxes, app: GenericApplicationId, names: set<ChannelName>): set<Target> {
    set n, id | n in names && id in ChannelOf(s, ChannelFullName(app, n)).subscribers :: TargetOf(id, ChannelFullName(app, n))
  }

  datatype RawOutcome = RawOutcome(
    recipients: set<ChainId>,
    broadcasts: set<ChannelName>,
    subscribe: seq<(ChannelName, ChainId)>,
    unsubscribe: seq<(ChannelName, ChainId)>)

  function DirectTargets(recipients: set<ChainId>): set<Target> {
    set id <- recipients :: Target(id, Direct)
  }

  /** Routes the messages of one execution outcome: direct ones, then unsubscriptions, broadcasts, subscriptions. */
  function ProcessOutcome(s: ChainOutboxes, app: GenericApplicationId, h: u64, o: RawOutcome): Result<ChainOutboxes, OutboxError> {
    match ScheduleAll(s, DirectTargets(o.recipients), h)
    case Err(e) => Err(e)
    case Ok(s1) =>
      match ProcessUnsubscribes(s1, app, o.unsubscribe)
      case Err(e) => Err(e)
      case Ok(s2) =>
        match ScheduleAll(Broadcast(s2, app, o.broadcasts, h), BroadcastTargets(s2, app, o.broadcasts), h)
        case Err(e) => Err(e)
        case Ok(s3) => ProcessSubscribes(s3, app, o.subscribe)
  }

  // ---- The counters count ----

  ghost predicate Increasing(o: OutboxState) {
    && (forall i, j :: 0 <= i < j < |o.queue| ==> o.queue[i] < o.queue[j])
    && (forall h <- o.queue :: h < o.nextHeight)
  }

  ghost function Holders(outboxes: Outboxes, h: u64): set<Target> {
    set t | t in outboxes && h in outboxes[t].queue
  }

  /** The counter of a height is the number of outboxes that hold it, and there are no zero entries. */
  ghost predicate CounterOk(outboxes: Outboxes, counters: Counters, h: u64) {
    if h in counters then counters[h] == |Holders(outboxes, h)| && counters[h] > 0 else Holders(outboxes, h) == {}
  }

  ghost predicate Counted(outboxes: Outboxes, counters: Counters) {
    && (forall t <- outboxes :: Increasing(outboxes[t]))
    && (forall h :: CounterOk(outboxes, counters, h))
  }

  ghost predicate Inv(s: ChainOutboxes) {
    Counted(s.outboxes, s.counters)
  }

  lemma ScheduleIncreasing(o: OutboxState, h: u64)
    requires Increasing(o) && h < U64_MAX
    ensures Increasing(Schedule(o, h))
  {
    if Accepts(o, h) {
      assert forall i :: 0 <= i < |o.queue| ==> o.queue[i] in o.queue;
    }
  }

  /** Scheduling adds exactly the accepting targets to the holders of the height. */
  lemma ScheduleHolders(outboxes: Outboxes, targets: set<Target>, h: u64, k: u64)
    requires h < U64_MAX && forall t <- outboxes :: Increasing(outboxes[t])
    ensures Holders(outboxes, h) !! Accepting(outboxes, targets, h)
    ensures Holders(OutboxesAfter(outboxes, targets, h), k) ==
              Holders(outboxes, k) + if k == h then Accepting(outboxes, targets, h) else {}
  {
    var after := OutboxesAfter(outboxes, targets, h);
    forall t
      ensures t in Holders(after, k) <==>
                t in Holders(outboxes, k) || (k == h && t in Accepting(outboxes, targets, h))
    {
      if t in targets && Accepts(OutboxOf(outboxes, t), h) {
        assert k in OutboxOf(outboxes, t).queue + [h] <==> k in OutboxOf(outboxes, t).queue || k == h;
      }
    }
  }

  lemma ScheduleAllCounts(s: ChainOutboxes, targets: set<Target>, h: u64)
    requires Inv(s) && ScheduleAll(s, targets, h).Ok?
    ensures Inv(ScheduleAll(s, targets, h).value)
    ensures ScheduleAll(s, targets, h).value.channels == s.channels
  {
    if h < U64_MAX {
      var after := ScheduleAll(s, targets, h).value;
      forall t <- after.outboxes
        ensures Increasing(after.outboxes[t])
      {
        ScheduleIncreasing(OutboxOf(s.outboxes, t), h);
      }
      forall k
        ensures CounterOk(after.outboxes, after.counters, k)
      {
        ScheduleHolders(s.outboxes, targets, h, k);
        assert CounterOk(s.outboxes, s.counters, k);
        ScheduleCounter(s.outboxes, s.counters, targets, h, k);
      }
    }
  }

  lemma ScheduleCounter(outboxes: Outboxes, counters: Counters, targets: set<Target>, h: u64, k: u64)
    requires h < U64_MAX && CounterOk(outboxes, counters, k)
    requires var after := OutboxesAfter(outboxes, targets, h);
             Holders(after, k) == Holders(outboxes, k) + if k == h then Accepting(outboxes, targets, h) else {}
    requires Holders(outboxes, h) !! Accepting(outboxes, targets, h)
    ensures CounterOk(OutboxesAfter(outboxes, targets, h),
                      CountersAfter(counters, h, |Accepting(outboxes, targets, h)|), k)
  {
    var added := Accepting(outboxes, targets, h);
    if k == h {
      assert |Holders(outboxes, h) + added| == |Holders(outboxes, h)| + |added|;
    }
  }

  lemma {:induction false} ScheduleHeightsCounts(s: ChainOutboxes, t: Target, heights: seq<u64>)
    requires Inv(s) && ScheduleHeights(s, t, heights).Ok?
    ensures Inv(ScheduleHeights(s, t, heights).value)
    decreases |heights|
  {
    if heights != [] {
      var before := heights[..|heights| - 1];
      ScheduleHeightsCounts(s, t, before);
      ScheduleAllCounts(ScheduleHeights(s, t, before).value, {t}, heights[|heights| - 1]);
    }
  }

  lemma {:induction false} SubscribeEachCounts(s: ChainOutboxes, app: GenericApplicationId, subscriptions: seq<(ChannelName, ChainId)>)
    requires Inv(s) && SubscribeEach(s, app, subscriptions).Ok?
    ensures Inv(SubscribeEach(s, app, subscriptions).value)
    decreases |subscriptions|
  {
    if subscriptions != [] {
      var before := subscriptions[..|subscriptions| - 1];
      var last := subscriptions[|subscriptions| - 1];
      SubscribeEachCounts(s, app, before);
      var t := SubscribeEach(s, app, before).value;
      var c := ChannelFullName(app, last.0);
      var channel := ChannelOf(t, c);
      if last.1 !in channel.subscribers {
        ScheduleHeightsCounts(t.(channels := t.channels[c := channel.(subscribers := channel.subscribers + {last.1})]),
                              TargetOf(last.1, c), channel.heights);
      }
    }
  }

  lemma {:induction false} UnsubscribeEachCounts(s: ChainOutboxes, app: GenericApplicationId, subscriptions: seq<(ChannelName, ChainId)>)
    ensures UnsubscribeEach(s, app, subscriptions).outboxes == s.outboxes
    ensures UnsubscribeEach(s, app, subscriptions).counters == s.counters
    decreases |subscriptions|
  {
    if subscriptions != [] {
      UnsubscribeEachCounts(s, app, subscriptions[..|subscriptions| - 1]);
    }
  }

  lemma ProcessOutcomeCounts(s: ChainOutboxes, app: GenericApplicationId, h: u64, o: RawOutcome)
    requires Inv(s) && ProcessOutcome(s, app, h, o).Ok?
    ensures Inv(ProcessOutcome(s, app, h, o).value)
  {
    ScheduleAllCounts(s, DirectTargets(o.recipients), h);
    var s1 := ScheduleAll(s, DirectTargets(o.recipients), h).value;
    UnsubscribeEachCounts(s1, app, o.unsubscribe);
    var s2 := ProcessUnsubscribes(s1, app, o.unsubscribe).value;
    var broadcast := Broadcast(s2, app, o.broadcasts, h);
    ScheduleAllCounts(broadcast, BroadcastTargets(s2, app, o.broadcasts), h);
    SubscribeEachCounts(ScheduleAll(broadcast, BroadcastTargets(s2, app, o.broadcasts), h).value, app, o.subscribe);
  }

  // ---- Acknowledging keeps the counters exact ----

  ghost function Advanced(outboxes: Outboxes, t: Target, n: nat): Outboxes
    requires t in outboxes && n <= |outboxes[t].queue|
  {
    outboxes[t := outboxes[t].(queue := outboxes[t].queue[n..])]
  }

  lemma AdvanceOneHolders(outboxes: Outboxes, t: Target, k: u64)
    requires t in outboxes && Increasing(outboxes[t]) && outboxes[t].queue != []
    ensures t in Holders(outboxes, outboxes[t].queue[0])
    ensures Holders(Advanced(outboxes, t, 1), k) == Holders(outboxes, k) - if k == outboxes[t].queue[0] then {t} else {}
  {
    var queue := outboxes[t].queue;
    assert queue == [queue[0]] + queue[1..];
    assert k == queue[0] ==> k !in queue[1..];
    assert k != queue[0] ==> (k in queue <==> k in queue[1..]);
  }

  lemma AdvanceOneCounts(outboxes: Outboxes, counters: Counters, t: Target)
    requires Counted(outboxes, counters) && t in outboxes && outboxes[t].queue != []
    ensures var h := outboxes[t].queue[0];
            h in counters && counters[h] > 0 && Counted(Advanced(outboxes, t, 1), CountedDown(counters, h))
  {
    var h := outboxes[t].queue[0];
    var after := Advanced(outboxes, t, 1);
    assert CounterOk(outboxes, counters, h);
    AdvanceOneHolders(outboxes, t, h);
    forall u <- after
      ensures Increasing(after[u])
    {
      assert Increasing(outboxes[u]);
      assert u == t ==> forall x <- after[u].queue :: x in outboxes[u].queue;
    }
    forall k
      ensures CounterOk(after, CountedDown(counters, h), k)
    {
      assert CounterOk(outboxes, counters, k);
      AdvanceOneHolders(outboxes, t, k);
      if k == h && counters[h] == 1 {
        assert |Holders(outboxes, h) - {t}| == 0;
      }
    }
  }

  /** The counters can always be counted down for what leaves the front of a queue. */
  lemma {:induction false} ReleaseCounts(outboxes: Outboxes, counters: Counters, t: Target, n: nat)
    requires Counted(outboxes, counters) && t in outboxes && n <= |outboxes[t].queue|
    ensures Release(counters, outboxes[t].queue[..n]).Some?
    ensures Counted(Advanced(outboxes, t, n), Release(counters, outboxes[t].queue[..n]).value)
    decreases n
  {
    var queue := outboxes[t].queue;
    if n == 0 {
      assert Advanced(outboxes, t, 0) == outboxes;
    } else {
      AdvanceOneCounts(outboxes, counters, t);
      var next := Advanced(outboxes, t, 1);
      ReleaseCounts(next, CountedDown(counters, queue[0]), t, n - 1);
      assert next[t].queue[..n - 1] == queue[..n][1..];
      assert Advanced(next, t, n - 1) == Advanced(outboxes, t, n);
    }
  }

  lemma EmptyOutboxHoldsNothing(outboxes: Outboxes, counters: Counters, t: Target)
    requires Counted(outboxes, counters) && t in outboxes && outboxes[t].queue == []
    ensures Counted(outboxes - {t}, counters)
  {
    forall k
      ensures CounterOk(outboxes - {t}, counters, k)
    {
      assert CounterOk(outboxes, counters, k);
      assert Holders(outboxes - {t}, k) == Holders(outboxes, k);
    }
  }

  lemma FreshOutboxHoldsNothing(outboxes: Outboxes, counters: Counters, t: Target)
    requires Counted(outboxes, counters)
    ensures Counted(outboxes[t := OutboxOf(outboxes, t)], counters)
  {
    var loaded := outboxes[t := OutboxOf(outboxes, t)];
    forall k
      ensures CounterOk(loaded, counters, k)
    {
      assert CounterOk(outboxes, counters, k);
      assert Holders(loaded, k) == Holders(outboxes, k);
    }
  }

  /** Acknowledging never meets a missing or exhausted counter, and keeps all counters exact. */
  lemma MarkReceivedCounts(s: ChainOutboxes, t: Target, h: u64)
    requires Inv(s)
    ensures MarkReceived(s, t, h).Some? && Inv(MarkReceived(s, t, h).value)
  {
    var outbox := OutboxOf(s.outboxes, t);
    var n := Covered(outbox.queue, h);
    if n == 0 {
      FreshOutboxHoldsNothing(s.outboxes, s.counters, t);
    } else {
      ReleaseCounts(s.outboxes, s.counters, t, n);
      var after := Advanced(s.outboxes, t, n);
      if n == |outbox.queue| {
        EmptyOutboxHoldsNothing(after, Release(s.counters, outbox.queue[..n]).value, t);
        assert after - {t} == s.outboxes - {t};
      }
    }
  }

  lemma {:induction false} CoveredCuts(queue: seq<u64>, h: u64)
    requires forall i, j :: 0 <= i < j < |queue| ==> queue[i] < queue[j]
    ensures forall i :: 0 <= i < |queue| ==> (i < Covered(queue, h) <==> queue[i] <= h)
    decreases |queue|
  {
    if queue != [] && queue[0] <= h {
      CoveredCuts(queue[1..], h);
      assert forall i :: 0 < i < |queue| ==> queue[i] == queue[1..][i - 1];
    }
  }

  /** An acknowledgement removes exactly the heights up to it, from exactly that outbox. */
  lemma MarkReceivedRemoves(s: ChainOutboxes, t: Target, h: u64, u: Target, k: u64)
    requires Inv(s)
    ensures MarkReceived(s, t, h).Some?
    ensures var after := MarkReceived(s, t, h).value;
            k in OutboxOf(after.outboxes, u).queue <==> k in OutboxOf(s.outboxes, u).queue && (u == t ==> k > h)
  {
    MarkReceivedCounts(s, t, h);
    if u == t {
      var queue := OutboxOf(s.outboxes, t).queue;
      var n := Covered(queue, h);
      CoveredCuts(queue, h);
      assert OutboxOf(MarkReceived(s, t, h).value.outboxes, t).queue == queue[n..];
      if k in queue {
        var i :| 0 <= i < |queue| && queue[i] == k;
        assert i >= n ==> queue[n..][i - n] == k;
      }
    }
  }

  // ---- Histories ----

  datatype Event =
    | Executed(application: GenericApplicationId, height: u64, outcome: RawOutcome)
    | Requested(subscribe: seq<(ChannelName, ChainId)>, unsubscribe: seq<(ChannelName, ChainId)>)
    | Acknowledged(target: Target, height: u64)

  /** One request; `None` if it fails. Subscription requests of other chains concern system channels. */
  function Step(s: ChainOutboxes, e: Event): Option<ChainOutboxes> {
    match e
    case Executed(app, h, o) => (var r := ProcessOutcome(s, app, h, o); if r.Ok? then Some(r.value) else None)
    case Requested(subscribe, unsubscribe) =>
      (match ProcessUnsubscribes(s, System, unsubscribe)
       case Err(_) => None
       case Ok(t) => var r := ProcessSubscribes(t, System, subscribe); if r.Ok? then Some(r.value) else None)
    case Acknowledged(t, h) => MarkReceived(s, t, h)
  }

  function Run(history: seq<Event>): Option<ChainOutboxes> {
    if history == [] then Some(NOTHING_SENT) else
    match Run(history[..|history| - 1])
    case None => None
    case Some(s) => Step(s, history[|history| - 1])
  }

  /**
   An outbox from which something was acknowledged is deleted exactly if nothing is left in it, and otherwise
   remembers which heights were scheduled; other outboxes stay as they are.
   */
  lemma MarkReceivedDeletes(s: ChainOutboxes, t: Target, h: u64, u: Target)
    requires Inv(s)
    ensures MarkReceived(s, t, h).Some?
    ensures var after, queue := MarkReceived(s, t, h).value.outboxes, OutboxOf(s.outboxes, t).queue;
            && ((exists k <- queue :: k <= h) && (forall k <- queue :: k <= h) <==> t !in after)
            && (t in after ==> after[t].nextHeight == OutboxOf(s.outboxes, t).nextHeight)
            && (u != t ==> (u in after <==> u in s.outboxes) && (u in after ==> after[u] == s.outboxes[u]))
  {
    MarkReceivedCounts(s, t, h);
    var queue := OutboxOf(s.outboxes, t).queue;
    var n := Covered(queue, h);
    CoveredCuts(queue, h);
    if n == |queue| && n > 0 {
      assert queue[0] in queue && queue[..n] == queue;
    } else if n < |queue| {
      assert queue[n] in queue;
    }
  }

  lemma StepCounts(s: ChainOutboxes, e: Event)
    requires Inv(s) && Step(s, e).Some?
    ensures Inv(Step(s, e).value)
  {
    match e
    case Executed(app, h, o) => ProcessOutcomeCounts(s, app, h, o);
    case Requested(subscribe, unsubscribe) =>
      UnsubscribeEachCounts(s, System, unsubscribe);
      SubscribeEachCounts(ProcessUnsubscribes(s, System, unsubscribe).value, System, subscribe);
    case Acknowledged(t, h) => MarkReceivedCounts(s, t, h);
  }

  lemma {:induction false} RunCounts(history: seq<Event>)
    requires Run(history).Some?
    ensures Inv(Run(history).value)
    decreases |history|
  {
    if history != [] {
      RunCounts(history[..|history| - 1]);
      StepCounts(Run(history[..|history| - 1]).value, history[|history| - 1]);
    }
  }

  /**
   After every history the counter of a height is the number of outboxes holding it, zero counters are
   absent, and no acknowledgement can hit a missing counter.
   */
  lemma OutboxCounters(history: seq<Event>, h: u64, t: Target, upTo: u64)
    requires Run(history).Some?
    ensures var s := Run(history).value;
            && (h in s.counters <==> Holders(s.outboxes, h) != {})
            && (h in s.counters ==> s.counters[h] == |Holders(s.outboxes, h)|)
            && MarkReceived(s, t, upTo).Some?
  {
    RunCounts(history);
    var s := Run(history).value;
    assert CounterOk(s.outboxes, s.counters, h);
    MarkReceivedCounts(s, t, upTo);
  }

  lemma {:induction false} SubsetIsSmaller(a: set<Target>, b: set<Target>)
    requires a <= b
    ensures |a| <= |b|
  {
    if a != {} {
      var t :| t in a;
      SubsetIsSmaller(a - {t}, b - {t});
    }
  }

  /** A counter never exceeds the number of outboxes, so it fits in 32 bits if that number does. */
  lemma CountersFit(history: seq<Event>, h: u64)
    requires Run(history).Some?
    ensures var s := Run(history).value; h in s.counters ==> 0 < s.counters[h] <= |s.outboxes|
  {
    OutboxCounters(history, h, Target(0, Direct), 0);
    var s := Run(history).value;
    SubsetIsSmaller(Holders(s.outboxes, h), s.outboxes.Keys);
  }

  ghost predicate AllDelivered(s: ChainOutboxes, h: u64) {
    forall t, k :: t in s.outboxes && k in s.outboxes[t].queue ==> k > h
  }

  /** Looking only at the lowest counter answers whether any queue still holds a height up to the given one. */
  method AllMessagesDeliveredUpTo(s: ChainOutboxes, h: u64) returns (delivered: bool)
    requires Inv(s)
    ensures delivered <==> AllDelivered(s, h)
  {
    if s.counters == map[] {
      delivered := true;
    } else {
      var first :| first in s.counters;
      var rest := s.counters.Keys - {first};
      while rest != {}
        invariant first in s.counters && rest <= s.counters.Keys
        invariant forall k :: k in s.counters && k !in rest ==> first <= k
        decreases rest
      {
        var k :| k in rest;
        if k < first {
          first := k;
        }
        rest := rest - {k};
      }
      delivered := first > h;
      assert CounterOk(s.outboxes, s.counters, first);
      if !delivered {
        ghost var t :| t in Holders(s.outboxes, first);
      }
    }
    if delivered {
      forall t, k | t in s.outboxes && k in s.outboxes[t].queue
        ensures k > h
      {
        assert CounterOk(s.outboxes, s.counters, k);
        assert t in Holders(s.outboxes, k);
      }
    }
  }

  // ---- The chain object ----

  lemma OutboxesOneMore(outboxes: Outboxes, done: set<Target>, t: Target, h: u64)
    requires h < U64_MAX && t !in done
    ensures var mid := OutboxesAfter(outboxes, done, h);
            && OutboxOf(mid, t) == OutboxOf(outboxes, t)
            && OutboxesAfter(outboxes, done + {t}, h) == mid[t := Schedule(OutboxOf(outboxes, t), h)]
  {
  }

  lemma AcceptingOneMore(outboxes: Outboxes, done: set<Target>, t: Target, h: u64)
    requires t !in done
    ensures |Accepting(outboxes, done + {t}, h)| ==
              |Accepting(outboxes, done, h)| + if Accepts(OutboxOf(outboxes, t), h) then 1 else 0
  {
    var before := Accepting(outboxes, done, h);
    assert Accepting(outboxes, done + {t}, h) == if Accepts(OutboxOf(outboxes, t), h) then before + {t} else before;
  }

  lemma CountersTwice(counters: Counters, h: u64, m: nat, n: nat)
    ensures CountersAfter(CountersAfter(counters, h, m), h, n) == CountersAfter(counters, h, m + n)
  {
  }

  /** Scheduling to a set of targets can be done one target at a time, in any order. */
  lemma ScheduleOneMore(s: ChainOutboxes, done: set<Target>, t: Target, h: u64)
    requires h < U64_MAX && t !in done
    ensures ScheduleAll(s, done + {t}, h) == ScheduleAll(ScheduleAll(s, done, h).value, {t}, h)
  {
    OutboxesOneMore(s.outboxes, done, t, h);
    AcceptingOneMore(s.outboxes, done, t, h);
    ScheduleOne(ScheduleAll(s, done, h).value, t, h);
    CountersTwice(s.counters, h, |Accepting(s.outboxes, done, h)|, if Accepts(OutboxOf(s.outboxes, t), h) then 1 else 0);
  }

  lemma ScheduleToNone(s: ChainOutboxes, h: u64)
    ensures ScheduleAll(s, {}, h) == Ok(s)
  {
    if h < U64_MAX {
      assert Accepting(s.outboxes, {}, h) == {};
      assert OutboxesAfter(s.outboxes, {}, h) == s.outboxes;
    }
  }

  /** What scheduling to a single target does to the two maps. */
  lemma ScheduleOne(s: ChainOutboxes, t: Target, h: u64)
    requires h < U64_MAX
    ensures var outbox := OutboxOf(s.outboxes, t);
            ScheduleAll(s, {t}, h) == Ok(s.(outboxes := s.outboxes[t := Schedule(outbox, h)],
                                            counters := CountersAfter(s.counters, h, if Accepts(outbox, h) then 1 else 0)))
  {
    assert OutboxesAfter(s.outboxes, {t}, h) == s.outboxes[t := Schedule(OutboxOf(s.outboxes, t), h)];
    if Accepts(OutboxOf(s.outboxes, t), h) {
      assert Accepting(s.outboxes, {t}, h) == {t};
    } else {
      assert Accepting(s.outboxes, {t}, h) == {};
    }
  }

  /** No counter goes down, and the flag tells whether one goes up. */
  ghost predicate Raised(before: Counters, after: Counters, flag: bool) {
    && (forall h <- before :: h in after && before[h] <= after[h])
    && (flag <==> before != after)
  }

  lemma RaisedTwice(a: Counters, b: Counters, c: Counters, first: bool, second: bool)
    requires Raised(a, b, first) && Raised(b, c, second)
    ensures Raised(a, c, first || second)
  {
    if first {
      var h :| h in b && (h !in a || a[h] < b[h]);
      assert h in c && (h !in a || a[h] < c[h]);
    }
  }

  class ChainOutboxesView {
    var outboxes: Outboxes
    var outboxCounters: Counters
    var channels: map<ChannelFullName, ChannelState>

    function View(): ChainOutboxes
      reads this
    {
      ChainOutboxes(outboxes, outboxCounters, channels)
    }

    constructor ()
      ensures View() == NOTHING_SENT && Inv(View())
    {
      outboxes, outboxCounters, channels := map[], map[], map[];
    }

    method ScheduleTo(t: Target, h: u64) returns (r: Result<bool, OutboxError>)
      modifies this`outboxes, this`outboxCounters
      ensures match ScheduleAll(old(View()), {t}, h)
              case Err(e) => r == Err(e)
              case Ok(next) => r == Ok(Accepts(OutboxOf(old(outboxes), t), h)) && View() == next
      ensures r.Ok? ==> Raised(old(outboxCounters), outboxCounters, r.value)
    {
      var outbox := OutboxOf(outboxes, t);
      if h < outbox.nextHeight {
        ScheduleOne(View(), t, h);
        outboxes := outboxes[t := outbox];
        return Ok(false);
      }
      if h == U64_MAX {
        return Err(Overflow);
      }
      ScheduleOne(View(), t, h);
      outboxes := outboxes[t := OutboxState(h + 1, outbox.queue + [h])];
      outboxCounters := outboxCounters[h := (if h in outboxCounters then outboxCounters[h] else 0) + 1];
      r := Ok(true);
    }

    method ScheduleToAll(targets: set<Target>, h: u64) returns (r: Result<(), OutboxError>)
      modifies this`outboxes, this`outboxCounters
      ensures match ScheduleAll(old(View()), targets, h)
              case Err(e) => r == Err(e)
              case Ok(next) => r == Ok(()) && View() == next
    {
      ghost var start := View();
      var rest, done := targets, {};
      ScheduleToNone(start, h);
      while rest != {}
        invariant forall t <- rest :: t in targets && t !in done
        invariant forall t <- targets :: t in rest || t in done
        invariant done <= targets
        invariant ScheduleAll(start, done, h) == Ok(View())
        decreases rest
      {
        var t :| t in rest;
        var scheduled := ScheduleTo(t, h);
        if scheduled.Err? {
          return Err(scheduled.error);
        }
        if h < U64_MAX {
          ScheduleOneMore(start, done, t, h);
        }
        rest, done := rest - {t}, done + {t};
      }
      assert done == targets;
      r := Ok(());
    }

    /** Counts down once for each height that has been acknowledged. */
    method CountDown(heights: seq<u64>)
      requires Release(outboxCounters, heights).Some?
      modifies this`outboxCounters
      ensures outboxCounters == Release(old(outboxCounters), heights).value
    {
      var i := 0;
      while i < |heights|
        invariant 0 <= i <= |heights|
        invariant Release(outboxCounters, heights[i..]) == Release(old(outboxCounters), heights)
      {
        assert heights[i..][0] == heights[i] && heights[i..][1..] == heights[i + 1..];
        var h := heights[i];
        if outboxCounters[h] == 1 {
          outboxCounters := outboxCounters - {h};
        } else {
          outboxCounters := outboxCounters[h := outboxCounters[h] - 1];
        }
        i := i + 1;
      }
    }

    /** The counters are counted down as the queue is acknowledged; an emptied outbox is deleted. */
    method MarkMessagesAsReceived(t: Target, h: u64) returns (changed: bool)
      requires Inv(View())
      modifies this`outboxes, this`outboxCounters
      ensures MarkReceived(old(View()), t, h) == Some(View()) && Inv(View())
      ensures changed <==> Covered(OutboxOf(old(outboxes), t).queue, h) > 0
    {
      MarkReceivedCounts(View(), t, h);
      var outbox := OutboxOf(outboxes, t);
      var updates, queue := TakeCovered(outbox.queue, h);
      if updates == [] {
        outboxes := outboxes[t := outbox];
        return false;
      }
      CountDown(updates);
      outboxes := if queue == [] then outboxes - {t} else outboxes[t := outbox.(queue := queue)];
      changed := true;
    }

    /** Schedules several heights to one target. */
    method ScheduleHeightsTo(t: Target, heights: seq<u64>) returns (r: Result<bool, OutboxError>)
      modifies this`outboxes, this`outboxCounters
      ensures match ScheduleHeights(old(View()), t, heights)
              case Err(e) => r == Err(e)
              case Ok(next) => r.Ok? && View() == next
      ensures r.Ok? ==> Raised(old(outboxCounters), outboxCounters, r.value)
    {
      ghost var start := View();
      var newEntries := false;
      var i := 0;
      while i < |heights|
        invariant 0 <= i <= |heights|
        invariant ScheduleHeights(start, t, heights[..i]) == Ok(View())
        invariant Raised(start.counters, outboxCounters, newEntries)
      {
        assert heights[..i + 1][..i] == heights[..i];
        ghost var before := outboxCounters;
        var scheduled := ScheduleTo(t, heights[i]);
        if scheduled.Err? {
          ScheduleHeightsFails(start, t, heights, i + 1);
          return Err(scheduled.error);
        }
        RaisedTwice(start.counters, before, outboxCounters, newEntries, scheduled.value);
        newEntries := newEntries || scheduled.value;
        i := i + 1;
      }
      assert heights[..i] == heights;
      r := Ok(newEntries);
    }

    /** Adds a subscriber to a channel and sends it everything broadcast so far. */
    method SubscribeTo(c: ChannelFullName, id: ChainId) returns (r: Result<bool, OutboxError>)
      modifies this
      ensures match AddSubscriber(old(View()), c, id)
              case Err(e) => r == Err(e)
              case Ok(next) => r.Ok? && View() == next
      ensures r.Ok? ==> Raised(old(outboxCounters), outboxCounters, r.value)
    {
      var channel := ChannelOf(View(), c);
      if id in channel.subscribers {
        return Ok(false);
      }
      channels := channels[c := channel.(subscribers := channel.subscribers + {id})];
      r := ScheduleHeightsTo(TargetOf(id, c), channel.heights);
    }

    /** The flag tells whether new outbox entries were created. */
    method ProcessSubscriptions(app: GenericApplicationId, subscriptions: seq<(ChannelName, ChainId)>)
      returns (r: Result<bool, OutboxError>)
      modifies this
      ensures match ProcessSubscribes(old(View()), app, subscriptions)
              case Err(e) => r == Err(e)
              case Ok(next) => r.Ok? && View() == next
      ensures r.Ok? ==> Raised(old(outboxCounters), outboxCounters, r.value)
    {
      if !DistinctNames(subscriptions) {
        return Err(LockedTwice);
      }
      ghost var start := View();
      var newEntries := false;
      var i := 0;
      while i < |subscriptions|
        invariant 0 <= i <= |subscriptions|
        invariant SubscribeEach(start, app, subscriptions[..i]) == Ok(View())
        invariant Raised(start.counters, outboxCounters, newEntries)
      {
        assert subscriptions[..i + 1][..i] == subscriptions[..i];
        ghost var before := outboxCounters;
        var subscribed := SubscribeTo(ChannelFullName(app, subscriptions[i].0), subscriptions[i].1);
        if subscribed.Err? {
          SubscribeEachFails(start, app, subscriptions, i + 1);
          return Err(subscribed.error);
        }
        RaisedTwice(start.counters, before, outboxCounters, newEntries, subscribed.value);
        newEntries := newEntries || subscribed.value;
        i := i + 1;
      }
      assert subscriptions[..i] == subscriptions;
      r := Ok(newEntries);
    }

    method ProcessUnsubscriptions(app: GenericApplicationId, subscriptions: seq<(ChannelName, ChainId)>)
      returns (r: Result<(), OutboxError>)
      modifies this`channels
      ensures match ProcessUnsubscribes(old(View()), app, subscriptions)
              case Err(e) => r == Err(e)
              case Ok(next) => r == Ok(()) && View() == next
    {
      if !DistinctNames(subscriptions) {
        return Err(LockedTwice);
      }
      ghost var start := View();
      var i := 0;
      while i < |subscriptions|
        invariant 0 <= i <= |subscriptions|
        invariant UnsubscribeEach(start, app, subscriptions[..i]) == View()
      {
        assert subscriptions[..i + 1][..i] == subscriptions[..i];
        var c := ChannelFullName(app, subscriptions[i].0);
        var channel := ChannelOf(View(), c);
        channels := channels[c := channel.(subscribers := channel.subscribers - {subscriptions[i].1})];
        i := i + 1;
      }
      assert subscriptions[..i] == subscriptions;
      r := Ok(());
    }

    method ProcessRawExecutionOutcome(app: GenericApplicationId, h: u64, o: RawOutcome) returns (r: Result<(), OutboxError>)
      modifies this
      ensures match ProcessOutcome(old(View()), app, h, o)
              case Err(e) => r == Err(e)
              case Ok(next) => r == Ok(()) && View() == next
    {
      r := ScheduleToAll(DirectTargets(o.recipients), h);
      if r.Err? {
        return;
      }
      r := ProcessUnsubscriptions(app, o.unsubscribe);
      if r.Err? {
        return;
      }
      var targets := BroadcastTargets(View(), app, o.broadcasts);
      channels := Broadcast(View(), app, o.broadcasts, h).channels;
      r := ScheduleToAll(targets, h);
      if r.Err? {
        return;
      }
      var subscribed := ProcessSubscriptions(app, o.subscribe);
      r := if subscribed.Err? then Err(subscribed.error) else Ok(());
    }
  }

  lemma {:induction false} ScheduleHeightsFails(s: ChainOutboxes, t: Target, heights: seq<u64>, k: nat)
    requires k <= |heights| && ScheduleHeights(s, t, heights[..k]).Err?
    ensures ScheduleHeights(s, t, heights) == ScheduleHeights(s, t, heights[..k])
    decreases |heights|
  {
    if k < |heights| {
      assert heights[..|heights| - 1][..k] == heights[..k];
      ScheduleHeightsFails(s, t, heights[..|heights| - 1], k);
    } else {
      assert heights[..k] == heights;
    }
  }

  lemma {:induction false} SubscribeEachFails(s: ChainOutboxes, app: GenericApplicationId,
                                              subscriptions: seq<(ChannelName, ChainId)>, k: nat)
    requires k <= |subscriptions| && SubscribeEach(s, app, subscriptions[..k]).Err?
    ensures SubscribeEach(s, app, subscriptions) == SubscribeEach(s, app, subscriptions[..k])
    decreases |subscriptions|
  {
    if k < |subscriptions| {
      assert subscriptions[..|subscriptions| - 1][..k] == subscriptions[..k];
      SubscribeEachFails(s, app, subscriptions[..|subscriptions| - 1], k);
    } else {
      assert subscriptions[..k] == subscriptions;
    }
  }

  /** Splits a queue after the heights that an acknowledgement covers. */
  method TakeCovered(start: seq<u64>, h: u64) returns (updates: seq<u64>, queue: seq<u64>)
    ensures var n := Covered(start, h); updates == start[..n] && queue == start[n..]
  {
    updates, queue := [], start;
    while queue != [] && queue[0] <= h
      invariant updates + queue == start
      invariant Covered(start, h) == |updates| + Covered(queue, h)
      decreases |queue|
    {
      assert updates + [queue[0]] + queue[1..] == start;
      updates, queue := updates + [queue[0]], queue[1..];
    }
  }
}
