/**
 All inboxes of a chain, with the queue of unskippable bundles used to detect that a chain ignores its
 messages. Entries are deleted from the queue lazily: only once they reach its front.
 */
module ChainInboxes {
  import opened Base
  import opened Messages
  import opened Inbox

  /** A bundle waiting in an inbox. */
  datatype Entry = Entry(origin: Origin, cursor: Cursor)

  datatype TimestampedEntry = TimestampedEntry(entry: Entry, seen: u64)

  datatype IncomingBundle = IncomingBundle(origin: Origin, bundle: MessageBundle)

  /** The part of a block that the inboxes look at. */
  datatype BlockInput = BlockInput(timestamp: u64, incoming: seq<IncomingBundle>)

  datatype ChainInboxState = ChainInboxState(
    inboxes: map<Origin, InboxState>,
    unskippable: seq<TimestampedEntry>,
    removed: set<Entry>)

  datatype ChainError = IncorrectBundleTimestamp | InboxFailure(origin: Origin, error: InboxError)

  const NO_INBOXES: ChainInboxState := ChainInboxState(map[], [], {})

  function InboxOf(inboxes: map<Origin, InboxState>, o: Origin): InboxState {
    if o in inboxes then inboxes[o] else EMPTY
  }

  // ---- Receiving ----

  function Receive(s: ChainInboxState, o: Origin, b: MessageBundle, localTime: u64): Result<ChainInboxState, ChainError> {
    if !b.GoesToInbox() then Ok(s) else
    match AddBundle(InboxOf(s.inboxes, o), b)
    case Err(e) => Err(InboxFailure(o, e))
    case Ok((inbox, newlyAdded)) =>
      var entry := TimestampedEntry(Entry(o, CursorOf(b)), localTime);
      Ok(s.(inboxes := s.inboxes[o := inbox],
            unskippable := s.unskippable + if newlyAdded && !b.IsSkippable() then [entry] else []))
  }

  // ---- Removing a block's bundles ----

  function BundlesOf(incoming: seq<IncomingBundle>, o: Origin): seq<MessageBundle> {
    if incoming == [] then [] else
      var last := incoming[|incoming| - 1];
      BundlesOf(incoming[..|incoming| - 1], o) + if last.origin == o then [last.bundle] else []
  }

  /** Removes bundles from one inbox; collects the cursors of unskippable bundles that were present. */
  function RemoveBundles(s: InboxState, bundles: seq<MessageBundle>): Result<(InboxState, set<Cursor>), InboxError> {
    if bundles == [] then Ok((s, {})) else
    match RemoveBundles(s, bundles[..|bundles| - 1])
    case Err(e) => Err(e)
    case Ok((t, present)) =>
      var b := bundles[|bundles| - 1];
      match RemoveBundle(t, b)
      case Err(e) => Err(e)
      case Ok((u, known)) => Ok((u, present + if known && !b.IsSkippable() then {CursorOf(b)} else {}))
  }

  ghost predicate Removable(s: ChainInboxState, block: BlockInput) {
    && (forall x <- block.incoming :: x.bundle.timestamp <= block.timestamp)
    && (forall o :: RemoveBundles(InboxOf(s.inboxes, o), BundlesOf(block.incoming, o)).Ok?)
  }

  ghost function OriginsOf(incoming: seq<IncomingBundle>): set<Origin> {
    set x <- incoming :: x.origin
  }

  ghost function InboxesAfter(s: ChainInboxState, block: BlockInput): map<Origin, InboxState>
    requires Removable(s, block)
  {
    map o | o in s.inboxes.Keys + OriginsOf(block.incoming) ::
      RemoveBundles(InboxOf(s.inboxes, o), BundlesOf(block.incoming, o)).value.0
  }

  ghost function RemovedBy(s: ChainInboxState, block: BlockInput, o: Origin): set<Entry>
    requires Removable(s, block)
  {
    EntriesAt(o, RemoveBundles(InboxOf(s.inboxes, o), BundlesOf(block.incoming, o)).value.1)
  }

  function EntriesAt(o: Origin, cursors: set<Cursor>): set<Entry> {
    set c | c in cursors :: Entry(o, c)
  }

  /** All unskippable entries that the block takes out of the inboxes. */
  ghost function RemovedEntries(s: ChainInboxState, block: BlockInput): set<Entry>
    requires Removable(s, block)
  {
    set o, e | o in OriginsOf(block.incoming) && e in RemovedBy(s, block, o) :: e
  }

  /** Deletes dead entries from the front of the queue. */
  function Sweep(queue: seq<TimestampedEntry>, removed: set<Entry>, now: set<Entry>)
    : (seq<TimestampedEntry>, set<Entry>, set<Entry>)
  {
    if queue == [] then (queue, removed, now)
    else if queue[0].entry in now then Sweep(queue[1..], removed, now - {queue[0].entry})
    else if queue[0].entry in removed then Sweep(queue[1..], removed - {queue[0].entry}, now)
    else (queue, removed, now)
  }

  /** The queue and the set of dead entries still in it, after `now` has died as well. */
  function Settle(queue: seq<TimestampedEntry>, removed: set<Entry>, now: set<Entry>): (seq<TimestampedEntry>, set<Entry>) {
    if now == {} then (queue, removed)
    else if queue != [] && queue[0].entry in now then
      var (q, r, n) := Sweep(queue[1..], removed, now - {queue[0].entry});
      (q, r + n)
    else (queue, removed + now)
  }

  ghost function RemoveBlock(s: ChainInboxState, block: BlockInput): ChainInboxState
    requires Removable(s, block)
  {
    var (queue, removed) := Settle(s.unskippable, s.removed, RemovedEntries(s, block));
    ChainInboxState(InboxesAfter(s, block), queue, removed)
  }

  // ---- Live entries of the queue ----

  function Live(queue: seq<TimestampedEntry>, dead: set<Entry>): seq<Entry> {
    if queue == [] then []
    else (if queue[0].entry in dead then [] else [queue[0].entry]) + Live(queue[1..], dead)
  }

  ghost predicate Distinct(queue: seq<TimestampedEntry>) {
    forall i, j :: 0 <= i < j < |queue| ==> queue[i].entry != queue[j].entry
  }

  ghost function Entries(queue: seq<TimestampedEntry>): set<Entry> {
    set x <- queue :: x.entry
  }

  /** The dead entries are in the queue, and never at its front. */
  ghost predicate Tidy(queue: seq<TimestampedEntry>, removed: set<Entry>) {
    Distinct(queue) && removed <= Entries(queue) && (queue != [] ==> queue[0].entry !in removed)
  }

  lemma DistinctTail(queue: seq<TimestampedEntry>)
    requires Distinct(queue) && queue != []
    ensures Distinct(queue[1..]) && queue[0].entry !in Entries(queue[1..])
    ensures Entries(queue) == Entries(queue[1..]) + {queue[0].entry}
  {
    assert forall x :: x in queue <==> x == queue[0] || x in queue[1..];
  }

  lemma {:induction false} LiveIgnoresStrangers(queue: seq<TimestampedEntry>, dead: set<Entry>, e: Entry)
    requires e !in Entries(queue)
    ensures Live(queue, dead) == Live(queue, dead - {e})
    decreases |queue|
  {
    if queue != [] {
      assert queue[0] in queue;
      assert forall x <- queue[1..] :: x in queue;
      LiveIgnoresStrangers(queue[1..], dead, e);
    }
  }

  lemma {:induction false} SweepKeepsLive(queue: seq<TimestampedEntry>, removed: set<Entry>, now: set<Entry>)
    requires Distinct(queue) && removed !! now && removed + now <= Entries(queue)
    ensures var (q, r, n) := Sweep(queue, removed, now);
            Tidy(q, r + n) && Live(q, r + n) == Live(queue, removed + now) && Entries(q) <= Entries(queue)
    decreases |queue|
  {
    if queue != [] && queue[0].entry in removed + now {
      var e := queue[0].entry;
      DistinctTail(queue);
      LiveIgnoresStrangers(queue[1..], removed + now, e);
      assert (removed - {e}) + (now - {e}) == removed + now - {e};
      assert e in now ==> removed - {e} == removed;
      assert e !in now ==> now - {e} == now;
      SweepKeepsLive(queue[1..], removed - {e}, now - {e});
    }
  }

  /** Lazy deletion computes the same list as deleting at once. */
  lemma SettleKeepsLive(queue: seq<TimestampedEntry>, removed: set<Entry>, now: set<Entry>)
    requires Tidy(queue, removed) && removed !! now && now <= Entries(queue)
    ensures var (q, r) := Settle(queue, removed, now);
            Tidy(q, r) && Live(q, r) == Live(queue, removed + now) && Entries(q) <= Entries(queue)
  {
    if now == {} {
      assert removed + now == removed;
    } else if queue != [] && queue[0].entry in now {
      SweepKeepsLive(queue, removed, now);
    }
  }

  lemma {:induction false} LiveAppend(queue: seq<TimestampedEntry>, x: TimestampedEntry, dead: set<Entry>)
    ensures Live(queue + [x], dead) == Live(queue, dead) + if x.entry in dead then [] else [x.entry]
    decreases |queue|
  {
    if queue != [] {
      assert (queue + [x])[1..] == queue[1..] + [x];
      LiveAppend(queue[1..], x, dead);
    }
  }

  lemma {:induction false} LiveMembers(queue: seq<TimestampedEntry>, dead: set<Entry>, e: Entry)
    ensures e in Live(queue, dead) <==> e in Entries(queue) && e !in dead
    decreases |queue|
  {
    if queue != [] {
      LiveMembers(queue[1..], dead, e);
      assert forall x :: x in queue <==> x == queue[0] || x in queue[1..];
    }
  }

  lemma {:induction false} LiveWithoutMore(queue: seq<TimestampedEntry>, dead: set<Entry>, now: set<Entry>)
    ensures Live(queue, dead + now) == Without(Live(queue, dead), now)
    decreases |queue|
  {
    if queue != [] {
      var e, rest := queue[0].entry, queue[1..];
      LiveWithoutMore(rest, dead, now);
      if e in dead {
        assert Live(queue, dead) == [] + Live(rest, dead) == Live(rest, dead);
        assert Live(queue, dead + now) == [] + Live(rest, dead + now) == Live(rest, dead + now);
      } else {
        assert Live(queue, dead) == [e] + Live(rest, dead);
        WithoutConcat([e], Live(rest, dead), now);
        assert Without([e], now) == if e in now then [] else [e];
      }
    }
  }

  ghost function Without(log: seq<Entry>, dead: set<Entry>): seq<Entry> {
    if log == [] then []
    else Without(log[..|log| - 1], dead) + if log[|log| - 1] in dead then [] else [log[|log| - 1]]
  }

  lemma {:induction false} WithoutConcat(xs: seq<Entry>, ys: seq<Entry>, dead: set<Entry>)
    ensures Without(xs + ys, dead) == Without(xs, dead) + Without(ys, dead)
    decreases |ys|
  {
    if ys == [] {
      assert xs + ys == xs;
    } else {
      assert (xs + ys)[..|xs + ys| - 1] == xs + ys[..|ys| - 1];
      WithoutConcat(xs, ys[..|ys| - 1], dead);
    }
  }

  // ---- Waiting bundles of one inbox ----

  ghost function Unskipped(added: seq<MessageBundle>): set<Cursor> {
    set b | b in added && !b.IsSkippable() :: CursorOf(b)
  }

  ghost function WaitingCursors(s: InboxState): set<Cursor> {
    Unskipped(s.added)
  }

  /** Queued bundles are in order and below the cursor for new ones. */
  ghost predicate Ordered(s: InboxState) {
    Increasing(s.added) && forall b <- s.added :: PosOf(b) < Pos(s.nextAdd)
  }

  lemma AddWaiting(s: InboxState, b: MessageBundle)
    requires Ordered(s) && AddBundle(s, b).Ok?
    ensures var (t, isNew) := AddBundle(s, b).value;
            && Ordered(t) && Pos(t.nextAdd) == PosOf(b) + 1 && Pos(s.nextAdd) <= PosOf(b)
            && CursorOf(b) !in WaitingCursors(s)
            && WaitingCursors(t) == WaitingCursors(s) + if isNew && !b.IsSkippable() then {CursorOf(b)} else {}
  {
    AddEffect(s, b);
    IncreasingAppend(s.added, b);
    if s.added != [] {
      assert s.added[|s.added| - 1] in s.added;
    }
    var t := AddBundle(s, b).value.0;
    assert s.removed == [] ==> forall x :: x in t.added <==> x in s.added || x == b;
  }

  /** Discarding loses only bundles that may be skipped. */
  lemma {:induction false} DiscardWaits(added: seq<MessageBundle>, pos: nat)
    requires Discard(added, pos).Ok? && Increasing(added)
    ensures Increasing(Discard(added, pos).value)
    ensures forall b <- Discard(added, pos).value :: b in added
    ensures forall b <- added :: !b.IsSkippable() ==> b in Discard(added, pos).value
    decreases |added|
  {
    if added != [] && PosOf(added[0]) < pos {
      IncreasingTail(added);
      DiscardWaits(added[1..], pos);
      assert forall b <- added :: b == added[0] || b in added[1..];
    }
  }

  lemma UnskippedTail(added: seq<MessageBundle>)
    requires Increasing(added) && added != []
    ensures CursorOf(added[0]) !in Unskipped(added[1..])
    ensures Unskipped(added) == Unskipped(added[1..]) + if added[0].IsSkippable() then {} else {CursorOf(added[0])}
  {
    IncreasingTail(added);
    assert forall x :: x in added <==> x == added[0] || x in added[1..];
  }

  lemma RemoveWaiting(s: InboxState, b: MessageBundle)
    requires Ordered(s) && RemoveBundle(s, b).Ok?
    ensures var (t, known) := RemoveBundle(s, b).value;
            var taken := if known && !b.IsSkippable() then {CursorOf(b)} else {};
            && Ordered(t) && t.nextAdd == s.nextAdd
            && taken <= WaitingCursors(s) && WaitingCursors(t) == WaitingCursors(s) - taken
  {
    RemoveEffect(s, b);
    DiscardWaits(s.added, PosOf(b));
    var rest := Discard(s.added, PosOf(b)).value;
    assert Unskipped(rest) == Unskipped(s.added);
    if rest != [] {
      IncreasingTail(rest);
      UnskippedTail(rest);
      assert forall x <- rest[1..] :: x in rest;
    }
  }

  lemma {:induction false} RemoveBundlesWaiting(s: InboxState, bundles: seq<MessageBundle>)
    requires Ordered(s) && RemoveBundles(s, bundles).Ok?
    ensures var (t, taken) := RemoveBundles(s, bundles).value;
            && Ordered(t) && t.nextAdd == s.nextAdd
            && taken <= WaitingCursors(s) && WaitingCursors(t) == WaitingCursors(s) - taken
    decreases |bundles|
  {
    if bundles != [] {
      var before := bundles[..|bundles| - 1];
      RemoveBundlesWaiting(s, before);
      RemoveWaiting(RemoveBundles(s, before).value.0, bundles[|bundles| - 1]);
    }
  }

  // ---- Histories ----

  datatype Event =
    | Received(origin: Origin, bundle: MessageBundle, localTime: u64)
    | Executed(block: BlockInput)

  ghost function Step(s: ChainInboxState, e: Event): Option<ChainInboxState> {
    match e
    case Received(o, b, t) => (var r := Receive(s, o, b, t); if r.Ok? then Some(r.value) else None)
    case Executed(block) => if Removable(s, block) then Some(RemoveBlock(s, block)) else None
  }

  ghost function Run(history: seq<Event>): Option<ChainInboxState> {
    if history == [] then Some(NO_INBOXES) else
    match Run(history[..|history| - 1])
    case None => None
    case Some(s) => Step(s, history[|history| - 1])
  }

  /** The log of all unskippable bundles received so far. */
  function Arrivals(history: seq<Event>): seq<Entry> {
    if history == [] then [] else Arrivals(history[..|history| - 1]) + Arrival(history[|history| - 1])
  }

  function Arrival(e: Event): seq<Entry> {
    if e.Received? && e.bundle.GoesToInbox() && !e.bundle.IsSkippable() then [Entry(e.origin, CursorOf(e.bundle))] else []
  }

  ghost predicate Waiting(s: ChainInboxState, e: Entry) {
    e.cursor in WaitingCursors(InboxOf(s.inboxes, e.origin))
  }

  /** The entries of a log whose bundles still wait in their inboxes. */
  ghost function StillWaiting(log: seq<Entry>, s: ChainInboxState): seq<Entry> {
    if log == [] then []
    else StillWaiting(log[..|log| - 1], s) + if Waiting(s, log[|log| - 1]) then [log[|log| - 1]] else []
  }

  lemma {:induction false} StillWaitingMembers(log: seq<Entry>, s: ChainInboxState, e: Entry)
    ensures e in StillWaiting(log, s) <==> e in log && Waiting(s, e)
    decreases |log|
  {
    if log != [] {
      StillWaitingMembers(log[..|log| - 1], s, e);
      assert log == log[..|log| - 1] + [log[|log| - 1]];
    }
  }

  lemma {:induction false} StillWaitingWithout(log: seq<Entry>, s: ChainInboxState, t: ChainInboxState, dead: set<Entry>)
    requires forall e <- log :: Waiting(t, e) <==> Waiting(s, e) && e !in dead
    ensures StillWaiting(log, t) == Without(StillWaiting(log, s), dead)
    decreases |log|
  {
    if log != [] {
      var e := log[|log| - 1];
      assert e in log;
      StillWaitingWithout(log[..|log| - 1], s, t, dead);
      WithoutConcat(StillWaiting(log[..|log| - 1], s), if Waiting(s, e) then [e] else [], dead);
    }
  }

  lemma {:induction false} WithoutNothing(log: seq<Entry>)
    ensures Without(log, {}) == log
    decreases |log|
  {
    if log != [] {
      WithoutNothing(log[..|log| - 1]);
    }
  }

  ghost predicate InboxesOrdered(s: ChainInboxState) {
    forall o :: Ordered(InboxOf(s.inboxes, o))
  }

  ghost predicate Below(s: ChainInboxState, arrivals: seq<Entry>) {
    forall e <- arrivals :: Pos(e.cursor) < Pos(InboxOf(s.inboxes, e.origin).nextAdd)
  }

  /** The queue without its dead entries is exactly the log of arrivals that still wait, in order of arrival. */
  ghost predicate Indexed(s: ChainInboxState, arrivals: seq<Entry>) {
    && Tidy(s.unskippable, s.removed)
    && Live(s.unskippable, s.removed) == StillWaiting(arrivals, s)
    && (forall e <- Entries(s.unskippable) :: e in arrivals)
    && (forall e :: Waiting(s, e) ==> e in arrivals)
  }

  ghost predicate Inv(s: ChainInboxState, arrivals: seq<Entry>) {
    InboxesOrdered(s) && Below(s, arrivals) && Indexed(s, arrivals)
  }

  // ---- Receiving keeps the index ----

  /** An inbox takes in a bundle at or above its cursor and moves the cursor past it. */
  ghost predicate TakesIn(s: ChainInboxState, t: ChainInboxState, entry: Entry) {
    && InboxesOrdered(t) && t.removed == s.removed
    && (forall o :: o != entry.origin ==> InboxOf(t.inboxes, o).nextAdd == InboxOf(s.inboxes, o).nextAdd)
    && Pos(InboxOf(s.inboxes, entry.origin).nextAdd) <= Pos(entry.cursor)
    && Pos(entry.cursor) < Pos(InboxOf(t.inboxes, entry.origin).nextAdd)
    && !Waiting(s, entry)
  }

  lemma ReceiveTakesIn(s: ChainInboxState, o: Origin, b: MessageBundle, localTime: u64)
    requires InboxesOrdered(s) && b.GoesToInbox() && Receive(s, o, b, localTime).Ok?
    ensures TakesIn(s, Receive(s, o, b, localTime).value, Entry(o, CursorOf(b)))
  {
    var inbox := InboxOf(s.inboxes, o);
    AddWaiting(inbox, b);
    var t := Receive(s, o, b, localTime).value;
    assert InboxOf(t.inboxes, o) == AddBundle(inbox, b).value.0;
    forall p | p != o
      ensures InboxOf(t.inboxes, p) == InboxOf(s.inboxes, p)
    {
    }
  }

  lemma ReceiveWaiting(s: ChainInboxState, o: Origin, b: MessageBundle, localTime: u64, e: Entry)
    requires InboxesOrdered(s) && b.GoesToInbox() && Receive(s, o, b, localTime).Ok?
    ensures var t := Receive(s, o, b, localTime).value;
            var entry := Entry(o, CursorOf(b));
            && (Waiting(t, e) <==> Waiting(s, e) || (e == entry && t.unskippable != s.unskippable))
            && (t.unskippable == s.unskippable || t.unskippable == s.unskippable + [TimestampedEntry(entry, localTime)])
            && (t.unskippable != s.unskippable ==> !b.IsSkippable())
  {
    var inbox := InboxOf(s.inboxes, o);
    AddWaiting(inbox, b);
    var t := Receive(s, o, b, localTime).value;
    assert InboxOf(t.inboxes, o) == AddBundle(inbox, b).value.0;
    if e.origin != o {
      assert InboxOf(t.inboxes, e.origin) == InboxOf(s.inboxes, e.origin);
    }
  }

  lemma StaysBelow(s: ChainInboxState, t: ChainInboxState, arrivals: seq<Entry>, entry: Entry)
    requires Below(s, arrivals) && TakesIn(s, t, entry)
    ensures Below(t, arrivals) && Below(t, arrivals + [entry])
  {
    forall e <- arrivals
      ensures Pos(e.cursor) < Pos(InboxOf(t.inboxes, e.origin).nextAdd)
    {
      assert Pos(e.cursor) < Pos(InboxOf(s.inboxes, e.origin).nextAdd);
    }
  }

  /** A bundle that is not queued leaves the index as it is. */
  lemma NotQueuedIndexed(s: ChainInboxState, t: ChainInboxState, arrivals: seq<Entry>, entry: Entry)
    requires Inv(s, arrivals) && TakesIn(s, t, entry) && t.unskippable == s.unskippable
    requires forall e :: Waiting(t, e) <==> Waiting(s, e)
    ensures Inv(t, arrivals) && Inv(t, arrivals + [entry])
  {
    StaysBelow(s, t, arrivals, entry);
    ArrivalsStillWaiting(s, t, arrivals, entry);
    assert (arrivals + [entry])[..|arrivals|] == arrivals;
    assert StillWaiting(arrivals + [entry], t) == StillWaiting(arrivals, t) + [];
  }

  /** A queued bundle is the last one in the index. */
  lemma QueuedIndexed(s: ChainInboxState, t: ChainInboxState, arrivals: seq<Entry>, entry: Entry, localTime: u64)
    requires Inv(s, arrivals) && TakesIn(s, t, entry)
    requires t.unskippable == s.unskippable + [TimestampedEntry(entry, localTime)]
    requires forall e :: Waiting(t, e) <==> Waiting(s, e) || e == entry
    ensures Inv(t, arrivals + [entry])
  {
    StaysBelow(s, t, arrivals, entry);
    ArrivalsStillWaiting(s, t, arrivals, entry);
    LiveAppend(s.unskippable, TimestampedEntry(entry, localTime), s.removed);
    ReceiveTidy(s, entry, localTime);
    assert (arrivals + [entry])[..|arrivals|] == arrivals;
    assert StillWaiting(arrivals + [entry], t) == StillWaiting(arrivals, t) + [entry];
  }

  lemma ReceiveIndexed(s: ChainInboxState, arrivals: seq<Entry>, o: Origin, b: MessageBundle, localTime: u64)
    requires Inv(s, arrivals) && Receive(s, o, b, localTime).Ok?
    ensures Inv(Receive(s, o, b, localTime).value, arrivals + Arrival(Received(o, b, localTime)))
  {
    var t := Receive(s, o, b, localTime).value;
    var entry := Entry(o, CursorOf(b));
    assert arrivals + [] == arrivals;
    if b.GoesToInbox() {
      ReceiveTakesIn(s, o, b, localTime);
      forall e
        ensures Waiting(t, e) <==> Waiting(s, e) || (e == entry && t.unskippable != s.unskippable)
      {
        ReceiveWaiting(s, o, b, localTime, e);
      }
      ReceiveWaiting(s, o, b, localTime, entry);
      if t.unskippable == s.unskippable {
        NotQueuedIndexed(s, t, arrivals, entry);
      } else {
        QueuedIndexed(s, t, arrivals, entry, localTime);
      }
    }
  }

  /** A new bundle does not change which older arrivals wait. */
  lemma ArrivalsStillWaiting(s: ChainInboxState, t: ChainInboxState, arrivals: seq<Entry>, entry: Entry)
    requires Below(s, arrivals) && Pos(entry.cursor) >= Pos(InboxOf(s.inboxes, entry.origin).nextAdd)
    requires forall e :: e != entry ==> (Waiting(t, e) <==> Waiting(s, e))
    ensures entry !in arrivals && StillWaiting(arrivals, t) == StillWaiting(arrivals, s)
  {
    StillWaitingWithout(arrivals, s, t, {});
    WithoutNothing(StillWaiting(arrivals, s));
  }

  lemma ReceiveTidy(s: ChainInboxState, entry: Entry, localTime: u64)
    requires Tidy(s.unskippable, s.removed) && entry !in Entries(s.unskippable)
    ensures Tidy(s.unskippable + [TimestampedEntry(entry, localTime)], s.removed)
    ensures Entries(s.unskippable + [TimestampedEntry(entry, localTime)]) == Entries(s.unskippable) + {entry}
  {
    var longer := s.unskippable + [TimestampedEntry(entry, localTime)];
    assert forall x :: x in longer <==> x in s.unskippable || x == TimestampedEntry(entry, localTime);
    assert forall i :: 0 <= i < |s.unskippable| ==> s.unskippable[i] in s.unskippable;
  }

  // ---- Executing a block keeps the index ----

  lemma {:induction false} BundlesOfStranger(incoming: seq<IncomingBundle>, o: Origin)
    requires o !in OriginsOf(incoming)
    ensures BundlesOf(incoming, o) == []
    decreases |incoming|
  {
    if incoming != [] {
      assert incoming[|incoming| - 1] in incoming;
      BundlesOfStranger(incoming[..|incoming| - 1], o);
    }
  }

  lemma BlockInboxes(s: ChainInboxState, block: BlockInput, o: Origin)
    requires Ordered(InboxOf(s.inboxes, o)) && Removable(s, block)
    ensures var before, after := InboxOf(s.inboxes, o), InboxOf(RemoveBlock(s, block).inboxes, o);
            var taken := RemoveBundles(before, BundlesOf(block.incoming, o)).value.1;
            && Ordered(after) && after.nextAdd == before.nextAdd
            && taken <= WaitingCursors(before) && WaitingCursors(after) == WaitingCursors(before) - taken
            && (o !in OriginsOf(block.incoming) ==> taken == {})
  {
    RemoveBundlesWaiting(InboxOf(s.inboxes, o), BundlesOf(block.incoming, o));
    if o !in OriginsOf(block.incoming) {
      BundlesOfStranger(block.incoming, o);
    }
  }

  lemma BlockWaitingEntry(s: ChainInboxState, block: BlockInput, e: Entry)
    requires InboxesOrdered(s) && Removable(s, block)
    ensures Waiting(RemoveBlock(s, block), e) <==> Waiting(s, e) && e !in RemovedEntries(s, block)
    ensures e in RemovedEntries(s, block) ==> Waiting(s, e)
  {
    assert Ordered(InboxOf(s.inboxes, e.origin));
    BlockInboxes(s, block, e.origin);
    var taken := RemoveBundles(InboxOf(s.inboxes, e.origin), BundlesOf(block.incoming, e.origin)).value.1;
    if e.cursor in taken {
      assert e in RemovedBy(s, block, e.origin);
    }
  }

  lemma BlockWaiting(s: ChainInboxState, block: BlockInput)
    requires InboxesOrdered(s) && Removable(s, block)
    ensures var t := RemoveBlock(s, block);
            && InboxesOrdered(t)
            && (forall o :: InboxOf(t.inboxes, o).nextAdd == InboxOf(s.inboxes, o).nextAdd)
            && (forall e :: Waiting(t, e) <==> Waiting(s, e) && e !in RemovedEntries(s, block))
            && (forall e <- RemovedEntries(s, block) :: Waiting(s, e))
  {
    var t := RemoveBlock(s, block);
    forall o
      ensures Ordered(InboxOf(t.inboxes, o)) && InboxOf(t.inboxes, o).nextAdd == InboxOf(s.inboxes, o).nextAdd
    {
      BlockInboxes(s, block, o);
    }
    forall e
      ensures Waiting(t, e) <==> Waiting(s, e) && e !in RemovedEntries(s, block)
      ensures e in RemovedEntries(s, block) ==> Waiting(s, e)
    {
      BlockWaitingEntry(s, block, e);
    }
  }

  lemma BlockIndexed(s: ChainInboxState, arrivals: seq<Entry>, block: BlockInput)
    requires Inv(s, arrivals) && Removable(s, block)
    ensures Inv(RemoveBlock(s, block), arrivals)
  {
    var t := RemoveBlock(s, block);
    var now := RemovedEntries(s, block);
    BlockWaiting(s, block);
    forall e <- now
      ensures e in Entries(s.unskippable) && e !in s.removed
    {
      StillWaitingMembers(arrivals, s, e);
      LiveMembers(s.unskippable, s.removed, e);
    }
    SettleKeepsLive(s.unskippable, s.removed, now);
    LiveWithoutMore(s.unskippable, s.removed, now);
    StillWaitingWithout(arrivals, s, t, now);
  }

  lemma {:induction false} RunInv(history: seq<Event>)
    requires Run(history).Some?
    ensures Inv(Run(history).value, Arrivals(history))
    decreases |history|
  {
    if history != [] {
      var before := history[..|history| - 1];
      RunInv(before);
      match history[|history| - 1]
      case Received(o, b, t) => ReceiveIndexed(Run(before).value, Arrivals(before), o, b, t);
      case Executed(block) =>
        BlockIndexed(Run(before).value, Arrivals(before), block);
        assert Arrivals(history) == Arrivals(before);
    }
  }

  /**
   The unskippable index, after every history: without its dead entries the queue lists exactly the
   unskippable bundles still waiting in some inbox, in the order in which they arrived; dead entries are in
   the queue, but never at its front.
   */
  lemma UnskippableIndex(history: seq<Event>)
    requires Run(history).Some?
    ensures var s := Run(history).value;
            && Live(s.unskippable, s.removed) == StillWaiting(Arrivals(history), s)
            && (forall e :: e in Live(s.unskippable, s.removed) <==> Waiting(s, e))
            && s.removed <= Entries(s.unskippable)
            && (s.unskippable != [] ==> s.unskippable[0].entry !in s.removed)
  {
    RunInv(history);
    var s := Run(history).value;
    forall e
      ensures e in Live(s.unskippable, s.removed) <==> Waiting(s, e)
    {
      StillWaitingMembers(Arrivals(history), s, e);
    }
  }

  // ---- The chain object ----

  ghost predicate Punctual(block: BlockInput) {
    forall x <- block.incoming :: x.bundle.timestamp <= block.timestamp
  }

  ghost predicate IsGrouping(incoming: seq<IncomingBundle>, groups: map<Origin, seq<MessageBundle>>) {
    groups.Keys == OriginsOf(incoming) && forall o <- groups :: groups[o] == BundlesOf(incoming, o)
  }

  /** One more bundle goes to the end of its origin's group. */
  lemma GroupAppend(incoming: seq<IncomingBundle>, groups: map<Origin, seq<MessageBundle>>, x: IncomingBundle)
    requires IsGrouping(incoming, groups)
    ensures IsGrouping(incoming + [x], groups[x.origin := (if x.origin in groups then groups[x.origin] else []) + [x.bundle]])
  {
    assert forall y :: y in incoming + [x] <==> y in incoming || y == x;
    assert (incoming + [x])[..|incoming|] == incoming;
    if x.origin !in groups {
      BundlesOfStranger(incoming, x.origin);
    }
  }

  /** Groups the bundles of a block by origin, keeping their order; fails if one is from the future. */
  method GroupByOrigin(block: BlockInput) returns (r: Result<map<Origin, seq<MessageBundle>>, ChainError>)
    ensures r.Ok? <==> Punctual(block)
    ensures r.Ok? ==> IsGrouping(block.incoming, r.value)
  {
    var groups: map<Origin, seq<MessageBundle>> := map[];
    var i := 0;
    while i < |block.incoming|
      invariant 0 <= i <= |block.incoming|
      invariant forall j :: 0 <= j < i ==> block.incoming[j].bundle.timestamp <= block.timestamp
      invariant IsGrouping(block.incoming[..i], groups)
    {
      var x := block.incoming[i];
      if x.bundle.timestamp > block.timestamp {
        return Err(IncorrectBundleTimestamp);
      }
      GroupAppend(block.incoming[..i], groups, x);
      assert block.incoming[..i + 1] == block.incoming[..i] + [x];
      groups := groups[x.origin := (if x.origin in groups then groups[x.origin] else []) + [x.bundle]];
      i := i + 1;
    }
    assert block.incoming[..|block.incoming|] == block.incoming;
    r := Ok(groups);
  }

  /** Removes bundles from one inbox, one after the other. */
  method RemoveFromInbox(start: InboxState, bundles: seq<MessageBundle>) returns (r: Result<(InboxState, set<Cursor>), InboxError>)
    ensures r == RemoveBundles(start, bundles)
  {
    var inbox, present := start, {};
    for i := 0 to |bundles|
      invariant RemoveBundles(start, bundles[..i]) == Ok((inbox, present))
    {
      assert bundles[..i + 1][..i] == bundles[..i];
      match RemoveBundle(inbox, bundles[i]) {
        case Err(e) =>
          RemoveBundlesErrorOnward(start, bundles, i + 1);
          return Err(e);
        case Ok((next, known)) =>
          inbox := next;
          if known && !bundles[i].IsSkippable() {
            present := present + {CursorOf(bundles[i])};
          } else {
            assert present + {} == present;
          }
      }
    }
    assert bundles[..|bundles|] == bundles;
    r := Ok((inbox, present));
  }

  lemma {:induction false} RemoveBundlesErrorOnward(s: InboxState, bundles: seq<MessageBundle>, k: nat)
    requires k <= |bundles| && RemoveBundles(s, bundles[..k]).Err?
    ensures RemoveBundles(s, bundles) == RemoveBundles(s, bundles[..k])
    decreases |bundles|
  {
    if k < |bundles| {
      assert bundles[..|bundles| - 1][..k] == bundles[..k];
      RemoveBundlesErrorOnward(s, bundles[..|bundles| - 1], k);
    } else {
      assert bundles[..k] == bundles;
    }
  }

  type Removal = Result<(InboxState, set<Cursor>), InboxError>

  /** What removing each group from its inbox yields. */
  ghost function Removals(inboxes: map<Origin, InboxState>, groups: map<Origin, seq<MessageBundle>>): map<Origin, Removal> {
    map o | o in groups :: RemoveBundles(InboxOf(inboxes, o), groups[o])
  }

  ghost predicate AllRemoved(removals: map<Origin, Removal>) {
    forall o <- removals :: removals[o].Ok?
  }

  /** The inboxes, and the unskippable entries taken, once the given removals have been carried out. */
  ghost predicate CarriedOut(inboxes: map<Origin, InboxState>, removals: map<Origin, Removal>, origins: set<Origin>,
                             after: map<Origin, InboxState>, gone: set<Entry>)
  {
    && origins <= removals.Keys
    && after.Keys == inboxes.Keys + origins
    && (forall o <- origins :: removals[o].Ok? && after[o] == removals[o].value.0)
    && (forall o <- inboxes :: o !in origins ==> after[o] == inboxes[o])
    && (forall e :: e in gone <==> e.origin in origins && e.cursor in removals[e.origin].value.1)
  }

  lemma CarryOutOne(inboxes: map<Origin, InboxState>, removals: map<Origin, Removal>, done: set<Origin>,
                    after: map<Origin, InboxState>, gone: set<Entry>, o: Origin)
    requires CarriedOut(inboxes, removals, done, after, gone) && o in removals && o !in done
    ensures InboxOf(after, o) == InboxOf(inboxes, o)
    ensures removals[o].Ok? ==>
              CarriedOut(inboxes, removals, done + {o}, after[o := removals[o].value.0], gone + EntriesAt(o, removals[o].value.1))
  {
  }

  method RemoveGroup(inboxes: map<Origin, InboxState>, groups: map<Origin, seq<MessageBundle>>, o: Origin) returns (r: Removal)
    requires o in groups
    ensures r == Removals(inboxes, groups)[o]
  {
    r := RemoveFromInbox(InboxOf(inboxes, o), groups[o]);
  }

  /** Removes each group from its own inbox. */
  method RemoveGroups(inboxes: map<Origin, InboxState>, groups: map<Origin, seq<MessageBundle>>)
    returns (r: Result<(map<Origin, InboxState>, set<Entry>), ChainError>)
    ensures r.Ok? <==> AllRemoved(Removals(inboxes, groups))
    ensures r.Ok? ==> CarriedOut(inboxes, Removals(inboxes, groups), groups.Keys, r.value.0, r.value.1)
  {
    ghost var removals := Removals(inboxes, groups);
    var after, gone: set<Entry> := inboxes, {};
    var rest, done := groups.Keys, {};
    while rest != {}
      invariant rest !! done && rest + done == groups.Keys
      invariant CarriedOut(inboxes, removals, done, after, gone)
      decreases rest
    {
      var o :| o in rest;
      CarryOutOne(inboxes, removals, done, after, gone, o);
      var removed := RemoveGroup(inboxes, groups, o);
      if removed.Err? {
        return Err(InboxFailure(o, removed.error));
      }
      after := after[o := removed.value.0];
      gone := gone + EntriesAt(o, removed.value.1);
      rest, done := rest - {o}, done + {o};
    }
    assert done == groups.Keys;
    r := Ok((after, gone));
  }

  /** Working group by group is the same as the specification, origin by origin. */
  lemma GroupsAreBlock(s: ChainInboxState, block: BlockInput, groups: map<Origin, seq<MessageBundle>>)
    requires Punctual(block) && IsGrouping(block.incoming, groups)
    ensures Removable(s, block) <==> AllRemoved(Removals(s.inboxes, groups))
  {
    forall o | o !in groups
      ensures RemoveBundles(InboxOf(s.inboxes, o), BundlesOf(block.incoming, o)).Ok?
    {
      BundlesOfStranger(block.incoming, o);
    }
    forall o | o in groups
      ensures Removals(s.inboxes, groups)[o] == RemoveBundles(InboxOf(s.inboxes, o), BundlesOf(block.incoming, o))
    {
    }
  }

  lemma CarriedOutIsBlock(s: ChainInboxState, block: BlockInput, groups: map<Origin, seq<MessageBundle>>,
                          after: map<Origin, InboxState>, gone: set<Entry>)
    requires IsGrouping(block.incoming, groups) && Removable(s, block)
    requires CarriedOut(s.inboxes, Removals(s.inboxes, groups), groups.Keys, after, gone)
    ensures after == InboxesAfter(s, block) && gone == RemovedEntries(s, block)
  {
    forall o | o !in groups
      ensures RemoveBundles(InboxOf(s.inboxes, o), BundlesOf(block.incoming, o)) == Ok((InboxOf(s.inboxes, o), {}))
    {
      BundlesOfStranger(block.incoming, o);
    }
    forall e
      ensures e in gone <==> e in RemovedEntries(s, block)
    {
      if e in gone {
        assert e in RemovedBy(s, block, e.origin);
      }
    }
  }

  class ChainState {
    var inboxes: map<Origin, InboxState>
    var unskippableBundles: seq<TimestampedEntry>
    var removedUnskippableBundles: set<Entry>

    function View(): ChainInboxState
      reads this
    {
      ChainInboxState(inboxes, unskippableBundles, removedUnskippableBundles)
    }

    constructor ()
      ensures View() == NO_INBOXES
    {
      inboxes, unskippableBundles, removedUnskippableBundles := map[], [], {};
    }

    method ReceiveMessageBundle(o: Origin, b: MessageBundle, localTime: u64) returns (r: Result<(), ChainError>)
      modifies this
      ensures match Receive(old(View()), o, b, localTime)
              case Ok(next) => r == Ok(()) && View() == next
              case Err(e) => r == Err(e)
    {
      if b.GoesToInbox() {
        match AddBundle(InboxOf(inboxes, o), b) {
          case Err(e) => return Err(InboxFailure(o, e));
          case Ok((inbox, newlyAdded)) =>
            inboxes := inboxes[o := inbox];
            if newlyAdded && !b.IsSkippable() {
              unskippableBundles := unskippableBundles + [TimestampedEntry(Entry(o, CursorOf(b)), localTime)];
            }
        }
      }
      r := Ok(());
    }

    /** The queue part of removing a block: delete what is dead at the front, remember the rest. */
    method SettleQueue(gone: set<Entry>)
      modifies this`unskippableBundles, this`removedUnskippableBundles
      ensures (unskippableBundles, removedUnskippableBundles) ==
                Settle(old(unskippableBundles), old(removedUnskippableBundles), gone)
    {
      if gone == {} {
        return;
      }
      var now := gone;
      if unskippableBundles != [] && unskippableBundles[0].entry in now {
        now := now - {unskippableBundles[0].entry};
        unskippableBundles := unskippableBundles[1..];
        while unskippableBundles != []
          invariant Sweep(unskippableBundles, removedUnskippableBundles, now) ==
                    Sweep(old(unskippableBundles)[1..], old(removedUnskippableBundles), gone - {old(unskippableBundles)[0].entry})
          decreases |unskippableBundles|
        {
          var entry := unskippableBundles[0].entry;
          if entry in now {
            now := now - {entry};
          } else {
            if entry !in removedUnskippableBundles {
              break;
            }
            removedUnskippableBundles := removedUnskippableBundles - {entry};
          }
          unskippableBundles := unskippableBundles[1..];
        }
      }
      removedUnskippableBundles := removedUnskippableBundles + now;
    }

    method RemoveBundlesFromInboxes(block: BlockInput) returns (r: Result<(), ChainError>)
      modifies this
      ensures r.Ok? <==> old(Removable(View(), block))
      ensures r.Ok? ==> View() == RemoveBlock(old(View()), block)
    {
      var grouped := GroupByOrigin(block);
      if grouped.Err? {
        return Err(grouped.error);
      }
      var removed := RemoveGroups(inboxes, grouped.value);
      GroupsAreBlock(View(), block, grouped.value);
      if removed.Err? {
        return Err(removed.error);
      }
      CarriedOutIsBlock(View(), block, grouped.value, removed.value.0, removed.value.1);
      inboxes := removed.value.0;
      SettleQueue(removed.value.1);
      r := Ok(());
    }
  }
}
