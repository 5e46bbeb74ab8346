/**
 What becomes of the bundles a chain receives, in terms of the kinds and grants of their messages: which ones
 can hold up a later bundle, which ones may be passed over, and that none of the former gets lost.
 */
module Delivery {
  import opened Base
  import opened Messages
  import I = Inbox
  import C = ChainInboxes

  /** The bundle holds a protected message, a tracked message, or a message with a grant. */
  ghost predicate Demands(b: MessageBundle) {
    exists m <- b.messages :: m.kind.Protected? || m.kind.Tracked? || m.grant > 0
  }

  /** All messages of the bundle are simple or bouncing, without grant. */
  ghost predicate Optional(b: MessageBundle) {
    forall m <- b.messages :: (m.kind.Simple? || m.kind.Bouncing?) && m.grant == 0
  }

  lemma DemandsOrOptional(b: MessageBundle)
    ensures b.IsSkippable() <==> Optional(b)
    ensures b.IsSkippable() <==> !Demands(b)
  {
    if b.IsSkippable() {
      forall m <- b.messages
        ensures (m.kind.Simple? || m.kind.Bouncing?) && m.grant == 0
      {
        assert m.IsSkippable();
      }
    } else {
      var m :| m in b.messages && !m.IsSkippable();
      assert m.kind.Protected? || m.kind.Tracked? || m.grant > 0;
    }
  }

  // ---- One inbox ----

  /** A demanding bundle that was added has been consumed or is still waiting. */
  lemma DemandingNeverLost(history: seq<I.Operation>, b: MessageBundle)
    requires I.Run(history).Some? && b in I.Adds(history) && Demands(b)
    ensures b in I.Removes(history) || b in I.Run(history).value.added
  {
    DemandsOrOptional(b);
    I.UnskippableNeverLost(history, b);
  }

  lemma {:induction false} DiscardVerdict(added: seq<MessageBundle>, pos: nat)
    requires I.Increasing(added)
    ensures I.Discard(added, pos).Ok? <==> forall x <- added :: PosOf(x) < pos ==> Optional(x)
    ensures I.Discard(added, pos).Err? ==>
              exists x <- added :: PosOf(x) < pos && Demands(x) && I.Discard(added, pos).error == I.UnskippableBundle(x)
    decreases |added|
  {
    if added != [] {
      DemandsOrOptional(added[0]);
      I.IncreasingTail(added);
      DiscardVerdict(added[1..], pos);
      assert forall x <- added :: x == added[0] || x in added[1..];
    }
  }

  /** Removing a bundle is refused for the sake of another one exactly if a demanding bundle waits before it. */
  lemma HeldUpExactly(history: seq<I.Operation>, b: MessageBundle)
    requires I.Run(history).Some? && PosOf(b) >= Pos(I.Run(history).value.nextRemove)
    ensures var s := I.Run(history).value;
            (I.RemoveBundle(s, b).Err? && I.RemoveBundle(s, b).error.UnskippableBundle?)
            <==> exists x <- s.added :: PosOf(x) < PosOf(b) && Demands(x)
  {
    var s := I.Run(history).value;
    I.ReachableInbox(history);
    DiscardVerdict(s.added, PosOf(b));
    forall x <- s.added
      ensures Optional(x) <==> !Demands(x)
    {
      DemandsOrOptional(x);
    }
  }

  /** While a demanding bundle waits, no later bundle can be removed. */
  lemma DemandingHoldsUp(history: seq<I.Operation>, x: MessageBundle, b: MessageBundle)
    requires I.Run(history).Some? && x in I.Run(history).value.added && Demands(x) && PosOf(x) < PosOf(b)
    ensures I.RemoveBundle(I.Run(history).value, b).Err?
  {
    I.ReachableInbox(history);
    HeldUpExactly(history, b);
  }

  /** Optional bundles never stand in the way: removing a later one goes as if they had not been there. */
  lemma OptionalNeverHoldsUp(history: seq<I.Operation>, b: MessageBundle)
    requires I.Run(history).Some?
    requires forall x <- I.Run(history).value.added :: PosOf(x) < PosOf(b) ==> Optional(x)
    ensures var s := I.Run(history).value;
            I.RemoveBundle(s, b) == I.RemoveBundle(s.(added := I.From(s.added, PosOf(b))), b)
  {
    var s := I.Run(history).value;
    I.ReachableInbox(history);
    DiscardVerdict(s.added, PosOf(b));
    I.DiscardIsFrom(s.added, PosOf(b));
    I.FromIsRestriction(s.added, PosOf(b));
    KeptFrom(I.From(s.added, PosOf(b)), PosOf(b));
  }

  lemma KeptFrom(added: seq<MessageBundle>, pos: nat)
    requires forall x <- added :: PosOf(x) >= pos
    ensures I.From(added, pos) == added && I.Discard(added, pos) == Ok(added)
  {
    assert added != [] ==> added[0] in added;
  }

  // ---- All inboxes of a chain ----

  ghost function Removals(bundles: seq<MessageBundle>): seq<I.Operation> {
    seq(|bundles|, i requires 0 <= i < |bundles| => I.Remove(bundles[i]))
  }

  /** What an event does to the inbox of one origin. */
  ghost function OperationsOf(e: C.Event, o: Origin): seq<I.Operation> {
    match e
    case Received(from, b, _) => if from == o && b.GoesToInbox() then [I.Add(b)] else []
    case Executed(block) => Removals(C.BundlesOf(block.incoming, o))
  }

  ghost function Operations(history: seq<C.Event>, o: Origin): seq<I.Operation> {
    if history == [] then []
    else Operations(history[..|history| - 1], o) + OperationsOf(history[|history| - 1], o)
  }

  lemma RemovalsLast(ops: seq<I.Operation>, bundles: seq<MessageBundle>)
    requires bundles != []
    ensures var all := ops + Removals(bundles);
            && all[..|all| - 1] == ops + Removals(bundles[..|bundles| - 1])
            && all[|all| - 1] == I.Remove(bundles[|bundles| - 1])
  {
    assert Removals(bundles)[..|bundles| - 1] == Removals(bundles[..|bundles| - 1]);
  }

  lemma {:induction false} RemovalsRun(ops: seq<I.Operation>, bundles: seq<MessageBundle>)
    requires I.Run(ops).Some?
    ensures var removed := C.RemoveBundles(I.Run(ops).value, bundles);
            I.Run(ops + Removals(bundles)) == if removed.Ok? then Some(removed.value.0) else None
    decreases |bundles|
  {
    if bundles == [] {
      assert ops + Removals(bundles) == ops;
    } else {
      RemovalsRun(ops, bundles[..|bundles| - 1]);
      RemovalsLast(ops, bundles);
    }
  }

  lemma {:induction false} RemovalsLogged(ops: seq<I.Operation>, bundles: seq<MessageBundle>)
    ensures I.Adds(ops + Removals(bundles)) == I.Adds(ops)
    ensures I.Removes(ops + Removals(bundles)) == I.Removes(ops) + bundles
    decreases |bundles|
  {
    if bundles == [] {
      assert ops + Removals(bundles) == ops;
    } else {
      var init, last := bundles[..|bundles| - 1], bundles[|bundles| - 1];
      RemovalsLogged(ops, init);
      RemovalsLast(ops, bundles);
      assert I.Removes(ops) + init + [last] == I.Removes(ops) + bundles;
    }
  }

  lemma AddRuns(ops: seq<I.Operation>, b: MessageBundle)
    requires I.Run(ops).Some?
    ensures I.Run(ops + [I.Add(b)]) == I.Apply(I.Run(ops).value, I.Add(b))
    ensures I.Adds(ops + [I.Add(b)]) == I.Adds(ops) + [b] && I.Removes(ops + [I.Add(b)]) == I.Removes(ops)
  {
    assert (ops + [I.Add(b)])[..|ops|] == ops;
  }

  lemma EventRuns(s: C.ChainInboxState, e: C.Event, o: Origin, ops: seq<I.Operation>)
    requires C.Step(s, e).Some? && I.Run(ops) == Some(C.InboxOf(s.inboxes, o))
    ensures I.Run(ops + OperationsOf(e, o)) == Some(C.InboxOf(C.Step(s, e).value.inboxes, o))
  {
    assert ops + [] == ops;
    match e
    case Received(from, b, _) =>
      if from == o && b.GoesToInbox() {
        AddRuns(ops, b);
      }
    case Executed(block) =>
      RemovalsRun(ops, C.BundlesOf(block.incoming, o));
      if o !in s.inboxes.Keys + C.OriginsOf(block.incoming) {
        C.BundlesOfStranger(block.incoming, o);
      }
  }

  /** Every inbox of a chain goes through exactly the adds and removes of its origin. */
  lemma {:induction false} InboxOfHistory(history: seq<C.Event>, o: Origin)
    requires C.Run(history).Some?
    ensures I.Run(Operations(history, o)) == Some(C.InboxOf(C.Run(history).value.inboxes, o))
    decreases |history|
  {
    if history != [] {
      var before := history[..|history| - 1];
      InboxOfHistory(before, o);
      EventRuns(C.Run(before).value, history[|history| - 1], o, Operations(before, o));
    }
  }

  /** The bundles of one origin, executed so far and in the block, can be reconciled with those received. */
  ghost predicate Reconciles(history: seq<C.Event>, block: C.BlockInput, o: Origin) {
    I.Reconcilable(I.Adds(Operations(history, o)), I.Removes(Operations(history, o)) + C.BundlesOf(block.incoming, o))
  }

  lemma OriginVerdict(history: seq<C.Event>, block: C.BlockInput, o: Origin)
    requires C.Run(history).Some?
    ensures C.RemoveBundles(C.InboxOf(C.Run(history).value.inboxes, o), C.BundlesOf(block.incoming, o)).Ok?
       <==> Reconciles(history, block, o)
  {
    InboxOfHistory(history, o);
    RemovalsRun(Operations(history, o), C.BundlesOf(block.incoming, o));
    RemovalsLogged(Operations(history, o), C.BundlesOf(block.incoming, o));
    I.HistoryMatchesLogs(Operations(history, o) + Removals(C.BundlesOf(block.incoming, o)));
  }

  /**
   A block can be executed exactly if none of its bundles is later than the block and, for every origin, the
   bundles removed so far and those of the block can be reconciled with the bundles received.
   */
  lemma BlockVerdict(history: seq<C.Event>, block: C.BlockInput)
    requires C.Run(history).Some?
    ensures C.Step(C.Run(history).value, C.Executed(block)).Some? <==>
              && (forall x <- block.incoming :: x.bundle.timestamp <= block.timestamp)
              && (forall o :: Reconciles(history, block, o))
  {
    var s := C.Run(history).value;
    forall o
      ensures C.RemoveBundles(C.InboxOf(s.inboxes, o), C.BundlesOf(block.incoming, o)).Ok? <==> Reconciles(history, block, o)
    {
      OriginVerdict(history, block, o);
    }
    if forall o :: Reconciles(history, block, o) {
      forall o
        ensures C.RemoveBundles(C.InboxOf(s.inboxes, o), C.BundlesOf(block.incoming, o)).Ok?
      {
        assert Reconciles(history, block, o);
      }
    }
  }

  /** A bundle of subscriptions and unsubscriptions alone stays out of the inboxes; any other one is added. */
  lemma ReceiveVerdict(history: seq<C.Event>, o: Origin, b: MessageBundle, t: u64)
    requires C.Run(history).Some?
    ensures var s := C.Run(history).value;
            if forall m <- b.messages :: m.message.Subscribe? || m.message.Unsubscribe?
            then C.Receive(s, o, b, t) == Ok(s)
            else C.Receive(s, o, b, t).Ok? <==> I.Reconcilable(I.Adds(Operations(history, o)) + [b], I.Removes(Operations(history, o)))
  {
    InboxOfHistory(history, o);
    AddRuns(Operations(history, o), b);
    I.HistoryMatchesLogs(Operations(history, o) + [I.Add(b)]);
  }

  lemma {:induction false} ReceivedIsAdded(history: seq<C.Event>, e: C.Event)
    requires e in history && e.Received? && e.bundle.GoesToInbox()
    ensures e.bundle in I.Adds(Operations(history, e.origin))
    decreases |history|
  {
    var before, last := history[..|history| - 1], history[|history| - 1];
    var o := e.origin;
    AddsConcat(Operations(before, o), OperationsOf(last, o));
    if e == last {
      assert OperationsOf(last, o)[..0] == [];
      assert I.Adds([I.Add(e.bundle)]) == [e.bundle];
    } else {
      assert e in before;
      ReceivedIsAdded(before, e);
    }
  }

  lemma {:induction false} AddsConcat(a: seq<I.Operation>, b: seq<I.Operation>)
    ensures I.Adds(a + b) == I.Adds(a) + I.Adds(b)
    decreases |b|
  {
    if b == [] {
      assert a + b == a;
    } else {
      assert (a + b)[..|a + b| - 1] == a + b[..|b| - 1];
      AddsConcat(a, b[..|b| - 1]);
    }
  }

  /** While a demanding bundle waits it is in the live index, and the live index holds nothing else. */
  lemma LiveIsDemanding(history: seq<C.Event>, e: C.Entry)
    requires C.Run(history).Some?
    ensures var s := C.Run(history).value;
            e in C.Live(s.unskippable, s.removed)
            <==> exists b <- C.InboxOf(s.inboxes, e.origin).added :: CursorOf(b) == e.cursor && Demands(b)
  {
    C.UnskippableIndex(history);
    var s := C.Run(history).value;
    forall b <- C.InboxOf(s.inboxes, e.origin).added
      ensures b.IsSkippable() <==> !Demands(b)
    {
      DemandsOrOptional(b);
    }
  }

  /**
   Every demanding bundle that a chain receives for an inbox has been executed by one of its blocks, or waits
   and is in the live index.
   */
  lemma DemandingIsExecutedOrIndexed(history: seq<C.Event>, e: C.Event)
    requires C.Run(history).Some? && e in history && e.Received? && e.bundle.GoesToInbox() && Demands(e.bundle)
    ensures var s := C.Run(history).value;
            || e.bundle in I.Removes(Operations(history, e.origin))
            || C.Entry(e.origin, CursorOf(e.bundle)) in C.Live(s.unskippable, s.removed)
  {
    InboxOfHistory(history, e.origin);
    ReceivedIsAdded(history, e);
    DemandingNeverLost(Operations(history, e.origin), e.bundle);
    LiveIsDemanding(history, C.Entry(e.origin, CursorOf(e.bundle)));
  }

  // ---- When the waiting bundles were first seen ----

  ghost predicate SeenIn(history: seq<C.Event>, x: C.TimestampedEntry) {
    exists e <- history :: e.Received? && x == C.TimestampedEntry(C.Entry(e.origin, CursorOf(e.bundle)), e.localTime)
  }

  lemma {:induction false} SweepKeepsEntries(queue: seq<C.TimestampedEntry>, removed: set<C.Entry>, now: set<C.Entry>)
    ensures forall x <- C.Sweep(queue, removed, now).0 :: x in queue
    decreases |queue|
  {
    if queue != [] {
      SweepKeepsEntries(queue[1..], removed, now - {queue[0].entry});
      SweepKeepsEntries(queue[1..], removed - {queue[0].entry}, now);
    }
  }

  lemma StepKeepsSeen(s: C.ChainInboxState, e: C.Event, x: C.TimestampedEntry)
    requires C.Step(s, e).Some? && x in C.Step(s, e).value.unskippable
    ensures x in s.unskippable
         || (e.Received? && x == C.TimestampedEntry(C.Entry(e.origin, CursorOf(e.bundle)), e.localTime))
  {
    if e.Executed? && s.unskippable != [] {
      var now := C.RemovedEntries(s, e.block);
      SweepKeepsEntries(s.unskippable[1..], s.removed, now - {s.unskippable[0].entry});
    }
  }

  /** The index remembers for every entry the local time at which its bundle was received. */
  lemma {:induction false} SeenWhenReceived(history: seq<C.Event>, x: C.TimestampedEntry)
    requires C.Run(history).Some? && x in C.Run(history).value.unskippable
    ensures SeenIn(history, x)
    decreases |history|
  {
    var before, last := history[..|history| - 1], history[|history| - 1];
    StepKeepsSeen(C.Run(before).value, last, x);
    if x in C.Run(before).value.unskippable {
      SeenWhenReceived(before, x);
      assert forall e <- before :: e in history;
    }
  }
}
