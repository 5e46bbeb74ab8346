/**
 The inbox of one sender: two queues that reconcile bundles added by the sender with bundles that the
 receiving chain has already executed, possibly before they arrived.

 The specification is the pair of logs: everything ever added and everything ever removed.
 */
module Inbox {
  import opened Base
  import opened Messages

  datatype InboxState = InboxState(
    nextAdd: Cursor,
    nextRemove: Cursor,
    added: seq<MessageBundle>,
    removed: seq<MessageBundle>)

  datatype InboxError =
    | Overflow
    | UnexpectedBundle(bundle: MessageBundle, previous: MessageBundle)
    | IncorrectOrder(bundle: MessageBundle, next: Cursor)
    | UnskippableBundle(bundle: MessageBundle)

  const ORIGIN: Cursor := Cursor(0, 0)

  const EMPTY: InboxState := InboxState(ORIGIN, ORIGIN, [], [])

  // ---- Operations on the state ----

  function After(c: Cursor): Result<Cursor, InboxError> {
    if c.index < U32_MAX then Ok(Cursor(c.height, c.index + 1)) else Err(Overflow)
  }

  /** Discards queued bundles below a position; the first one that cannot be skipped is an error. */
  function Discard(added: seq<MessageBundle>, pos: nat): Result<seq<MessageBundle>, InboxError> {
    if added == [] || PosOf(added[0]) >= pos then Ok(added)
    else if !added[0].IsSkippable() then Err(UnskippableBundle(added[0]))
    else Discard(added[1..], pos)
  }

  /** Consumes a bundle; the flag says whether it had already been added. */
  function RemoveBundle(s: InboxState, b: MessageBundle): Result<(InboxState, bool), InboxError> {
    if PosOf(b) < Pos(s.nextRemove) then Err(IncorrectOrder(b, s.nextRemove)) else
    match Discard(s.added, PosOf(b))
    case Err(e) => Err(e)
    case Ok(rest) =>
      if rest != [] && rest[0] != b then Err(UnexpectedBundle(b, rest[0])) else
      match After(CursorOf(b))
      case Err(e) => Err(e)
      case Ok(next) =>
        if rest != [] then Ok((s.(added := rest[1..], nextRemove := next), true))
        else Ok((s.(added := [], removed := s.removed + [b], nextRemove := next), false))
  }

  /** Receives a bundle; the flag says whether it is now waiting to be consumed. */
  function AddBundle(s: InboxState, b: MessageBundle): Result<(InboxState, bool), InboxError> {
    if PosOf(b) < Pos(s.nextAdd) then Err(IncorrectOrder(b, s.nextAdd))
    else if s.removed != [] && PosOf(s.removed[0]) == PosOf(b) && b != s.removed[0] then
      Err(UnexpectedBundle(b, s.removed[0]))
    else if s.removed != [] && PosOf(s.removed[0]) != PosOf(b)
            && !(PosOf(b) < PosOf(s.removed[0]) && b.IsSkippable()) then
      Err(UnexpectedBundle(b, s.removed[0]))
    else
      match After(CursorOf(b))
      case Err(e) => Err(e)
      case Ok(next) =>
        if s.removed == [] then Ok((s.(added := s.added + [b], nextAdd := next), true))
        else if PosOf(s.removed[0]) == PosOf(b) then Ok((s.(removed := s.removed[1..], nextAdd := next), false))
        else Ok((s.(nextAdd := next), false))
  }

  function NextBlockHeightToReceive(s: InboxState): Result<u64, InboxError> {
    if s.nextAdd.index == 0 then Ok(s.nextAdd.height)
    else if s.nextAdd.height < U64_MAX then Ok(s.nextAdd.height + 1)
    else Err(Overflow)
  }

  // ---- The inbox object ----

  class InboxStateView {
    var nextCursorToAdd: Cursor
    var nextCursorToRemove: Cursor
    var addedBundles: seq<MessageBundle>
    var removedBundles: seq<MessageBundle>

    function View(): InboxState
      reads this
    {
      InboxState(nextCursorToAdd, nextCursorToRemove, addedBundles, removedBundles)
    }

    constructor ()
      ensures View() == EMPTY
    {
      nextCursorToAdd, nextCursorToRemove, addedBundles, removedBundles := ORIGIN, ORIGIN, [], [];
    }

    /** The state after an error is meaningless and must be thrown away, as in the source. */
    method Remove(b: MessageBundle) returns (r: Result<bool, InboxError>)
      modifies this
      ensures match RemoveBundle(old(View()), b)
              case Ok(next) => r == Ok(next.1) && View() == next.0
              case Err(e) => r == Err(e)
    {
      var cursor := CursorOf(b);
      if Pos(cursor) < Pos(nextCursorToRemove) {
        return Err(IncorrectOrder(b, nextCursorToRemove));
      }
      while addedBundles != [] && PosOf(addedBundles[0]) < Pos(cursor)
        invariant nextCursorToAdd == old(nextCursorToAdd) && nextCursorToRemove == old(nextCursorToRemove)
        invariant removedBundles == old(removedBundles)
        invariant Discard(addedBundles, Pos(cursor)) == Discard(old(addedBundles), Pos(cursor))
        decreases |addedBundles|
      {
        if !addedBundles[0].IsSkippable() {
          return Err(UnskippableBundle(addedBundles[0]));
        }
        addedBundles := addedBundles[1..];
      }
      var alreadyKnown;
      if addedBundles != [] {
        if b != addedBundles[0] {
          return Err(UnexpectedBundle(b, addedBundles[0]));
        }
        addedBundles := addedBundles[1..];
        alreadyKnown := true;
      } else {
        removedBundles := removedBundles + [b];
        alreadyKnown := false;
      }
      if cursor.index == U32_MAX {
        return Err(Overflow);
      }
      nextCursorToRemove := Cursor(cursor.height, cursor.index + 1);
      return Ok(alreadyKnown);
    }

    method Add(b: MessageBundle) returns (r: Result<bool, InboxError>)
      modifies this
      ensures match AddBundle(old(View()), b)
              case Ok(next) => r == Ok(next.1) && View() == next.0
              case Err(e) => r == Err(e)
    {
      var cursor := CursorOf(b);
      if Pos(cursor) < Pos(nextCursorToAdd) {
        return Err(IncorrectOrder(b, nextCursorToAdd));
      }
      var newlyAdded;
      if removedBundles != [] {
        if PosOf(removedBundles[0]) == Pos(cursor) {
          if b != removedBundles[0] {
            return Err(UnexpectedBundle(b, removedBundles[0]));
          }
          removedBundles := removedBundles[1..];
        } else if !(Pos(cursor) < PosOf(removedBundles[0]) && b.IsSkippable()) {
          return Err(UnexpectedBundle(b, removedBundles[0]));
        }
        newlyAdded := false;
      } else {
        addedBundles := addedBundles + [b];
        newlyAdded := true;
      }
      if cursor.index == U32_MAX {
        return Err(Overflow);
      }
      nextCursorToAdd := Cursor(cursor.height, cursor.index + 1);
      return Ok(newlyAdded);
    }
  }

  // ---- The specification: two logs ----

  type Log = seq<MessageBundle>

  ghost predicate Increasing(log: Log) {
    forall i, j :: 0 <= i < j < |log| ==> PosOf(log[i]) < PosOf(log[j])
  }

  ghost predicate Countable(log: Log) {
    forall b <- log :: b.transactionIndex < U32_MAX
  }

  /** The first position above everything in the log. */
  ghost function Bound(log: Log): nat {
    if log == [] then 0 else PosOf(log[|log| - 1]) + 1
  }

  /** The cursor after the last bundle of the log. */
  ghost function NextCursor(log: Log): Cursor
    requires Countable(log)
  {
    if log == [] then ORIGIN else
      var last := log[|log| - 1];
      assert last in log;
      Cursor(last.height, last.transactionIndex + 1)
  }

  /** The part of an increasing log at or above a position. */
  ghost function From(log: Log, pos: nat): Log {
    if log == [] || PosOf(log[0]) >= pos then log else From(log[1..], pos)
  }

  /** Every removed bundle that is due has been added, and every added bundle that is due was removed or skippable. */
  ghost predicate Compatible(adds: Log, removes: Log) {
    && (forall r <- removes :: PosOf(r) < Bound(adds) ==> r in adds)
    && (forall a <- adds :: PosOf(a) < Bound(removes) ==> a in removes || a.IsSkippable())
  }

  ghost predicate Reconcilable(adds: Log, removes: Log) {
    Increasing(adds) && Increasing(removes) && Countable(adds) && Countable(removes) && Compatible(adds, removes)
  }

  ghost function Represent(adds: Log, removes: Log): InboxState
    requires Countable(adds) && Countable(removes)
  {
    InboxState(NextCursor(adds), NextCursor(removes), From(adds, Bound(removes)), From(removes, Bound(adds)))
  }

  // ---- Facts about logs ----

  lemma NextCursorIsBound(log: Log)
    requires Countable(log)
    ensures Pos(NextCursor(log)) == Bound(log)
  {
  }

  lemma IncreasingTail(log: Log)
    requires Increasing(log) && log != []
    ensures Increasing(log[1..])
    ensures forall b <- log[1..] :: PosOf(log[0]) < PosOf(b)
  {
  }

  /** `From` cuts an increasing log in two. */
  lemma {:induction false} FromIsSuffix(log: Log, pos: nat) returns (k: nat)
    requires Increasing(log)
    ensures k <= |log| && From(log, pos) == log[k..]
    ensures forall i :: 0 <= i < |log| ==> (i < k <==> PosOf(log[i]) < pos)
    decreases |log|
  {
    if log == [] || PosOf(log[0]) >= pos {
      k := 0;
    } else {
      IncreasingTail(log);
      var j := FromIsSuffix(log[1..], pos);
      k := j + 1;
      assert forall i :: 0 < i < |log| ==> log[i] == log[1..][i - 1];
    }
  }

  /** `From` is the restriction of the log: it keeps exactly the bundles at or above the position, in order. */
  lemma FromIsRestriction(log: Log, pos: nat)
    requires Increasing(log)
    ensures Increasing(From(log, pos))
    ensures forall b :: b in From(log, pos) <==> b in log && PosOf(b) >= pos
    ensures From(log, pos) != [] <==> Bound(log) > pos
  {
    var k := FromIsSuffix(log, pos);
    forall b | b in log && PosOf(b) >= pos
      ensures b in log[k..]
    {
      var i :| 0 <= i < |log| && log[i] == b;
      assert log[k..][i - k] == b;
    }
  }

  lemma {:induction false} FromAppend(log: Log, b: MessageBundle, pos: nat)
    requires Increasing(log + [b])
    ensures From(log + [b], pos) == if PosOf(b) >= pos then From(log, pos) + [b] else []
    decreases |log|
  {
    if log != [] {
      assert (log + [b])[1..] == log[1..] + [b];
      assert PosOf((log + [b])[0]) < PosOf((log + [b])[|log|]);
      IncreasingTail(log + [b]);
      FromAppend(log[1..], b, pos);
    } else {
      assert (log + [b])[1..] == [];
    }
  }

  lemma {:induction false} FromFrom(log: Log, p: nat, q: nat)
    requires p <= q
    ensures From(From(log, p), q) == From(log, q)
    decreases |log|
  {
    if log != [] && PosOf(log[0]) < p {
      FromFrom(log[1..], p, q);
    }
  }

  /** Moving the position past the front bundle drops that bundle and nothing else. */
  lemma FromNext(log: Log, p: nat, q: nat)
    requires Increasing(log) && p <= q
    ensures From(log, p) == [] ==> From(log, q) == []
    ensures From(log, p) != [] && q == PosOf(From(log, p)[0]) + 1 ==> From(log, q) == From(log, p)[1..]
    ensures From(log, p) != [] && q <= PosOf(From(log, p)[0]) ==> From(log, q) == From(log, p)
  {
    FromFrom(log, p, q);
    var k := FromIsSuffix(log, p);
    if k + 1 < |log| {
      assert log[k..][0] == log[k] && log[k..][1..][0] == log[k + 1];
      assert PosOf(log[k]) < PosOf(log[k + 1]);
    }
  }

  /** Discarding succeeds exactly when everything below the position can be skipped. */
  lemma {:induction false} DiscardIsFrom(log: Log, pos: nat)
    requires Increasing(log)
    ensures Discard(log, pos).Ok? <==> forall a <- log :: PosOf(a) < pos ==> a.IsSkippable()
    ensures Discard(log, pos).Ok? ==> Discard(log, pos).value == From(log, pos)
    decreases |log|
  {
    if log != [] {
      IncreasingTail(log);
      assert log[0] in log;
      if PosOf(log[0]) < pos && log[0].IsSkippable() {
        DiscardIsFrom(log[1..], pos);
        assert forall a <- log :: a == log[0] || a in log[1..];
      } else if PosOf(log[0]) >= pos {
        assert forall a <- log :: a == log[0] || a in log[1..];
      }
    }
  }

  lemma IncreasingAppend(log: Log, b: MessageBundle)
    ensures Increasing(log + [b]) <==> Increasing(log) && PosOf(b) >= Bound(log)
  {
    var longer := log + [b];
    if Increasing(longer) {
      forall i, j | 0 <= i < j < |log|
        ensures PosOf(log[i]) < PosOf(log[j])
      {
        assert PosOf(longer[i]) < PosOf(longer[j]);
      }
      if log != [] {
        assert PosOf(longer[|log| - 1]) < PosOf(longer[|log|]);
      }
    }
  }

  lemma SamePosition(log: Log, a: MessageBundle, b: MessageBundle)
    requires Increasing(log) && a in log && b in log && PosOf(a) == PosOf(b)
    ensures a == b
  {
    var i :| 0 <= i < |log| && log[i] == a;
    var j :| 0 <= j < |log| && log[j] == b;
  }

  lemma BelowBound(log: Log, b: MessageBundle)
    requires Increasing(log) && b in log
    ensures PosOf(b) < Bound(log)
  {
    var i :| 0 <= i < |log| && log[i] == b;
    assert i < |log| - 1 ==> PosOf(log[i]) < PosOf(log[|log| - 1]);
  }

  // ---- One operation against the logs ----

  lemma CompatiblePrefix(adds: Log, removes: Log, b: MessageBundle)
    ensures Increasing(adds + [b]) && Compatible(adds + [b], removes) ==> Compatible(adds, removes)
    ensures Increasing(removes + [b]) && Compatible(adds, removes + [b]) ==> Compatible(adds, removes)
  {
    IncreasingAppend(adds, b);
    IncreasingAppend(removes, b);
  }

  /** The front of a restricted log is its lowest bundle. */
  lemma FrontIsLowest(log: Log, pos: nat, b: MessageBundle)
    requires Increasing(log) && b in log && PosOf(b) >= pos
    ensures From(log, pos) != [] && PosOf(From(log, pos)[0]) <= PosOf(b)
  {
    FromIsRestriction(log, pos);
    var rest := From(log, pos);
    var i :| 0 <= i < |rest| && rest[i] == b;
    assert i > 0 ==> PosOf(rest[0]) < PosOf(rest[i]);
  }

  /** A bundle that does not fit the front of the anticipated bundles can never be reconciled with them. */
  lemma AddIncompatible(adds: Log, removes: Log, b: MessageBundle)
    requires Reconcilable(adds, removes) && PosOf(b) >= Bound(adds)
    requires var waiting := From(removes, Bound(adds));
             waiting != [] && b != waiting[0] && !(PosOf(b) < PosOf(waiting[0]) && b.IsSkippable())
    ensures !Compatible(adds + [b], removes)
  {
    var front := From(removes, Bound(adds))[0];
    FromIsRestriction(removes, Bound(adds));
    assert front in From(removes, Bound(adds));
    BelowBound(removes, front);
    if PosOf(b) < PosOf(front) {
      assert b in adds + [b];
      if b in removes {
        FrontIsLowest(removes, Bound(adds), b);
      }
    } else if front in adds {
      BelowBound(adds, front);
    }
  }

  /** What comes before the bundle among the removed ones has been added, or is the front of the rest. */
  lemma DueRemoves(adds: Log, removes: Log, b: MessageBundle, r: MessageBundle)
    requires Reconcilable(adds, removes) && r in removes && PosOf(r) <= PosOf(b)
    requires var waiting := From(removes, Bound(adds)); waiting == [] || PosOf(b) <= PosOf(waiting[0])
    ensures r in adds || (From(removes, Bound(adds)) != [] && r == From(removes, Bound(adds))[0])
  {
    if PosOf(r) >= Bound(adds) {
      FromIsRestriction(removes, Bound(adds));
      FrontIsLowest(removes, Bound(adds), r);
      SamePosition(removes, r, From(removes, Bound(adds))[0]);
    }
  }

  /** The condition for adding, read off the front of the anticipated bundles, is compatibility of the logs. */
  lemma AddCompatible(adds: Log, removes: Log, b: MessageBundle)
    requires Reconcilable(adds, removes) && PosOf(b) >= Bound(adds)
    ensures var waiting := From(removes, Bound(adds));
            Compatible(adds + [b], removes) <==>
              (waiting == [] || b == waiting[0] || (PosOf(b) < PosOf(waiting[0]) && b.IsSkippable()))
  {
    var waiting := From(removes, Bound(adds));
    if waiting != [] && b != waiting[0] && !(PosOf(b) < PosOf(waiting[0]) && b.IsSkippable()) {
      AddIncompatible(adds, removes, b);
    } else {
      FromIsRestriction(removes, Bound(adds));
      assert Bound(adds + [b]) == PosOf(b) + 1;
      forall r <- removes | PosOf(r) <= PosOf(b)
        ensures r in adds + [b]
      {
        DueRemoves(adds, removes, b, r);
        if waiting != [] && r == waiting[0] && r != b {
          assert false;
        }
      }
    }
  }

  lemma CountableAppend(log: Log, b: MessageBundle)
    ensures Countable(log + [b]) <==> Countable(log) && b.transactionIndex < U32_MAX
  {
    if Countable(log + [b]) {
      assert forall x <- log :: x in log + [b];
      assert b in log + [b];
    }
  }

  /** Adding succeeds exactly when the longer log is still reconcilable, ... */
  lemma AddVerdict(adds: Log, removes: Log, b: MessageBundle)
    requires Reconcilable(adds, removes)
    ensures AddBundle(Represent(adds, removes), b).Ok? <==> Reconcilable(adds + [b], removes)
  {
    NextCursorIsBound(adds);
    IncreasingAppend(adds, b);
    CountableAppend(adds, b);
    if PosOf(b) >= Bound(adds) {
      AddCompatible(adds, removes, b);
    }
  }

  lemma AddParts(adds: Log, removes: Log, b: MessageBundle)
    requires Reconcilable(adds, removes) && Reconcilable(adds + [b], removes)
    ensures var s, t := Represent(adds, removes), Represent(adds + [b], removes);
            && t.nextAdd == Cursor(b.height, b.transactionIndex + 1) && t.nextRemove == s.nextRemove
            && t.added == (if s.removed == [] then s.added + [b] else s.added)
            && t.removed == (if s.removed != [] && s.removed[0] == b then s.removed[1..] else s.removed)
            && (s.removed == [] <==> PosOf(b) >= Bound(removes))
  {
    assert Bound(adds + [b]) == PosOf(b) + 1;
    FromAppend(adds, b, Bound(removes));
    AddMovesAnticipated(adds, removes, b);
    if From(removes, Bound(adds)) != [] {
      AddedEmptyWhenBehind(adds, removes);
    }
  }

  lemma AddEffect(s: InboxState, b: MessageBundle)
    requires AddBundle(s, b).Ok?
    ensures var (t, isNew) := AddBundle(s, b).value;
            && (isNew <==> s.removed == [])
            && t == InboxState(Cursor(b.height, b.transactionIndex + 1), s.nextRemove,
                               if s.removed == [] then s.added + [b] else s.added,
                               if s.removed != [] && s.removed[0] == b then s.removed[1..] else s.removed)
  {
  }

  /** ... and then the new state represents it. */
  lemma AddResult(adds: Log, removes: Log, b: MessageBundle)
    requires Reconcilable(adds, removes) && Reconcilable(adds + [b], removes)
    ensures AddBundle(Represent(adds, removes), b) == Ok((Represent(adds + [b], removes), PosOf(b) >= Bound(removes)))
  {
    AddVerdict(adds, removes, b);
    AddEffect(Represent(adds, removes), b);
    AddParts(adds, removes, b);
  }

  lemma AddedEmptyWhenBehind(adds: Log, removes: Log)
    requires Increasing(adds) && Increasing(removes) && From(removes, Bound(adds)) != []
    ensures From(adds, Bound(removes)) == []
  {
    FromIsRestriction(adds, Bound(removes));
    FromIsRestriction(removes, Bound(adds));
  }

  /** Adding a bundle moves the bound of the anticipated bundles past it, and past nothing else. */
  lemma AddMovesAnticipated(adds: Log, removes: Log, b: MessageBundle)
    requires Reconcilable(adds, removes) && Reconcilable(adds + [b], removes)
    ensures var waiting := From(removes, Bound(adds));
            && (waiting == [] <==> PosOf(b) >= Bound(removes))
            && From(removes, PosOf(b) + 1) == if waiting != [] && waiting[0] == b then waiting[1..] else waiting
  {
    IncreasingAppend(adds, b);
    AddCompatible(adds, removes, b);
    FromNext(removes, Bound(adds), PosOf(b) + 1);
    AnticipatedWhenBehind(adds, removes);
  }

  lemma AnticipatedWhenBehind(adds: Log, removes: Log)
    requires Increasing(removes)
    ensures var waiting := From(removes, Bound(adds));
            && (waiting == [] <==> Bound(removes) <= Bound(adds))
            && (waiting != [] ==> PosOf(waiting[0]) < Bound(removes))
  {
    FromIsRestriction(removes, Bound(adds));
    var waiting := From(removes, Bound(adds));
    if waiting != [] {
      assert waiting[0] in waiting;
      BelowBound(removes, waiting[0]);
    }
  }

  /** Bundles that wait in front of a removed one have not been removed. */
  lemma WaitingNotRemoved(adds: Log, removes: Log, b: MessageBundle, a: MessageBundle)
    requires Increasing(adds) && Increasing(removes) && a in From(adds, Bound(removes)) && PosOf(a) < PosOf(b)
    ensures a in adds && a !in removes + [b]
  {
    FromIsRestriction(adds, Bound(removes));
    if a in removes {
      BelowBound(removes, a);
    }
  }

  lemma RemoveNeeds(adds: Log, removes: Log, b: MessageBundle)
    requires Reconcilable(adds, removes) && PosOf(b) >= Bound(removes) && Compatible(adds, removes + [b])
    ensures forall a <- From(adds, Bound(removes)) :: PosOf(a) < PosOf(b) ==> a.IsSkippable()
    ensures From(adds, PosOf(b)) == [] || From(adds, PosOf(b))[0] == b
  {
    assert Bound(removes + [b]) == PosOf(b) + 1;
    forall a <- From(adds, Bound(removes)) | PosOf(a) < PosOf(b)
      ensures a.IsSkippable()
    {
      WaitingNotRemoved(adds, removes, b, a);
    }
    var rest := From(adds, PosOf(b));
    FromIsRestriction(adds, PosOf(b));
    if rest != [] {
      assert rest[0] in adds;
      BelowBound(adds, rest[0]);
      assert b in removes + [b];
      FrontIsLowest(adds, PosOf(b), b);
      SamePosition(adds, rest[0], b);
    }
  }

  lemma RemoveSuffices(adds: Log, removes: Log, b: MessageBundle)
    requires Reconcilable(adds, removes) && PosOf(b) >= Bound(removes)
    requires forall a <- From(adds, Bound(removes)) :: PosOf(a) < PosOf(b) ==> a.IsSkippable()
    requires From(adds, PosOf(b)) == [] || From(adds, PosOf(b))[0] == b
    ensures Compatible(adds, removes + [b])
  {
    assert Bound(removes + [b]) == PosOf(b) + 1;
    FromIsRestriction(adds, Bound(removes));
    FromIsRestriction(adds, PosOf(b));
    var rest := From(adds, PosOf(b));
    if rest != [] {
      assert rest[0] in rest;
    }
    forall a <- adds | PosOf(a) < PosOf(b) + 1
      ensures a in removes + [b] || a.IsSkippable()
    {
      if PosOf(a) == PosOf(b) {
        SamePosition(adds, a, b);
      } else if PosOf(a) < Bound(removes) {
        assert a in removes || a.IsSkippable();
      }
    }
  }

  /** The condition for removing, read off the queue of added bundles, is compatibility of the logs. */
  lemma RemoveCompatible(adds: Log, removes: Log, b: MessageBundle)
    requires Reconcilable(adds, removes) && PosOf(b) >= Bound(removes)
    ensures var rest := From(adds, PosOf(b));
            Compatible(adds, removes + [b]) <==>
              (forall a <- From(adds, Bound(removes)) :: PosOf(a) < PosOf(b) ==> a.IsSkippable())
              && (rest == [] || rest[0] == b)
  {
    if Compatible(adds, removes + [b]) {
      RemoveNeeds(adds, removes, b);
    } else if (forall a <- From(adds, Bound(removes)) :: PosOf(a) < PosOf(b) ==> a.IsSkippable())
              && (From(adds, PosOf(b)) == [] || From(adds, PosOf(b))[0] == b) {
      RemoveSuffices(adds, removes, b);
    }
  }

  /** Removing succeeds exactly when the longer log is still reconcilable, ... */
  lemma RemoveVerdict(adds: Log, removes: Log, b: MessageBundle)
    requires Reconcilable(adds, removes)
    ensures RemoveBundle(Represent(adds, removes), b).Ok? <==> Reconcilable(adds, removes + [b])
  {
    NextCursorIsBound(removes);
    IncreasingAppend(removes, b);
    CountableAppend(removes, b);
    if PosOf(b) >= Bound(removes) {
      DiscardWaiting(adds, removes, b);
      RemoveCompatible(adds, removes, b);
    }
  }

  lemma DiscardWaiting(adds: Log, removes: Log, b: MessageBundle)
    requires Increasing(adds) && Bound(removes) <= PosOf(b)
    ensures var discarded := Discard(From(adds, Bound(removes)), PosOf(b));
            && (discarded.Ok? <==> forall a <- From(adds, Bound(removes)) :: PosOf(a) < PosOf(b) ==> a.IsSkippable())
            && (discarded.Ok? ==> discarded.value == From(adds, PosOf(b)))
  {
    FromIsRestriction(adds, Bound(removes));
    DiscardIsFrom(From(adds, Bound(removes)), PosOf(b));
    FromFrom(adds, Bound(removes), PosOf(b));
  }

  lemma RemoveParts(adds: Log, removes: Log, b: MessageBundle)
    requires Countable(adds) && Countable(removes) && Countable(removes + [b])
    ensures var s, t := Represent(adds, removes), Represent(adds, removes + [b]);
            && t.nextAdd == s.nextAdd && t.nextRemove == Cursor(b.height, b.transactionIndex + 1)
            && t.added == From(adds, PosOf(b) + 1)
            && t.removed == From(removes + [b], Bound(adds))
  {
  }

  lemma RemoveEffect(s: InboxState, b: MessageBundle)
    requires RemoveBundle(s, b).Ok?
    ensures Discard(s.added, PosOf(b)).Ok?
    ensures var (t, known) := RemoveBundle(s, b).value;
            var rest := Discard(s.added, PosOf(b)).value;
            && (known <==> rest != []) && (known ==> rest[0] == b)
            && t == InboxState(s.nextAdd, Cursor(b.height, b.transactionIndex + 1),
                               if rest != [] then rest[1..] else [],
                               if rest != [] then s.removed else s.removed + [b])
  {
  }

  /** ... and then the new state represents it. */
  lemma RemoveResult(adds: Log, removes: Log, b: MessageBundle)
    requires Reconcilable(adds, removes) && Reconcilable(adds, removes + [b])
    ensures RemoveBundle(Represent(adds, removes), b) == Ok((Represent(adds, removes + [b]), b in adds))
  {
    RemoveVerdict(adds, removes, b);
    RemoveEffect(Represent(adds, removes), b);
    IncreasingAppend(removes, b);
    DiscardWaiting(adds, removes, b);
    RemoveMovesAdded(adds, removes, b);
    RemoveParts(adds, removes, b);
  }

  /** Removing a bundle moves the bound of the waiting bundles past it, and anticipates it if it is not there. */
  lemma RemoveMovesAdded(adds: Log, removes: Log, b: MessageBundle)
    requires Reconcilable(adds, removes) && Reconcilable(adds, removes + [b])
    ensures var rest := From(adds, PosOf(b));
            && (rest != [] <==> b in adds)
            && From(adds, PosOf(b) + 1) == (if rest != [] then rest[1..] else [])
            && From(removes + [b], Bound(adds)) ==
                 if rest != [] then From(removes, Bound(adds)) else From(removes, Bound(adds)) + [b]
  {
    var rest := From(adds, PosOf(b));
    IncreasingAppend(removes, b);
    KnownWhenDue(adds, removes, b);
    FromNext(adds, PosOf(b), PosOf(b) + 1);
    FromAppend(removes, b, Bound(adds));
    if rest != [] {
      NothingAnticipatedWhenAhead(adds, removes, b);
    }
  }

  lemma KnownWhenDue(adds: Log, removes: Log, b: MessageBundle)
    requires Reconcilable(adds, removes) && Reconcilable(adds, removes + [b])
    ensures var rest := From(adds, PosOf(b));
            && (rest != [] <==> b in adds) && (rest != [] ==> rest[0] == b)
            && (rest != [] <==> PosOf(b) < Bound(adds))
  {
    IncreasingAppend(removes, b);
    RemoveCompatible(adds, removes, b);
    FromIsRestriction(adds, PosOf(b));
    assert From(adds, PosOf(b)) != [] ==> From(adds, PosOf(b))[0] in From(adds, PosOf(b));
  }

  lemma NothingAnticipatedWhenAhead(adds: Log, removes: Log, b: MessageBundle)
    requires Increasing(removes) && Bound(removes) <= PosOf(b) < Bound(adds)
    ensures From(removes, Bound(adds)) == []
  {
    FromIsRestriction(removes, Bound(adds));
  }

  // ---- Histories ----

  datatype Operation = Add(bundle: MessageBundle) | Remove(bundle: MessageBundle)

  function Apply(s: InboxState, op: Operation): Option<InboxState> {
    var result := if op.Add? then AddBundle(s, op.bundle) else RemoveBundle(s, op.bundle);
    if result.Ok? then Some(result.value.0) else None
  }

  /** The inbox after a history of operations, if all of them succeed. */
  function Run(history: seq<Operation>): Option<InboxState> {
    if history == [] then Some(EMPTY) else
    match Run(history[..|history| - 1])
    case None => None
    case Some(s) => Apply(s, history[|history| - 1])
  }

  function Adds(history: seq<Operation>): Log {
    if history == [] then [] else
      var last := history[|history| - 1];
      var before := Adds(history[..|history| - 1]);
      if last.Add? then before + [last.bundle] else before
  }

  function Removes(history: seq<Operation>): Log {
    if history == [] then [] else
      var last := history[|history| - 1];
      var before := Removes(history[..|history| - 1]);
      if last.Remove? then before + [last.bundle] else before
  }

  /** The inbox that two logs lead to, if they can be reconciled. */
  ghost function Verdict(adds: Log, removes: Log): Option<InboxState> {
    if Reconcilable(adds, removes) then Some(Represent(adds, removes)) else None
  }

  lemma AddToVerdict(adds: Log, removes: Log, b: MessageBundle)
    requires Reconcilable(adds, removes)
    ensures Apply(Represent(adds, removes), Add(b)) == Verdict(adds + [b], removes)
  {
    AddVerdict(adds, removes, b);
    if Reconcilable(adds + [b], removes) {
      AddResult(adds, removes, b);
    }
  }

  lemma RemoveFromVerdict(adds: Log, removes: Log, b: MessageBundle)
    requires Reconcilable(adds, removes)
    ensures Apply(Represent(adds, removes), Remove(b)) == Verdict(adds, removes + [b])
  {
    RemoveVerdict(adds, removes, b);
    if Reconcilable(adds, removes + [b]) {
      RemoveResult(adds, removes, b);
    }
  }

  /** Logs that cannot be reconciled never can be, whatever comes next. */
  lemma NoWayBack(adds: Log, removes: Log, b: MessageBundle)
    requires Verdict(adds, removes).None?
    ensures Verdict(adds + [b], removes).None? && Verdict(adds, removes + [b]).None?
  {
    CompatiblePrefix(adds, removes, b);
    IncreasingAppend(adds, b);
    IncreasingAppend(removes, b);
    CountableAppend(adds, b);
    CountableAppend(removes, b);
  }

  lemma {:induction false} RunIsVerdict(history: seq<Operation>)
    ensures Run(history) == Verdict(Adds(history), Removes(history))
    decreases |history|
  {
    if history != [] {
      var before, last := history[..|history| - 1], history[|history| - 1];
      RunIsVerdict(before);
      if Run(before).None? {
        NoWayBack(Adds(before), Removes(before), last.bundle);
      } else if last.Add? {
        AddToVerdict(Adds(before), Removes(before), last.bundle);
      } else {
        RemoveFromVerdict(Adds(before), Removes(before), last.bundle);
      }
    }
  }

  /**
   Every history: it succeeds exactly when its two logs are reconcilable, and the resulting inbox is a
   function of the two logs alone.
   */
  lemma HistoryMatchesLogs(history: seq<Operation>)
    ensures Run(history).Some? <==> Reconcilable(Adds(history), Removes(history))
    ensures Run(history).Some? ==> Run(history).value == Represent(Adds(history), Removes(history))
  {
    RunIsVerdict(history);
  }

  /** Confluence: every interleaving of the same two logs gives the same verdict and the same inbox. */
  lemma Confluence(one: seq<Operation>, other: seq<Operation>)
    requires Adds(one) == Adds(other) && Removes(one) == Removes(other)
    ensures Run(one) == Run(other)
  {
    HistoryMatchesLogs(one);
    HistoryMatchesLogs(other);
  }

  /**
   Every reachable inbox: the queues are the logs restricted to what is still due, at most one of them is
   non-empty, and if both are empty the two cursors coincide.
   */
  lemma ReachableInbox(history: seq<Operation>)
    requires Run(history).Some?
    ensures var s, adds, removes := Run(history).value, Adds(history), Removes(history);
            && (forall b :: b in s.added <==> b in adds && PosOf(b) >= Pos(s.nextRemove))
            && (forall b :: b in s.removed <==> b in removes && PosOf(b) >= Pos(s.nextAdd))
            && Increasing(s.added) && Increasing(s.removed)
            && (s.added == [] || s.removed == [])
            && (s.added == [] && s.removed == [] ==> s.nextAdd == s.nextRemove)
  {
    HistoryMatchesLogs(history);
    var adds, removes := Adds(history), Removes(history);
    NextCursorIsBound(adds);
    NextCursorIsBound(removes);
    FromIsRestriction(adds, Bound(removes));
    FromIsRestriction(removes, Bound(adds));
    PosIsDerivedOrder(NextCursor(adds), NextCursor(removes));
  }

  /** No bundle that must not be skipped is ever lost: it is consumed or still waiting. */
  lemma UnskippableNeverLost(history: seq<Operation>, b: MessageBundle)
    requires Run(history).Some? && b in Adds(history) && !b.IsSkippable()
    ensures b in Removes(history) || b in Run(history).value.added
  {
    HistoryMatchesLogs(history);
    FromIsRestriction(Adds(history), Bound(Removes(history)));
  }

  /** The next height to receive is the one after the last block received, or the first. */
  lemma NextHeightFollowsLog(adds: Log, removes: Log)
    requires Countable(adds) && Countable(removes)
    ensures NextBlockHeightToReceive(Represent(adds, removes)) ==
              if adds == [] then Ok(0)
              else if adds[|adds| - 1].height < U64_MAX then Ok(adds[|adds| - 1].height + 1) else Err(Overflow)
  {
  }
}
