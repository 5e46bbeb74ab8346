/**
 The registry of applications: sorting applications by their dependencies, and registering them on another
 chain in that order.
 */
module Applications {
  import opened Base
  import opened Messages

  /** A description determines the identifier under which it is registered. */
  datatype Description = Description(id: ApplicationId, parameters: nat, required: seq<ApplicationId>)

  type Registry = map<ApplicationId, Description>

  // ---- The dependency relation ----

  function Required(g: Registry, a: ApplicationId): seq<ApplicationId> {
    if a in g then g[a].required else []
  }

  /** `b` is reached from `a` by following requirements `n` times. */
  ghost predicate ReachIn(g: Registry, a: ApplicationId, b: ApplicationId, n: nat)
    decreases n
  {
    if n == 0 then a == b else exists c <- Required(g, a) :: ReachIn(g, c, b, n - 1)
  }

  /** `b` is `a` or one of its recursive requirements. */
  ghost predicate Reach(g: Registry, a: ApplicationId, b: ApplicationId) {
    exists n: nat :: ReachIn(g, a, b, n)
  }

  /** `b` is a recursive requirement of `a`. */
  ghost predicate Needs(g: Registry, a: ApplicationId, b: ApplicationId) {
    exists c <- Required(g, a) :: Reach(g, c, b)
  }

  ghost predicate ReachFrom(g: Registry, ids: seq<ApplicationId>, b: ApplicationId) {
    exists a <- ids :: Reach(g, a, b)
  }

  ghost predicate AcyclicFrom(g: Registry, ids: seq<ApplicationId>) {
    forall a :: ReachFrom(g, ids, a) ==> !Needs(g, a, a)
  }

  lemma ReachSelf(g: Registry, a: ApplicationId)
    ensures Reach(g, a, a)
  {
    assert ReachIn(g, a, a, 0);
  }

  lemma {:induction false} ReachInConcat(g: Registry, a: ApplicationId, b: ApplicationId, c: ApplicationId, m: nat, n: nat)
    requires ReachIn(g, a, b, m) && ReachIn(g, b, c, n)
    ensures ReachIn(g, a, c, m + n)
    decreases m
  {
    if m > 0 {
      var d :| d in Required(g, a) && ReachIn(g, d, b, m - 1);
      ReachInConcat(g, d, b, c, m - 1, n);
    }
  }

  lemma ReachTransitive(g: Registry, a: ApplicationId, b: ApplicationId, c: ApplicationId)
    requires Reach(g, a, b) && Reach(g, b, c)
    ensures Reach(g, a, c)
  {
    var m: nat :| ReachIn(g, a, b, m);
    var n: nat :| ReachIn(g, b, c, n);
    ReachInConcat(g, a, b, c, m, n);
  }

  lemma ReachStep(g: Registry, a: ApplicationId, b: ApplicationId, c: ApplicationId)
    requires Reach(g, a, b) && c in Required(g, b)
    ensures Reach(g, a, c)
  {
    assert ReachIn(g, c, c, 0);
    assert ReachIn(g, b, c, 1);
    ReachTransitive(g, a, b, c);
  }

  lemma NeedsStep(g: Registry, a: ApplicationId, b: ApplicationId, c: ApplicationId)
    requires Needs(g, a, b) && Reach(g, b, c)
    ensures Needs(g, a, c)
  {
    var d :| d in Required(g, a) && Reach(g, d, b);
    ReachTransitive(g, d, b, c);
  }

  /** Anything that contains the start and all requirements of its members contains everything reachable. */
  lemma {:induction false} ClosedUnderReach(g: Registry, s: set<ApplicationId>, a: ApplicationId, b: ApplicationId, n: nat)
    requires forall x, c :: x in s && c in Required(g, x) ==> c in s
    requires ReachIn(g, a, b, n) && a in s
    ensures b in s
    decreases n
  {
    if n > 0 {
      var c :| c in Required(g, a) && ReachIn(g, c, b, n - 1);
      ClosedUnderReach(g, s, c, b, n - 1);
    }
  }

  // ---- The explicit-stack search ----

  /**
   The variables of the search. A position of the stack is marked if it holds the second visit of its entry,
   pushed just below the entry's unseen requirements.
   */
  datatype Search = Search(stack: seq<ApplicationId>, marks: seq<bool>, seen: set<ApplicationId>, result: seq<ApplicationId>)

  ghost predicate NoDuplicates(xs: seq<ApplicationId>) {
    forall i, j :: 0 <= i < j < |xs| ==> xs[i] != xs[j]
  }

  ghost predicate DependenciesFirst(g: Registry, xs: seq<ApplicationId>) {
    forall i, c :: 0 <= i < |xs| && c in Required(g, xs[i]) ==> c in xs[..i]
  }

  /** Everything that entry `i` needs is listed before it. */
  ghost predicate AfterNeeds(g: Registry, xs: seq<ApplicationId>, i: nat)
    requires i < |xs|
  {
    forall b :: Needs(g, xs[i], b) ==> b in xs[..i]
  }

  /** Every entry that does not need itself comes after everything it needs. */
  ghost predicate NeedsFirst(g: Registry, xs: seq<ApplicationId>) {
    forall i {:trigger AfterNeeds(g, xs, i)} :: 0 <= i < |xs| && !Needs(g, xs[i], xs[i]) ==> AfterNeeds(g, xs, i)
  }

  /** Entries that were visited once and wait for their second visit. */
  ghost predicate Open(d: Search, a: ApplicationId) {
    a in d.seen && a !in d.result
  }

  ghost predicate MarkedAt(d: Search, i: int) {
    0 <= i < |d.stack| && |d.marks| == |d.stack| && d.marks[i]
  }

  /** The marks are exactly the open entries, each at its topmost occurrence. */
  ghost predicate MarksOk(d: Search) {
    && |d.marks| == |d.stack|
    && (forall i :: MarkedAt(d, i) ==> Open(d, d.stack[i]))
    && (forall a :: Open(d, a) ==> exists i :: MarkedAt(d, i) && d.stack[i] == a)
    && (forall i, j :: MarkedAt(d, j) && 0 <= i < |d.stack| && d.stack[i] == d.stack[j] ==> i <= j)
  }

  ghost predicate Bookkeeping(g: Registry, d: Search) {
    && d.seen <= g.Keys
    && (forall a <- d.result :: a in d.seen)
    && NoDuplicates(d.result)
  }

  /** Everything seen or scheduled is reachable. */
  ghost predicate Reached(g: Registry, ids: seq<ApplicationId>, d: Search) {
    forall a {:trigger ReachFrom(g, ids, a)} :: a in d.stack || a in d.seen ==> ReachFrom(g, ids, a)
  }

  /** The inputs, and all requirements of what was seen, are seen or scheduled. */
  ghost predicate Remembered(g: Registry, ids: seq<ApplicationId>, d: Search) {
    && (forall a <- ids :: a in d.seen || a in d.stack)
    && (forall a, c :: a in d.seen && c in Required(g, a) ==> c in d.seen || c in d.stack)
  }

  /** Everything above a mark is a recursive requirement of the marked entry. */
  ghost predicate Nested(g: Registry, d: Search) {
    forall i, j {:trigger Needs(g, d.stack[i], d.stack[j])} ::
      MarkedAt(d, i) && i < j < |d.stack| ==> Needs(g, d.stack[i], d.stack[j])
  }

  ghost predicate ScheduledAt(d: Search, i: nat, c: ApplicationId)
    requires i < |d.stack|
  {
    c in d.result || c in d.stack[i + 1..] || Open(d, c)
  }

  /** Each requirement of an open entry is done, scheduled above its mark, or itself open. */
  ghost predicate Scheduled(g: Registry, d: Search) {
    forall i, c :: MarkedAt(d, i) && c in Required(g, d.stack[i]) ==> ScheduledAt(d, i, c)
  }

  /** Each requirement of a sorted entry is sorted or open. */
  ghost predicate Settled(g: Registry, d: Search) {
    forall a, c :: a in d.result && c in Required(g, a) ==> c in d.result || Open(d, c)
  }

  ghost predicate Inv(g: Registry, ids: seq<ApplicationId>, d: Search) {
    && MarksOk(d)
    && Bookkeeping(g, d)
    && Reached(g, ids, d)
    && Remembered(g, ids, d)
    && Nested(g, d)
    && Scheduled(g, d)
    && Settled(g, d)
    && NeedsFirst(g, d.result)
  }

  // ---- The three kinds of iteration ----

  function Popped(d: Search): Search
    requires d.stack != [] && |d.marks| == |d.stack|
  {
    d.(stack := d.stack[..|d.stack| - 1], marks := d.marks[..|d.marks| - 1])
  }

  /** The top of the stack is already sorted: it is dropped. */
  lemma PopSorted(g: Registry, ids: seq<ApplicationId>, d: Search)
    requires Inv(g, ids, d) && d.stack != [] && d.stack[|d.stack| - 1] in d.result
    ensures Inv(g, ids, Popped(d))
  {
    var top := |d.stack| - 1;
    var e := Popped(d);
    assert MarkedAt(d, top) ==> Open(d, d.stack[top]);
    PopUnmarkedKeepsMarks(d);
    PopKeepsScheduled(g, d);
    PopKeepsNested(g, d);
    PopKeepsCoverage(g, ids, d);
  }

  lemma PopKeepsNested(g: Registry, d: Search)
    requires Nested(g, d) && d.stack != [] && |d.marks| == |d.stack|
    ensures Nested(g, Popped(d))
  {
    var e := Popped(d);
    forall i, j | MarkedAt(e, i) && i < j < |e.stack|
      ensures Needs(g, e.stack[i], e.stack[j])
    {
      assert MarkedAt(d, i) && Needs(g, d.stack[i], d.stack[j]);
    }
  }

  lemma PopKeepsCoverage(g: Registry, ids: seq<ApplicationId>, d: Search)
    requires Reached(g, ids, d) && Remembered(g, ids, d)
    requires d.stack != [] && |d.marks| == |d.stack| && d.stack[|d.stack| - 1] in d.seen
    ensures Reached(g, ids, Popped(d)) && Remembered(g, ids, Popped(d))
  {
    assert forall a :: a in d.stack <==> a in Popped(d).stack || a == d.stack[|d.stack| - 1];
  }

  lemma PopUnmarkedKeepsMarks(d: Search)
    requires MarksOk(d) && d.stack != [] && !MarkedAt(d, |d.stack| - 1)
    ensures MarksOk(Popped(d))
  {
    var e := Popped(d);
    assert forall i :: MarkedAt(e, i) ==> MarkedAt(d, i);
    forall a | Open(e, a)
      ensures exists i :: MarkedAt(e, i) && e.stack[i] == a
    {
      assert Open(d, a);
      var i :| MarkedAt(d, i) && d.stack[i] == a;
      assert MarkedAt(e, i) && e.stack[i] == a;
    }
  }

  lemma PopKeepsScheduled(g: Registry, d: Search)
    requires MarksOk(d) && Scheduled(g, d) && d.stack != [] && d.stack[|d.stack| - 1] in d.result
    ensures Scheduled(g, Popped(d))
  {
    var e := Popped(d);
    forall i, c | MarkedAt(e, i) && c in Required(g, e.stack[i])
      ensures ScheduledAt(e, i, c)
    {
      assert MarkedAt(d, i) && d.stack[i] == e.stack[i];
      assert d.stack[i + 1..] == e.stack[i + 1..] + [d.stack[|d.stack| - 1]];
    }
  }

  /** The top of the stack is open: this is its second visit, and it is appended to the result. */
  function Sorted(d: Search): Search
    requires d.stack != [] && |d.marks| == |d.stack|
  {
    Popped(d).(result := d.result + [d.stack[|d.stack| - 1]])
  }

  /** An open entry on top of the stack is marked there, and nowhere else. */
  lemma OpenTopIsMarked(d: Search)
    requires MarksOk(d) && d.stack != [] && Open(d, d.stack[|d.stack| - 1])
    ensures MarkedAt(d, |d.stack| - 1)
    ensures forall i :: MarkedAt(d, i) && d.stack[i] == d.stack[|d.stack| - 1] ==> i == |d.stack| - 1
  {
    var i :| MarkedAt(d, i) && d.stack[i] == d.stack[|d.stack| - 1];
    assert |d.stack| - 1 <= i;
  }

  lemma SortKeepsMarks(d: Search)
    requires MarksOk(d) && d.stack != [] && Open(d, d.stack[|d.stack| - 1])
    ensures MarksOk(Sorted(d))
  {
    OpenTopIsMarked(d);
    var e := Sorted(d);
    assert forall i :: MarkedAt(e, i) ==> MarkedAt(d, i);
    forall a | Open(e, a)
      ensures exists i :: MarkedAt(e, i) && e.stack[i] == a
    {
      assert a !in d.result && a != d.stack[|d.stack| - 1] by {
        assert e.result[|d.result|] == d.stack[|d.stack| - 1];
        assert forall k :: 0 <= k < |d.result| ==> e.result[k] == d.result[k];
      }
      assert Open(d, a);
      var i :| MarkedAt(d, i) && d.stack[i] == a;
      assert MarkedAt(e, i) && e.stack[i] == a;
    }
  }

  lemma SortKeepsScheduled(g: Registry, d: Search)
    requires MarksOk(d) && Scheduled(g, d) && d.stack != []
    ensures Scheduled(g, Sorted(d))
  {
    var e := Sorted(d);
    var top := d.stack[|d.stack| - 1];
    forall i, c | MarkedAt(e, i) && c in Required(g, e.stack[i])
      ensures ScheduledAt(e, i, c)
    {
      assert MarkedAt(d, i) && d.stack[i] == e.stack[i];
      assert d.stack[i + 1..] == e.stack[i + 1..] + [top];
    }
  }

  lemma NeedsClosesCycle(g: Registry, a: ApplicationId, c: ApplicationId)
    requires c in Required(g, a) && (c == a || Needs(g, c, a))
    ensures Needs(g, a, a)
  {
    ReachSelf(g, c);
    if c != a {
      var b :| b in Required(g, c) && Reach(g, b, a);
      ReachStep(g, c, c, b);
      ReachTransitive(g, c, b, a);
    }
  }

  /** Unless it requires itself, every requirement of the entry on top has been sorted by its second visit. */
  lemma RequirementsSorted(g: Registry, d: Search, c: ApplicationId)
    requires MarksOk(d) && Nested(g, d) && Scheduled(g, d)
    requires d.stack != [] && Open(d, d.stack[|d.stack| - 1]) && c in Required(g, d.stack[|d.stack| - 1])
    requires !Needs(g, d.stack[|d.stack| - 1], d.stack[|d.stack| - 1])
    ensures c in d.result
  {
    var top := |d.stack| - 1;
    OpenTopIsMarked(d);
    if Open(d, c) {
      var i :| MarkedAt(d, i) && d.stack[i] == c;
      assert i < top ==> Needs(g, d.stack[i], d.stack[top]);
      NeedsClosesCycle(g, d.stack[top], c);
    }
    assert c !in d.stack[top + 1..];
  }

  /** An open entry that the one on top needs closes a circle through it. */
  lemma OpenNeedClosesCycle(g: Registry, d: Search, c: ApplicationId)
    requires MarksOk(d) && Nested(g, d) && d.stack != [] && Open(d, c)
    requires Needs(g, d.stack[|d.stack| - 1], c)
    ensures Needs(g, d.stack[|d.stack| - 1], d.stack[|d.stack| - 1])
  {
    var top := |d.stack| - 1;
    var i :| MarkedAt(d, i) && d.stack[i] == c;
    if i < top {
      assert Needs(g, d.stack[i], d.stack[top]);
      var e :| e in Required(g, c) && Reach(g, e, d.stack[top]);
      ReachSelf(g, c);
      ReachStep(g, c, c, e);
      ReachTransitive(g, c, e, d.stack[top]);
      NeedsStep(g, d.stack[top], c, d.stack[top]);
    }
  }

  /** What a sorted requirement of the entry on top leads to has been sorted as well. */
  lemma {:induction false} ReachedSorted(g: Registry, d: Search, c: ApplicationId, b: ApplicationId, n: nat)
    requires MarksOk(d) && Nested(g, d) && Settled(g, d) && d.stack != []
    requires !Needs(g, d.stack[|d.stack| - 1], d.stack[|d.stack| - 1])
    requires c in d.result && Needs(g, d.stack[|d.stack| - 1], c) && ReachIn(g, c, b, n)
    ensures b in d.result
    decreases n
  {
    if n > 0 {
      var e :| e in Required(g, c) && ReachIn(g, e, b, n - 1);
      ReachSelf(g, c);
      ReachStep(g, c, c, e);
      NeedsStep(g, d.stack[|d.stack| - 1], c, e);
      if Open(d, e) {
        OpenNeedClosesCycle(g, d, e);
      }
      ReachedSorted(g, d, e, b, n - 1);
    }
  }

  /** Unless it needs itself, everything the entry on top needs has been sorted by its second visit. */
  lemma NeedsSorted(g: Registry, d: Search, b: ApplicationId)
    requires MarksOk(d) && Nested(g, d) && Scheduled(g, d) && Settled(g, d)
    requires d.stack != [] && Open(d, d.stack[|d.stack| - 1]) && Needs(g, d.stack[|d.stack| - 1], b)
    requires !Needs(g, d.stack[|d.stack| - 1], d.stack[|d.stack| - 1])
    ensures b in d.result
  {
    var top := d.stack[|d.stack| - 1];
    var c :| c in Required(g, top) && Reach(g, c, b);
    var n: nat :| ReachIn(g, c, b, n);
    RequirementsSorted(g, d, c);
    ReachSelf(g, c);
    ReachedSorted(g, d, c, b, n);
  }

  lemma AppendAfterNeeds(g: Registry, xs: seq<ApplicationId>, a: ApplicationId)
    requires NeedsFirst(g, xs) && (!Needs(g, a, a) ==> forall b :: Needs(g, a, b) ==> b in xs)
    ensures NeedsFirst(g, xs + [a])
  {
    var longer := xs + [a];
    forall i | 0 <= i < |longer| && !Needs(g, longer[i], longer[i])
      ensures AfterNeeds(g, longer, i)
    {
      assert longer[..i] == xs[..i];
      if i == |xs| {
        assert xs[..i] == xs;
      } else {
        assert AfterNeeds(g, xs, i);
      }
    }
  }

  lemma SortKeepsSettled(g: Registry, d: Search)
    requires MarksOk(d) && Scheduled(g, d) && Settled(g, d) && d.stack != [] && Open(d, d.stack[|d.stack| - 1])
    ensures Settled(g, Sorted(d))
  {
    OpenTopIsMarked(d);
    var e, top := Sorted(d), |d.stack| - 1;
    forall a, c | a in e.result && c in Required(g, a)
      ensures c in e.result || Open(e, c)
    {
      if a == d.stack[top] {
        assert ScheduledAt(d, top, c);
        assert c !in d.stack[top + 1..];
      }
      assert c in d.result || Open(d, c);
    }
  }

  lemma SortKeepsNested(g: Registry, d: Search)
    requires d.stack != [] && |d.marks| == |d.stack| && Nested(g, Popped(d))
    ensures Nested(g, Sorted(d))
  {
    var e := Sorted(d);
    forall i, j | MarkedAt(e, i) && i < j < |e.stack|
      ensures Needs(g, e.stack[i], e.stack[j])
    {
      assert MarkedAt(Popped(d), i) && Needs(g, Popped(d).stack[i], Popped(d).stack[j]);
    }
  }

  lemma PopOpen(g: Registry, ids: seq<ApplicationId>, d: Search)
    requires Inv(g, ids, d) && d.stack != [] && Open(d, d.stack[|d.stack| - 1])
    ensures Inv(g, ids, Sorted(d))
  {
    var a := d.stack[|d.stack| - 1];
    SortKeepsMarks(d);
    SortKeepsScheduled(g, d);
    PopKeepsNested(g, d);
    SortKeepsNested(g, d);
    PopKeepsCoverage(g, ids, d);
    SortKeepsSettled(g, d);
    forall b | !Needs(g, a, a) && Needs(g, a, b)
      ensures b in d.result
    {
      NeedsSorted(g, d, b);
    }
    AppendAfterNeeds(g, d.result, a);
  }

  lemma AppendDependent(g: Registry, xs: seq<ApplicationId>, a: ApplicationId)
    requires DependenciesFirst(g, xs) && forall c <- Required(g, a) :: c in xs
    ensures DependenciesFirst(g, xs + [a])
  {
    forall i, c | 0 <= i < |xs + [a]| && c in Required(g, (xs + [a])[i])
      ensures c in (xs + [a])[..i]
    {
      assert (xs + [a])[..i] == xs[..i];
      if i == |xs| {
        assert xs[..i] == xs;
      }
    }
  }

  /** The requirements that are pushed on a first visit: the unseen ones, the first one ending on top. */
  function Pending(children: seq<ApplicationId>, seen: set<ApplicationId>): seq<ApplicationId> {
    if children == [] then []
    else Pending(children[1..], seen) + if children[0] in seen then [] else [children[0]]
  }

  lemma {:induction false} PendingMembers(children: seq<ApplicationId>, seen: set<ApplicationId>, c: ApplicationId)
    ensures c in Pending(children, seen) <==> c in children && c !in seen
    decreases |children|
  {
    if children != [] {
      PendingMembers(children[1..], seen, c);
      assert forall x :: x in children <==> x == children[0] || x in children[1..];
    }
  }

  /** The requirements that have not been seen, in their own order. */
  function Unseen(children: seq<ApplicationId>, seen: set<ApplicationId>): seq<ApplicationId> {
    if children == [] then []
    else if children[0] in seen then Unseen(children[1..], seen)
    else [children[0]] + Unseen(children[1..], seen)
  }

  /** Popped from the stack, the pushed requirements come in their own order. */
  lemma {:induction false} PendingIsReversed(children: seq<ApplicationId>, seen: set<ApplicationId>)
    ensures |Pending(children, seen)| == |Unseen(children, seen)|
    ensures forall i :: 0 <= i < |Pending(children, seen)| ==>
              Pending(children, seen)[i] == Unseen(children, seen)[|Unseen(children, seen)| - 1 - i]
    decreases |children|
  {
    if children != [] {
      PendingIsReversed(children[1..], seen);
    }
  }

  /** The top of the stack is new: it stays for a second visit, with its unseen requirements above it. */
  function Visited(g: Registry, d: Search): Search
    requires d.stack != [] && |d.marks| == |d.stack|
  {
    var top := |d.stack| - 1;
    var seen := d.seen + {d.stack[top]};
    var pending := Pending(Required(g, d.stack[top]), seen);
    d.(stack := d.stack + pending, marks := d.marks[top := true] + seq(|pending|, _ => false), seen := seen)
  }

  lemma PushedUnseen(g: Registry, d: Search, j: nat)
    requires d.stack != [] && |d.marks| == |d.stack| && |d.stack| <= j < |Visited(g, d).stack|
    ensures var e := Visited(g, d);
            e.stack[j] !in e.seen && e.stack[j] in Required(g, d.stack[|d.stack| - 1]) && !MarkedAt(e, j)
  {
    var top := d.stack[|d.stack| - 1];
    var pending := Pending(Required(g, top), d.seen + {top});
    assert Visited(g, d).stack[j] == pending[j - |d.stack|];
    PendingMembers(Required(g, top), d.seen + {top}, pending[j - |d.stack|]);
  }

  lemma VisitMarks(g: Registry, d: Search, i: int)
    requires d.stack != [] && |d.marks| == |d.stack|
    ensures MarkedAt(Visited(g, d), i) <==> (i == |d.stack| - 1 || MarkedAt(d, i))
  {
    if |d.stack| <= i < |Visited(g, d).stack| {
      PushedUnseen(g, d, i);
    }
  }

  lemma VisitKeepsMarks(g: Registry, d: Search)
    requires MarksOk(d) && d.stack != [] && d.stack[|d.stack| - 1] !in d.seen && d.stack[|d.stack| - 1] !in d.result
    ensures MarksOk(Visited(g, d))
  {
    var e := Visited(g, d);
    var top := |d.stack| - 1;
    forall i
      ensures MarkedAt(e, i) <==> (i == top || MarkedAt(d, i))
    {
      VisitMarks(g, d, i);
    }
    forall a | Open(e, a)
      ensures exists i :: MarkedAt(e, i) && e.stack[i] == a
    {
      if a == d.stack[top] {
        assert MarkedAt(e, top) && e.stack[top] == a;
      } else {
        assert Open(d, a);
        var i :| MarkedAt(d, i) && d.stack[i] == a;
        assert MarkedAt(e, i) && e.stack[i] == a;
      }
    }
    forall i, j | MarkedAt(e, j) && 0 <= i < |e.stack| && e.stack[i] == e.stack[j]
      ensures i <= j
    {
      assert Open(e, e.stack[j]);
      if i > top {
        PushedUnseen(g, d, i);
      } else if j != top {
        assert MarkedAt(d, j) && d.stack[i] == d.stack[j];
      }
    }
  }

  lemma VisitKeepsNested(g: Registry, d: Search)
    requires Nested(g, d) && d.stack != [] && |d.marks| == |d.stack|
    ensures Nested(g, Visited(g, d))
  {
    var e := Visited(g, d);
    var top := |d.stack| - 1;
    forall i, j | MarkedAt(e, i) && i < j < |e.stack|
      ensures Needs(g, e.stack[i], e.stack[j])
    {
      VisitMarks(g, d, i);
      if j > top {
        PushedUnseen(g, d, j);
        ReachSelf(g, e.stack[j]);
        if i < top {
          assert MarkedAt(d, i) && Needs(g, d.stack[i], d.stack[top]);
          ReachSelf(g, d.stack[top]);
          ReachStep(g, d.stack[top], d.stack[top], e.stack[j]);
          NeedsStep(g, d.stack[i], d.stack[top], e.stack[j]);
        }
      } else {
        assert MarkedAt(d, i) && Needs(g, d.stack[i], d.stack[j]);
      }
    }
  }

  lemma VisitKeepsScheduledBelow(g: Registry, d: Search, i: nat, c: ApplicationId)
    requires |d.marks| == |d.stack| && i < |d.stack| - 1 && ScheduledAt(d, i, c) && d.stack[|d.stack| - 1] !in d.result
    ensures ScheduledAt(Visited(g, d), i, c)
  {
    var e := Visited(g, d);
    assert e.stack[i + 1..] == d.stack[i + 1..] + e.stack[|d.stack|..];
  }

  lemma VisitSchedulesTop(g: Registry, d: Search, c: ApplicationId)
    requires d.stack != [] && |d.marks| == |d.stack| && d.stack[|d.stack| - 1] !in d.result
    requires c in Required(g, d.stack[|d.stack| - 1])
    ensures ScheduledAt(Visited(g, d), |d.stack| - 1, c)
  {
    var e := Visited(g, d);
    var a := d.stack[|d.stack| - 1];
    assert e.stack[|d.stack|..] == Pending(Required(g, a), e.seen);
    PendingMembers(Required(g, a), e.seen, c);
  }

  lemma VisitKeepsScheduled(g: Registry, d: Search)
    requires MarksOk(d) && Scheduled(g, d) && d.stack != [] && d.stack[|d.stack| - 1] !in d.result
    ensures Scheduled(g, Visited(g, d))
  {
    var e := Visited(g, d);
    forall i, c | MarkedAt(e, i) && c in Required(g, e.stack[i])
      ensures ScheduledAt(e, i, c)
    {
      VisitMarks(g, d, i);
      if i == |d.stack| - 1 {
        VisitSchedulesTop(g, d, c);
      } else {
        assert MarkedAt(d, i) && d.stack[i] == e.stack[i];
        VisitKeepsScheduledBelow(g, d, i, c);
      }
    }
  }

  lemma VisitStack(g: Registry, d: Search, c: ApplicationId)
    requires d.stack != [] && |d.marks| == |d.stack|
    ensures var e := Visited(g, d);
            c in e.stack <==> c in d.stack || (c in Required(g, d.stack[|d.stack| - 1]) && c !in e.seen)
  {
    PendingMembers(Required(g, d.stack[|d.stack| - 1]), Visited(g, d).seen, c);
  }

  lemma VisitKeepsReached(g: Registry, ids: seq<ApplicationId>, d: Search)
    requires Reached(g, ids, d) && d.stack != [] && |d.marks| == |d.stack|
    ensures Reached(g, ids, Visited(g, d))
  {
    var e := Visited(g, d);
    var a := d.stack[|d.stack| - 1];
    assert ReachFrom(g, ids, a);
    var start :| start in ids && Reach(g, start, a);
    forall c | c in e.stack
      ensures ReachFrom(g, ids, c)
    {
      VisitStack(g, d, c);
      if c !in d.stack {
        ReachStep(g, start, a, c);
      }
    }
  }

  lemma VisitKeepsRemembered(g: Registry, ids: seq<ApplicationId>, d: Search)
    requires Remembered(g, ids, d) && d.stack != [] && |d.marks| == |d.stack|
    ensures Remembered(g, ids, Visited(g, d))
  {
    var e := Visited(g, d);
    forall a, c | a in e.seen && c in Required(g, a)
      ensures c in e.seen || c in e.stack
    {
      VisitStack(g, d, c);
    }
    forall a <- ids
      ensures a in e.seen || a in e.stack
    {
      VisitStack(g, d, a);
    }
  }

  lemma Visit(g: Registry, ids: seq<ApplicationId>, d: Search)
    requires Inv(g, ids, d) && d.stack != []
    requires d.stack[|d.stack| - 1] !in d.seen && d.stack[|d.stack| - 1] in g
    ensures Inv(g, ids, Visited(g, d))
  {
    VisitKeepsMarks(g, d);
    VisitKeepsNested(g, d);
    VisitKeepsScheduled(g, d);
    VisitKeepsReached(g, ids, d);
    VisitKeepsRemembered(g, ids, d);
  }

  // ---- The search as a whole ----

  lemma StartInv(g: Registry, ids: seq<ApplicationId>)
    ensures Inv(g, ids, Search(ids, seq(|ids|, _ => false), {}, []))
  {
    var d := Search(ids, seq(|ids|, _ => false), {}, []);
    assert forall i :: !MarkedAt(d, i);
    forall a | a in ids
      ensures ReachFrom(g, ids, a)
    {
      ReachSelf(g, a);
    }
  }

  lemma ReachableIsSeen(g: Registry, ids: seq<ApplicationId>, d: Search, a: ApplicationId)
    requires Remembered(g, ids, d) && d.stack == [] && ReachFrom(g, ids, a)
    ensures a in d.seen
  {
    var start :| start in ids && Reach(g, start, a);
    var n: nat :| ReachIn(g, start, a, n);
    ClosedUnderReach(g, d.seen, start, a, n);
  }

  /** When the stack is empty the result is exactly what is reachable. */
  lemma EndResult(g: Registry, ids: seq<ApplicationId>, d: Search)
    requires MarksOk(d) && Bookkeeping(g, d) && Reached(g, ids, d) && Remembered(g, ids, d) && d.stack == []
    ensures forall a :: a in d.result <==> ReachFrom(g, ids, a)
    ensures forall a :: ReachFrom(g, ids, a) ==> a in g
  {
    forall a | a in d.seen
      ensures a in d.result
    {
      assert !Open(d, a);
    }
    forall a | ReachFrom(g, ids, a)
      ensures a in d.seen
    {
      ReachableIsSeen(g, ids, d, a);
    }
  }

  /** Pushes the unseen requirements, the first one last. */
  method PushChildren(stack: seq<ApplicationId>, children: seq<ApplicationId>, seen: set<ApplicationId>) returns (pushed: seq<ApplicationId>)
    ensures pushed == stack + Pending(children, seen)
  {
    pushed := stack;
    var i := |children|;
    while i > 0
      invariant 0 <= i <= |children|
      invariant pushed == stack + Pending(children[i..], seen)
    {
      i := i - 1;
      assert children[i..][1..] == children[i + 1..];
      if children[i] !in seen {
        pushed := pushed + [children[i]];
      }
    }
    assert children[0..] == children;
  }

  /** What the result of the search must be. */
  ghost predicate IsSorting(g: Registry, ids: seq<ApplicationId>, r: Result<seq<ApplicationId>, ApplicationId>) {
    match r
    case Err(a) => ReachFrom(g, ids, a) && a !in g
    case Ok(xs) =>
      && (forall a :: ReachFrom(g, ids, a) ==> a in g)
      && (forall a :: a in xs <==> ReachFrom(g, ids, a))
      && NoDuplicates(xs)
      && (forall i {:trigger AfterNeeds(g, xs, i)} :: 0 <= i < |xs| ==>
            (AfterNeeds(g, xs, i) <==> !Needs(g, xs[i], xs[i])))
  }

  /** Listed once, an entry that needs itself cannot come after everything it needs. */
  lemma OrderIsExact(g: Registry, xs: seq<ApplicationId>, i: nat)
    requires NoDuplicates(xs) && NeedsFirst(g, xs) && i < |xs|
    ensures AfterNeeds(g, xs, i) <==> !Needs(g, xs[i], xs[i])
  {
    assert xs[i] !in xs[..i];
  }

  /** Without circles, in particular every direct requirement comes first. */
  lemma AcyclicSorting(g: Registry, ids: seq<ApplicationId>, xs: seq<ApplicationId>)
    requires IsSorting(g, ids, Ok(xs)) && AcyclicFrom(g, ids)
    ensures DependenciesFirst(g, xs)
  {
    forall i, c | 0 <= i < |xs| && c in Required(g, xs[i])
      ensures c in xs[..i]
    {
      assert ReachFrom(g, ids, xs[i]);
      ReachSelf(g, c);
      assert AfterNeeds(g, xs, i) && Needs(g, xs[i], c);
    }
  }

  /**
   Retrieves the recursive dependencies of applications, each once. It succeeds exactly when all of them are
   known; an application comes after everything it needs if and only if it does not need itself.
   */
  method FindDependencies(known: Registry, extra: Registry, ids: seq<ApplicationId>) returns (r: Result<seq<ApplicationId>, ApplicationId>)
    ensures IsSorting(known + extra, ids, r)
  {
    ghost var g := known + extra;
    var stack, result, sorted, seen := ids, [], {}, {};
    ghost var d := Search(ids, seq(|ids|, _ => false), {}, []);
    StartInv(g, ids);
    while stack != []
      invariant d.stack == stack && d.seen == seen && d.result == result
      invariant Inv(g, ids, d)
      invariant forall a :: a in sorted <==> a in result
      decreases g.Keys - seen, |stack|
    {
      var id := stack[|stack| - 1];
      stack := stack[..|stack| - 1];
      if id in sorted {
        PopSorted(g, ids, d);
        d := Popped(d);
      } else if id in seen {
        PopOpen(g, ids, d);
        d := Sorted(d);
        sorted, result := sorted + {id}, result + [id];
      } else {
        seen := seen + {id};
        stack := stack + [id];
        assert stack == d.stack;
        if id !in extra && id !in known {
          UnknownIsError(g, ids, d);
          return Err(id);
        }
        Visit(g, ids, d);
        d := Visited(g, d);
        stack := PushChildren(stack, if id in extra then extra[id].required else known[id].required, seen);
      }
    }
    EndResult(g, ids, d);
    forall i | 0 <= i < |result|
      ensures AfterNeeds(g, result, i) <==> !Needs(g, result[i], result[i])
    {
      OrderIsExact(g, result, i);
    }
    r := Ok(result);
  }

  lemma UnknownIsError(g: Registry, ids: seq<ApplicationId>, d: Search)
    requires Reached(g, ids, d) && d.stack != [] && d.stack[|d.stack| - 1] !in g
    ensures IsSorting(g, ids, Err(d.stack[|d.stack| - 1]))
  {
    assert ReachFrom(g, ids, d.stack[|d.stack| - 1]);
  }
}
