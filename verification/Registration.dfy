/**
 Announcing applications to the chains that receive their messages: descriptions are sent in dependency
 order, so that the receiver can register every one of them.
 */
module Registration {
  import opened Base
  import opened Messages
  import opened Applications

  // ---- Registering on a chain ----

  /** Registers a description if everything it requires is known; otherwise names what is missing. */
  function Register(known: Registry, app: Description): Result<Registry, ApplicationId> {
    match FirstUnknown(known, app.required)
    case Some(missing) => Err(missing)
    case None => Ok(known[app.id := app])
  }

  function FirstUnknown(known: Registry, ids: seq<ApplicationId>): Option<ApplicationId> {
    if ids == [] then None
    else if ids[0] !in known then Some(ids[0])
    else FirstUnknown(known, ids[1..])
  }

  function RegisterAll(known: Registry, apps: seq<Description>): Result<Registry, ApplicationId> {
    if apps == [] then Ok(known) else
    match RegisterAll(known, apps[..|apps| - 1])
    case Err(e) => Err(e)
    case Ok(registry) => Register(registry, apps[|apps| - 1])
  }

  lemma {:induction false} FirstUnknownNone(known: Registry, ids: seq<ApplicationId>)
    ensures FirstUnknown(known, ids).None? <==> forall a <- ids :: a in known
    decreases |ids|
  {
    if ids != [] {
      FirstUnknownNone(known, ids[1..]);
      assert forall a :: a in ids <==> a == ids[0] || a in ids[1..];
    }
  }

  /** The error names the first requirement that is unknown. */
  lemma {:induction false} FirstUnknownIsFirst(known: Registry, ids: seq<ApplicationId>)
    requires FirstUnknown(known, ids).Some?
    ensures exists i :: 0 <= i < |ids| && ids[i] == FirstUnknown(known, ids).value && ids[i] !in known
                        && forall a <- ids[..i] :: a in known
    decreases |ids|
  {
    if ids[0] in known {
      FirstUnknownIsFirst(known, ids[1..]);
      var i :| 0 <= i < |ids[1..]| && ids[1..][i] == FirstUnknown(known, ids[1..]).value && ids[1..][i] !in known
               && forall a <- ids[1..][..i] :: a in known;
      assert ids[..i + 1] == [ids[0]] + ids[1..][..i];
      assert ids[i + 1] == ids[1..][i];
    } else {
      assert ids[..0] == [];
    }
  }

  class ApplicationRegistryView {
    var knownApplications: Registry

    constructor ()
      ensures knownApplications == map[]
    {
      knownApplications := map[];
    }

    method RegisterApplication(app: Description) returns (r: Result<ApplicationId, ApplicationId>)
      modifies this
      ensures match Register(old(knownApplications), app)
              case Ok(registry) => r == Ok(app.id) && knownApplications == registry
              case Err(e) => r == Err(e) && knownApplications == old(knownApplications)
    {
      var i := 0;
      while i < |app.required|
        invariant 0 <= i <= |app.required|
        invariant FirstUnknown(knownApplications, app.required) == FirstUnknown(knownApplications, app.required[i..])
        invariant knownApplications == old(knownApplications)
      {
        if app.required[i] !in knownApplications {
          return Err(app.required[i]);
        }
        assert app.required[i..][1..] == app.required[i + 1..];
        i := i + 1;
      }
      knownApplications := knownApplications[app.id := app];
      r := Ok(app.id);
    }
  }

  // ---- Describing applications with their dependencies ----

  /** Every description is filed under its own identifier. */
  ghost predicate WellKeyed(g: Registry) {
    forall a <- g :: g[a].id == a
  }

  ghost function Described(g: Registry, xs: seq<ApplicationId>): seq<Description>
    requires forall x <- xs :: x in g
  {
    seq(|xs|, i requires 0 <= i < |xs| => assert xs[i] in xs; g[xs[i]])
  }

  /** The descriptions are those of a sorting of the given applications. */
  ghost predicate Describes(g: Registry, ids: seq<ApplicationId>, apps: seq<Description>) {
    exists xs :: IsSorting(g, ids, Ok(xs)) && (forall x <- xs :: x in g) && apps == Described(g, xs)
  }

  method DescribeApplicationsWithDependencies(known: Registry, extra: Registry, ids: seq<ApplicationId>)
    returns (r: Result<seq<Description>, ApplicationId>)
    ensures r.Ok? ==> Describes(known + extra, ids, r.value)
    ensures r.Err? ==> ReachFrom(known + extra, ids, r.error) && r.error !in known + extra
  {
    ghost var g := known + extra;
    var sorted := FindDependencies(known, extra, ids);
    if sorted.Err? {
      return Err(sorted.error);
    }
    var xs := sorted.value;
    var apps: seq<Description> := [];
    while |apps| < |xs|
      invariant |apps| <= |xs|
      invariant forall i :: 0 <= i < |apps| ==> xs[i] in g && apps[i] == g[xs[i]]
    {
      var id := xs[|apps|];
      assert id in xs;
      apps := apps + [if id in extra then extra[id] else known[id]];
    }
    assert apps == Described(g, xs);
    r := Ok(apps);
  }

  // ---- A sorting lists all recursive requirements first ----

  lemma RequirementBefore(g: Registry, xs: seq<ApplicationId>, i: nat, x: ApplicationId, c: ApplicationId)
    requires DependenciesFirst(g, xs) && i <= |xs| && x in xs[..i] && c in Required(g, x)
    ensures c in xs[..i]
  {
    var j :| 0 <= j < i && xs[j] == x;
    assert c in xs[..j];
    var m :| 0 <= m < j && xs[m] == c;
    assert xs[..i][m] == c;
  }

  /** Not only the direct requirements: everything an application needs comes before it. */
  lemma AllRequirementsFirst(g: Registry, xs: seq<ApplicationId>, i: nat, b: ApplicationId)
    requires DependenciesFirst(g, xs) && i < |xs| && Needs(g, xs[i], b)
    ensures b in xs[..i]
  {
    var c :| c in Required(g, xs[i]) && Reach(g, c, b);
    var n: nat :| ReachIn(g, c, b, n);
    var earlier := set x | x in xs[..i];
    forall x, e | x in earlier && e in Required(g, x)
      ensures e in earlier
    {
      RequirementBefore(g, xs, i, x, e);
    }
    ClosedUnderReach(g, earlier, c, b, n);
  }

  lemma SortedIsAcyclic(g: Registry, ids: seq<ApplicationId>, xs: seq<ApplicationId>)
    requires IsSorting(g, ids, Ok(xs)) && DependenciesFirst(g, xs)
    ensures AcyclicFrom(g, ids)
  {
    forall a | ReachFrom(g, ids, a)
      ensures !Needs(g, a, a)
    {
      if Needs(g, a, a) {
        assert a in xs;
        var i :| 0 <= i < |xs| && xs[i] == a;
        AllRequirementsFirst(g, xs, i, a);
        assert false;
      }
    }
  }

  // ---- Registering the descriptions elsewhere ----

  lemma DescribedPrefix(g: Registry, xs: seq<ApplicationId>, n: nat)
    requires (forall x <- xs :: x in g) && 0 < n <= |xs|
    ensures forall x <- xs[..n] :: x in g
    ensures Described(g, xs[..n])[..n - 1] == Described(g, xs[..n - 1])
    ensures Described(g, xs[..n])[n - 1] == g[xs[n - 1]]
  {
    assert forall x <- xs[..n] :: x in xs;
    assert xs[..n][..n - 1] == xs[..n - 1];
  }

  /** The registry holds the listed applications as described, and the others as before. */
  ghost predicate Holds(g: Registry, xs: seq<ApplicationId>, known: Registry, registry: Registry) {
    && (forall a :: a in registry <==> a in known || a in xs)
    && (forall x <- xs :: x in g && registry[x] == g[x])
    && (forall a <- known :: a !in xs ==> registry[a] == known[a])
  }

  lemma HoldsOneMore(g: Registry, xs: seq<ApplicationId>, known: Registry, registry: Registry, x: ApplicationId)
    requires Holds(g, xs, known, registry) && x in g
    ensures Holds(g, xs + [x], known, registry[x := g[x]])
  {
  }

  lemma RequirementsHeld(g: Registry, xs: seq<ApplicationId>, known: Registry, registry: Registry, n: nat)
    requires DependenciesFirst(g, xs) && n < |xs| && xs[n] in g && Holds(g, xs[..n], known, registry)
    ensures FirstUnknown(registry, g[xs[n]].required).None?
  {
    FirstUnknownNone(registry, g[xs[n]].required);
  }

  /** In dependency order, registration succeeds on every chain and adds exactly the described applications. */
  lemma {:induction false} SortedRegisters(g: Registry, xs: seq<ApplicationId>, known: Registry, n: nat)
    requires WellKeyed(g) && (forall x <- xs :: x in g) && DependenciesFirst(g, xs) && n <= |xs|
    ensures forall x <- xs[..n] :: x in g
    ensures RegisterAll(known, Described(g, xs[..n])).Ok?
    ensures Holds(g, xs[..n], known, RegisterAll(known, Described(g, xs[..n])).value)
    decreases n
  {
    assert forall x <- xs[..n] :: x in xs;
    if n > 0 {
      var x := xs[n - 1];
      SortedRegisters(g, xs, known, n - 1);
      DescribedPrefix(g, xs, n);
      var registry := RegisterAll(known, Described(g, xs[..n - 1])).value;
      RequirementsHeld(g, xs, known, registry, n - 1);
      HoldsOneMore(g, xs[..n - 1], known, registry, x);
      assert xs[..n] == xs[..n - 1] + [x];
    }
  }

  /** If registration succeeds on a chain that knows nothing, the order was a dependency order. */
  lemma {:induction false} RegisteredIsSorted(g: Registry, xs: seq<ApplicationId>, n: nat)
    requires WellKeyed(g) && (forall x <- xs :: x in g) && n <= |xs|
    requires forall x <- xs[..n] :: x in g
    requires RegisterAll(map[], Described(g, xs[..n])).Ok?
    ensures RegisterAll(map[], Described(g, xs[..n])).value.Keys == set x | x in xs[..n]
    ensures DependenciesFirst(g, xs[..n])
    decreases n
  {
    if n > 0 {
      DescribedPrefix(g, xs, n);
      assert forall x <- xs[..n - 1] :: x in xs;
      RegisteredIsSorted(g, xs, n - 1);
      var registry := RegisterAll(map[], Described(g, xs[..n - 1])).value;
      FirstUnknownNone(registry, g[xs[n - 1]].required);
      assert xs[..n] == xs[..n - 1] + [xs[n - 1]];
      AppendDependent(g, xs[..n - 1], xs[n - 1]);
    }
  }

  /**
   Registration end to end: the descriptions sent can be registered on every chain exactly when the
   applications do not depend on each other in a circle.
   */
  lemma RegistersEverywhere(g: Registry, ids: seq<ApplicationId>, apps: seq<Description>)
    requires WellKeyed(g) && Describes(g, ids, apps)
    ensures AcyclicFrom(g, ids) <==> forall known: Registry :: RegisterAll(known, apps).Ok?
  {
    var xs :| IsSorting(g, ids, Ok(xs)) && (forall x <- xs :: x in g) && apps == Described(g, xs);
    assert xs[..|xs|] == xs;
    if AcyclicFrom(g, ids) {
      AcyclicSorting(g, ids, xs);
      forall known: Registry
        ensures RegisterAll(known, apps).Ok?
      {
        SortedRegisters(g, xs, known, |xs|);
      }
    } else {
      CyclicFailsSomewhere(g, ids, xs);
    }
  }

  lemma CyclicFailsSomewhere(g: Registry, ids: seq<ApplicationId>, xs: seq<ApplicationId>)
    requires WellKeyed(g) && IsSorting(g, ids, Ok(xs)) && !AcyclicFrom(g, ids) && forall x <- xs :: x in g
    ensures exists known: Registry :: RegisterAll(known, Described(g, xs)).Err?
  {
    var nothing: Registry := map[];
    assert xs[..|xs|] == xs;
    if RegisterAll(nothing, Described(g, xs)).Ok? {
      RegisteredIsSorted(g, xs, |xs|);
      SortedIsAcyclic(g, ids, xs);
      assert false;
    }
  }

  // ---- Which registries are free of circles ----

  /** No application needs itself. */
  ghost predicate Acyclic(g: Registry) {
    forall a :: !Needs(g, a, a)
  }

  /** Everything required is known. */
  ghost predicate Closed(g: Registry) {
    forall a, c :: a in g && c in Required(g, a) ==> c in g
  }

  /** No identifier is given two different descriptions. */
  ghost predicate Consistent(apps: seq<Description>) {
    forall i, j :: 0 <= i < j < |apps| && apps[i].id == apps[j].id ==> apps[i] == apps[j]
  }

  lemma RegisterOneMore(known: Registry, apps: seq<Description>, app: Description)
    requires RegisterAll(known, apps).Ok? && forall c <- app.required :: c in RegisterAll(known, apps).value
    ensures RegisterAll(known, apps + [app]) == Ok(RegisterAll(known, apps).value[app.id := app])
  {
    assert (apps + [app])[..|apps|] == apps;
    FirstUnknownNone(RegisterAll(known, apps).value, app.required);
  }

  /** Registering files every description under its own identifier. */
  lemma {:induction false} RegisteredWellKeyed(known: Registry, apps: seq<Description>)
    requires WellKeyed(known) && RegisterAll(known, apps).Ok?
    ensures WellKeyed(RegisterAll(known, apps).value)
    decreases |apps|
  {
    if apps != [] {
      RegisteredWellKeyed(known, apps[..|apps| - 1]);
    }
  }

  /**
   Identifiers do not determine requirements, and registering again replaces: a chain can come to hold two
   applications that need each other.
   */
  lemma CircularRegistry(a: ApplicationId, b: ApplicationId)
    requires a != b
    ensures var apps := [Description(a, 0, []), Description(b, 0, [a]), Description(a, 0, [b])];
            && RegisterAll(map[], apps).Ok?
            && WellKeyed(RegisterAll(map[], apps).value)
            && Needs(RegisterAll(map[], apps).value, a, a)
  {
    var first, second, third := Description(a, 0, []), Description(b, 0, [a]), Description(a, 0, [b]);
    var apps := [first, second, third];
    RegisterOneMore(map[], [], first);
    RegisterOneMore(map[], [first], second);
    RegisterOneMore(map[], [first, second], third);
    assert [] + [first] == [first] && [first] + [second] == [first, second] && [first, second] + [third] == apps;
    var g := RegisterAll(map[], apps).value;
    assert Required(g, a) == [b] && Required(g, b) == [a];
    ReachSelf(g, b);
    ReachStep(g, b, b, a);
    assert b in Required(g, a);
  }

  /** From what was known and closed before, a larger registry leads nowhere else. */
  lemma {:induction false} ReachStaysInside(g: Registry, larger: Registry, a: ApplicationId, b: ApplicationId, n: nat)
    requires Closed(g) && (forall x <- g :: x in larger && larger[x] == g[x])
    requires a in g && ReachIn(larger, a, b, n)
    ensures b in g && ReachIn(g, a, b, n)
    decreases n
  {
    if n > 0 {
      var c :| c in Required(larger, a) && ReachIn(larger, c, b, n - 1);
      assert c in Required(g, a);
      ReachStaysInside(g, larger, c, b, n - 1);
    }
  }

  lemma NeedsStaysInside(g: Registry, app: Description, a: ApplicationId, b: ApplicationId)
    requires Closed(g) && app.id !in g && (forall c <- app.required :: c in g) && Needs(g[app.id := app], a, b)
    ensures b in g && (a != app.id ==> Needs(g, a, b))
  {
    var larger := g[app.id := app];
    var c :| c in Required(larger, a) && Reach(larger, c, b);
    var n: nat :| ReachIn(larger, c, b, n);
    assert a != app.id ==> c in Required(g, a);
    ReachStaysInside(g, larger, c, b, n);
  }

  /** A new application whose requirements are known closes no circle. */
  lemma RegisterNewAcyclic(g: Registry, app: Description)
    requires Closed(g) && Acyclic(g) && app.id !in g && forall c <- app.required :: c in g
    ensures Closed(g[app.id := app]) && Acyclic(g[app.id := app])
  {
    var larger := g[app.id := app];
    forall a, c | a in larger && c in Required(larger, a)
      ensures c in larger
    {
      assert a != app.id ==> c in Required(g, a);
    }
    forall a
      ensures !Needs(larger, a, a)
    {
      if Needs(larger, a, a) {
        NeedsStaysInside(g, app, a, a);
      }
    }
  }

  /** Well keyed, closed and free of circles, with descriptions from the given list. */
  ghost predicate Sound(g: Registry, apps: seq<Description>) {
    WellKeyed(g) && Closed(g) && Acyclic(g) && forall a <- g :: g[a] in apps
  }

  lemma RegisterKeepsSound(g: Registry, apps: seq<Description>, app: Description)
    requires Sound(g, apps) && Consistent(apps + [app]) && forall c <- app.required :: c in g
    ensures Sound(g[app.id := app], apps + [app])
  {
    var longer := apps + [app];
    assert longer[|apps|] == app;
    if app.id in g {
      var i :| 0 <= i < |apps| && apps[i] == g[app.id];
      assert longer[i] == apps[i];
      assert g[app.id := app] == g;
    } else {
      RegisterNewAcyclic(g, app);
    }
  }

  /** A registry built by consistent registrations is sound. */
  lemma {:induction false} BuiltAcyclic(apps: seq<Description>)
    requires Consistent(apps) && RegisterAll(map[], apps).Ok?
    ensures Sound(RegisterAll(map[], apps).value, apps)
    decreases |apps|
  {
    if apps == [] {
      assert forall a: ApplicationId :: Required(map[], a) == [];
    } else {
      var init, app := apps[..|apps| - 1], apps[|apps| - 1];
      BuiltAcyclic(init);
      var g := RegisterAll(map[], init).value;
      FirstUnknownNone(g, app.required);
      assert apps == init + [app];
      RegisterKeepsSound(g, init, app);
    }
  }

  lemma {:induction false} ClosedReach(g: Registry, a: ApplicationId, b: ApplicationId, n: nat)
    requires Closed(g) && a in g && ReachIn(g, a, b, n)
    ensures b in g
  {
    ReachStaysInside(g, g, a, b, n);
  }

  /**
   On a chain whose registrations never changed a description, the search for known applications never fails,
   and what it lists registers on every chain.
   */
  lemma BuiltRegistersEverywhere(built: seq<Description>, ids: seq<ApplicationId>)
    requires Consistent(built) && RegisterAll(map[], built).Ok?
    requires forall a <- ids :: a in RegisterAll(map[], built).value
    ensures var g := RegisterAll(map[], built).value;
            && (forall r {:trigger IsSorting(g, ids, r)} :: IsSorting(g, ids, r) ==> r.Ok?)
            && (forall apps {:trigger Describes(g, ids, apps)} :: Describes(g, ids, apps) ==>
                  forall known: Registry :: RegisterAll(known, apps).Ok?)
  {
    BuiltAcyclic(built);
    var g := RegisterAll(map[], built).value;
    forall b | ReachFrom(g, ids, b)
      ensures b in g
    {
      var a :| a in ids && Reach(g, a, b);
      var n: nat :| ReachIn(g, a, b, n);
      ClosedReach(g, a, b, n);
    }
    forall apps | Describes(g, ids, apps)
      ensures forall known: Registry :: RegisterAll(known, apps).Ok?
    {
      RegistersEverywhere(g, ids, apps);
    }
  }

  // ---- Announcing applications in the outcomes of a transaction ----

  datatype SystemMessage =
    | RegisterApplications(destination: Destination, applications: seq<Description>)
    | OtherSystemMessage(destination: Destination, payload: nat)

  datatype UserMessage = UserMessage(destination: Destination, payload: nat)

  datatype ExecutionOutcome =
    | SystemOutcome(system: seq<SystemMessage>)
    | UserOutcome(app: ApplicationId, user: seq<UserMessage>)

  /** The applications that send to each destination. */
  type Senders = map<Destination, set<ApplicationId>>

  ghost predicate SendsTo(outcomes: seq<ExecutionOutcome>, a: ApplicationId, d: Destination) {
    exists i, k :: 0 <= i < |outcomes| && outcomes[i].UserOutcome? && outcomes[i].app == a
                   && 0 <= k < |outcomes[i].user| && outcomes[i].user[k].destination == d
  }

  function AddSender(senders: Senders, d: Destination, a: ApplicationId): Senders {
    senders[d := (if d in senders then senders[d] else {}) + {a}]
  }

  function AddMessages(senders: Senders, a: ApplicationId, messages: seq<UserMessage>): Senders {
    if messages == [] then senders
    else AddSender(AddMessages(senders, a, messages[..|messages| - 1]), messages[|messages| - 1].destination, a)
  }

  function AllSenders(outcomes: seq<ExecutionOutcome>): Senders {
    if outcomes == [] then map[] else
      var last := outcomes[|outcomes| - 1];
      var senders := AllSenders(outcomes[..|outcomes| - 1]);
      if last.UserOutcome? then AddMessages(senders, last.app, last.user) else senders
  }

  ghost predicate Sending(senders: Senders, a: ApplicationId, d: Destination) {
    d in senders && a in senders[d]
  }

  lemma {:induction false} AddMessagesSends(senders: Senders, a: ApplicationId, messages: seq<UserMessage>, b: ApplicationId, d: Destination)
    ensures Sending(AddMessages(senders, a, messages), b, d) <==>
              Sending(senders, b, d) || (b == a && exists k :: 0 <= k < |messages| && messages[k].destination == d)
    decreases |messages|
  {
    if messages != [] {
      var before := messages[..|messages| - 1];
      AddMessagesSends(senders, a, before, b, d);
      assert forall k :: 0 <= k < |before| ==> before[k] == messages[k];
    }
  }

  /** The collected senders are exactly the applications with a message to the destination. */
  lemma {:induction false} AllSendersSend(outcomes: seq<ExecutionOutcome>, a: ApplicationId, d: Destination)
    ensures Sending(AllSenders(outcomes), a, d) <==> SendsTo(outcomes, a, d)
    decreases |outcomes|
  {
    if outcomes != [] {
      var before := outcomes[..|outcomes| - 1];
      var last := outcomes[|outcomes| - 1];
      AllSendersSend(before, a, d);
      if last.UserOutcome? {
        AddMessagesSends(AllSenders(before), last.app, last.user, a, d);
      }
      if SendsTo(before, a, d) {
        var i, k :| 0 <= i < |before| && before[i].UserOutcome? && before[i].app == a
                    && 0 <= k < |before[i].user| && before[i].user[k].destination == d;
        assert outcomes[i] == before[i];
      }
      if SendsTo(outcomes, a, d) && !SendsTo(before, a, d) {
        var i, k :| 0 <= i < |outcomes| && outcomes[i].UserOutcome? && outcomes[i].app == a
                    && 0 <= k < |outcomes[i].user| && outcomes[i].user[k].destination == d;
        if i < |before| {
          assert before[i] == outcomes[i] && SendsTo(before, a, d);
        }
      }
    }
  }

  method CollectSenders(outcomes: seq<ExecutionOutcome>) returns (senders: Senders)
    ensures senders == AllSenders(outcomes)
  {
    senders := map[];
    for i := 0 to |outcomes|
      invariant senders == AllSenders(outcomes[..i])
    {
      assert outcomes[..i + 1][..i] == outcomes[..i];
      match outcomes[i]
      case SystemOutcome(_) =>
      case UserOutcome(app, messages) =>
        var start := senders;
        for k := 0 to |messages|
          invariant senders == AddMessages(start, app, messages[..k])
        {
          assert messages[..k + 1][..k] == messages[..k];
          senders := AddSender(senders, messages[k].destination, app);
        }
        assert messages[..|messages|] == messages;
    }
    assert outcomes[..|outcomes|] == outcomes;
  }

  method Listed(ids: set<ApplicationId>) returns (xs: seq<ApplicationId>)
    ensures forall a :: a in xs <==> a in ids
  {
    xs := [];
    var rest := ids;
    while rest != {}
      invariant rest <= ids && forall a :: a in xs <==> a in ids - rest
      decreases rest
    {
      var a :| a in rest;
      rest, xs := rest - {a}, xs + [a];
    }
  }

  /** A message that announces the given applications, with everything they need, to a destination. */
  ghost predicate Announces(g: Registry, m: SystemMessage, d: Destination, senders: set<ApplicationId>) {
    && m.RegisterApplications? && m.destination == d
    && exists ids :: (forall a :: a in ids <==> a in senders) && Describes(g, ids, m.applications)
  }

  /** Exactly one announcement for each destination, and nothing else. */
  ghost predicate AnnouncesAll(g: Registry, messages: seq<SystemMessage>, senders: Senders, done: set<Destination>) {
    && done <= senders.Keys
    && (forall k :: 0 <= k < |messages| ==>
          messages[k].destination in done && Announces(g, messages[k], messages[k].destination, senders[messages[k].destination]))
    && (forall d <- done :: exists k :: 0 <= k < |messages| && messages[k].destination == d)
    && (forall k, l :: 0 <= k < l < |messages| ==> messages[k].destination != messages[l].destination)
  }

  lemma OneMoreAnnouncement(g: Registry, messages: seq<SystemMessage>, senders: Senders, done: set<Destination>, m: SystemMessage)
    requires AnnouncesAll(g, messages, senders, done) && m.destination in senders && m.destination !in done
    requires Announces(g, m, m.destination, senders[m.destination])
    ensures AnnouncesAll(g, messages + [m], senders, done + {m.destination})
  {
    var longer := messages + [m];
    forall d <- done + {m.destination}
      ensures exists k :: 0 <= k < |longer| && longer[k].destination == d
    {
      if d in done {
        var k :| 0 <= k < |messages| && messages[k].destination == d;
        assert longer[k].destination == d;
      } else {
        assert longer[|messages|].destination == d;
      }
    }
  }

  method Announcements(known: Registry, senders: Senders) returns (r: Result<seq<SystemMessage>, ApplicationId>)
    ensures r.Ok? ==> AnnouncesAll(known, r.value, senders, senders.Keys)
    ensures r.Err? ==> r.error !in known && exists a, d :: Sending(senders, a, d) && Reach(known, a, r.error)
  {
    var messages: seq<SystemMessage> := [];
    var rest, done := senders.Keys, {};
    assert known + map[] == known;
    while rest != {}
      invariant rest !! done && rest + done == senders.Keys
      invariant AnnouncesAll(known, messages, senders, done)
      decreases rest
    {
      var d :| d in rest;
      var ids := Listed(senders[d]);
      var apps := DescribeApplicationsWithDependencies(known, map[], ids);
      if apps.Err? {
        ghost var a :| a in ids && Reach(known, a, apps.error);
        assert Sending(senders, a, d);
        return Err(apps.error);
      }
      var m := RegisterApplications(d, apps.value);
      OneMoreAnnouncement(known, messages, senders, done, m);
      messages := messages + [m];
      rest, done := rest - {d}, done + {d};
    }
    assert done == senders.Keys;
    r := Ok(messages);
  }

  function FirstUser(outcomes: seq<ExecutionOutcome>): nat {
    if outcomes == [] || outcomes[0].UserOutcome? then 0 else 1 + FirstUser(outcomes[1..])
  }

  lemma {:induction false} FirstUserIsFirst(outcomes: seq<ExecutionOutcome>)
    ensures FirstUser(outcomes) <= |outcomes|
    ensures forall i :: 0 <= i < |outcomes| && outcomes[i].UserOutcome? ==> FirstUser(outcomes) <= i
    ensures FirstUser(outcomes) < |outcomes| ==> outcomes[FirstUser(outcomes)].UserOutcome?
    decreases |outcomes|
  {
    if outcomes != [] && !outcomes[0].UserOutcome? {
      FirstUserIsFirst(outcomes[1..]);
      assert forall i :: 0 < i < |outcomes| ==> outcomes[i] == outcomes[1..][i - 1];
    }
  }

  function InsertAt(outcomes: seq<ExecutionOutcome>, k: nat, x: ExecutionOutcome): (r: seq<ExecutionOutcome>)
    requires k <= |outcomes|
    ensures |r| == |outcomes| + 1
  {
    outcomes[..k] + [x] + outcomes[k..]
  }

  lemma InsertedElements(outcomes: seq<ExecutionOutcome>, k: nat, x: ExecutionOutcome)
    requires k <= |outcomes|
    ensures var r := InsertAt(outcomes, k, x);
            && r[k] == x && r[..k] + r[k + 1..] == outcomes
            && (forall i :: 0 <= i < k ==> r[i] == outcomes[i])
            && (forall i :: k < i < |r| ==> r[i] == outcomes[i - 1])
  {
    assert outcomes[..k] + outcomes[k..] == outcomes;
  }

  /** The outcomes with one system outcome inserted before the first user outcome, or unchanged. */
  ghost predicate Announced(g: Registry, before: seq<ExecutionOutcome>, after: seq<ExecutionOutcome>) {
    var senders := AllSenders(before);
    if senders == map[] then after == before else
      exists messages :: AnnouncesAll(g, messages, senders, senders.Keys)
                         && FirstUser(before) <= |before|
                         && after == InsertAt(before, FirstUser(before), SystemOutcome(messages))
  }

  /** Inserts the registration messages that the user messages of a transaction need. */
  method UpdateExecutionOutcomes(known: Registry, outcomes: seq<ExecutionOutcome>) returns (r: Result<seq<ExecutionOutcome>, ApplicationId>)
    ensures r.Ok? ==> Announced(known, outcomes, r.value)
    ensures r.Err? ==> r.error !in known && exists a, d :: SendsTo(outcomes, a, d) && Reach(known, a, r.error)
  {
    var senders := CollectSenders(outcomes);
    if senders == map[] {
      return Ok(outcomes);
    }
    var messages := Announcements(known, senders);
    if messages.Err? {
      ghost var a, d :| Sending(senders, a, d) && Reach(known, a, messages.error);
      AllSendersSend(outcomes, a, d);
      return Err(messages.error);
    }
    FirstUserIsFirst(outcomes);
    var k := FirstUser(outcomes);
    r := Ok(InsertAt(outcomes, k, SystemOutcome(messages.value)));
  }

  /** The list contains the descriptions of the application and of everything it needs. */
  ghost predicate ListedWithNeeds(g: Registry, apps: seq<Description>, a: ApplicationId) {
    a in g && g[a] in apps && forall b :: Needs(g, a, b) ==> b in g && g[b] in apps
  }

  /** The list contains the application's description, after those of everything it needs. */
  ghost predicate ListedAfterNeeds(g: Registry, apps: seq<Description>, a: ApplicationId) {
    a in g && exists n :: 0 <= n < |apps| && apps[n] == g[a]
                          && forall b :: Needs(g, a, b) ==> b in g && g[b] in apps[..n]
  }

  /** Complete in any case; in dependency order exactly for applications that do not need themselves. */
  ghost predicate Introduces(g: Registry, apps: seq<Description>, a: ApplicationId) {
    && ListedWithNeeds(g, apps, a)
    && (!Needs(g, a, a) ==> ListedAfterNeeds(g, apps, a))
    && (WellKeyed(g) && ListedAfterNeeds(g, apps, a) ==> !Needs(g, a, a))
  }

  lemma DescribedWithNeeds(g: Registry, ids: seq<ApplicationId>, xs: seq<ApplicationId>, a: ApplicationId)
    requires IsSorting(g, ids, Ok(xs)) && (forall x <- xs :: x in g) && a in ids
    ensures a in xs && ListedWithNeeds(g, Described(g, xs), a)
  {
    var apps := Described(g, xs);
    ReachSelf(g, a);
    assert ReachFrom(g, ids, a);
    var n :| 0 <= n < |xs| && xs[n] == a;
    assert apps[n] == g[a];
    forall b | Needs(g, a, b)
      ensures b in g && g[b] in apps
    {
      var c :| c in Required(g, a) && Reach(g, c, b);
      ReachStep(g, a, a, c);
      ReachTransitive(g, a, c, b);
      assert ReachFrom(g, ids, b);
      var m :| 0 <= m < |xs| && xs[m] == b;
      assert apps[m] == g[b];
    }
  }

  lemma DescribedAfterNeeds(g: Registry, ids: seq<ApplicationId>, xs: seq<ApplicationId>, a: ApplicationId)
    requires IsSorting(g, ids, Ok(xs)) && (forall x <- xs :: x in g) && a in xs && !Needs(g, a, a)
    ensures ListedAfterNeeds(g, Described(g, xs), a)
  {
    var apps := Described(g, xs);
    var n :| 0 <= n < |xs| && xs[n] == a;
    assert AfterNeeds(g, xs, n);
    forall b | Needs(g, a, b)
      ensures b in g && g[b] in apps[..n]
    {
      var m :| 0 <= m < n && xs[m] == b;
      assert apps[..n][m] == g[b];
    }
    assert apps[n] == g[a];
  }

  lemma AfterNeedsIsAcyclic(g: Registry, ids: seq<ApplicationId>, xs: seq<ApplicationId>, a: ApplicationId)
    requires IsSorting(g, ids, Ok(xs)) && (forall x <- xs :: x in g) && WellKeyed(g)
    requires ListedAfterNeeds(g, Described(g, xs), a)
    ensures !Needs(g, a, a)
  {
    var apps := Described(g, xs);
    var n :| 0 <= n < |apps| && apps[n] == g[a] && forall b :: Needs(g, a, b) ==> b in g && g[b] in apps[..n];
    assert xs[n] in xs && xs[n] == a;
    forall m | 0 <= m < n
      ensures apps[..n][m] != g[a]
    {
      assert xs[m] in xs && apps[m].id == xs[m] != xs[n];
    }
  }

  lemma DescribedIntroduces(g: Registry, ids: seq<ApplicationId>, apps: seq<Description>, a: ApplicationId)
    requires Describes(g, ids, apps) && a in ids
    ensures Introduces(g, apps, a)
  {
    var xs :| IsSorting(g, ids, Ok(xs)) && (forall x <- xs :: x in g) && apps == Described(g, xs);
    DescribedWithNeeds(g, ids, xs, a);
    if !Needs(g, a, a) {
      DescribedAfterNeeds(g, ids, xs, a);
    } else if WellKeyed(g) && ListedAfterNeeds(g, apps, a) {
      AfterNeedsIsAcyclic(g, ids, xs, a);
    }
  }

  /** Message `k` of outcome `i` is preceded by an announcement to its destination. */
  ghost predicate PrecededByRegistration(g: Registry, outcomes: seq<ExecutionOutcome>, i: nat, k: nat)
    requires i < |outcomes| && outcomes[i].UserOutcome? && k < |outcomes[i].user|
  {
    exists j, n :: 0 <= j < i && outcomes[j].SystemOutcome? && 0 <= n < |outcomes[j].system|
                   && outcomes[j].system[n].RegisterApplications?
                   && outcomes[j].system[n].destination == outcomes[i].user[k].destination
                   && Introduces(g, outcomes[j].system[n].applications, outcomes[i].app)
  }

  /** The announcement that covers a sender of a destination. */
  lemma AnnouncementFor(g: Registry, messages: seq<SystemMessage>, senders: Senders, a: ApplicationId, d: Destination)
    returns (n: nat)
    requires AnnouncesAll(g, messages, senders, senders.Keys) && Sending(senders, a, d)
    ensures n < |messages| && messages[n].RegisterApplications? && messages[n].destination == d
    ensures Introduces(g, messages[n].applications, a)
  {
    n :| 0 <= n < |messages| && messages[n].destination == d;
    assert Announces(g, messages[n], d, senders[d]);
    var ids :| (forall x :: x in ids <==> x in senders[d]) && Describes(g, ids, messages[n].applications);
    DescribedIntroduces(g, ids, messages[n].applications, a);
  }

  /**
   In the updated outcomes every user message is preceded by a registration message to the same destination.
   It lists the sending application and everything it needs; it lists the application after everything it
   needs if and only if the application does not need itself.
   */
  lemma EveryMessageAnnounced(g: Registry, before: seq<ExecutionOutcome>, after: seq<ExecutionOutcome>, i: nat, k: nat)
    requires Announced(g, before, after)
    requires i < |after| && after[i].UserOutcome? && k < |after[i].user|
    ensures PrecededByRegistration(g, after, i, k)
  {
    var senders := AllSenders(before);
    var first := FirstUser(before);
    var a, d := after[i].app, after[i].user[k].destination;
    AnnouncedSends(g, before, after, i, k);
    AllSendersSend(before, a, d);
    var messages :| AnnouncesAll(g, messages, senders, senders.Keys)
                    && after == InsertAt(before, first, SystemOutcome(messages));
    InsertedElements(before, first, SystemOutcome(messages));
    var n := AnnouncementFor(g, messages, senders, a, d);
    assert after[first].system[n].destination == d;
  }

  /** A user outcome of the result is one of the original outcomes, and comes after the inserted one. */
  lemma AnnouncedSends(g: Registry, before: seq<ExecutionOutcome>, after: seq<ExecutionOutcome>, i: nat, k: nat)
    requires Announced(g, before, after)
    requires i < |after| && after[i].UserOutcome? && k < |after[i].user|
    ensures SendsTo(before, after[i].app, after[i].user[k].destination)
    ensures AllSenders(before) != map[] ==> FirstUser(before) < i
  {
    var first := FirstUser(before);
    if AllSenders(before) == map[] {
      assert before[i].user[k].destination == after[i].user[k].destination;
    } else {
      FirstUserIsFirst(before);
      var x :| after == InsertAt(before, first, SystemOutcome(x));
      InsertedElements(before, first, SystemOutcome(x));
      assert i > first && after[i] == before[i - 1];
      assert before[i - 1].user[k].destination == after[i].user[k].destination;
    }
  }

  /** The update only inserts: without the inserted outcome the transaction is unchanged. */
  lemma UpdateOnlyInserts(g: Registry, before: seq<ExecutionOutcome>, after: seq<ExecutionOutcome>)
    requires Announced(g, before, after)
    ensures after == before || exists k :: 0 <= k < |after| && after[k].SystemOutcome? && after[..k] + after[k + 1..] == before
  {
    if AllSenders(before) != map[] {
      var x :| after == InsertAt(before, FirstUser(before), SystemOutcome(x));
      InsertedElements(before, FirstUser(before), SystemOutcome(x));
      assert after[FirstUser(before)].SystemOutcome?;
    }
  }
}
