/** Charging fees for resources against an ordered list of funding sources. */
module Resources {
  import opened Base

  datatype Policy = Policy(
    block: u128,
    fuelUnit: u128,
    readOperation: u128,
    writeOperation: u128,
    byteRead: u128,
    byteWritten: u128,
    operation: u128,
    operationByte: u128,
    message: u128,
    messageByte: u128,
    maximumFuelPerBlock: u64,
    maximumBytesReadPerBlock: u64,
    maximumBytesWrittenPerBlock: u64)

  datatype Tracker = Tracker(
    blocks: u32,
    fuel: u64,
    readOperations: u32,
    writeOperations: u32,
    bytesRead: u64,
    bytesWritten: u64,
    operations: u32,
    operationBytes: u64,
    messages: u32,
    messageBytes: u64,
    grants: u128)

  datatype ResourceError =
    | Overflow
    | InsufficientFundingForFees
    | MaximumFuelExceeded
    | ExcessiveRead
    | ExcessiveWrite

  datatype State = State(tracker: Tracker, sources: seq<u128>)

  /** An operation leaves a state behind also when it fails. */
  datatype Outcome = Outcome(state: State, result: Result<(), ResourceError>)

  /** What the execution reports to the controller; a size is given for user payloads only. */
  datatype Event =
    | Grant(amount: u128)
    | Block
    | Operation(size: Option<u64>)
    | Message(size: Option<u64>)
    | Fuel(units: u64)
    | ReadOperations(count: u32)
    | WriteOperations(count: u32)
    | BytesRead(bytes: u64)
    | BytesWritten(bytes: u64)

  // ----- Funding sources -----

  function Sum(sources: seq<nat>): nat {
    if sources == [] then 0 else sources[0] + Sum(sources[1..])
  }

  /** What a debt of the given size leaves in a heap of the given size. */
  function Left(total: nat, fees: nat): nat {
    if fees <= total then total - fees else 0
  }

  /**
   * Takes fees from the first source, what is missing from the second, and so on. If there is
   * not enough, everything is taken and the debt is not paid.
   */
  function Pay(sources: seq<u128>, fees: nat): (r: (seq<u128>, bool))
    ensures |r.0| == |sources|
  {
    if sources == [] then ([], fees == 0)
    else if fees <= sources[0] then ([sources[0] - fees] + sources[1..], true)
    else
      var rest := Pay(sources[1..], fees - sources[0]);
      ([0] + rest.0, rest.1)
  }

  lemma {:induction false} SumConcat(a: seq<nat>, b: seq<nat>)
    ensures Sum(a + b) == Sum(a) + Sum(b)
  {
    if a == [] {
      assert a + b == b;
    } else {
      assert (a + b)[1..] == a[1..] + b;
      SumConcat(a[1..], b);
    }
  }

  /** The debt is paid in full exactly when the sources suffice, and exactly the debt is taken. */
  lemma {:induction false} PayIsExact(sources: seq<u128>, fees: nat)
    ensures Pay(sources, fees).1 <==> fees <= Sum(sources)
    ensures Sum(Pay(sources, fees).0) == Left(Sum(sources), fees)
  {
    if sources != [] && fees > sources[0] {
      PayIsExact(sources[1..], fees - sources[0]);
      assert ([0] + Pay(sources[1..], fees - sources[0]).0)[1..] == Pay(sources[1..], fees - sources[0]).0;
    } else if sources != [] {
      assert ([sources[0] - fees] + sources[1..])[1..] == sources[1..];
    }
  }

  /** In order: the first k sources together give all they can before any later one gives anything. */
  lemma {:induction false} PayIsInOrder(sources: seq<u128>, fees: nat, k: nat)
    requires k <= |sources|
    ensures Sum(Pay(sources, fees).0[..k]) == Left(Sum(sources[..k]), fees)
  {
    if k > 0 {
      assert sources[..k][0] == sources[0] && sources[..k][1..] == sources[1..][..k - 1];
      var after := Pay(sources, fees).0;
      if fees > sources[0] {
        var rest := Pay(sources[1..], fees - sources[0]).0;
        PayIsInOrder(sources[1..], fees - sources[0], k - 1);
        assert after[..k] == [0] + rest[..k - 1];
        assert ([0] + rest[..k - 1])[1..] == rest[..k - 1];
      } else {
        assert after[..k][1..] == sources[1..][..k - 1];
      }
    }
  }

  /** Two payments in a row drain the sources like one payment of both. */
  lemma {:induction false} PayTwice(sources: seq<u128>, a: nat, b: nat)
    requires Pay(sources, a).1
    ensures Pay(Pay(sources, a).0, b) == Pay(sources, a + b)
  {
    if sources != [] {
      var after := Pay(sources, a).0;
      if a > sources[0] {
        PayTwice(sources[1..], a - sources[0], b);
        assert after[1..] == Pay(sources[1..], a - sources[0]).0;
        PayNothing(after[1..]);
      } else {
        assert after[1..] == sources[1..];
      }
    }
  }

  lemma PayNothing(sources: seq<u128>)
    ensures Pay(sources, 0) == (sources, true)
  {
    if sources != [] {
      assert [sources[0] - 0] + sources[1..] == sources;
    }
  }

  // ----- The controller -----

  function TryMul(price: u128, count: nat): Result<u128, ResourceError> {
    if Fee(price, count) <= U128_MAX then Ok(Fee(price, count)) else Err(Overflow)
  }

  function Charge(s: State, fees: Result<u128, ResourceError>): Outcome {
    match fees
    case Err(e) => Outcome(s, Err(e))
    case Ok(f) =>
      var paid := Pay(s.sources, f);
      Outcome(s.(sources := paid.0), if paid.1 then Ok(()) else Err(InsufficientFundingForFees))
  }

  function ChargeGrant(s: State, grant: u128): Outcome {
    if s.tracker.grants + grant > U128_MAX then Outcome(s, Err(Overflow))
    else Charge(s.(tracker := s.tracker.(grants := s.tracker.grants + grant)), Ok(grant))
  }

  function ChargeBlock(p: Policy, s: State): Outcome {
    if s.tracker.blocks + 1 > U32_MAX then Outcome(s, Err(Overflow))
    else Charge(s.(tracker := s.tracker.(blocks := s.tracker.blocks + 1)), Ok(p.block))
  }

  function ChargeOperation(p: Policy, s: State, size: Option<u64>): Outcome {
    if s.tracker.operations + 1 > U32_MAX then Outcome(s, Err(Overflow))
    else
      var first := Charge(s.(tracker := s.tracker.(operations := s.tracker.operations + 1)), Ok(p.operation));
      if first.result.Err? || size.None? then first
      else
        var t := first.state.tracker;
        if t.operationBytes + size.value > U64_MAX then Outcome(first.state, Err(Overflow))
        else Charge(first.state.(tracker := t.(operationBytes := t.operationBytes + size.value)),
                           TryMul(p.operationByte, size.value))
  }

  function ChargeMessage(p: Policy, s: State, size: Option<u64>): Outcome {
    if s.tracker.messages + 1 > U32_MAX then Outcome(s, Err(Overflow))
    else
      var first := Charge(s.(tracker := s.tracker.(messages := s.tracker.messages + 1)), Ok(p.message));
      if first.result.Err? || size.None? then first
      else
        var t := first.state.tracker;
        if t.messageBytes + size.value > U64_MAX then Outcome(first.state, Err(Overflow))
        else Charge(first.state.(tracker := t.(messageBytes := t.messageBytes + size.value)),
                           TryMul(p.messageByte, size.value))
  }

  function ChargeFuel(p: Policy, s: State, units: u64): Outcome {
    if s.tracker.fuel + units > U64_MAX then Outcome(s, Err(Overflow))
    else
      var used := s.(tracker := s.tracker.(fuel := s.tracker.fuel + units));
      if used.tracker.fuel > p.maximumFuelPerBlock then Outcome(used, Err(MaximumFuelExceeded))
      else Charge(used, TryMul(p.fuelUnit, units))
  }

  function ChargeReadOperations(p: Policy, s: State, count: u32): Outcome {
    if s.tracker.readOperations + count > U32_MAX then Outcome(s, Err(Overflow))
    else Charge(s.(tracker := s.tracker.(readOperations := s.tracker.readOperations + count)),
                       TryMul(p.readOperation, count))
  }

  function ChargeWriteOperations(p: Policy, s: State, count: u32): Outcome {
    if s.tracker.writeOperations + count > U32_MAX then Outcome(s, Err(Overflow))
    else Charge(s.(tracker := s.tracker.(writeOperations := s.tracker.writeOperations + count)),
                       TryMul(p.writeOperation, count))
  }

  function ChargeBytesRead(p: Policy, s: State, count: u64): Outcome {
    if s.tracker.bytesRead + count > U64_MAX then Outcome(s, Err(Overflow))
    else
      var used := s.(tracker := s.tracker.(bytesRead := s.tracker.bytesRead + count));
      if used.tracker.bytesRead >= p.maximumBytesReadPerBlock then Outcome(used, Err(ExcessiveRead))
      else Charge(used, TryMul(p.byteRead, count))
  }

  function ChargeBytesWritten(p: Policy, s: State, count: u64): Outcome {
    if s.tracker.bytesWritten + count > U64_MAX then Outcome(s, Err(Overflow))
    else
      var used := s.(tracker := s.tracker.(bytesWritten := s.tracker.bytesWritten + count));
      if used.tracker.bytesWritten >= p.maximumBytesWrittenPerBlock then Outcome(used, Err(ExcessiveWrite))
      else Charge(used, TryMul(p.byteWritten, count))
  }

  function Track(p: Policy, s: State, e: Event): (r: Outcome)
    ensures |r.state.sources| == |s.sources|
  {
    match e
    case Grant(amount) => ChargeGrant(s, amount)
    case Block => ChargeBlock(p, s)
    case Operation(size) => ChargeOperation(p, s, size)
    case Message(size) => ChargeMessage(p, s, size)
    case Fuel(units) => ChargeFuel(p, s, units)
    case ReadOperations(count) => ChargeReadOperations(p, s, count)
    case WriteOperations(count) => ChargeWriteOperations(p, s, count)
    case BytesRead(count) => ChargeBytesRead(p, s, count)
    case BytesWritten(count) => ChargeBytesWritten(p, s, count)
  }

  /** Executes reports until one fails. */
  function Run(p: Policy, s: State, events: seq<Event>): (r: Outcome)
    ensures |r.state.sources| == |s.sources|
  {
    if events == [] then Outcome(s, Ok(()))
    else
      var before := Run(p, s, events[..|events| - 1]);
      if before.result.Err? then before else Track(p, before.state, events[|events| - 1])
  }

  // ----- What the tracker is worth -----

  function Fee(price: nat, count: nat): nat {
    price * count
  }

  /** The price of everything tracked so far. */
  function Cost(p: Policy, t: Tracker): nat {
    Fee(p.block, t.blocks) + Fee(p.fuelUnit, t.fuel)
    + Fee(p.readOperation, t.readOperations) + Fee(p.writeOperation, t.writeOperations)
    + Fee(p.byteRead, t.bytesRead) + Fee(p.byteWritten, t.bytesWritten)
    + Fee(p.operation, t.operations) + Fee(p.operationByte, t.operationBytes)
    + Fee(p.message, t.messages) + Fee(p.messageByte, t.messageBytes) + t.grants
  }

  /** The price of one report. */
  function Price(p: Policy, e: Event): nat {
    match e
    case Grant(amount) => amount
    case Block => p.block
    case Operation(size) => p.operation + (if size.Some? then Fee(p.operationByte, size.value) else 0)
    case Message(size) => p.message + (if size.Some? then Fee(p.messageByte, size.value) else 0)
    case Fuel(units) => Fee(p.fuelUnit, units)
    case ReadOperations(count) => Fee(p.readOperation, count)
    case WriteOperations(count) => Fee(p.writeOperation, count)
    case BytesRead(count) => Fee(p.byteRead, count)
    case BytesWritten(count) => Fee(p.byteWritten, count)
  }

  lemma Distribute(price: nat, a: nat, b: nat)
    ensures Fee(price, a + b) == Fee(price, a) + Fee(price, b)
  {
  }

  /** The tracker, its limits and the machine integers have room for a report. */
  predicate Fits(p: Policy, t: Tracker, e: Event) {
    match e
    case Grant(amount) => t.grants + amount <= U128_MAX
    case Block => t.blocks + 1 <= U32_MAX
    case Operation(size) =>
      t.operations + 1 <= U32_MAX
      && (size.Some? ==> t.operationBytes + size.value <= U64_MAX && Fee(p.operationByte, size.value) <= U128_MAX)
    case Message(size) =>
      t.messages + 1 <= U32_MAX
      && (size.Some? ==> t.messageBytes + size.value <= U64_MAX && Fee(p.messageByte, size.value) <= U128_MAX)
    case Fuel(units) => t.fuel + units <= p.maximumFuelPerBlock && Fee(p.fuelUnit, units) <= U128_MAX
    case ReadOperations(count) => t.readOperations + count <= U32_MAX && Fee(p.readOperation, count) <= U128_MAX
    case WriteOperations(count) => t.writeOperations + count <= U32_MAX && Fee(p.writeOperation, count) <= U128_MAX
    case BytesRead(count) => t.bytesRead + count < p.maximumBytesReadPerBlock && Fee(p.byteRead, count) <= U128_MAX
    case BytesWritten(count) =>
      t.bytesWritten + count < p.maximumBytesWrittenPerBlock && Fee(p.byteWritten, count) <= U128_MAX
  }

  function Counted(p: Policy, t: Tracker, e: Event): Tracker
    requires Fits(p, t, e)
  {
    match e
    case Grant(amount) => t.(grants := t.grants + amount)
    case Block => t.(blocks := t.blocks + 1)
    case Operation(size) =>
      t.(operations := t.operations + 1,
         operationBytes := if size.Some? then t.operationBytes + size.value else t.operationBytes)
    case Message(size) =>
      t.(messages := t.messages + 1, messageBytes := if size.Some? then t.messageBytes + size.value else t.messageBytes)
    case Fuel(units) => t.(fuel := t.fuel + units)
    case ReadOperations(count) => t.(readOperations := t.readOperations + count)
    case WriteOperations(count) => t.(writeOperations := t.writeOperations + count)
    case BytesRead(count) => t.(bytesRead := t.bytesRead + count)
    case BytesWritten(count) => t.(bytesWritten := t.bytesWritten + count)
  }

  /** A report adds exactly its price to the worth of the tracker. */
  lemma CountedCosts(p: Policy, t: Tracker, e: Event)
    requires Fits(p, t, e)
    ensures Cost(p, Counted(p, t, e)) == Cost(p, t) + Price(p, e)
  {
    match e {
      case Grant(_) =>
      case Block => Distribute(p.block, t.blocks, 1);
      case Operation(size) =>
        Distribute(p.operation, t.operations, 1);
        if size.Some? {
          Distribute(p.operationByte, t.operationBytes, size.value);
        }
      case Message(size) =>
        Distribute(p.message, t.messages, 1);
        if size.Some? {
          Distribute(p.messageByte, t.messageBytes, size.value);
        }
      case Fuel(units) => Distribute(p.fuelUnit, t.fuel, units);
      case ReadOperations(count) => Distribute(p.readOperation, t.readOperations, count);
      case WriteOperations(count) => Distribute(p.writeOperation, t.writeOperations, count);
      case BytesRead(count) => Distribute(p.byteRead, t.bytesRead, count);
      case BytesWritten(count) => Distribute(p.byteWritten, t.bytesWritten, count);
    }
  }

  /** A report succeeds exactly when there is room and money for it; then it is counted and paid in order. */
  ghost predicate Charged(p: Policy, before: State, e: Event, after: State, r: Result<(), ResourceError>) {
    && (r.Ok? <==> Fits(p, before.tracker, e) && Price(p, e) <= Sum(before.sources))
    && (r.Ok? ==> after == State(Counted(p, before.tracker, e), Pay(before.sources, Price(p, e)).0))
  }

  /** A report succeeds exactly when there is room for it and the sources can pay its price. */
  lemma TrackVerdict(p: Policy, s: State, e: Event)
    ensures Track(p, s, e).result.Ok? <==> Fits(p, s.tracker, e) && Price(p, e) <= Sum(s.sources)
    ensures Track(p, s, e).result.Ok? ==>
              Track(p, s, e).state == State(Counted(p, s.tracker, e), Pay(s.sources, Price(p, e)).0)
  {
    PayIsExact(s.sources, Price(p, e));
    match e {
      case Operation(size) => OperationVerdict(p, s, size);
      case Message(size) => MessageVerdict(p, s, size);
      case _ =>
    }
  }

  lemma OperationVerdict(p: Policy, s: State, size: Option<u64>)
    ensures var e := Operation(size);
            && (ChargeOperation(p, s, size).result.Ok? <==> Fits(p, s.tracker, e) && Pay(s.sources, Price(p, e)).1)
            && (ChargeOperation(p, s, size).result.Ok? ==>
                  ChargeOperation(p, s, size).state == State(Counted(p, s.tracker, e), Pay(s.sources, Price(p, e)).0))
  {
    if size.Some? {
      TwoPayments(s.sources, p.operation, Fee(p.operationByte, size.value));
    }
  }

  lemma MessageVerdict(p: Policy, s: State, size: Option<u64>)
    ensures var e := Message(size);
            && (ChargeMessage(p, s, size).result.Ok? <==> Fits(p, s.tracker, e) && Pay(s.sources, Price(p, e)).1)
            && (ChargeMessage(p, s, size).result.Ok? ==>
                  ChargeMessage(p, s, size).state == State(Counted(p, s.tracker, e), Pay(s.sources, Price(p, e)).0))
  {
    if size.Some? {
      TwoPayments(s.sources, p.message, Fee(p.messageByte, size.value));
    }
  }

  lemma TwoPayments(sources: seq<u128>, a: nat, b: nat)
    ensures Pay(sources, a).1 ==> Pay(Pay(sources, a).0, b) == Pay(sources, a + b)
    ensures Pay(sources, a + b).1 ==> Pay(sources, a).1
  {
    PayIsExact(sources, a);
    PayIsExact(sources, a + b);
    if Pay(sources, a).1 {
      PayTwice(sources, a, b);
    }
  }

  // ----- Whole runs -----

  function TotalPrice(p: Policy, events: seq<Event>): nat {
    if events == [] then 0 else TotalPrice(p, events[..|events| - 1]) + Price(p, events[|events| - 1])
  }

  /** The tracker after all reports, if there is room for them. */
  function CountedAll(p: Policy, t: Tracker, events: seq<Event>): Option<Tracker> {
    if events == [] then Some(t)
    else
      var before := CountedAll(p, t, events[..|events| - 1]);
      if before.Some? && Fits(p, before.value, events[|events| - 1])
      then Some(Counted(p, before.value, events[|events| - 1]))
      else None
  }

  lemma {:induction false} CountedAllCosts(p: Policy, t: Tracker, events: seq<Event>)
    requires CountedAll(p, t, events).Some?
    ensures Cost(p, CountedAll(p, t, events).value) == Cost(p, t) + TotalPrice(p, events)
  {
    if events != [] {
      var init, last := events[..|events| - 1], events[|events| - 1];
      CountedAllCosts(p, t, init);
      CountedCosts(p, CountedAll(p, t, init).value, last);
    }
  }

  /**
   * A whole run succeeds exactly when there is room for all reports and the sources can pay
   * for them together; the sources then end up as after one single payment of the total.
   */
  lemma {:induction false} RunVerdict(p: Policy, s: State, events: seq<Event>)
    ensures Run(p, s, events).result.Ok?
       <==> CountedAll(p, s.tracker, events).Some? && Pay(s.sources, TotalPrice(p, events)).1
    ensures var end := Run(p, s, events);
            end.result.Ok? ==>
              && CountedAll(p, s.tracker, events) == Some(end.state.tracker)
              && Pay(s.sources, TotalPrice(p, events)).0 == end.state.sources
    decreases |events|
  {
    if events == [] {
      PayNothing(s.sources);
    } else {
      var init, last := events[..|events| - 1], events[|events| - 1];
      RunVerdict(p, s, init);
      var before := Run(p, s, init);
      TwoPayments(s.sources, TotalPrice(p, init), Price(p, last));
      if before.result.Ok? {
        TrackVerdict(p, before.state, last);
        PayIsExact(before.state.sources, Price(p, last));
      }
    }
  }

  /** What the sources lose in a run is what the tracker gains in worth: the sum never changes. */
  lemma RunConserves(p: Policy, s: State, events: seq<Event>)
    ensures Run(p, s, events).result.Ok?
       <==> CountedAll(p, s.tracker, events).Some? && TotalPrice(p, events) <= Sum(s.sources)
    ensures Run(p, s, events).result.Ok? ==>
              Sum(Run(p, s, events).state.sources) + Cost(p, Run(p, s, events).state.tracker)
              == Sum(s.sources) + Cost(p, s.tracker)
  {
    RunVerdict(p, s, events);
    PayIsExact(s.sources, TotalPrice(p, events));
    if Run(p, s, events).result.Ok? {
      CountedAllCosts(p, s.tracker, events);
    }
  }

  /** The first sources pay for a run as long as they can; the later ones pay only the rest. */
  lemma RunDrainsInOrder(p: Policy, s: State, events: seq<Event>, k: nat)
    requires Run(p, s, events).result.Ok? && k <= |s.sources|
    ensures |Run(p, s, events).state.sources| == |s.sources|
    ensures Sum(Run(p, s, events).state.sources[..k]) == Left(Sum(s.sources[..k]), TotalPrice(p, events))
    ensures TotalPrice(p, events) <= Sum(s.sources[..k])
            ==> Run(p, s, events).state.sources[k..] == s.sources[k..]
  {
    RunVerdict(p, s, events);
    PayIsInOrder(s.sources, TotalPrice(p, events), k);
    if TotalPrice(p, events) <= Sum(s.sources[..k]) {
      LaterUntouched(s.sources, TotalPrice(p, events), k);
    }
  }

  lemma {:induction false} LaterUntouched(sources: seq<u128>, fees: nat, k: nat)
    requires k <= |sources| && fees <= Sum(sources[..k])
    ensures Pay(sources, fees).0[k..] == sources[k..]
  {
    if sources != [] && fees > sources[0] {
      assert sources[..k][1..] == sources[1..][..k - 1];
      LaterUntouched(sources[1..], fees - sources[0], k - 1);
      var rest := Pay(sources[1..], fees - sources[0]).0;
      assert Pay(sources, fees).0[k..] == rest[k - 1..];
    } else if k == 0 {
      PayNothing(sources);
    }
  }

  // ----- User actions -----

  function CheckedSum(sources: seq<u128>): Result<u128, ResourceError> {
    if Sum(sources) <= U128_MAX then Ok(Sum(sources)) else Err(Overflow)
  }

  /** Transfers the difference between two balances to or from the sources. */
  function Merge(s: State, initial: u128, other: u128): Outcome
    requires |s.sources| > 0
  {
    if other <= initial then Charge(s, Ok(initial - other))
    else
      var last := |s.sources| - 1;
      if s.sources[last] + (other - initial) > U128_MAX then Outcome(s, Err(Overflow))
      else Outcome(s.(sources := s.sources[last := s.sources[last] + (other - initial)]), Ok(()))
  }

  /** Merging moves exactly the difference: a loss is paid in order, a gain goes to the last source. */
  lemma MergeMovesDifference(s: State, initial: u128, other: u128)
    requires |s.sources| > 0 && Merge(s, initial, other).result.Ok?
    ensures var after := Merge(s, initial, other).state;
            && after.tracker == s.tracker
            && Sum(after.sources) + initial == Sum(s.sources) + other
            && (other > initial ==> |after.sources| == |s.sources|
                                    && after.sources[..|s.sources| - 1] == s.sources[..|s.sources| - 1])
            && (other <= initial ==> Pay(s.sources, initial - other) == (after.sources, true))
  {
    PayIsExact(s.sources, if other <= initial then initial - other else 0);
    if other > initial {
      var last := |s.sources| - 1;
      var after := Merge(s, initial, other).state.sources;
      assert s.sources == s.sources[..last] + [s.sources[last]] && after == s.sources[..last] + [after[last]];
      SumConcat(s.sources[..last], [s.sources[last]]);
      SumConcat(s.sources[..last], [after[last]]);
    }
  }

  /** It fails exactly if the loss exceeds the sources or the gain does not fit into the last one. */
  lemma MergeVerdict(s: State, initial: u128, other: u128)
    requires |s.sources| > 0
    ensures Merge(s, initial, other).result.Ok? <==>
              if other <= initial then initial - other <= Sum(s.sources)
              else s.sources[|s.sources| - 1] + (other - initial) <= U128_MAX
  {
    PayIsExact(s.sources, if other <= initial then initial - other else 0);
  }

  /**
   * A user action works on a copy of the total balance, while transfers may change the sources
   * themselves. In the end the difference is taken from the sources as they are then.
   */
  function RunUserAction(p: Policy, s: State, later: seq<u128>, events: seq<Event>): Outcome
    requires |later| > 0
  {
    match CheckedSum(s.sources)
    case Err(e) => Outcome(s, Err(e))
    case Ok(initial) =>
      var inner := Run(p, State(s.tracker, [initial]), events);
      if inner.result.Err? then Outcome(State(s.tracker, later), inner.result)
      else
        var merged := Merge(State(s.tracker, later), initial, inner.state.sources[0]);
        if merged.result.Err? then merged else Outcome(merged.state.(tracker := inner.state.tracker), Ok(()))
  }

  /** On a single account a run takes the total from the balance. */
  lemma SingleAccount(p: Policy, t: Tracker, balance: u128, events: seq<Event>)
    ensures var end := Run(p, State(t, [balance]), events);
            var total := TotalPrice(p, events);
            && (end.result.Ok? <==> CountedAll(p, t, events).Some? && total <= balance)
            && (end.result.Ok? ==>
                  CountedAll(p, t, events) == Some(end.state.tracker) && end.state.sources == [balance - total])
  {
    RunVerdict(p, State(t, [balance]), events);
  }

  /** A user action takes exactly the added cost, in order, from the sources. */
  lemma UserActionVerdict(p: Policy, s: State, later: seq<u128>, events: seq<Event>)
    requires |later| > 0
    ensures var end := RunUserAction(p, s, later, events);
            var total := TotalPrice(p, events);
            && (end.result.Ok? <==>
                  && Sum(s.sources) <= U128_MAX && CountedAll(p, s.tracker, events).Some?
                  && total <= Sum(s.sources) && total <= Sum(later))
            && (end.result.Ok? ==>
                  && CountedAll(p, s.tracker, events) == Some(end.state.tracker)
                  && Pay(later, total) == (end.state.sources, true)
                  && Sum(end.state.sources) + Cost(p, end.state.tracker) == Sum(later) + Cost(p, s.tracker))
  {
    if Sum(s.sources) <= U128_MAX {
      SingleAccount(p, s.tracker, Sum(s.sources), events);
      PayIsExact(later, TotalPrice(p, events));
      if CountedAll(p, s.tracker, events).Some? {
        CountedAllCosts(p, s.tracker, events);
      }
    }
  }

  /** Undisturbed, a user action on the merged balance does what direct charging would do. */
  lemma UserActionRefinesRun(p: Policy, s: State, events: seq<Event>)
    requires |s.sources| > 0 && Sum(s.sources) <= U128_MAX
    ensures RunUserAction(p, s, s.sources, events).result.Ok? <==> Run(p, s, events).result.Ok?
    ensures Run(p, s, events).result.Ok? ==>
              RunUserAction(p, s, s.sources, events).state == Run(p, s, events).state
  {
    UserActionVerdict(p, s, s.sources, events);
    RunVerdict(p, s, events);
    PayIsExact(s.sources, TotalPrice(p, events));
  }

  // ----- Fuel -----

  /** How much fuel a balance can buy. */
  function FuelFor(p: Policy, balance: u128): u64 {
    var affordable := if p.fuelUnit == 0 then U128_MAX else balance / p.fuelUnit;
    if affordable <= U64_MAX then affordable else U64_MAX
  }

  /** The fuel the whole balance can buy, within the limit of the block. */
  function FuelLeft(p: Policy, s: State): u64 {
    var affordable := FuelFor(p, if Sum(s.sources) <= U128_MAX then Sum(s.sources) else U128_MAX);
    var unused := if s.tracker.fuel <= p.maximumFuelPerBlock then p.maximumFuelPerBlock - s.tracker.fuel else 0;
    if affordable < unused then affordable else unused
  }

  lemma FeeGrows(price: nat, a: nat, b: nat)
    requires a <= b
    ensures Fee(price, a) <= Fee(price, b)
  {
    Distribute(price, a, b - a);
  }

  lemma Affordable(price: nat, balance: nat, count: nat)
    requires price > 0
    ensures Fee(price, count) <= balance <==> count <= balance / price
  {
    var q := balance / price;
    assert Fee(price, q) == balance - balance % price;
    Distribute(price, q, 1);
    if count <= q {
      FeeGrows(price, count, q);
    } else {
      FeeGrows(price, q + 1, count);
    }
  }

  /** The remaining fuel is exact: that much can be used and no more. */
  lemma RemainingFuelIsExact(p: Policy, s: State, units: u64)
    ensures Track(p, s, Fuel(units)).result.Ok?
       <==> s.tracker.fuel <= p.maximumFuelPerBlock && units <= FuelLeft(p, s)
  {
    TrackVerdict(p, s, Fuel(units));
    if p.fuelUnit > 0 {
      var balance := if Sum(s.sources) <= U128_MAX then Sum(s.sources) else U128_MAX;
      Affordable(p.fuelUnit, balance, units);
    }
  }

  // ----- The stateful controller -----

  ghost predicate Empty(sources: seq<u128>, n: nat) {
    forall j :: 0 <= j < n && j < |sources| ==> sources[j] == 0
  }

  /** Behind empty sources, the next one pays the rest or gives all it has. */
  lemma {:induction false} PayFrom(sources: seq<u128>, i: nat, fees: nat)
    requires i < |sources| && Empty(sources, i)
    ensures fees <= sources[i] ==> Pay(sources, fees) == (sources[i := sources[i] - fees], true)
    ensures fees > sources[i] ==> Pay(sources, fees) == Pay(sources[i := 0], fees - sources[i])
    decreases i
  {
    if i > 0 {
      var rest := sources[1..];
      assert forall j :: 0 <= j < |rest| ==> rest[j] == sources[j + 1];
      PayFrom(rest, i - 1, fees);
      if fees == 0 {
        PayNothing(sources);
        assert sources[i := sources[i] - 0] == sources;
      } else if fees <= sources[i] {
        assert sources[i := sources[i] - fees] == [0] + rest[i - 1 := rest[i - 1] - fees];
      } else {
        assert sources[i := 0][1..] == rest[i - 1 := 0];
      }
    } else if fees > sources[0] {
      assert sources[0 := 0][1..] == sources[1..];
    } else {
      assert sources[0 := sources[0] - fees] == [sources[0] - fees] + sources[1..];
    }
  }

  lemma {:induction false} PayFromEmpty(sources: seq<u128>, fees: nat)
    requires Empty(sources, |sources|)
    ensures Pay(sources, fees) == (sources, fees == 0)
  {
    if sources != [] {
      PayNothing(sources);
      if fees > 0 {
        PayFromEmpty(sources[1..], fees);
        assert [0] + sources[1..] == sources;
      }
    }
  }

  class ResourceController {
    const policy: Policy
    var tracker: Tracker
    var sources: seq<u128>

    ghost function View(): State
      reads this
    {
      State(tracker, sources)
    }

    constructor (policy: Policy, tracker: Tracker, sources: seq<u128>)
      ensures this.policy == policy && View() == State(tracker, sources)
    {
      this.policy, this.tracker, this.sources := policy, tracker, sources;
    }

    /** Adds up the sources. */
    method Balance() returns (r: Result<u128, ResourceError>)
      ensures r == CheckedSum(sources)
    {
      var amount: u128 := 0;
      var i := 0;
      while i < |sources|
        invariant 0 <= i <= |sources|
        invariant amount == Sum(sources[..i])
      {
        assert sources[..i + 1] == sources[..i] + [sources[i]];
        SumConcat(sources[..i], [sources[i]]);
        if amount + sources[i] > U128_MAX {
          assert sources == sources[..i + 1] + sources[i + 1..];
          SumConcat(sources[..i + 1], sources[i + 1..]);
          return Err(Overflow);
        }
        amount := amount + sources[i];
        i := i + 1;
      }
      assert sources[..i] == sources;
      r := Ok(amount);
    }

    /** Takes an amount from the sources, one after the other. */
    method TrySubAssign(fees: u128) returns (paid: bool)
      modifies this`sources
      ensures (sources, paid) == Pay(old(sources), fees)
    {
      var other := fees;
      var i := 0;
      while i < |sources|
        invariant 0 <= i <= |sources|
        invariant Empty(sources, i)
        invariant Pay(sources, other) == Pay(old(sources), fees)
      {
        if other <= sources[i] {
          PayFrom(sources, i, other);
          sources := sources[i := sources[i] - other];
          return true;
        }
        PayFrom(sources, i, other);
        other := other - sources[i];
        sources := sources[i := 0];
        i := i + 1;
      }
      PayFromEmpty(sources, other);
      paid := other == 0;
    }

    method UpdateBalance(fees: u128) returns (r: Result<(), ResourceError>)
      modifies this`sources
      ensures Outcome(View(), r) == Charge(old(View()), Ok(fees))
    {
      var paid := TrySubAssign(fees);
      r := if paid then Ok(()) else Err(InsufficientFundingForFees);
    }

    /** Subtracts a price that may not be representable. */
    method PayPrice(price: Result<u128, ResourceError>) returns (r: Result<(), ResourceError>)
      modifies this`sources
      ensures Outcome(View(), r) == Charge(old(View()), price)
    {
      if price.Err? {
        return Err(price.error);
      }
      r := UpdateBalance(price.value);
    }

    method TrackGrant(grant: u128) returns (r: Result<(), ResourceError>)
      modifies this
      ensures Outcome(View(), r) == ChargeGrant(old(View()), grant)
      ensures Charged(policy, old(View()), Grant(grant), View(), r)
    {
      TrackVerdict(policy, View(), Grant(grant));
      if tracker.grants + grant > U128_MAX {
        return Err(Overflow);
      }
      tracker := tracker.(grants := tracker.grants + grant);
      r := UpdateBalance(grant);
    }

    method TrackBlock() returns (r: Result<(), ResourceError>)
      modifies this
      ensures Outcome(View(), r) == ChargeBlock(policy, old(View()))
      ensures Charged(policy, old(View()), Block, View(), r)
    {
      TrackVerdict(policy, View(), Block);
      if tracker.blocks + 1 > U32_MAX {
        return Err(Overflow);
      }
      tracker := tracker.(blocks := tracker.blocks + 1);
      r := UpdateBalance(policy.block);
    }

    method TrackOperation(size: Option<u64>) returns (r: Result<(), ResourceError>)
      modifies this
      ensures Outcome(View(), r) == ChargeOperation(policy, old(View()), size)
      ensures Charged(policy, old(View()), Operation(size), View(), r)
    {
      TrackVerdict(policy, View(), Operation(size));
      if tracker.operations + 1 > U32_MAX {
        return Err(Overflow);
      }
      tracker := tracker.(operations := tracker.operations + 1);
      r := UpdateBalance(policy.operation);
      if r.Err? || size.None? {
        return;
      }
      if tracker.operationBytes + size.value > U64_MAX {
        return Err(Overflow);
      }
      tracker := tracker.(operationBytes := tracker.operationBytes + size.value);
      r := PayPrice(TryMul(policy.operationByte, size.value));
    }

    method TrackMessage(size: Option<u64>) returns (r: Result<(), ResourceError>)
      modifies this
      ensures Outcome(View(), r) == ChargeMessage(policy, old(View()), size)
      ensures Charged(policy, old(View()), Message(size), View(), r)
    {
      TrackVerdict(policy, View(), Message(size));
      if tracker.messages + 1 > U32_MAX {
        return Err(Overflow);
      }
      tracker := tracker.(messages := tracker.messages + 1);
      r := UpdateBalance(policy.message);
      if r.Err? || size.None? {
        return;
      }
      if tracker.messageBytes + size.value > U64_MAX {
        return Err(Overflow);
      }
      tracker := tracker.(messageBytes := tracker.messageBytes + size.value);
      r := PayPrice(TryMul(policy.messageByte, size.value));
    }

    method TrackFuel(units: u64) returns (r: Result<(), ResourceError>)
      modifies this
      ensures Outcome(View(), r) == ChargeFuel(policy, old(View()), units)
      ensures Charged(policy, old(View()), Fuel(units), View(), r)
    {
      TrackVerdict(policy, View(), Fuel(units));
      if tracker.fuel + units > U64_MAX {
        return Err(Overflow);
      }
      tracker := tracker.(fuel := tracker.fuel + units);
      if tracker.fuel > policy.maximumFuelPerBlock {
        return Err(MaximumFuelExceeded);
      }
      r := PayPrice(TryMul(policy.fuelUnit, units));
    }

    method TrackReadOperations(count: u32) returns (r: Result<(), ResourceError>)
      modifies this
      ensures Outcome(View(), r) == ChargeReadOperations(policy, old(View()), count)
      ensures Charged(policy, old(View()), ReadOperations(count), View(), r)
    {
      TrackVerdict(policy, View(), ReadOperations(count));
      if tracker.readOperations + count > U32_MAX {
        return Err(Overflow);
      }
      tracker := tracker.(readOperations := tracker.readOperations + count);
      r := PayPrice(TryMul(policy.readOperation, count));
    }

    method TrackWriteOperations(count: u32) returns (r: Result<(), ResourceError>)
      modifies this
      ensures Outcome(View(), r) == ChargeWriteOperations(policy, old(View()), count)
      ensures Charged(policy, old(View()), WriteOperations(count), View(), r)
    {
      TrackVerdict(policy, View(), WriteOperations(count));
      if tracker.writeOperations + count > U32_MAX {
        return Err(Overflow);
      }
      tracker := tracker.(writeOperations := tracker.writeOperations + count);
      r := PayPrice(TryMul(policy.writeOperation, count));
    }

    method TrackBytesRead(count: u64) returns (r: Result<(), ResourceError>)
      modifies this
      ensures Outcome(View(), r) == ChargeBytesRead(policy, old(View()), count)
      ensures Charged(policy, old(View()), BytesRead(count), View(), r)
    {
      TrackVerdict(policy, View(), BytesRead(count));
      if tracker.bytesRead + count > U64_MAX {
        return Err(Overflow);
      }
      tracker := tracker.(bytesRead := tracker.bytesRead + count);
      if tracker.bytesRead >= policy.maximumBytesReadPerBlock {
        return Err(ExcessiveRead);
      }
      r := PayPrice(TryMul(policy.byteRead, count));
    }

    method TrackBytesWritten(count: u64) returns (r: Result<(), ResourceError>)
      modifies this
      ensures Outcome(View(), r) == ChargeBytesWritten(policy, old(View()), count)
      ensures Charged(policy, old(View()), BytesWritten(count), View(), r)
    {
      TrackVerdict(policy, View(), BytesWritten(count));
      if tracker.bytesWritten + count > U64_MAX {
        return Err(Overflow);
      }
      tracker := tracker.(bytesWritten := tracker.bytesWritten + count);
      if tracker.bytesWritten >= policy.maximumBytesWrittenPerBlock {
        return Err(ExcessiveWrite);
      }
      r := PayPrice(TryMul(policy.byteWritten, count));
    }

    /** Gives an amount to the last source. */
    method TryAddAssign(amount: u128) returns (r: Result<(), ResourceError>)
      requires |sources| > 0
      modifies this`sources
      ensures var last := |old(sources)| - 1;
              if old(sources[last]) + amount > U128_MAX then r == Err(Overflow) && sources == old(sources)
              else r == Ok(()) && sources == old(sources)[last := old(sources[last]) + amount]
    {
      var last := |sources| - 1;
      if sources[last] + amount > U128_MAX {
        return Err(Overflow);
      }
      sources := sources[last := sources[last] + amount];
      r := Ok(());
    }

    method MergeBalance(initial: u128, other: u128) returns (r: Result<(), ResourceError>)
      requires |sources| > 0
      modifies this`sources
      ensures Outcome(View(), r) == Merge(old(View()), initial, other)
    {
      if other <= initial {
        r := UpdateBalance(initial - other);
      } else {
        r := TryAddAssign(other - initial);
      }
    }

    method RemainingFuel() returns (units: u64)
      ensures units == FuelLeft(policy, View())
    {
      var total := Balance();
      var affordable := FuelFor(policy, if total.Ok? then total.value else U128_MAX);
      var unused := if tracker.fuel <= policy.maximumFuelPerBlock then policy.maximumFuelPerBlock - tracker.fuel else 0;
      units := if affordable < unused then affordable else unused;
    }
  }
}
