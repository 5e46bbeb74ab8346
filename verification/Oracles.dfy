/** Oracle calls of a contract: recording live answers and replaying recorded ones. */
module Oracles {
  import opened Base

  type Bytes = seq<nat>

  type BlobId = nat

  datatype OracleResponse = Service(bytes: Bytes) | Post(bytes: Bytes) | Assert | Blob(id: BlobId)

  datatype OracleError =
    | UnstableOracle
    | MissingOracleResponse
    | OracleResponseMismatch
    | UnexpectedOracleResponse
    | AssertBeforeFailed
    | LiveFailure
    | BlobNotFound

  /** What a contract may ask; the payload stands for all arguments of the request. */
  datatype Call =
    | QueryService(request: Bytes)
    | HttpPost(request: Bytes)
    | AssertBefore(timestamp: u64)
    | ReadDataBlob(id: BlobId)
    | AssertDataBlobExists(id: BlobId)

  datatype Answer = Content(bytes: Bytes) | Done

  /**
   * What surrounds an execution: the compiled feature, the clock, the storage, and an outside
   * world that may answer every call differently (or fail).
   */
  datatype Environment = Environment(
    unstableOracles: bool,
    localTime: u64,
    blobs: map<BlobId, Bytes>,
    world: (nat, Call) -> Option<Bytes>)

  /** The responses still to be replayed, if any are, and the record so far. */
  datatype Tracker = Tracker(replaying: Option<seq<OracleResponse>>, recorded: seq<OracleResponse>)

  function NewTracker(responses: Option<seq<OracleResponse>>): Tracker {
    Tracker(responses, [])
  }

  function Record(t: Tracker, r: OracleResponse): Tracker {
    t.(recorded := t.recorded + [r])
  }

  function NextReplayed(t: Tracker): (Tracker, Result<Option<OracleResponse>, OracleError>) {
    if t.replaying.None? then (t, Ok(None))
    else if t.replaying.value == [] then (t, Err(MissingOracleResponse))
    else (t.(replaying := Some(t.replaying.value[1..])), Ok(Some(t.replaying.value[0])))
  }

  function Replay(t: Tracker, r: OracleResponse): (Tracker, Result<bool, OracleError>) {
    var next := NextReplayed(t);
    if next.1.Err? then (next.0, Err(next.1.error))
    else if next.1.value.None? then (Record(next.0, r), Ok(false))
    else if next.1.value.value != r then (next.0, Err(OracleResponseMismatch))
    else (Record(next.0, r), Ok(true))
  }

  function Destructure(t: Tracker): Result<seq<OracleResponse>, OracleError> {
    if t.replaying.Some? && t.replaying.value != [] then Err(UnexpectedOracleResponse) else Ok(t.recorded)
  }

  /** A query or a request to the web: taken from the replayed responses, or else from the world. */
  function Fetch(env: Environment, t: Tracker, number: nat, call: Call): (Tracker, Result<Answer, OracleError>)
    requires call.QueryService? || call.HttpPost?
  {
    if !env.unstableOracles then (t, Err(UnstableOracle))
    else
      var next := NextReplayed(t);
      if next.1.Err? then (next.0, Err(next.1.error))
      else
        match next.1.value
        case None =>
          (match env.world(number, call)
           case None => (next.0, Err(LiveFailure))
           case Some(bytes) => (Record(next.0, if call.QueryService? then Service(bytes) else Post(bytes)), Ok(Content(bytes))))
        case Some(Service(bytes)) =>
          if call.QueryService? then (Record(next.0, Service(bytes)), Ok(Content(bytes)))
          else (next.0, Err(OracleResponseMismatch))
        case Some(Post(bytes)) =>
          if call.HttpPost? then (Record(next.0, Post(bytes)), Ok(Content(bytes)))
          else (next.0, Err(OracleResponseMismatch))
        case Some(_) => (next.0, Err(OracleResponseMismatch))
  }

  /** The effect of the given call, which is the contract's call of that number. */
  function Ask(env: Environment, t: Tracker, number: nat, call: Call): (Tracker, Result<Answer, OracleError>) {
    match call
    case QueryService(_) => Fetch(env, t, number, call)
    case HttpPost(_) => Fetch(env, t, number, call)
    case AssertBefore(timestamp) =>
      var replay := Replay(t, Assert);
      if replay.1.Err? then (replay.0, Err(replay.1.error))
      else if !replay.1.value && env.localTime >= timestamp then (replay.0, Err(AssertBeforeFailed))
      else (replay.0, Ok(Done))
    case ReadDataBlob(id) =>
      var replay := Replay(t, Blob(id));
      if replay.1.Err? then (replay.0, Err(replay.1.error))
      else if id !in env.blobs then (replay.0, Err(BlobNotFound))
      else (replay.0, Ok(Content(env.blobs[id])))
    case AssertDataBlobExists(id) =>
      var replay := Replay(t, Blob(id));
      if replay.1.Err? then (replay.0, Err(replay.1.error))
      else if id !in env.blobs then (replay.0, Err(BlobNotFound))
      else (replay.0, Ok(Done))
  }

  /** What a live call answers: the clock, the storage or the world decides. */
  lemma LiveAnswer(env: Environment, t: Tracker, number: nat, call: Call)
    requires t.replaying.None?
    ensures var r := Ask(env, t, number, call).1;
            match call
            case AssertBefore(timestamp) =>
              r == if env.localTime < timestamp then Ok(Done) else Err(AssertBeforeFailed)
            case ReadDataBlob(id) =>
              r == if id in env.blobs then Ok(Content(env.blobs[id])) else Err(BlobNotFound)
            case AssertDataBlobExists(id) =>
              r == if id in env.blobs then Ok(Done) else Err(BlobNotFound)
            case _ =>
              r == if !env.unstableOracles then Err(UnstableOracle)
                   else if env.world(number, call).None? then Err(LiveFailure)
                   else Ok(Content(env.world(number, call).value))
  {
  }

  /** What a live success records: the kind of oracle, with the answer or the blob it is about. */
  lemma LiveRecord(env: Environment, t: Tracker, number: nat, call: Call)
    requires t.replaying.None? && Ask(env, t, number, call).1.Ok?
    ensures var answer := Ask(env, t, number, call).1.value;
            Ask(env, t, number, call).0.recorded == t.recorded + [
              match call
              case QueryService(_) => Service(answer.bytes)
              case HttpPost(_) => Post(answer.bytes)
              case AssertBefore(_) => Assert
              case ReadDataBlob(id) => Blob(id)
              case AssertDataBlobExists(id) => Blob(id)]
  {
  }

  /** A replayed call fails if the list is at its end or its next response is of another kind or blob. */
  lemma ReplayRefuses(env: Environment, t: Tracker, number: nat, call: Call)
    requires t.replaying.Some? && env.unstableOracles
    ensures var r := Ask(env, t, number, call).1;
            var list := t.replaying.value;
            && (list == [] ==> r == Err(MissingOracleResponse))
            && (list != [] ==>
                  match call
                  case QueryService(_) => r == if list[0].Service? then Ok(Content(list[0].bytes)) else Err(OracleResponseMismatch)
                  case HttpPost(_) => r == if list[0].Post? then Ok(Content(list[0].bytes)) else Err(OracleResponseMismatch)
                  case AssertBefore(_) => r == if list[0] == Assert then Ok(Done) else Err(OracleResponseMismatch)
                  case ReadDataBlob(id) => r == Err(OracleResponseMismatch) <==> list[0] != Blob(id)
                  case AssertDataBlobExists(id) => r == Err(OracleResponseMismatch) <==> list[0] != Blob(id))
  {
  }

  // ----- Whole executions -----

  /** A deterministic contract: its next move depends only on the answers it got. */
  datatype Move = Continue(call: Call) | Finish

  type Contract = seq<Answer> -> Move

  datatype Status =
    | Finished(tracker: Tracker, answers: seq<Answer>)
    | Failed(error: OracleError)
    | Unfinished

  /** Executes a contract for at most n more oracle calls. */
  function Execute(contract: Contract, env: Environment, t: Tracker, answers: seq<Answer>, n: nat): Status
    decreases n
  {
    match contract(answers)
    case Finish => Finished(t, answers)
    case Continue(call) =>
      if n == 0 then Unfinished
      else
        var asked := Ask(env, t, |answers|, call);
        match asked.1
        case Err(e) => Failed(e)
        case Ok(answer) => Execute(contract, env, asked.0, answers + [answer], n - 1)
  }

  /** One response more is recorded; in replay it is the one at the front of the list, which is consumed. */
  ghost predicate OneResponse(before: Tracker, after: Tracker) {
    && |after.recorded| == |before.recorded| + 1 && before.recorded <= after.recorded
    && match before.replaying
       case None => after.replaying == None
       case Some(list) =>
         list != [] && after.replaying == Some(list[1..]) && after.recorded[|before.recorded|] == list[0]
  }

  /** A call that succeeds in replay consumes one response and records that same response. */
  lemma AskConsumes(env: Environment, t: Tracker, number: nat, call: Call)
    requires t.replaying.Some? && Ask(env, t, number, call).1.Ok?
    ensures var after := Ask(env, t, number, call).0;
            && t.replaying.value != []
            && after == Tracker(Some(t.replaying.value[1..]), t.recorded + [t.replaying.value[0]])
  {
  }

  /** A live call adds one response to the record. */
  lemma AskRecords(env: Environment, t: Tracker, number: nat, call: Call)
    requires t.replaying.None? && Ask(env, t, number, call).1.Ok?
    ensures var after := Ask(env, t, number, call).0;
            after.replaying.None? && |after.recorded| == |t.recorded| + 1 && t.recorded <= after.recorded
  {
  }

  /** In replay, the record and the responses still to come always make up the given list. */
  lemma {:induction false} ReplayKeepsList(contract: Contract, env: Environment, t: Tracker, answers: seq<Answer>, n: nat)
    requires t.replaying.Some?
    ensures var end := Execute(contract, env, t, answers, n);
            end.Finished? ==>
              && end.tracker.replaying.Some?
              && end.tracker.recorded + end.tracker.replaying.value == t.recorded + t.replaying.value
    decreases n
  {
    if contract(answers).Continue? && n > 0 {
      var asked := Ask(env, t, |answers|, contract(answers).call);
      if asked.1.Ok? {
        AskConsumes(env, t, |answers|, contract(answers).call);
        assert t.recorded + [t.replaying.value[0]] + t.replaying.value[1..] == t.recorded + t.replaying.value;
        ReplayKeepsList(contract, env, asked.0, answers + [asked.1.value], n - 1);
      }
    }
  }

  /** A replayed transaction that succeeds records exactly the list it was given. */
  lemma ReplayRecordsList(contract: Contract, env: Environment, list: seq<OracleResponse>, n: nat,
                          record: seq<OracleResponse>)
    requires Execute(contract, env, NewTracker(Some(list)), [], n).Finished?
    requires Destructure(Execute(contract, env, NewTracker(Some(list)), [], n).tracker) == Ok(record)
    ensures record == list
  {
    ReplayKeepsList(contract, env, NewTracker(Some(list)), [], n);
    assert [] + list == list && record + [] == record;
  }

  lemma {:induction false} RecordGrows(contract: Contract, env: Environment, t: Tracker, answers: seq<Answer>, n: nat)
    requires t.replaying.None?
    ensures var end := Execute(contract, env, t, answers, n);
            end.Finished? ==> end.tracker.replaying.None? && t.recorded <= end.tracker.recorded
    decreases n
  {
    if contract(answers).Continue? && n > 0 {
      var asked := Ask(env, t, |answers|, contract(answers).call);
      if asked.1.Ok? {
        AskRecords(env, t, |answers|, contract(answers).call);
        RecordGrows(contract, env, asked.0, answers + [asked.1.value], n - 1);
      }
    }
  }

  /** What a later environment must provide for a recorded response: the feature, or the same readable blob. */
  ghost predicate Answerable(live: Environment, later: Environment, r: OracleResponse) {
    match r
    case Service(_) => later.unstableOracles
    case Post(_) => later.unstableOracles
    case Assert => true
    case Blob(id) => id in live.blobs ==> id in later.blobs && later.blobs[id] == live.blobs[id]
  }

  ghost predicate AllAnswerable(live: Environment, later: Environment, responses: seq<OracleResponse>) {
    forall k :: 0 <= k < |responses| ==> Answerable(live, later, responses[k])
  }

  /** Offered the response that the live call recorded, a replayed call gives the same answer. */
  lemma AskAgain(live: Environment, later: Environment, number: nat, call: Call, t: Tracker,
                 rest: seq<OracleResponse>)
    requires t.replaying.None? && Ask(live, t, number, call).1.Ok?
    requires var after := Ask(live, t, number, call).0;
             |t.recorded| < |after.recorded| ==> Answerable(live, later, after.recorded[|t.recorded|])
    ensures var after := Ask(live, t, number, call).0;
            var response := after.recorded[|t.recorded|];
            && Ask(later, Tracker(Some([response] + rest), t.recorded), number, call)
               == (Tracker(Some(rest), after.recorded), Ask(live, t, number, call).1)
  {
    AskRecords(live, t, number, call);
    var response := Ask(live, t, number, call).0.recorded[|t.recorded|];
    assert ([response] + rest)[1..] == rest;
  }

  lemma {:induction false} ReplayFollowsLive(contract: Contract, live: Environment, later: Environment, t: Tracker,
                                             answers: seq<Answer>, n: nat, end: Status)
    requires end.Finished? && AllAnswerable(live, later, end.tracker.recorded)
    requires t.replaying.None? && Execute(contract, live, t, answers, n) == end
    requires t.recorded <= end.tracker.recorded
    ensures Execute(contract, later, Tracker(Some(end.tracker.recorded[|t.recorded|..]), t.recorded), answers, n)
         == Finished(Tracker(Some([]), end.tracker.recorded), end.answers)
    decreases n
  {
    if contract(answers).Continue? {
      var call := contract(answers).call;
      var asked := Ask(live, t, |answers|, call);
      AskRecords(live, t, |answers|, call);
      RecordGrows(contract, live, asked.0, answers + [asked.1.value], n - 1);
      var record, k := end.tracker.recorded, |t.recorded|;
      assert record[k] == asked.0.recorded[k] && record[k..] == [record[k]] + record[k + 1..];
      AskAgain(live, later, |answers|, call, t, record[k + 1..]);
      ReplayFollowsLive(contract, live, later, asked.0, answers + [asked.1.value], n - 1, end);
    } else {
      assert end.tracker.recorded[|t.recorded|..] == [];
    }
  }

  /**
   * Replaying the record of a live execution, at any later time and in any other world, gives
   * the contract the same answers and ends with the same record, provided that the recorded
   * blobs can still be read and that the feature is there if unstable oracles were used.
   */
  lemma ReplayReproduces(contract: Contract, live: Environment, later: Environment, n: nat)
    requires Execute(contract, live, NewTracker(None), [], n).Finished?
    requires AllAnswerable(live, later, Execute(contract, live, NewTracker(None), [], n).tracker.recorded)
    ensures var first := Execute(contract, live, NewTracker(None), [], n);
            var again := Execute(contract, later, NewTracker(Some(first.tracker.recorded)), [], n);
            && Destructure(first.tracker) == Ok(first.tracker.recorded)
            && again.Finished? && again.answers == first.answers
            && Destructure(again.tracker) == Ok(first.tracker.recorded)
  {
    var first := Execute(contract, live, NewTracker(None), [], n);
    RecordGrows(contract, live, NewTracker(None), [], n);
    assert first.tracker.recorded[0..] == first.tracker.recorded;
    ReplayFollowsLive(contract, live, later, NewTracker(None), [], n, first);
  }

  // ----- The stateful operations -----

  class TransactionTracker {
    var replaying: Option<seq<OracleResponse>>
    var recorded: seq<OracleResponse>

    ghost function View(): Tracker
      reads this
    {
      Tracker(replaying, recorded)
    }

    constructor (responses: Option<seq<OracleResponse>>)
      ensures View() == NewTracker(responses)
    {
      replaying, recorded := responses, [];
    }

    method AddOracleResponse(r: OracleResponse)
      modifies this`recorded
      ensures View() == Record(old(View()), r)
    {
      recorded := recorded + [r];
    }

    method NextReplayedOracleResponse() returns (r: Result<Option<OracleResponse>, OracleError>)
      modifies this`replaying
      ensures (View(), r) == NextReplayed(old(View()))
    {
      if replaying.None? {
        return Ok(None);
      }
      if replaying.value == [] {
        return Err(MissingOracleResponse);
      }
      r := Ok(Some(replaying.value[0]));
      replaying := Some(replaying.value[1..]);
    }

    method ReplayOracleResponse(response: OracleResponse) returns (r: Result<bool, OracleError>)
      modifies this
      ensures (View(), r) == Replay(old(View()), response)
    {
      var next := NextReplayedOracleResponse();
      if next.Err? {
        return Err(next.error);
      }
      if next.value.Some? && next.value.value != response {
        return Err(OracleResponseMismatch);
      }
      AddOracleResponse(response);
      r := Ok(next.value.Some?);
    }
  }

  /** The oracle calls of a running contract. */
  class ContractRuntime {
    const env: Environment
    const tracker: TransactionTracker

    constructor (env: Environment, tracker: TransactionTracker)
      ensures this.env == env && this.tracker == tracker
    {
      this.env, this.tracker := env, tracker;
    }

    method QueryService(number: nat, request: Bytes) returns (r: Result<Answer, OracleError>)
      modifies tracker
      ensures (tracker.View(), r) == Ask(env, old(tracker.View()), number, Call.QueryService(request))
      ensures r.Ok? ==> OneResponse(old(tracker.View()), tracker.View())
    {
      if !env.unstableOracles {
        return Err(UnstableOracle);
      }
      var next := tracker.NextReplayedOracleResponse();
      if next.Err? {
        return Err(next.error);
      }
      var bytes: Bytes;
      if next.value.Some? {
        if !next.value.value.Service? {
          return Err(OracleResponseMismatch);
        }
        bytes := next.value.value.bytes;
      } else {
        var live := env.world(number, Call.QueryService(request));
        if live.None? {
          return Err(LiveFailure);
        }
        bytes := live.value;
      }
      tracker.AddOracleResponse(Service(bytes));
      r := Ok(Content(bytes));
    }

    method HttpPost(number: nat, request: Bytes) returns (r: Result<Answer, OracleError>)
      modifies tracker
      ensures (tracker.View(), r) == Ask(env, old(tracker.View()), number, Call.HttpPost(request))
      ensures r.Ok? ==> OneResponse(old(tracker.View()), tracker.View())
    {
      if !env.unstableOracles {
        return Err(UnstableOracle);
      }
      var next := tracker.NextReplayedOracleResponse();
      if next.Err? {
        return Err(next.error);
      }
      var bytes: Bytes;
      if next.value.Some? {
        if !next.value.value.Post? {
          return Err(OracleResponseMismatch);
        }
        bytes := next.value.value.bytes;
      } else {
        var live := env.world(number, Call.HttpPost(request));
        if live.None? {
          return Err(LiveFailure);
        }
        bytes := live.value;
      }
      tracker.AddOracleResponse(Post(bytes));
      r := Ok(Content(bytes));
    }

    method AssertBefore(number: nat, timestamp: u64) returns (r: Result<Answer, OracleError>)
      modifies tracker
      ensures (tracker.View(), r) == Ask(env, old(tracker.View()), number, Call.AssertBefore(timestamp))
      ensures r.Ok? ==> OneResponse(old(tracker.View()), tracker.View())
    {
      var replayed := tracker.ReplayOracleResponse(Assert);
      if replayed.Err? {
        return Err(replayed.error);
      }
      if !replayed.value && env.localTime >= timestamp {
        return Err(AssertBeforeFailed);
      }
      r := Ok(Done);
    }

    method ReadDataBlob(number: nat, id: BlobId) returns (r: Result<Answer, OracleError>)
      modifies tracker
      ensures (tracker.View(), r) == Ask(env, old(tracker.View()), number, Call.ReadDataBlob(id))
      ensures r.Ok? ==> OneResponse(old(tracker.View()), tracker.View())
    {
      var replayed := tracker.ReplayOracleResponse(Blob(id));
      if replayed.Err? {
        return Err(replayed.error);
      }
      if id !in env.blobs {
        return Err(BlobNotFound);
      }
      r := Ok(Content(env.blobs[id]));
    }

    method AssertDataBlobExists(number: nat, id: BlobId) returns (r: Result<Answer, OracleError>)
      modifies tracker
      ensures (tracker.View(), r) == Ask(env, old(tracker.View()), number, Call.AssertDataBlobExists(id))
      ensures r.Ok? ==> OneResponse(old(tracker.View()), tracker.View())
    {
      var replayed := tracker.ReplayOracleResponse(Blob(id));
      if replayed.Err? {
        return Err(replayed.error);
      }
      if id !in env.blobs {
        return Err(BlobNotFound);
      }
      r := Ok(Done);
    }
  }
}
