/**
 The consensus state that a chain keeps for its next block height.

 The voting rules are written once as functions on the state (`CheckProposedBlock`, `CreateVote`, ...);
 the class `ChainManager` updates its fields in place and is proved against them. Hashes are taken to be
 injective, so a certified value stands for its hash. The signatures of proposals, the blobs and the
 timeout votes are not part of the state.
 */
module Manager {
  import opened Base
  import opened Rounds
  import opened Committees

  datatype Block = Block(height: u64, content: nat)

  datatype ExecutedBlock = ExecutedBlock(block: Block, outcome: nat)

  datatype Value =
    | ValidatedBlock(executedBlock: ExecutedBlock)
    | ConfirmedBlock(executedBlock: ExecutedBlock)
    | Timeout(height: u64)

  datatype Vote = Vote(value: Value, round: Round)

  datatype Certificate = Certificate(value: Value, round: Round, signers: set<ValidatorName>)

  datatype ProposalContent = ProposalContent(block: Block, round: Round, forcedOracleResponses: Option<nat>)

  datatype BlockProposal = BlockProposal(
    content: ProposalContent,
    owner: Owner,
    validatedBlockCertificate: Option<Certificate>)

  datatype Outcome = Accept | Skip

  datatype ChainError =
    | InvalidBlockHeight
    | ArithmeticOverflow
    | InsufficientRound(round: Round)
    | WrongRound(round: Round)
    | InsufficientRoundStrict(round: Round)
    | HasLockedBlock(height: u64, round: Round)
    | PendingTimeout

  datatype State = State(
    proposed: Option<BlockProposal>,
    locked: Option<Certificate>,
    timeout: Option<Certificate>,
    pending: Option<Vote>,
    roundTimeout: Option<u64>,
    currentRound: Round)

  function HeightOf(v: Value): u64 {
    match v
    case ValidatedBlock(b) => b.block.height
    case ConfirmedBlock(b) => b.block.height
    case Timeout(h) => h
  }

  function Deadline(o: ChainOwnership, r: Round, localTime: u64): Option<u64> {
    match o.RoundTimeout(r)
    case Some(duration) => Some(SaturatingAdd64(localTime, duration))
    case None => None
  }

  function NewState(o: ChainOwnership, localTime: u64): State {
    State(None, None, None, None, Deadline(o, o.FirstRound(), localTime), o.FirstRound())
  }

  // ---- Voting rules ----

  /** The lowest round in which a proposal is acceptable, if there is one. */
  function ExpectedRound(o: ChainOwnership, s: State, p: BlockProposal): Option<Round> {
    match p.validatedBlockCertificate
    case None => Some(s.currentRound)
    case Some(cert) =>
      match o.NextRound(cert.round)
      case None => None
      case Some(next) => Some(MaxRound(next, s.currentRound))
  }

  /** Rounds up to the first single-leader round may be entered early, and super owners may always do so. */
  predicate MayEnterEarly(o: ChainOwnership, p: BlockProposal, expected: Round) {
    p.owner in o.superOwners || (Rank(p.content.round) <= Rank(SingleLeader(0)) && !expected.Fast?)
  }

  function CheckProposedBlock(o: ChainOwnership, s: State, p: BlockProposal): Result<Outcome, ChainError> {
    var newRound := p.content.round;
    if p.content.block.height >= U64_MAX then Err(InvalidBlockHeight) else
    match ExpectedRound(o, s, p)
    case None => Err(ArithmeticOverflow)
    case Some(expected) =>
      if MayEnterEarly(o, p, expected) && Rank(newRound) < Rank(expected) then Err(InsufficientRound(expected))
      else if !MayEnterEarly(o, p, expected) && newRound != expected then Err(WrongRound(expected))
      else if s.proposed.Some? && s.proposed.value.content == p.content then Ok(Skip)
      else if s.proposed.Some? && Rank(newRound) <= Rank(s.proposed.value.content.round) then
        Err(InsufficientRoundStrict(s.proposed.value.content.round))
      else if s.proposed.Some? && s.proposed.value.content.round.Fast? && p.validatedBlockCertificate.None?
              && s.proposed.value.content.block != p.content.block then
        Err(HasLockedBlock(p.content.block.height, Fast))
      else if s.locked.Some? && !(p.validatedBlockCertificate.Some?
                                  && Rank(s.locked.value.round) <= Rank(p.validatedBlockCertificate.value.round)) then
        Err(HasLockedBlock(HeightOf(s.locked.value.value), s.locked.value.round))
      else Ok(Accept)
  }

  function BlockOf(v: Value): Option<Block> {
    if v.Timeout? then None else Some(v.executedBlock.block)
  }

  function CheckValidatedBlock(s: State, c: Certificate): Result<Outcome, ChainError> {
    if s.pending.Some? && s.pending.value.value.Timeout? then Err(PendingTimeout)
    else if s.pending.Some? && s.pending.value.value.ConfirmedBlock?
            && BlockOf(c.value) == BlockOf(s.pending.value.value) && s.pending.value.round == c.round then Ok(Skip)
    else if s.pending.Some? && s.pending.value.value.ValidatedBlock?
            && Rank(c.round) < Rank(s.pending.value.round) then Err(InsufficientRound(s.pending.value.round))
    else if s.locked.Some? && s.locked.value.value == c.value && s.locked.value.round == c.round then Ok(Skip)
    else if s.locked.Some? && Rank(c.round) <= Rank(s.locked.value.round) then
      Err(InsufficientRoundStrict(s.locked.value.round))
    else Ok(Accept)
  }

  // ---- State changes ----

  function ProposedRound(s: State, otherwise: Round): Round {
    if s.proposed.Some? then MaxRound(otherwise, s.proposed.value.content.round) else otherwise
  }

  function LockedRound(s: State, otherwise: Round): Round {
    if s.locked.Some? then MaxRound(otherwise, s.locked.value.round) else otherwise
  }

  function TimeoutRound(o: ChainOwnership, s: State, otherwise: Round): Round {
    if s.timeout.Some? then MaxRound(otherwise, o.RoundAfterTimeout(s.timeout.value.round)) else otherwise
  }

  /** The maximum of the first round, the proposed and locked rounds and the successor of the timeout round. */
  function KnownRound(o: ChainOwnership, s: State): Round {
    ProposedRound(s, LockedRound(s, TimeoutRound(o, s, o.FirstRound())))
  }

  function UpdateCurrentRound(o: ChainOwnership, s: State, localTime: u64): State {
    var round := KnownRound(o, s);
    if Rank(round) <= Rank(s.currentRound) then s
    else s.(currentRound := round, roundTimeout := Deadline(o, round, localTime))
  }

  /** Updating the round touches nothing else that a vote depends on. */
  lemma UpdateKeeps(o: ChainOwnership, s: State, localTime: u64)
    ensures var t := UpdateCurrentRound(o, s, localTime);
            t.proposed == s.proposed && t.locked == s.locked && t.timeout == s.timeout && t.pending == s.pending
  {
  }

  /** The vote cast for an accepted proposal: fast blocks are confirmed at once. */
  function ProposalVote(p: BlockProposal, outcome: nat): Vote {
    var executed := ExecutedBlock(p.content.block, outcome);
    Vote(if p.content.round.Fast? then ConfirmedBlock(executed) else ValidatedBlock(executed), p.content.round)
  }

  /** The lock after accepting a proposal: a newer certificate for the executed block replaces it. */
  function LockFromProposal(s: State, p: BlockProposal, outcome: nat): Option<Certificate> {
    match p.validatedBlockCertificate
    case None => s.locked
    case Some(cert) =>
      if (s.locked.None? || Rank(s.locked.value.round) < Rank(cert.round))
         && cert.value == ValidatedBlock(ExecutedBlock(p.content.block, outcome))
      then Some(cert) else s.locked
  }

  function CreateVote(o: ChainOwnership, s: State, p: BlockProposal, outcome: nat, hasKey: bool, localTime: u64): State {
    var updated := UpdateCurrentRound(o, s.(proposed := Some(p)), localTime);
    updated.(locked := LockFromProposal(updated, p, outcome),
             pending := if hasKey then Some(ProposalVote(p, outcome)) else updated.pending)
  }

  function CreateFinalVote(o: ChainOwnership, s: State, c: Certificate, hasKey: bool, localTime: u64): State {
    if hasKey && Rank(c.round) < Rank(s.currentRound) then s
    else if !c.value.ValidatedBlock? then s
    else
      var updated := UpdateCurrentRound(o, s.(locked := Some(c)), localTime);
      if hasKey then updated.(pending := Some(Vote(ConfirmedBlock(c.value.executedBlock), c.round))) else updated
  }

  function HandleTimeoutCertificate(o: ChainOwnership, s: State, c: Certificate, localTime: u64): State {
    if !c.value.Timeout? then s
    else if s.timeout.Some? && Rank(s.timeout.value.round) >= Rank(c.round) then s
    else UpdateCurrentRound(o, s.(timeout := Some(c)), localTime)
  }

  // ---- The manager object ----

  class ChainManager {
    const ownership: ChainOwnership
    var proposed: Option<BlockProposal>
    var locked: Option<Certificate>
    var timeout: Option<Certificate>
    var pending: Option<Vote>
    var roundTimeout: Option<u64>
    var currentRound: Round

    function View(): State
      reads this
    {
      State(proposed, locked, timeout, pending, roundTimeout, currentRound)
    }

    constructor (ownership: ChainOwnership, localTime: u64)
      ensures this.ownership == ownership && View() == NewState(ownership, localTime)
      ensures Tracked(ownership, View())
    {
      this.ownership := ownership;
      proposed, locked, timeout, pending := None, None, None, None;
      roundTimeout := Deadline(ownership, ownership.FirstRound(), localTime);
      currentRound := ownership.FirstRound();
    }

    /** Recomputes the current round by folding over everything that can start a round. */
    method UpdateRound(localTime: u64)
      modifies this`currentRound, this`roundTimeout
      ensures View() == UpdateCurrentRound(ownership, old(View()), localTime)
    {
      var round := ownership.FirstRound();
      if timeout.Some? {
        round := MaxRound(round, ownership.RoundAfterTimeout(timeout.value.round));
      }
      if locked.Some? {
        round := MaxRound(round, locked.value.round);
      }
      if proposed.Some? {
        round := MaxRound(round, proposed.value.content.round);
      }
      if Rank(round) <= Rank(currentRound) {
        return;
      }
      roundTimeout := Deadline(ownership, round, localTime);
      currentRound := round;
    }

    /** Records a proposal that passed `CheckProposedBlock` and signs a vote for it. */
    method Propose(p: BlockProposal, outcome: nat, hasKey: bool, localTime: u64)
      modifies this
      ensures View() == CreateVote(ownership, old(View()), p, outcome, hasKey, localTime)
      ensures old(Tracked(ownership, View())) && CheckProposedBlock(ownership, old(View()), p) == Ok(Accept)
              ==> Tracked(ownership, View()) && currentRound == p.content.round && Rank(old(currentRound)) <= Rank(currentRound)
    {
      ghost var before := View();
      if Tracked(ownership, before) && CheckProposedBlock(ownership, before, p) == Ok(Accept) {
        CreateVoteTracks(ownership, before, p, outcome, hasKey, localTime);
      }
      proposed := Some(p);
      UpdateRound(localTime);
      var executed := ExecutedBlock(p.content.block, outcome);
      if p.validatedBlockCertificate.Some? {
        var cert := p.validatedBlockCertificate.value;
        if locked.None? || Rank(locked.value.round) < Rank(cert.round) {
          if cert.value == ValidatedBlock(executed) {
            locked := Some(cert);
          }
        }
      }
      if hasKey {
        pending := Some(Vote(if p.content.round.Fast? then ConfirmedBlock(executed) else ValidatedBlock(executed),
                             p.content.round));
      }
    }

    /** Locks a validated block that passed `CheckValidatedBlock` and signs a vote to confirm it. */
    method Confirm(c: Certificate, hasKey: bool, localTime: u64)
      modifies this
      ensures View() == CreateFinalVote(ownership, old(View()), c, hasKey, localTime)
      ensures old(Tracked(ownership, View())) && CheckValidatedBlock(old(View()), c) == Ok(Accept)
              ==> Tracked(ownership, View()) && Rank(old(currentRound)) <= Rank(currentRound)
    {
      ghost var before := View();
      if Tracked(ownership, before) && CheckValidatedBlock(before, c) == Ok(Accept) {
        CreateFinalVoteTracks(ownership, before, c, hasKey, localTime);
      }
      if hasKey && Rank(c.round) < Rank(currentRound) {
        return;
      }
      if !c.value.ValidatedBlock? {
        return;
      }
      locked := Some(c);
      UpdateRound(localTime);
      if hasKey {
        pending := Some(Vote(ConfirmedBlock(c.value.executedBlock), c.round));
      }
    }

    /** Remembers the timeout certificate of the highest round and starts the round after it. */
    method HandleTimeout(c: Certificate, localTime: u64)
      modifies this
      ensures View() == HandleTimeoutCertificate(ownership, old(View()), c, localTime)
      ensures old(Tracked(ownership, View())) ==> Tracked(ownership, View()) && Rank(old(currentRound)) <= Rank(currentRound)
    {
      ghost var before := View();
      if Tracked(ownership, before) {
        HandleTimeoutTracks(ownership, before, c, localTime);
      }
      if !c.value.Timeout? {
        return;
      }
      if timeout.Some? && Rank(timeout.value.round) >= Rank(c.round) {
        return;
      }
      timeout := Some(c);
      UpdateRound(localTime);
    }
  }

  // ---- Round tracking ----

  /** The current round is exactly the highest round known, and it has a deadline iff it has a duration. */
  ghost predicate Tracked(o: ChainOwnership, s: State) {
    && s.currentRound == KnownRound(o, s)
    && (s.roundTimeout.Some? <==> o.RoundTimeout(s.currentRound).Some?)
  }

  /** Raising what is known and then updating restores `Tracked` and never lowers the round. */
  lemma UpdateTracks(o: ChainOwnership, s: State, raised: State, localTime: u64)
    requires Tracked(o, s)
    requires raised.currentRound == s.currentRound && raised.roundTimeout == s.roundTimeout
    requires Rank(KnownRound(o, s)) <= Rank(KnownRound(o, raised))
    ensures var t := UpdateCurrentRound(o, raised, localTime);
            Tracked(o, t) && t.currentRound == KnownRound(o, raised) && Rank(s.currentRound) <= Rank(t.currentRound)
  {
    RankIsDerivedOrder(s.currentRound, KnownRound(o, raised));
  }

  /** An accepted proposal lies in or after the current round, and after any certificate it carries. */
  lemma AcceptedProposalRound(o: ChainOwnership, s: State, p: BlockProposal)
    requires CheckProposedBlock(o, s, p) == Ok(Accept)
    ensures Rank(s.currentRound) <= Rank(p.content.round)
    ensures p.validatedBlockCertificate.Some? ==> Rank(p.validatedBlockCertificate.value.round) < Rank(p.content.round)
    ensures s.proposed.Some? ==> Rank(s.proposed.value.content.round) < Rank(p.content.round)
  {
    if p.validatedBlockCertificate.Some? {
      NextRoundIncreases(o, p.validatedBlockCertificate.value.round);
    }
  }

  /** Although the lock changes after the round is updated, the round stays exact: it is the proposal's. */
  lemma CreateVoteTracks(o: ChainOwnership, s: State, p: BlockProposal, outcome: nat, hasKey: bool, localTime: u64)
    requires Tracked(o, s) && CheckProposedBlock(o, s, p) == Ok(Accept)
    ensures var t := CreateVote(o, s, p, outcome, hasKey, localTime);
            Tracked(o, t) && t.currentRound == p.content.round && Rank(s.currentRound) <= Rank(t.currentRound)
  {
    AcceptedProposalRound(o, s, p);
    var raised := s.(proposed := Some(p));
    LatestProposalIsKnown(o, s, raised);
    UpdateTracks(o, s, raised, localTime);
    var updated := UpdateCurrentRound(o, raised, localTime);
    LatestProposalIsKnown(o, s, updated.(locked := LockFromProposal(updated, p, outcome)));
  }

  /** A proposed round at or above everything else known is the known round, whatever older lock joins it. */
  lemma LatestProposalIsKnown(o: ChainOwnership, s: State, raised: State)
    requires raised.proposed.Some? && raised.timeout == s.timeout
    requires Rank(KnownRound(o, s)) <= Rank(raised.proposed.value.content.round)
    requires raised.locked != s.locked ==>
               raised.locked.Some? && Rank(raised.locked.value.round) < Rank(raised.proposed.value.content.round)
    ensures KnownRound(o, raised) == raised.proposed.value.content.round
  {
    var round := raised.proposed.value.content.round;
    var others := LockedRound(raised, TimeoutRound(o, s, o.FirstRound()));
    assert Rank(TimeoutRound(o, s, o.FirstRound())) <= Rank(round);
    assert Rank(others) <= Rank(round);
    RankIsDerivedOrder(others, round);
  }

  lemma CreateFinalVoteTracks(o: ChainOwnership, s: State, c: Certificate, hasKey: bool, localTime: u64)
    requires Tracked(o, s) && CheckValidatedBlock(s, c) == Ok(Accept)
    ensures var t := CreateFinalVote(o, s, c, hasKey, localTime);
            Tracked(o, t) && Rank(s.currentRound) <= Rank(t.currentRound)
  {
    UpdateTracks(o, s, s.(locked := Some(c)), localTime);
  }

  lemma HandleTimeoutTracks(o: ChainOwnership, s: State, c: Certificate, localTime: u64)
    requires Tracked(o, s)
    ensures var t := HandleTimeoutCertificate(o, s, c, localTime);
            Tracked(o, t) && Rank(s.currentRound) <= Rank(t.currentRound)
  {
    var raised := s.(timeout := Some(c));
    if HandleTimeoutCertificate(o, s, c, localTime) != s {
      if s.timeout.Some? {
        RoundAfterTimeoutMonotone(o, s.timeout.value.round, c.round);
      }
      LaterTimeoutRaises(o, s, raised);
      UpdateTracks(o, s, raised, localTime);
    }
  }

  lemma LaterTimeoutRaises(o: ChainOwnership, s: State, raised: State)
    requires raised.timeout.Some? && raised == s.(timeout := raised.timeout)
    requires s.timeout.Some? ==>
               Rank(o.RoundAfterTimeout(s.timeout.value.round)) <= Rank(o.RoundAfterTimeout(raised.timeout.value.round))
    ensures Rank(KnownRound(o, s)) <= Rank(KnownRound(o, raised))
  {
    assert Rank(TimeoutRound(o, s, o.FirstRound())) <= Rank(TimeoutRound(o, raised, o.FirstRound()));
  }

  // ---- Runs of one manager ----

  datatype Input =
    | Proposed(proposal: BlockProposal, outcome: nat, localTime: u64)
    | Validated(certificate: Certificate, localTime: u64)
    | TimedOut(certificate: Certificate, localTime: u64)

  /** One request: the check, and the state change only if the check accepts. */
  function Step(o: ChainOwnership, hasKey: bool, s: State, i: Input): State {
    match i
    case Proposed(p, outcome, t) =>
      if CheckProposedBlock(o, s, p) == Ok(Accept) then CreateVote(o, s, p, outcome, hasKey, t) else s
    case Validated(c, t) =>
      if CheckValidatedBlock(s, c) == Ok(Accept) then CreateFinalVote(o, s, c, hasKey, t) else s
    case TimedOut(c, t) => HandleTimeoutCertificate(o, s, c, t)
  }

  /** The block vote that a request makes a validator sign, if any. */
  function CastVote(o: ChainOwnership, s: State, i: Input): Option<Vote> {
    match i
    case Proposed(p, outcome, _) =>
      if CheckProposedBlock(o, s, p) == Ok(Accept) then Some(ProposalVote(p, outcome)) else None
    case Validated(c, _) =>
      if CheckValidatedBlock(s, c) == Ok(Accept) && Rank(c.round) >= Rank(s.currentRound) && c.value.ValidatedBlock?
      then Some(Vote(ConfirmedBlock(c.value.executedBlock), c.round)) else None
    case TimedOut(_, _) => None
  }

  function Run(o: ChainOwnership, hasKey: bool, s: State, inputs: seq<Input>): State
    decreases |inputs|
  {
    if inputs == [] then s else Run(o, hasKey, Step(o, hasKey, s, inputs[0]), inputs[1..])
  }

  /** A validator publishes as pending exactly the vote that the request made it sign. */
  lemma PendingIsLastVote(o: ChainOwnership, s: State, i: Input)
    ensures Step(o, true, s, i).pending == if CastVote(o, s, i).Some? then CastVote(o, s, i) else s.pending
  {
  }

  lemma StepTracks(o: ChainOwnership, hasKey: bool, s: State, i: Input)
    requires Tracked(o, s)
    ensures Tracked(o, Step(o, hasKey, s, i))
    ensures Rank(s.currentRound) <= Rank(Step(o, hasKey, s, i).currentRound)
  {
    match i
    case Proposed(p, outcome, t) =>
      if CheckProposedBlock(o, s, p) == Ok(Accept) { CreateVoteTracks(o, s, p, outcome, hasKey, t); }
    case Validated(c, t) =>
      if CheckValidatedBlock(s, c) == Ok(Accept) { CreateFinalVoteTracks(o, s, c, hasKey, t); }
    case TimedOut(c, t) => HandleTimeoutTracks(o, s, c, t);
  }

  lemma {:induction false} RunTracks(o: ChainOwnership, hasKey: bool, s: State, inputs: seq<Input>)
    requires Tracked(o, s)
    ensures Tracked(o, Run(o, hasKey, s, inputs))
    ensures Rank(s.currentRound) <= Rank(Run(o, hasKey, s, inputs).currentRound)
    decreases |inputs|
  {
    if inputs != [] {
      StepTracks(o, hasKey, s, inputs[0]);
      RunTracks(o, hasKey, Step(o, hasKey, s, inputs[0]), inputs[1..]);
    }
  }

  lemma {:induction false} RunAppend(o: ChainOwnership, hasKey: bool, s: State, xs: seq<Input>, ys: seq<Input>)
    ensures Run(o, hasKey, s, xs + ys) == Run(o, hasKey, Run(o, hasKey, s, xs), ys)
    decreases |xs|
  {
    if xs == [] {
      assert xs + ys == ys;
    } else {
      assert (xs + ys)[1..] == xs[1..] + ys;
      RunAppend(o, hasKey, Step(o, hasKey, s, xs[0]), xs[1..], ys);
    }
  }

  /**
   Round tracking, for validators and other nodes alike: after every history of requests the current round
   is the maximum of the rounds known, and no continuation of the history lowers it.
   */
  lemma RoundTracking(o: ChainOwnership, hasKey: bool, start: u64, history: seq<Input>, later: seq<Input>)
    ensures var s := Run(o, hasKey, NewState(o, start), history);
            var t := Run(o, hasKey, NewState(o, start), history + later);
            Tracked(o, s) && Tracked(o, t) && Rank(s.currentRound) <= Rank(t.currentRound)
  {
    RunTracks(o, hasKey, NewState(o, start), history);
    RunAppend(o, hasKey, NewState(o, start), history, later);
    RunTracks(o, hasKey, Run(o, hasKey, NewState(o, start), history), later);
  }
}
