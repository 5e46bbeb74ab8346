/**
 Runs of a whole committee at one block height: honest validators follow the voting rules of the chain
 manager, faulty ones sign whatever they like.

 A request reaches a validator only after the worker has checked it: carried certificates are signed by a
 quorum, a certificate carried by a proposal certifies the very block being executed, and the proposer may
 propose in that round. Timeout certificates are not constrained at all, which only adds runs.
 */
module Consensus {
  import opened Base
  import opened Rounds
  import opened Committees
  import opened Manager
  import Runs

  /** An honest validator: its consensus state and every block vote it has signed, in order. */
  datatype Node = Node(state: State, votes: seq<Vote>)

  /** The leaders of single-leader and validator rounds, however they are drawn. */
  type Leaders = Round -> Option<Owner>

  datatype Config = Config(committee: Committee, ownership: ChainOwnership, leaders: Leaders, honest: set<ValidatorName>)
  {
    ghost function Faulty(): set<ValidatorName> {
      committee.validators.Keys - honest
    }

    /** Faulty validators hold less weight than the validity threshold. */
    ghost predicate Valid() {
      && committee.Valid()
      && honest <= committee.validators.Keys
      && committee.WeightOf(Faulty()) < committee.validityThreshold
    }

    predicate MayPropose(p: BlockProposal) {
      || p.owner in ownership.superOwners
      || (p.content.round.MultiLeader? && p.owner in ownership.owners)
      || ((p.content.round.SingleLeader? || p.content.round.Validator?) && leaders(p.content.round) == Some(p.owner))
    }
  }

  type Network = map<ValidatorName, Node>

  ghost predicate Matches(cfg: Config, net: Network) {
    cfg.Valid() && net.Keys == cfg.honest
  }

  ghost predicate Init(cfg: Config, net: Network) {
    && Matches(cfg, net)
    && forall v <- net :: net[v].votes == [] && exists t: u64 :: net[v].state == NewState(cfg.ownership, t)
  }

  // ---- Certificates ----

  /** A set of validators that can have signed the value: a quorum whose honest members voted for it. */
  ghost predicate CanSign(cfg: Config, net: Network, signers: set<ValidatorName>, value: Value, round: Round)
    requires Matches(cfg, net)
  {
    && cfg.committee.IsQuorum(signers)
    && forall v <- signers :: v in cfg.honest ==> Vote(value, round) in net[v].votes
  }

  ghost predicate Certified(cfg: Config, net: Network, value: Value, round: Round)
    requires Matches(cfg, net)
  {
    exists signers :: CanSign(cfg, net, signers, value, round)
  }

  ghost predicate ValidCertificate(cfg: Config, net: Network, c: Certificate)
    requires Matches(cfg, net)
  {
    CanSign(cfg, net, c.signers, c.value, c.round)
  }

  // ---- Steps and runs ----

  /** What the worker has verified before it hands a request to the manager. */
  ghost predicate Checked(cfg: Config, net: Network, i: Input)
    requires Matches(cfg, net)
  {
    match i
    case Proposed(p, outcome, _) =>
      && cfg.MayPropose(p)
      && (p.validatedBlockCertificate.Some? ==>
            && ValidCertificate(cfg, net, p.validatedBlockCertificate.value)
            && p.validatedBlockCertificate.value.value == ValidatedBlock(ExecutedBlock(p.content.block, outcome)))
    case Validated(c, _) => c.value.ValidatedBlock? && ValidCertificate(cfg, net, c)
    case TimedOut(c, _) => c.value.Timeout?
  }

  function NodeStep(o: ChainOwnership, n: Node, i: Input): Node {
    var cast := CastVote(o, n.state, i);
    Node(Step(o, true, n.state, i), if cast.Some? then n.votes + [cast.value] else n.votes)
  }

  ghost predicate Next(cfg: Config, net: Network, net': Network, v: ValidatorName, i: Input) {
    && Matches(cfg, net)
    && v in net
    && Checked(cfg, net, i)
    && net' == net[v := NodeStep(cfg.ownership, net[v], i)]
  }

  ghost predicate CanStep(cfg: Config, net: Network, net': Network) {
    exists v, i :: Next(cfg, net, net', v, i)
  }

  ghost predicate IsRun(cfg: Config, run: seq<Network>) {
    && |run| > 0
    && Init(cfg, run[0])
    && Runs.Steps(run, (a, b) => CanStep(cfg, a, b))
  }

  // ---- What every reachable network satisfies ----

  predicate ConfirmsSlowly(v: Vote) {
    v.value.ConfirmedBlock? && !v.round.Fast?
  }

  predicate ConfirmsFast(v: Vote) {
    v.value.ConfirmedBlock? && v.round.Fast?
  }

  function LastVote(votes: seq<Vote>): Option<Vote> {
    if votes == [] then None else Some(votes[|votes| - 1])
  }

  /** Each vote is justified by the state that the validator still holds. */
  ghost predicate VoteBacked(cfg: Config, net: Network, s: State, vote: Vote)
    requires Matches(cfg, net)
  {
    && !vote.value.Timeout?
    && Rank(vote.round) <= Rank(s.currentRound)
    && (vote.value.ValidatedBlock? ==>
          !vote.round.Fast? && s.proposed.Some? && Rank(vote.round) <= Rank(s.proposed.value.content.round))
    && (ConfirmsFast(vote) ==>
          && cfg.ownership.superOwners != map[]
          && s.proposed.Some?
          && (s.proposed.value.content.round.Fast? ==> s.proposed.value.content.block == vote.value.executedBlock.block))
    && (ConfirmsSlowly(vote) ==>
          && s.locked.Some? && Rank(vote.round) <= Rank(s.locked.value.round)
          && Certified(cfg, net, ValidatedBlock(vote.value.executedBlock), vote.round))
  }

  /** A vote to validate after a vote to confirm rests on a certificate from in between. */
  ghost predicate Relocked(cfg: Config, net: Network, confirmed: Vote, validated: Vote)
    requires Matches(cfg, net)
  {
    exists r: Round :: Rank(confirmed.round) <= Rank(r) < Rank(validated.round) && Certified(cfg, net, validated.value, r)
  }

  /** What holds between an earlier and a later vote of the same validator. */
  ghost predicate VotesOrdered(cfg: Config, net: Network, earlier: Vote, later: Vote)
    requires Matches(cfg, net)
  {
    && Rank(earlier.round) <= Rank(later.round)
    && (earlier.value.ValidatedBlock? && later.value.ValidatedBlock? ==> Rank(earlier.round) < Rank(later.round))
    && (earlier.value.ConfirmedBlock? && later.value.ConfirmedBlock? ==> Rank(earlier.round) < Rank(later.round))
    && (ConfirmsSlowly(earlier) && later.value.ValidatedBlock? ==> Relocked(cfg, net, earlier, later))
  }

  ghost predicate NodeInv(cfg: Config, net: Network, n: Node)
    requires Matches(cfg, net)
  {
    && Tracked(cfg.ownership, n.state)
    && n.state.pending == LastVote(n.votes)
    && (forall k {:trigger VoteBacked(cfg, net, n.state, n.votes[k])} ::
          0 <= k < |n.votes| ==> VoteBacked(cfg, net, n.state, n.votes[k]))
    && (forall j, k {:trigger VotesOrdered(cfg, net, n.votes[j], n.votes[k])} ::
          0 <= j < k < |n.votes| ==> VotesOrdered(cfg, net, n.votes[j], n.votes[k]))
  }

  ghost predicate Inv(cfg: Config, net: Network) {
    Matches(cfg, net) && forall v <- net :: NodeInv(cfg, net, net[v])
  }

  // ---- Certificates are never lost ----

  ghost predicate Grows(cfg: Config, net: Network, net': Network) {
    && Matches(cfg, net) && Matches(cfg, net')
    && forall v <- net :: net[v].votes <= net'[v].votes
  }

  lemma CertifiedGrows(cfg: Config, net: Network, net': Network, value: Value, round: Round)
    requires Grows(cfg, net, net')
    requires Certified(cfg, net, value, round)
    ensures Certified(cfg, net', value, round)
  {
    var signers :| CanSign(cfg, net, signers, value, round);
    forall v <- signers | v in cfg.honest
      ensures Vote(value, round) in net'[v].votes
    {
      var k :| 0 <= k < |net[v].votes| && net[v].votes[k] == Vote(value, round);
      assert net'[v].votes[k] == Vote(value, round);
    }
    assert CanSign(cfg, net', signers, value, round);
  }

  lemma StepGrows(cfg: Config, net: Network, net': Network)
    requires CanStep(cfg, net, net')
    ensures Grows(cfg, net, net')
  {
    var v, i :| Next(cfg, net, net', v, i);
  }

  // ---- Quorums meet in an honest validator ----

  /** Anything certified was voted for by an honest validator. */
  lemma HonestSigner(cfg: Config, net: Network, value: Value, round: Round) returns (v: ValidatorName)
    requires Matches(cfg, net) && Certified(cfg, net, value, round)
    ensures v in net && Vote(value, round) in net[v].votes
  {
    var signers :| CanSign(cfg, net, signers, value, round);
    v := QuorumsShareCorrect(cfg.committee, signers, signers, cfg.Faulty());
  }

  lemma CommonSigner(cfg: Config, net: Network, v1: Value, r1: Round, v2: Value, r2: Round) returns (v: ValidatorName)
    requires Matches(cfg, net) && Certified(cfg, net, v1, r1) && Certified(cfg, net, v2, r2)
    ensures v in net && Vote(v1, r1) in net[v].votes && Vote(v2, r2) in net[v].votes
  {
    var s1 :| CanSign(cfg, net, s1, v1, r1);
    var s2 :| CanSign(cfg, net, s2, v2, r2);
    v := QuorumsShareCorrect(cfg.committee, s1, s2, cfg.Faulty());
  }

  /** No block is ever validated in the fast round. */
  lemma NoFastValidation(cfg: Config, net: Network, value: Value, round: Round)
    requires Inv(cfg, net) && value.ValidatedBlock? && Certified(cfg, net, value, round)
    ensures !round.Fast?
  {
    var v := HonestSigner(cfg, net, value, round);
    var k :| 0 <= k < |net[v].votes| && net[v].votes[k] == Vote(value, round);
    assert VoteBacked(cfg, net, net[v].state, net[v].votes[k]);
  }

  // ---- The invariant is inductive ----

  lemma InitInv(cfg: Config, net: Network)
    requires Init(cfg, net)
    ensures Inv(cfg, net)
  {
  }

  /** What an honest validator knew stays justified when anyone's votes grow. */
  lemma NodeInvGrows(cfg: Config, net: Network, net': Network, n: Node)
    requires Grows(cfg, net, net') && NodeInv(cfg, net, n)
    ensures NodeInv(cfg, net', n)
  {
    forall k | 0 <= k < |n.votes|
      ensures VoteBacked(cfg, net', n.state, n.votes[k])
    {
      assert VoteBacked(cfg, net, n.state, n.votes[k]);
      if ConfirmsSlowly(n.votes[k]) {
        CertifiedGrows(cfg, net, net', ValidatedBlock(n.votes[k].value.executedBlock), n.votes[k].round);
      }
    }
    forall j, k | 0 <= j < k < |n.votes|
      ensures VotesOrdered(cfg, net', n.votes[j], n.votes[k])
    {
      assert VotesOrdered(cfg, net, n.votes[j], n.votes[k]);
      if ConfirmsSlowly(n.votes[j]) && n.votes[k].value.ValidatedBlock? {
        var r: Round :| Rank(n.votes[j].round) <= Rank(r) < Rank(n.votes[k].round)
                        && Certified(cfg, net, n.votes[k].value, r);
        CertifiedGrows(cfg, net, net', n.votes[k].value, r);
      }
    }
  }

  /** The lock and the proposal of a validator only move to later rounds. */
  lemma StepAdvances(o: ChainOwnership, s: State, i: Input)
    requires Tracked(o, s)
    ensures Rank(s.currentRound) <= Rank(Step(o, true, s, i).currentRound)
    ensures LockAdvances(s, Step(o, true, s, i)) && ProposalAdvances(s, Step(o, true, s, i))
  {
    StepTracks(o, true, s, i);
    match i
    case Proposed(p, outcome, t) =>
      if CheckProposedBlock(o, s, p) == Ok(Accept) {
        AcceptedProposalRound(o, s, p);
        UpdateKeeps(o, s.(proposed := Some(p)), t);
      }
    case Validated(c, t) => UpdateKeeps(o, s.(locked := Some(c)), t);
    case TimedOut(c, t) => UpdateKeeps(o, s.(timeout := Some(c)), t);
  }

  predicate LockAdvances(s: State, t: State) {
    s.locked.Some? ==> t.locked.Some? && Rank(s.locked.value.round) <= Rank(t.locked.value.round)
  }

  predicate ProposalAdvances(s: State, t: State) {
    s.proposed.Some? && t.proposed != s.proposed ==>
      t.proposed.Some? && Rank(s.proposed.value.content.round) < Rank(t.proposed.value.content.round)
  }

  lemma OldVotesStayBacked(cfg: Config, net: Network, n: Node, i: Input, k: nat)
    requires Matches(cfg, net) && NodeInv(cfg, net, n) && k < |n.votes|
    ensures VoteBacked(cfg, net, Step(cfg.ownership, true, n.state, i), n.votes[k])
  {
    StepAdvances(cfg.ownership, n.state, i);
    assert VoteBacked(cfg, net, n.state, n.votes[k]);
  }

  /** A vote for a proposal follows every earlier vote, and respects the lock. */
  lemma ProposalVoteOrdered(cfg: Config, net: Network, n: Node, p: BlockProposal, outcome: nat, t: u64, k: nat)
    requires Inv(cfg, net) && NodeInv(cfg, net, n) && k < |n.votes|
    requires Checked(cfg, net, Proposed(p, outcome, t))
    requires CheckProposedBlock(cfg.ownership, n.state, p) == Ok(Accept)
    ensures VotesOrdered(cfg, net, n.votes[k], ProposalVote(p, outcome))
  {
    AcceptedProposalRound(cfg.ownership, n.state, p);
    var vote := ProposalVote(p, outcome);
    assert VoteBacked(cfg, net, n.state, n.votes[k]);
    if ConfirmsSlowly(n.votes[k]) && vote.value.ValidatedBlock? {
      var cert := p.validatedBlockCertificate.value;
      assert CanSign(cfg, net, cert.signers, vote.value, cert.round);
      assert Rank(n.votes[k].round) <= Rank(cert.round) < Rank(vote.round);
    }
  }

  /** A vote for a proposal is backed by the state that the validator moves to. */
  lemma ProposalVoteBacked(cfg: Config, net: Network, s: State, p: BlockProposal, outcome: nat, t: u64)
    requires Matches(cfg, net) && Tracked(cfg.ownership, s) && cfg.MayPropose(p)
    requires CheckProposedBlock(cfg.ownership, s, p) == Ok(Accept)
    ensures VoteBacked(cfg, net, CreateVote(cfg.ownership, s, p, outcome, true, t), ProposalVote(p, outcome))
  {
    CreateVoteTracks(cfg.ownership, s, p, outcome, true, t);
  }

  lemma FinalVoteOrdered(cfg: Config, net: Network, n: Node, c: Certificate, t: u64, k: nat)
    requires Inv(cfg, net) && NodeInv(cfg, net, n) && k < |n.votes|
    requires Checked(cfg, net, Validated(c, t))
    requires CheckValidatedBlock(n.state, c) == Ok(Accept) && Rank(n.state.currentRound) <= Rank(c.round)
    ensures VotesOrdered(cfg, net, n.votes[k], Vote(ConfirmedBlock(c.value.executedBlock), c.round))
  {
    assert Certified(cfg, net, c.value, c.round);
    NoFastValidation(cfg, net, c.value, c.round);
    assert VoteBacked(cfg, net, n.state, n.votes[k]);
  }

  lemma FinalVoteBacked(cfg: Config, net: Network, s: State, c: Certificate, t: u64)
    requires Inv(cfg, net) && Tracked(cfg.ownership, s)
    requires Checked(cfg, net, Validated(c, t))
    requires CheckValidatedBlock(s, c) == Ok(Accept) && Rank(s.currentRound) <= Rank(c.round)
    ensures VoteBacked(cfg, net, CreateFinalVote(cfg.ownership, s, c, true, t),
                       Vote(ConfirmedBlock(c.value.executedBlock), c.round))
  {
    assert Certified(cfg, net, c.value, c.round);
    NoFastValidation(cfg, net, c.value, c.round);
    CreateFinalVoteTracks(cfg.ownership, s, c, true, t);
  }

  /** A request keeps the invariant of the validator that handles it. */
  lemma NodeStepInv(cfg: Config, net: Network, n: Node, i: Input)
    requires Inv(cfg, net) && NodeInv(cfg, net, n) && Checked(cfg, net, i)
    ensures NodeInv(cfg, net, NodeStep(cfg.ownership, n, i))
  {
    var o := cfg.ownership;
    var n' := NodeStep(o, n, i);
    var cast := CastVote(o, n.state, i);
    StepTracks(o, true, n.state, i);
    PendingIsLastVote(o, n.state, i);
    forall k | 0 <= k < |n'.votes|
      ensures VoteBacked(cfg, net, n'.state, n'.votes[k])
    {
      if k < |n.votes| {
        OldVotesStayBacked(cfg, net, n, i, k);
      } else {
        match i
        case Proposed(p, outcome, t) => ProposalVoteBacked(cfg, net, n.state, p, outcome, t);
        case Validated(c, t) => FinalVoteBacked(cfg, net, n.state, c, t);
        case TimedOut(_, _) =>
      }
    }
    forall j, k | 0 <= j < k < |n'.votes|
      ensures VotesOrdered(cfg, net, n'.votes[j], n'.votes[k])
    {
      if k == |n.votes| {
        match i
        case Proposed(p, outcome, t) => ProposalVoteOrdered(cfg, net, n, p, outcome, t, j);
        case Validated(c, t) => FinalVoteOrdered(cfg, net, n, c, t, j);
        case TimedOut(_, _) =>
      }
    }
  }

  lemma StepInv(cfg: Config, net: Network, net': Network)
    requires Inv(cfg, net) && CanStep(cfg, net, net')
    ensures Inv(cfg, net')
  {
    StepGrows(cfg, net, net');
    var v, i :| Next(cfg, net, net', v, i);
    forall u <- net'
      ensures NodeInv(cfg, net', net'[u])
    {
      if u == v {
        NodeStepInv(cfg, net, net[v], i);
      }
      NodeInvGrows(cfg, net, net', net'[u]);
    }
  }

  /** Every network of every run satisfies the invariant. */
  lemma RunInv(cfg: Config, run: seq<Network>, k: nat)
    requires IsRun(cfg, run) && k < |run|
    ensures Inv(cfg, run[k])
  {
    InitInv(cfg, run[0]);
    forall a, b | Inv(cfg, a) && CanStep(cfg, a, b)
      ensures Inv(cfg, b)
    {
      StepInv(cfg, a, b);
    }
    Runs.InvariantHolds(run, (a, b) => CanStep(cfg, a, b), a => Inv(cfg, a), 0, k);
  }

  /** Votes are never withdrawn along a run. */
  lemma RunGrows(cfg: Config, run: seq<Network>, j: nat, k: nat)
    requires IsRun(cfg, run) && j <= k < |run|
    ensures Grows(cfg, run[j], run[k])
  {
    RunInv(cfg, run, j);
    forall a, b | Grows(cfg, run[j], a) && CanStep(cfg, a, b)
      ensures Grows(cfg, run[j], b)
    {
      StepGrows(cfg, a, b);
      GrowsTransitive(cfg, run[j], a, b);
    }
    Runs.InvariantHolds(run, (a, b) => CanStep(cfg, a, b), a => Grows(cfg, run[j], a), j, k);
  }

  lemma GrowsTransitive(cfg: Config, a: Network, b: Network, c: Network)
    requires Grows(cfg, a, b) && Grows(cfg, b, c)
    ensures Grows(cfg, a, c)
  {
  }

  // ---- Safety ----

  /** Two different votes of one honest validator are ordered, one way or the other. */
  lemma VotesComparable(cfg: Config, net: Network, v: ValidatorName, x: Vote, y: Vote)
    requires Inv(cfg, net) && v in net && x in net[v].votes && y in net[v].votes && x != y
    ensures VotesOrdered(cfg, net, x, y) || VotesOrdered(cfg, net, y, x)
  {
    var votes := net[v].votes;
    var j :| 0 <= j < |votes| && votes[j] == x;
    var k :| 0 <= k < |votes| && votes[k] == y;
    if j < k {
      assert VotesOrdered(cfg, net, votes[j], votes[k]);
    } else {
      assert VotesOrdered(cfg, net, votes[k], votes[j]);
    }
  }

  /** In one round at most one block is validated. */
  lemma OneValidationPerRound(cfg: Config, net: Network, a: ExecutedBlock, b: ExecutedBlock, r: Round)
    requires Inv(cfg, net)
    requires Certified(cfg, net, ValidatedBlock(a), r) && Certified(cfg, net, ValidatedBlock(b), r)
    ensures a == b
  {
    var v := CommonSigner(cfg, net, ValidatedBlock(a), r, ValidatedBlock(b), r);
    if a != b {
      VotesComparable(cfg, net, v, Vote(ValidatedBlock(a), r), Vote(ValidatedBlock(b), r));
    }
  }

  /** A block confirmed outside the fast round was validated in the same round. */
  lemma ConfirmedWasValidated(cfg: Config, net: Network, a: ExecutedBlock, r: Round)
    requires Inv(cfg, net) && !r.Fast? && Certified(cfg, net, ConfirmedBlock(a), r)
    ensures Certified(cfg, net, ValidatedBlock(a), r)
  {
    var v := HonestSigner(cfg, net, ConfirmedBlock(a), r);
    var k :| 0 <= k < |net[v].votes| && net[v].votes[k] == Vote(ConfirmedBlock(a), r);
    assert VoteBacked(cfg, net, net[v].state, net[v].votes[k]);
  }

  /** A validator that confirmed `a` validates another block later only because of a newer certificate. */
  lemma ValidationAfterConfirmation(cfg: Config, net: Network, a: ExecutedBlock, s: Round, b: ExecutedBlock, r: Round)
    returns (q: Round)
    requires Inv(cfg, net) && !s.Fast? && Rank(s) < Rank(r)
    requires Certified(cfg, net, ConfirmedBlock(a), s) && Certified(cfg, net, ValidatedBlock(b), r)
    ensures Rank(s) <= Rank(q) < Rank(r) && Certified(cfg, net, ValidatedBlock(b), q)
  {
    var v := CommonSigner(cfg, net, ConfirmedBlock(a), s, ValidatedBlock(b), r);
    VotesComparable(cfg, net, v, Vote(ConfirmedBlock(a), s), Vote(ValidatedBlock(b), r));
    assert Relocked(cfg, net, Vote(ConfirmedBlock(a), s), Vote(ValidatedBlock(b), r));
    q :| Rank(s) <= Rank(q) < Rank(r) && Certified(cfg, net, ValidatedBlock(b), q);
  }

  /**
   Lock persistence: once a quorum has voted to confirm `a` in a non-fast round `s`, every block validated
   in that or any later round is `a`. The induction follows the chain of certificates that proposals carry.
   */
  lemma {:induction false} LockPersists(cfg: Config, net: Network, a: ExecutedBlock, s: Round, b: ExecutedBlock, r: Round)
    requires Inv(cfg, net) && !s.Fast? && Rank(s) <= Rank(r)
    requires Certified(cfg, net, ConfirmedBlock(a), s) && Certified(cfg, net, ValidatedBlock(b), r)
    ensures a == b
    decreases Rank(r)
  {
    if Rank(s) == Rank(r) {
      RankIsDerivedOrder(s, r);
      ConfirmedWasValidated(cfg, net, a, s);
      OneValidationPerRound(cfg, net, a, b, s);
    } else {
      var q := ValidationAfterConfirmation(cfg, net, a, s, b, r);
      LockPersists(cfg, net, a, s, b, q);
    }
  }

  lemma FastConfirmationUnique(cfg: Config, net: Network, a: ExecutedBlock, b: ExecutedBlock)
    requires Inv(cfg, net)
    requires Certified(cfg, net, ConfirmedBlock(a), Fast) && Certified(cfg, net, ConfirmedBlock(b), Fast)
    ensures a == b
  {
    var v := CommonSigner(cfg, net, ConfirmedBlock(a), Fast, ConfirmedBlock(b), Fast);
    if a != b {
      VotesComparable(cfg, net, v, Vote(ConfirmedBlock(a), Fast), Vote(ConfirmedBlock(b), Fast));
    }
  }

  // ---- Theorems about whole runs ----

  /**
   Lock persistence over runs: if `a` has been confirmed in a non-fast round by some point of the run, then
   at no point of the run, earlier or later, is another block validated in that round or a later one.
   */
  lemma LockPersistence(cfg: Config, run: seq<Network>, i: nat, j: nat,
                        a: ExecutedBlock, s: Round, b: ExecutedBlock, r: Round)
    requires IsRun(cfg, run) && i < |run| && j < |run|
    requires Matches(cfg, run[i]) && Certified(cfg, run[i], ConfirmedBlock(a), s)
    requires Matches(cfg, run[j]) && Certified(cfg, run[j], ValidatedBlock(b), r)
    requires !s.Fast? && Rank(s) <= Rank(r)
    ensures a == b
  {
    var last := |run| - 1;
    RunInv(cfg, run, last);
    RunGrows(cfg, run, i, last);
    RunGrows(cfg, run, j, last);
    CertifiedGrows(cfg, run[i], run[last], ConfirmedBlock(a), s);
    CertifiedGrows(cfg, run[j], run[last], ValidatedBlock(b), r);
    LockPersists(cfg, run[last], a, s, b, r);
  }

  /** Agreement: any two confirmation certificates of a run agree if both are fast or neither is. */
  lemma Agreement(cfg: Config, run: seq<Network>, i: nat, j: nat,
                  a: ExecutedBlock, s: Round, b: ExecutedBlock, r: Round)
    requires IsRun(cfg, run) && i < |run| && j < |run|
    requires Matches(cfg, run[i]) && Certified(cfg, run[i], ConfirmedBlock(a), s)
    requires Matches(cfg, run[j]) && Certified(cfg, run[j], ConfirmedBlock(b), r)
    requires s.Fast? <==> r.Fast?
    ensures a == b
  {
    var last := |run| - 1;
    RunInv(cfg, run, last);
    RunGrows(cfg, run, i, last);
    RunGrows(cfg, run, j, last);
    CertifiedGrows(cfg, run[i], run[last], ConfirmedBlock(a), s);
    CertifiedGrows(cfg, run[j], run[last], ConfirmedBlock(b), r);
    if s.Fast? {
      FastConfirmationUnique(cfg, run[last], a, b);
    } else if Rank(s) <= Rank(r) {
      ConfirmedWasValidated(cfg, run[last], b, r);
      LockPersists(cfg, run[last], a, s, b, r);
    } else {
      ConfirmedWasValidated(cfg, run[last], a, s);
      LockPersists(cfg, run[last], b, r, a, s);
    }
  }

  ghost predicate NoFastVotes(net: Network) {
    forall v, k :: v in net && 0 <= k < |net[v].votes| ==> !net[v].votes[k].round.Fast?
  }

  /** Without super owners nothing is ever certified in the fast round. */
  lemma NoFastRound(cfg: Config, run: seq<Network>, k: nat, value: Value, round: Round)
    requires IsRun(cfg, run) && k < |run| && cfg.ownership.superOwners == map[]
    requires Matches(cfg, run[k]) && !value.Timeout? && Certified(cfg, run[k], value, round)
    ensures !round.Fast?
  {
    var v := HonestSigner(cfg, run[k], value, round);
    NoFastVotesInRun(cfg, run, k);
    var n :| 0 <= n < |run[k][v].votes| && run[k][v].votes[n] == Vote(value, round);
  }

  lemma NoFastVotesInRun(cfg: Config, run: seq<Network>, k: nat)
    requires IsRun(cfg, run) && k < |run| && cfg.ownership.superOwners == map[]
    ensures NoFastVotes(run[k])
  {
    InitInv(cfg, run[0]);
    NoFastVotesInit(cfg, run[0]);
    forall a, b | (Inv(cfg, a) && NoFastVotes(a)) && CanStep(cfg, a, b)
      ensures Inv(cfg, b) && NoFastVotes(b)
    {
      StepInv(cfg, a, b);
      NoFastVotesStep(cfg, a, b);
    }
    Runs.InvariantHolds(run, (a, b) => CanStep(cfg, a, b), a => Inv(cfg, a) && NoFastVotes(a), 0, k);
  }

  lemma NoFastVotesInit(cfg: Config, net: Network)
    requires Init(cfg, net)
    ensures NoFastVotes(net)
  {
  }

  lemma NoFastVotesStep(cfg: Config, net: Network, net': Network)
    requires Inv(cfg, net) && cfg.ownership.superOwners == map[] && CanStep(cfg, net, net') && NoFastVotes(net)
    ensures NoFastVotes(net')
  {
    var u, i :| Next(cfg, net, net', u, i);
    NoFastVoteCast(cfg, net, u, i);
    forall v, k | v in net' && 0 <= k < |net'[v].votes|
      ensures !net'[v].votes[k].round.Fast?
    {
      assert v != u ==> net'[v] == net[v];
      assert k < |net[v].votes| ==> net'[v].votes[k] == net[v].votes[k];
    }
  }

  lemma NoFastVoteCast(cfg: Config, net: Network, v: ValidatorName, i: Input)
    requires Inv(cfg, net) && cfg.ownership.superOwners == map[] && v in net && Checked(cfg, net, i)
    ensures var cast := CastVote(cfg.ownership, net[v].state, i); cast.Some? ==> !cast.value.round.Fast?
  {
    if i.Validated? {
      assert Certified(cfg, net, i.certificate.value, i.certificate.round);
      NoFastValidation(cfg, net, i.certificate.value, i.certificate.round);
    }
  }

  /** Without super owners a height is confirmed at most once, whatever the rounds. */
  lemma AtMostOneBlock(cfg: Config, run: seq<Network>, i: nat, j: nat,
                       a: ExecutedBlock, s: Round, b: ExecutedBlock, r: Round)
    requires IsRun(cfg, run) && i < |run| && j < |run| && cfg.ownership.superOwners == map[]
    requires Matches(cfg, run[i]) && Certified(cfg, run[i], ConfirmedBlock(a), s)
    requires Matches(cfg, run[j]) && Certified(cfg, run[j], ConfirmedBlock(b), r)
    ensures a == b
  {
    NoFastRound(cfg, run, i, ConfirmedBlock(a), s);
    NoFastRound(cfg, run, j, ConfirmedBlock(b), r);
    Agreement(cfg, run, i, j, a, s, b, r);
  }

  /**
   Vote discipline: at every point of every run, the votes of an honest validator have rounds that never
   decrease, at most one vote to validate and one to confirm per round, and after a vote to confirm no
   vote to validate in the same round.
   */
  lemma VoteDiscipline(cfg: Config, run: seq<Network>, k: nat, v: ValidatorName, m: nat, n: nat)
    requires IsRun(cfg, run) && k < |run| && v in run[k]
    requires m < n < |run[k][v].votes|
    ensures var earlier, later := run[k][v].votes[m], run[k][v].votes[n];
            && Rank(earlier.round) <= Rank(later.round)
            && (earlier.round == later.round ==> earlier.value.ValidatedBlock? && later.value.ConfirmedBlock?)
  {
    RunInv(cfg, run, k);
    var earlier, later := run[k][v].votes[m], run[k][v].votes[n];
    var s := run[k][v].state;
    assert VotesOrdered(cfg, run[k], earlier, later);
    assert VoteBacked(cfg, run[k], s, earlier) && VoteBacked(cfg, run[k], s, later);
  }

  /** At every point of every run, what an honest validator publishes as pending is its last vote. */
  lemma PendingIsLast(cfg: Config, run: seq<Network>, k: nat, v: ValidatorName)
    requires IsRun(cfg, run) && k < |run| && v in run[k]
    ensures run[k][v].state.pending == LastVote(run[k][v].votes)
  {
    RunInv(cfg, run, k);
  }

  // ---- What honest validators do not refuse ----

  lemma NothingAgainst(s: State, c: Certificate)
    requires s.locked.Some? ==> Rank(s.locked.value.round) < Rank(c.round)
    requires s.pending.Some? ==> !s.pending.value.value.Timeout? && Rank(s.pending.value.round) <= Rank(c.round)
    requires s.pending.Some? && s.pending.value.value.ConfirmedBlock? ==> s.pending.value.round != c.round
    ensures CheckValidatedBlock(s, c) == Ok(Accept)
  {
  }

  /**
   In every reachable network, an honest validator votes to confirm a validated block whose certificate is not
   before its current round and newer than its lock.
   */
  lemma CertificateConfirmed(cfg: Config, net: Network, v: ValidatorName, c: Certificate, t: u64)
    requires Inv(cfg, net) && v in net && Checked(cfg, net, Validated(c, t))
    requires Rank(net[v].state.currentRound) <= Rank(c.round)
    requires net[v].state.locked.Some? ==> Rank(net[v].state.locked.value.round) < Rank(c.round)
    ensures CastVote(cfg.ownership, net[v].state, Validated(c, t)) == Some(Vote(ConfirmedBlock(c.value.executedBlock), c.round))
  {
    assert Certified(cfg, net, c.value, c.round);
    NoFastValidation(cfg, net, c.value, c.round);
    PendingBacked(cfg, net, v);
    NothingAgainst(net[v].state, c);
  }

  lemma PendingBacked(cfg: Config, net: Network, v: ValidatorName)
    requires Inv(cfg, net) && v in net
    ensures var s := net[v].state;
            s.pending.Some? ==>
              && !s.pending.value.value.Timeout? && Rank(s.pending.value.round) <= Rank(s.currentRound)
              && (ConfirmsSlowly(s.pending.value) ==>
                    s.locked.Some? && Rank(s.pending.value.round) <= Rank(s.locked.value.round))
  {
    var n := net[v];
    assert n.votes != [] ==> VoteBacked(cfg, net, n.state, n.votes[|n.votes| - 1]);
  }

  /** In single-leader and validator rounds at most one regular owner may propose; super owners always may. */
  lemma OneRegularProposer(cfg: Config, p: BlockProposal, q: BlockProposal)
    requires p.content.round == q.content.round && (p.content.round.SingleLeader? || p.content.round.Validator?)
    requires cfg.MayPropose(p) && cfg.MayPropose(q)
    requires p.owner !in cfg.ownership.superOwners && q.owner !in cfg.ownership.superOwners
    ensures p.owner == q.owner && cfg.leaders(p.content.round) == Some(p.owner)
  {
  }

  /** In multi-leader rounds exactly the owners of either kind may propose, in the fast round only super owners. */
  lemma SharedRounds(cfg: Config, p: BlockProposal)
    requires p.content.round.MultiLeader? || p.content.round.Fast?
    ensures cfg.MayPropose(p) <==>
              p.owner in cfg.ownership.superOwners || (!p.content.round.Fast? && p.owner in cfg.ownership.owners)
  {
  }
}
