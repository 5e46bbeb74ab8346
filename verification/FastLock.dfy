/**
 The lock of the fast round. A block proposed there is confirmed at once, and the only memory of it is the
 stored proposal. This module shows a run in which that memory is lost, says exactly when a validator still
 holds the lock, and proves full agreement of all confirmations for the runs that respect it.
 */
module FastLock {
  import opened Base
  import opened Rounds
  import opened Committees
  import opened Manager
  import opened Consensus
  import Runs

  const LAST_ROUND: Round := Validator(U32_MAX)

  // ---- When a validator holds the lock ----

  /** Among proposals without a certificate, the validator accepts none but for the given block. */
  ghost predicate AcceptsOnly(cfg: Config, s: State, block: Block) {
    forall p: BlockProposal {:trigger CheckProposedBlock(cfg.ownership, s, p)} ::
      p.validatedBlockCertificate.None? && cfg.MayPropose(p) && CheckProposedBlock(cfg.ownership, s, p) == Ok(Accept)
      ==> p.content.block == block
  }

  /** The fast proposal is still stored, or a newer lock demands certificates, or no round is left. */
  predicate HoldsLock(s: State)
    requires s.proposed.Some?
  {
    s.proposed.value.content.round.Fast? || s.locked.Some? || s.proposed.value.content.round == LAST_ROUND
  }

  lemma FastVoteBacked(cfg: Config, net: Network, v: ValidatorName, a: ExecutedBlock)
    requires Inv(cfg, net) && v in net && Vote(ConfirmedBlock(a), Fast) in net[v].votes
    ensures VoteBacked(cfg, net, net[v].state, Vote(ConfirmedBlock(a), Fast))
  {
    var k :| 0 <= k < |net[v].votes| && net[v].votes[k] == Vote(ConfirmedBlock(a), Fast);
    assert VoteBacked(cfg, net, net[v].state, net[v].votes[k]);
  }

  lemma HeldLockAccepts(cfg: Config, s: State, block: Block, p: BlockProposal)
    requires s.proposed.Some? && HoldsLock(s)
    requires s.proposed.value.content.round.Fast? ==> s.proposed.value.content.block == block
    requires p.validatedBlockCertificate.None? && CheckProposedBlock(cfg.ownership, s, p) == Ok(Accept)
    ensures p.content.block == block
  {
    AcceptedProposalRound(cfg.ownership, s, p);
  }

  /** A proposal for another block that a validator without the lock accepts. */
  lemma LostLockAccepts(cfg: Config, s: State, block: Block, boss: Owner) returns (p: BlockProposal)
    requires Tracked(cfg.ownership, s) && s.proposed.Some? && !HoldsLock(s) && boss in cfg.ownership.superOwners
    ensures p.validatedBlockCertificate.None? && cfg.MayPropose(p) && p.content.block != block
    ensures CheckProposedBlock(cfg.ownership, s, p) == Ok(Accept)
  {
    var stored := s.proposed.value.content.round;
    var round := cfg.ownership.RoundAfterTimeout(s.currentRound);
    NextRoundIncreases(cfg.ownership, s.currentRound);
    assert Rank(stored) <= Rank(s.currentRound) <= Rank(round);
    RankIsDerivedOrder(stored, LAST_ROUND);
    p := BlockProposal(ProposalContent(Block(0, block.content + 1), round, None), boss, None);
  }

  /**
   A validator that voted for a block in the fast round accepts no other block without a certificate if and
   only if it holds the lock.
   */
  lemma FastLockExact(cfg: Config, net: Network, v: ValidatorName, a: ExecutedBlock)
    requires Inv(cfg, net) && v in net && Vote(ConfirmedBlock(a), Fast) in net[v].votes
    ensures net[v].state.proposed.Some?
    ensures AcceptsOnly(cfg, net[v].state, a.block) <==> HoldsLock(net[v].state)
  {
    FastVoteBacked(cfg, net, v, a);
    var s := net[v].state;
    if HoldsLock(s) {
      forall p: BlockProposal | p.validatedBlockCertificate.None? && CheckProposedBlock(cfg.ownership, s, p) == Ok(Accept)
        ensures p.content.block == a.block
      {
        HeldLockAccepts(cfg, s, a.block, p);
      }
    } else {
      var boss :| boss in cfg.ownership.superOwners;
      var p := LostLockAccepts(cfg, s, a.block, boss);
    }
  }

  // ---- A run that confirms two blocks ----

  /** A super owner proposes a block without a certificate. */
  function Offer(boss: Owner, x: ExecutedBlock, r: Round): Input {
    Proposed(BlockProposal(ProposalContent(x.block, r, None), boss, None), x.outcome, 0)
  }

  /** The node has stored a proposal, or none, and nothing holds it back but a fast proposal. */
  ghost predicate Free(o: ChainOwnership, n: Node, x: ExecutedBlock, r: Round) {
    && Tracked(o, n.state) && n.state.locked.None? && Rank(n.state.currentRound) <= Rank(r)
    && (n.state.proposed.Some? ==>
          && Rank(n.state.proposed.value.content.round) < Rank(r)
          && (n.state.proposed.value.content.round.Fast? ==> n.state.proposed.value.content.block == x.block))
  }

  lemma OfferAccepted(o: ChainOwnership, n: Node, boss: Owner, x: ExecutedBlock, r: Round)
    requires boss in o.superOwners && x.block.height < U64_MAX && Free(o, n, x, r)
    ensures var after := NodeStep(o, n, Offer(boss, x, r));
            && after.votes == n.votes + [Vote(if r.Fast? then ConfirmedBlock(x) else ValidatedBlock(x), r)]
            && Tracked(o, after.state) && after.state.currentRound == r && after.state.locked.None?
            && after.state.proposed == Some(Offer(boss, x, r).proposal)
            && after.state.pending == Some(Vote(if r.Fast? then ConfirmedBlock(x) else ValidatedBlock(x), r))
  {
    var p := Offer(boss, x, r).proposal;
    assert CheckProposedBlock(o, n.state, p) == Ok(Accept);
    CreateVoteTracks(o, n.state, p, x.outcome, true, 0);
    UpdateKeeps(o, n.state.(proposed := Some(p)), 0);
  }

  lemma RunExtended(cfg: Config, run: seq<Network>, next: Network)
    requires IsRun(cfg, run) && CanStep(cfg, run[|run| - 1], next)
    ensures IsRun(cfg, run + [next])
  {
    Runs.Extended(run, (a: Network, b: Network) => CanStep(cfg, a, b), next);
  }

  /** The run goes on with one request that reaches the given validator. */
  lemma GoOn(cfg: Config, run: seq<Network>, v: ValidatorName, i: Input) returns (longer: seq<Network>)
    requires IsRun(cfg, run) && Matches(cfg, run[|run| - 1]) && v in run[|run| - 1]
    requires Checked(cfg, run[|run| - 1], i)
    ensures IsRun(cfg, longer) && longer[0] == run[0]
    ensures Matches(cfg, longer[|longer| - 1]) && v in longer[|longer| - 1]
    ensures longer[|longer| - 1][v] == NodeStep(cfg.ownership, run[|run| - 1][v], i)
  {
    var net := run[|run| - 1];
    var next: Network := net[v := NodeStep(cfg.ownership, net[v], i)];
    assert next.Keys == net.Keys;
    assert Next(cfg, net, next, v, i);
    RunExtended(cfg, run, next);
    longer := run + [next];
  }

  /** The validator's own vote to validate, taken as a certificate, makes it vote to confirm. */
  lemma OwnVoteConfirms(o: ChainOwnership, n: Node, v: ValidatorName, x: ExecutedBlock, r: Round)
    requires n.state.pending == Some(Vote(ValidatedBlock(x), r))
    requires n.state.locked.None? && n.state.currentRound == r
    ensures NodeStep(o, n, Validated(Certificate(ValidatedBlock(x), r, {v}), 0)).votes
         == n.votes + [Vote(ConfirmedBlock(x), r)]
  {
  }

  lemma OneSigner(cfg: Config, net: Network, v: ValidatorName, value: Value, r: Round)
    requires Matches(cfg, net) && v in net && cfg.committee.IsQuorum({v}) && Vote(value, r) in net[v].votes
    ensures Certified(cfg, net, value, r)
  {
    assert CanSign(cfg, net, {v}, value, r);
  }

  /** The node after the three proposals. */
  lemma ThreeOffers(o: ChainOwnership, n: Node, boss: Owner, a: ExecutedBlock, b: ExecutedBlock)
    requires boss in o.superOwners && n.votes == [] && exists t: u64 :: n.state == NewState(o, t)
    requires a.block.height < U64_MAX && b.block.height < U64_MAX
    ensures var n1 := NodeStep(o, n, Offer(boss, a, Fast));
            var n2 := NodeStep(o, n1, Offer(boss, a, MultiLeader(0)));
            var n3 := NodeStep(o, n2, Offer(boss, b, MultiLeader(1)));
            && n3.votes == [Vote(ConfirmedBlock(a), Fast), Vote(ValidatedBlock(a), MultiLeader(0)),
                            Vote(ValidatedBlock(b), MultiLeader(1))]
            && n3.state.pending == Some(Vote(ValidatedBlock(b), MultiLeader(1)))
            && n3.state.locked.None? && n3.state.currentRound == MultiLeader(1)
  {
    OfferAccepted(o, n, boss, a, Fast);
    var n1 := NodeStep(o, n, Offer(boss, a, Fast));
    assert Free(o, n1, a, MultiLeader(0));
    OfferAccepted(o, n1, boss, a, MultiLeader(0));
    var n2 := NodeStep(o, n1, Offer(boss, a, MultiLeader(0)));
    assert Free(o, n2, b, MultiLeader(1));
    OfferAccepted(o, n2, boss, b, MultiLeader(1));
  }

  /**
   With super owners, a height can be confirmed twice: a block is confirmed in the fast round, proposed again
   in a later round, which replaces the stored fast proposal, and then another block goes through. The run
   uses a single validator that is a quorum by itself.
   */
  lemma TwoBlocksConfirmed(cfg: Config, net: Network, v: ValidatorName, boss: Owner, a: ExecutedBlock, b: ExecutedBlock)
    returns (run: seq<Network>)
    requires Init(cfg, net) && v in net && cfg.committee.IsQuorum({v}) && boss in cfg.ownership.superOwners
    requires a.block.height < U64_MAX && b.block.height < U64_MAX
    ensures IsRun(cfg, run) && run[0] == net && Matches(cfg, run[|run| - 1])
    ensures Certified(cfg, run[|run| - 1], ConfirmedBlock(a), Fast)
    ensures Certified(cfg, run[|run| - 1], ConfirmedBlock(b), MultiLeader(1))
  {
    InitInv(cfg, net);
    ThreeOffers(cfg.ownership, net[v], boss, a, b);
    run := GoOn(cfg, [net], v, Offer(boss, a, Fast));
    run := GoOn(cfg, run, v, Offer(boss, a, MultiLeader(0)));
    run := GoOn(cfg, run, v, Offer(boss, b, MultiLeader(1)));
    var n := run[|run| - 1][v];
    assert n.votes[0] == Vote(ConfirmedBlock(a), Fast) && n.votes[2] == Vote(ValidatedBlock(b), MultiLeader(1));
    var c := Certificate(ValidatedBlock(b), MultiLeader(1), {v});
    assert CanSign(cfg, run[|run| - 1], c.signers, c.value, c.round);
    OwnVoteConfirms(cfg.ownership, n, v, b, MultiLeader(1));
    run := GoOn(cfg, run, v, Validated(c, 0));
    assert run[|run| - 1][v].votes[0] == n.votes[0];
    OneSigner(cfg, run[|run| - 1], v, ConfirmedBlock(a), Fast);
    OneSigner(cfg, run[|run| - 1], v, ConfirmedBlock(b), MultiLeader(1));
  }

  /** One validator with all the votes. */
  lemma SoleValidator(v: ValidatorName, weight: nat) returns (c: Committee)
    requires weight > 0
    ensures c.Valid() && c.validators == map[v := weight] && c.IsQuorum({v}) && c.WeightOf({}) < c.validityThreshold
  {
    c := Committee(map[v := weight], weight, 2 * weight / 3 + 1, (weight + 2) / 3);
    WeightOfRemove(c, {v}, v);
    assert {v} - {v} == {} && c.validators.Keys == {v};
  }

  /** For every ownership with a super owner, agreement across all rounds fails. */
  lemma AgreementFails(o: ChainOwnership, leaders: Leaders, v: ValidatorName, a: ExecutedBlock, b: ExecutedBlock)
    returns (cfg: Config, run: seq<Network>)
    requires o.superOwners != map[] && a != b && a.block.height < U64_MAX && b.block.height < U64_MAX
    ensures cfg.ownership == o && IsRun(cfg, run) && Matches(cfg, run[|run| - 1])
    ensures Certified(cfg, run[|run| - 1], ConfirmedBlock(a), Fast)
    ensures Certified(cfg, run[|run| - 1], ConfirmedBlock(b), MultiLeader(1))
  {
    var boss :| boss in o.superOwners;
    var committee := SoleValidator(v, 1);
    cfg := Config(committee, o, leaders, {v});
    assert cfg.Faulty() == {};
    var net: Network := map[v := Node(NewState(o, 0), [])];
    assert net.Keys == {v};
    run := TwoBlocksConfirmed(cfg, net, v, boss, a, b);
  }

  // ---- Runs that respect the lock ----

  /** A validator that voted fast accepts no certificate-free proposal for another executed block. */
  ghost predicate Careful(o: ChainOwnership, n: Node, i: Input) {
    i.Proposed? && i.proposal.validatedBlockCertificate.None? && CheckProposedBlock(o, n.state, i.proposal) == Ok(Accept)
    ==> forall a :: Vote(ConfirmedBlock(a), Fast) in n.votes ==> a == ExecutedBlock(i.proposal.content.block, i.outcome)
  }

  ghost predicate CarefulStep(cfg: Config, net: Network, net': Network) {
    exists v, i :: Next(cfg, net, net', v, i) && Careful(cfg.ownership, net[v], i)
  }

  ghost predicate IsCarefulRun(cfg: Config, run: seq<Network>) {
    |run| > 0 && Init(cfg, run[0]) && Runs.Steps(run, (a, b) => CarefulStep(cfg, a, b))
  }

  lemma CarefulIsRun(cfg: Config, run: seq<Network>)
    requires IsCarefulRun(cfg, run)
    ensures IsRun(cfg, run)
  {
    Runs.Weakened(run, (a, b) => CarefulStep(cfg, a, b), _ => true, (a, b) => CanStep(cfg, a, b));
  }

  /** After a fast confirmation, a vote to validate is for the same block or rests on a certificate. */
  ghost predicate FastKept(cfg: Config, net: Network, confirmed: Vote, validated: Vote)
    requires Matches(cfg, net)
  {
    ConfirmsFast(confirmed) && validated.value.ValidatedBlock? ==>
      || validated.value.executedBlock == confirmed.value.executedBlock
      || Relocked(cfg, net, confirmed, validated)
  }

  ghost predicate NodeKept(cfg: Config, net: Network, votes: seq<Vote>)
    requires Matches(cfg, net)
  {
    forall x, y {:trigger FastKept(cfg, net, x, y)} :: x in votes && y in votes ==> FastKept(cfg, net, x, y)
  }

  ghost predicate Kept(cfg: Config, net: Network) {
    Inv(cfg, net) && forall v <- net :: NodeKept(cfg, net, net[v].votes)
  }

  lemma NodeKeptGrows(cfg: Config, net: Network, net': Network, votes: seq<Vote>)
    requires Grows(cfg, net, net') && NodeKept(cfg, net, votes)
    ensures NodeKept(cfg, net', votes)
  {
    forall x, y | x in votes && y in votes
      ensures FastKept(cfg, net', x, y)
    {
      assert FastKept(cfg, net, x, y);
      if ConfirmsFast(x) && y.value.ValidatedBlock? && y.value.executedBlock != x.value.executedBlock {
        var r: Round :| Rank(x.round) <= Rank(r) < Rank(y.round) && Certified(cfg, net, y.value, r);
        CertifiedGrows(cfg, net, net', y.value, r);
      }
    }
  }

  /** No vote to validate precedes a fast confirmation. */
  lemma FastComesFirst(cfg: Config, net: Network, n: Node, i: Input, y: Vote)
    requires Inv(cfg, net) && NodeInv(cfg, net, n) && Checked(cfg, net, i) && y in n.votes && y.value.ValidatedBlock?
    requires CastVote(cfg.ownership, n.state, i).Some?
    ensures !ConfirmsFast(CastVote(cfg.ownership, n.state, i).value)
  {
    var k :| 0 <= k < |n.votes| && n.votes[k] == y;
    assert VoteBacked(cfg, net, n.state, n.votes[k]);
    match i
    case Proposed(p, outcome, t) => ProposalVoteOrdered(cfg, net, n, p, outcome, t, k);
    case Validated(c, t) => FinalVoteOrdered(cfg, net, n, c, t, k);
    case TimedOut(_, _) =>
  }

  /** A new vote to validate keeps the promise of the fast votes before it. */
  lemma ValidationKept(cfg: Config, net: Network, n: Node, i: Input, x: Vote)
    requires Inv(cfg, net) && Checked(cfg, net, i) && Careful(cfg.ownership, n, i)
    requires x in n.votes && ConfirmsFast(x) && CastVote(cfg.ownership, n.state, i).Some?
    ensures FastKept(cfg, net, x, CastVote(cfg.ownership, n.state, i).value)
  {
    if i.Proposed? {
      var p := i.proposal;
      var vote := CastVote(cfg.ownership, n.state, i).value;
      if p.validatedBlockCertificate.Some? {
        AcceptedProposalRound(cfg.ownership, n.state, p);
        var cert := p.validatedBlockCertificate.value;
        if vote.value.ValidatedBlock? {
          assert CanSign(cfg, net, cert.signers, vote.value, cert.round);
          assert Rank(x.round) <= Rank(cert.round) < Rank(vote.round);
        }
      } else {
        assert Vote(ConfirmedBlock(x.value.executedBlock), Fast) == x;
      }
    }
  }

  lemma NodeStepKept(cfg: Config, net: Network, n: Node, i: Input)
    requires Inv(cfg, net) && NodeInv(cfg, net, n) && NodeKept(cfg, net, n.votes)
    requires Checked(cfg, net, i) && Careful(cfg.ownership, n, i)
    ensures NodeKept(cfg, net, NodeStep(cfg.ownership, n, i).votes)
  {
    var cast := CastVote(cfg.ownership, n.state, i);
    var votes := NodeStep(cfg.ownership, n, i).votes;
    forall x, y | x in votes && y in votes
      ensures FastKept(cfg, net, x, y)
    {
      if ConfirmsFast(x) && y.value.ValidatedBlock? {
        if x in n.votes && y in n.votes {
          assert FastKept(cfg, net, x, y);
        } else if x in n.votes {
          ValidationKept(cfg, net, n, i, x);
        } else if y in n.votes {
          FastComesFirst(cfg, net, n, i, y);
        }
      }
    }
  }

  lemma StepKept(cfg: Config, net: Network, net': Network, v: ValidatorName, i: Input, u: ValidatorName)
    requires Kept(cfg, net) && Next(cfg, net, net', v, i) && Careful(cfg.ownership, net[v], i)
    requires Grows(cfg, net, net') && u in net
    ensures NodeKept(cfg, net', net'[u].votes)
  {
    if u == v {
      NodeStepKept(cfg, net, net[v], i);
    }
    NodeKeptGrows(cfg, net, net', net'[u].votes);
  }

  lemma CarefulStepKept(cfg: Config, net: Network, net': Network)
    requires Kept(cfg, net) && CarefulStep(cfg, net, net')
    ensures Kept(cfg, net')
  {
    var v, i :| Next(cfg, net, net', v, i) && Careful(cfg.ownership, net[v], i);
    assert CanStep(cfg, net, net');
    StepInv(cfg, net, net');
    StepGrows(cfg, net, net');
    forall u <- net'
      ensures NodeKept(cfg, net', net'[u].votes)
    {
      StepKept(cfg, net, net', v, i, u);
    }
  }

  lemma CarefulRunKept(cfg: Config, run: seq<Network>, k: nat)
    requires IsCarefulRun(cfg, run) && k < |run|
    ensures Kept(cfg, run[k])
  {
    InitInv(cfg, run[0]);
    forall a, b | Kept(cfg, a) && CarefulStep(cfg, a, b)
      ensures Kept(cfg, b)
    {
      CarefulStepKept(cfg, a, b);
    }
    Runs.InvariantHolds(run, (a, b) => CarefulStep(cfg, a, b), a => Kept(cfg, a), 0, k);
  }

  /** Lock persistence from the fast round on, along the certificates that proposals carry. */
  lemma {:induction false} FastLockPersists(cfg: Config, net: Network, a: ExecutedBlock, b: ExecutedBlock, r: Round)
    requires Kept(cfg, net)
    requires Certified(cfg, net, ConfirmedBlock(a), Fast) && Certified(cfg, net, ValidatedBlock(b), r)
    ensures a == b
    decreases Rank(r)
  {
    var v := CommonSigner(cfg, net, ConfirmedBlock(a), Fast, ValidatedBlock(b), r);
    var x, y := Vote(ConfirmedBlock(a), Fast), Vote(ValidatedBlock(b), r);
    assert FastKept(cfg, net, x, y);
    if a != b {
      var q: Round :| Rank(Fast) <= Rank(q) < Rank(r) && Certified(cfg, net, y.value, q);
      FastLockPersists(cfg, net, a, b, q);
    }
  }

  lemma FastAgreesWithSlow(cfg: Config, net: Network, a: ExecutedBlock, b: ExecutedBlock, r: Round)
    requires Kept(cfg, net) && !r.Fast?
    requires Certified(cfg, net, ConfirmedBlock(a), Fast) && Certified(cfg, net, ConfirmedBlock(b), r)
    ensures a == b
  {
    ConfirmedWasValidated(cfg, net, b, r);
    FastLockPersists(cfg, net, a, b, r);
  }

  /**
   Full agreement: if no honest validator that voted fast accepts a certificate-free proposal for another
   executed block, any two confirmation certificates of the run carry the same executed block.
   */
  lemma CarefulAgreement(cfg: Config, run: seq<Network>, i: nat, j: nat,
                         a: ExecutedBlock, s: Round, b: ExecutedBlock, r: Round)
    requires IsCarefulRun(cfg, run) && i < |run| && j < |run|
    requires Matches(cfg, run[i]) && Certified(cfg, run[i], ConfirmedBlock(a), s)
    requires Matches(cfg, run[j]) && Certified(cfg, run[j], ConfirmedBlock(b), r)
    ensures a == b
  {
    CarefulIsRun(cfg, run);
    if s.Fast? <==> r.Fast? {
      Agreement(cfg, run, i, j, a, s, b, r);
    } else {
      var last := |run| - 1;
      CarefulRunKept(cfg, run, last);
      RunGrows(cfg, run, i, last);
      RunGrows(cfg, run, j, last);
      CertifiedGrows(cfg, run[i], run[last], ConfirmedBlock(a), s);
      CertifiedGrows(cfg, run[j], run[last], ConfirmedBlock(b), r);
      if s.Fast? {
        FastAgreesWithSlow(cfg, run[last], a, b, r);
      } else {
        FastAgreesWithSlow(cfg, run[last], b, a, s);
      }
    }
  }

  // ---- The same with the condition on the state of the validator ----

  /** Executing a block without the responses forced by a certificate has one outcome. */
  predicate Executes(execute: Block -> nat, i: Input) {
    i.Proposed? && i.proposal.validatedBlockCertificate.None? ==> i.outcome == execute(i.proposal.content.block)
  }

  /** The validator that moves has not voted fast, or still holds the lock. */
  ghost predicate LockedStep(cfg: Config, execute: Block -> nat, net: Network, net': Network) {
    exists v, i :: Next(cfg, net, net', v, i) && Executes(execute, i) && Guarded(net[v])
  }

  ghost predicate Guarded(n: Node) {
    (exists a :: Vote(ConfirmedBlock(a), Fast) in n.votes) ==> n.state.proposed.Some? && HoldsLock(n.state)
  }

  ghost predicate IsLockedRun(cfg: Config, execute: Block -> nat, run: seq<Network>) {
    |run| > 0 && Init(cfg, run[0]) && Runs.Steps(run, (a, b) => LockedStep(cfg, execute, a, b))
  }

  /** Fast votes are for the outcome that execution gives. */
  ghost predicate FastExecuted(execute: Block -> nat, votes: seq<Vote>) {
    forall x <- votes :: ConfirmsFast(x) ==> x.value.executedBlock.outcome == execute(x.value.executedBlock.block)
  }

  ghost predicate Executed(cfg: Config, execute: Block -> nat, net: Network) {
    Inv(cfg, net) && forall v <- net :: FastExecuted(execute, net[v].votes)
  }

  lemma GuardedIsCareful(cfg: Config, execute: Block -> nat, net: Network, v: ValidatorName, i: Input)
    requires Executed(cfg, execute, net) && v in net && Executes(execute, i) && Guarded(net[v])
    ensures Careful(cfg.ownership, net[v], i)
  {
    if i.Proposed? && i.proposal.validatedBlockCertificate.None?
       && CheckProposedBlock(cfg.ownership, net[v].state, i.proposal) == Ok(Accept) {
      forall a | Vote(ConfirmedBlock(a), Fast) in net[v].votes
        ensures a == ExecutedBlock(i.proposal.content.block, i.outcome)
      {
        FastVoteBacked(cfg, net, v, a);
        HeldLockAccepts(cfg, net[v].state, a.block, i.proposal);
        assert ConfirmsFast(Vote(ConfirmedBlock(a), Fast));
      }
    }
  }

  lemma FastVoteExecuted(cfg: Config, execute: Block -> nat, net: Network, n: Node, i: Input)
    requires Inv(cfg, net) && Checked(cfg, net, i) && Executes(execute, i) && FastExecuted(execute, n.votes)
    ensures FastExecuted(execute, NodeStep(cfg.ownership, n, i).votes)
  {
    var cast := CastVote(cfg.ownership, n.state, i);
    if cast.Some? && ConfirmsFast(cast.value) {
      match i
      case Proposed(p, outcome, t) => AcceptedProposalRound(cfg.ownership, n.state, p);
      case Validated(c, t) =>
        assert Certified(cfg, net, c.value, c.round);
        NoFastValidation(cfg, net, c.value, c.round);
      case TimedOut(_, _) =>
    }
  }

  lemma StepExecuted(cfg: Config, execute: Block -> nat, net: Network, net': Network, v: ValidatorName, i: Input,
                     u: ValidatorName)
    requires Executed(cfg, execute, net) && Next(cfg, net, net', v, i) && Executes(execute, i) && u in net'
    ensures FastExecuted(execute, net'[u].votes)
  {
    if u == v {
      FastVoteExecuted(cfg, execute, net, net[v], i);
    } else {
      assert net'[u] == net[u];
    }
  }

  lemma LockedStepCareful(cfg: Config, execute: Block -> nat, net: Network, net': Network)
    requires Executed(cfg, execute, net) && LockedStep(cfg, execute, net, net')
    ensures Executed(cfg, execute, net') && CarefulStep(cfg, net, net')
  {
    var v, i :| Next(cfg, net, net', v, i) && Executes(execute, i) && Guarded(net[v]);
    assert CanStep(cfg, net, net');
    StepInv(cfg, net, net');
    forall u <- net'
      ensures FastExecuted(execute, net'[u].votes)
    {
      StepExecuted(cfg, execute, net, net', v, i, u);
    }
    assert CarefulStep(cfg, net, net') by {
      GuardedIsCareful(cfg, execute, net, v, i);
    }
  }

  /**
   If every validator that voted fast holds the lock whenever it moves, and execution is deterministic, any
   two confirmation certificates of the run carry the same executed block.
   */
  lemma LockedAgreement(cfg: Config, execute: Block -> nat, run: seq<Network>, i: nat, j: nat,
                        a: ExecutedBlock, s: Round, b: ExecutedBlock, r: Round)
    requires IsLockedRun(cfg, execute, run) && i < |run| && j < |run|
    requires Matches(cfg, run[i]) && Certified(cfg, run[i], ConfirmedBlock(a), s)
    requires Matches(cfg, run[j]) && Certified(cfg, run[j], ConfirmedBlock(b), r)
    ensures a == b
  {
    InitInv(cfg, run[0]);
    forall x, y | Executed(cfg, execute, x) && LockedStep(cfg, execute, x, y)
      ensures Executed(cfg, execute, y) && CarefulStep(cfg, x, y)
    {
      LockedStepCareful(cfg, execute, x, y);
    }
    Runs.Weakened(run, (x, y) => LockedStep(cfg, execute, x, y), x => Executed(cfg, execute, x),
                  (x, y) => CarefulStep(cfg, x, y));
    CarefulAgreement(cfg, run, i, j, a, s, b, r);
  }
}
