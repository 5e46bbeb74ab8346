/** What the checks of the chain manager let through: who may enter which round, and what a lock demands. */
module VotingRules {
  import opened Base
  import opened Rounds
  import opened Manager

  /** No proposal at or above the given round is stored. */
  predicate NothingStoredFrom(s: State, r: Round) {
    s.proposed.Some? ==> Rank(s.proposed.value.content.round) < Rank(r)
  }

  // ---- Who may enter which round ----

  /** In the fast round a regular owner without a certificate cannot move on to a later round. */
  lemma RegularOwnerStaysFast(o: ChainOwnership, s: State, p: BlockProposal)
    requires s.currentRound.Fast? && p.validatedBlockCertificate.None? && p.owner !in o.superOwners
    requires !p.content.round.Fast? && p.content.block.height < U64_MAX
    ensures CheckProposedBlock(o, s, p) == Err(WrongRound(Fast))
  {
  }

  /** Outside the fast round every owner may go ahead to any round up to the first single-leader round. */
  lemma AnyOwnerEntersEarly(o: ChainOwnership, s: State, p: BlockProposal)
    requires !s.currentRound.Fast? && p.validatedBlockCertificate.None? && p.content.block.height < U64_MAX
    requires Rank(s.currentRound) <= Rank(p.content.round) <= Rank(SingleLeader(0))
    requires s.locked.None? && NothingStoredFrom(s, p.content.round)
    requires s.proposed.Some? && s.proposed.value.content.round.Fast? ==> s.proposed.value.content.block == p.content.block
    ensures CheckProposedBlock(o, s, p) == Ok(Accept)
  {
  }

  /** A super owner may go ahead to any round at all. */
  lemma SuperOwnerEntersEarly(o: ChainOwnership, s: State, p: BlockProposal)
    requires p.owner in o.superOwners && p.validatedBlockCertificate.None? && p.content.block.height < U64_MAX
    requires Rank(s.currentRound) <= Rank(p.content.round)
    requires s.locked.None? && NothingStoredFrom(s, p.content.round)
    requires s.proposed.Some? && s.proposed.value.content.round.Fast? ==> s.proposed.value.content.block == p.content.block
    ensures CheckProposedBlock(o, s, p) == Ok(Accept)
  {
  }

  /** The round in which a proposal is due: the current one, or the one after its certificate if that is later. */
  function DueRound(o: ChainOwnership, s: State, p: BlockProposal): Round {
    match p.validatedBlockCertificate
    case None => s.currentRound
    case Some(cert) => MaxRound(o.RoundAfterTimeout(cert.round), s.currentRound)
  }

  /** Above the first single-leader round a regular owner is accepted only in exactly the round that is due. */
  lemma RegularOwnerWaits(o: ChainOwnership, s: State, p: BlockProposal)
    requires p.owner !in o.superOwners && Rank(p.content.round) > Rank(SingleLeader(0))
    requires CheckProposedBlock(o, s, p) == Ok(Accept)
    ensures p.content.round == DueRound(o, s, p)
  {
    RankIsDerivedOrder(p.content.round, DueRound(o, s, p));
  }

  /**
   Who is accepted, in full. The round must not be before the due round, and be the due round itself unless a
   super owner proposes, or the due round is not the fast one and the round is at most the first single-leader
   round; nothing may be stored from that round on; a stored fast proposal pins the block of proposals
   without a certificate; a lock demands a certificate that is at least as recent; and the successor of the
   certificate's round must exist.
   */
  lemma AcceptedExactly(o: ChainOwnership, s: State, p: BlockProposal)
    requires p.content.block.height < U64_MAX
    ensures var r, due := p.content.round, DueRound(o, s, p);
            CheckProposedBlock(o, s, p) == Ok(Accept) <==>
              && (Rank(r) > Rank(due) ==> p.owner in o.superOwners || (!due.Fast? && Rank(r) <= Rank(SingleLeader(0))))
              && Rank(due) <= Rank(r)
              && NothingStoredFrom(s, r)
              && (s.proposed.Some? && s.proposed.value.content.round.Fast? && p.validatedBlockCertificate.None?
                  ==> s.proposed.value.content.block == p.content.block)
              && (s.locked.Some? ==>
                    && p.validatedBlockCertificate.Some?
                    && Rank(s.locked.value.round) <= Rank(p.validatedBlockCertificate.value.round))
              && (p.validatedBlockCertificate.Some? ==> o.NextRound(p.validatedBlockCertificate.value.round).Some?)
  {
    RankIsDerivedOrder(p.content.round, DueRound(o, s, p));
  }

  /** A wrong round is reported with the due round: as too low to those who may go ahead, as wrong to others. */
  lemma RoundErrors(o: ChainOwnership, s: State, p: BlockProposal)
    requires p.content.block.height < U64_MAX
    requires p.validatedBlockCertificate.Some? ==> o.NextRound(p.validatedBlockCertificate.value.round).Some?
    ensures var r, due := p.content.round, DueRound(o, s, p);
            var ahead := p.owner in o.superOwners || (!due.Fast? && Rank(r) <= Rank(SingleLeader(0)));
            && (CheckProposedBlock(o, s, p) == Err(InsufficientRound(due)) <==> ahead && Rank(r) < Rank(due))
            && (CheckProposedBlock(o, s, p) == Err(WrongRound(due)) <==> !ahead && r != due)
  {
  }

  /** A proposal in time that the lock does not allow is refused with the height and round of the lock. */
  lemma LockRefuses(o: ChainOwnership, s: State, p: BlockProposal)
    requires p.content.block.height < U64_MAX && p.content.round == DueRound(o, s, p)
    requires p.validatedBlockCertificate.Some? ==> o.NextRound(p.validatedBlockCertificate.value.round).Some?
    requires s.locked.Some? && NothingStoredFrom(s, p.content.round)
    requires s.proposed.Some? ==> !s.proposed.value.content.round.Fast?
    requires p.validatedBlockCertificate.None?
             || Rank(p.validatedBlockCertificate.value.round) < Rank(s.locked.value.round)
    ensures CheckProposedBlock(o, s, p) == Err(HasLockedBlock(HeightOf(s.locked.value.value), s.locked.value.round))
  {
  }

  /** With a certificate that the lock allows, every owner is accepted in the due round. */
  lemma CertificateOpensDueRound(o: ChainOwnership, s: State, p: BlockProposal)
    requires p.validatedBlockCertificate.Some? && p.content.block.height < U64_MAX
    requires o.NextRound(p.validatedBlockCertificate.value.round).Some? && p.content.round == DueRound(o, s, p)
    requires s.locked.Some? ==> Rank(s.locked.value.round) <= Rank(p.validatedBlockCertificate.value.round)
    requires NothingStoredFrom(s, p.content.round)
    ensures CheckProposedBlock(o, s, p) == Ok(Accept)
  {
    AcceptedExactly(o, s, p);
  }

  /** The last height is refused before anything else is looked at. */
  lemma LastHeightRefused(o: ChainOwnership, s: State, p: BlockProposal)
    ensures CheckProposedBlock(o, s, p) == Err(InvalidBlockHeight) <==> p.content.block.height == U64_MAX
  {
  }

  // ---- Repeated requests change nothing ----

  /** A proposal that was accepted is recognised when it comes again. */
  lemma AcceptedThenSkipped(o: ChainOwnership, s: State, p: BlockProposal, outcome: nat, hasKey: bool, localTime: u64)
    requires Tracked(o, s) && CheckProposedBlock(o, s, p) == Ok(Accept)
    ensures CheckProposedBlock(o, CreateVote(o, s, p, outcome, hasKey, localTime), p) == Ok(Skip)
  {
    CreateVoteTracks(o, s, p, outcome, hasKey, localTime);
    AcceptedProposalRound(o, s, p);
    UpdateKeeps(o, s.(proposed := Some(p)), localTime);
    if p.validatedBlockCertificate.Some? {
      RankIsDerivedOrder(p.content.round, MaxRound(o.NextRound(p.validatedBlockCertificate.value.round).value, p.content.round));
    }
  }

  /** Nothing else is skipped but a proposal with the stored content. */
  lemma SkippedIsStored(o: ChainOwnership, s: State, p: BlockProposal)
    requires CheckProposedBlock(o, s, p) == Ok(Skip)
    ensures s.proposed.Some? && s.proposed.value.content == p.content
  {
  }

  /** A validated block that was confirmed is recognised when it comes again. */
  lemma ConfirmedThenSkipped(o: ChainOwnership, s: State, c: Certificate, hasKey: bool, localTime: u64)
    requires CheckValidatedBlock(s, c) == Ok(Accept) && c.value.ValidatedBlock?
    requires if hasKey then Rank(s.currentRound) <= Rank(c.round) else s.pending.None?
    ensures CheckValidatedBlock(CreateFinalVote(o, s, c, hasKey, localTime), c) == Ok(Skip)
  {
    UpdateKeeps(o, s.(locked := Some(c)), localTime);
  }

  /** A validated block is never accepted over a pending timeout vote, a later vote or a lock as recent. */
  lemma AcceptedCertificate(s: State, c: Certificate)
    requires CheckValidatedBlock(s, c) == Ok(Accept)
    ensures s.locked.Some? ==> Rank(s.locked.value.round) < Rank(c.round)
    ensures s.pending.Some? ==> !s.pending.value.value.Timeout?
    ensures s.pending.Some? && s.pending.value.value.ValidatedBlock? ==> Rank(s.pending.value.round) <= Rank(c.round)
    ensures s.pending.Some? && s.pending.value.value.ConfirmedBlock?
            ==> s.pending.value.round != c.round || BlockOf(s.pending.value.value) != BlockOf(c.value)
  {
  }
}
