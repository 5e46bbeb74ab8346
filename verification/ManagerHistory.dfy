/**
 The state of a chain manager as a function of the requests it has handled: nothing that a request brought is
 thrown away unless something at least as recent replaced it.
 */
module ManagerHistory {
  import opened Base
  import opened Rounds
  import opened Manager

  // ---- What each request contributes ----

  predicate AcceptsProposal(o: ChainOwnership, s: State, i: Input) {
    i.Proposed? && CheckProposedBlock(o, s, i.proposal) == Ok(Accept)
  }

  /** A validated block is taken up, unless a validator has already moved on to a later round. */
  predicate TakesValidated(hasKey: bool, s: State, i: Input) {
    && i.Validated? && i.certificate.value.ValidatedBlock?
    && CheckValidatedBlock(s, i.certificate) == Ok(Accept)
    && (hasKey ==> Rank(s.currentRound) <= Rank(i.certificate.round))
  }

  predicate BringsTimeout(i: Input) {
    i.TimedOut? && i.certificate.value.Timeout?
  }

  /** The certificate that an accepted proposal carries for the executed block. */
  function Carried(i: Input): Option<Certificate>
    requires i.Proposed?
  {
    match i.proposal.validatedBlockCertificate
    case None => None
    case Some(cert) =>
      if cert.value == ValidatedBlock(ExecutedBlock(i.proposal.content.block, i.outcome)) then Some(cert) else None
  }

  /** The certificate that a request offers as a lock. */
  function LockOffered(o: ChainOwnership, hasKey: bool, s: State, i: Input): Option<Certificate> {
    if AcceptsProposal(o, s, i) then Carried(i)
    else if TakesValidated(hasKey, s, i) then Some(i.certificate)
    else None
  }

  /** The round that a request gives reason to enter. */
  function RoundOffered(o: ChainOwnership, hasKey: bool, s: State, i: Input): Option<Round> {
    if AcceptsProposal(o, s, i) then Some(i.proposal.content.round)
    else if TakesValidated(hasKey, s, i) then Some(i.certificate.round)
    else if BringsTimeout(i) then Some(o.RoundAfterTimeout(i.certificate.round))
    else None
  }

  // ---- What a history contributes ----

  function ToSeq<T>(x: Option<T>): seq<T> {
    if x.Some? then [x.value] else []
  }

  function Proposals(o: ChainOwnership, hasKey: bool, s: State, inputs: seq<Input>): seq<BlockProposal>
    decreases |inputs|
  {
    if inputs == [] then []
    else (if AcceptsProposal(o, s, inputs[0]) then [inputs[0].proposal] else [])
         + Proposals(o, hasKey, Step(o, hasKey, s, inputs[0]), inputs[1..])
  }

  function Locks(o: ChainOwnership, hasKey: bool, s: State, inputs: seq<Input>): seq<Certificate>
    decreases |inputs|
  {
    if inputs == [] then []
    else ToSeq(LockOffered(o, hasKey, s, inputs[0])) + Locks(o, hasKey, Step(o, hasKey, s, inputs[0]), inputs[1..])
  }

  function Timeouts(inputs: seq<Input>): seq<Certificate> {
    if inputs == [] then []
    else (if BringsTimeout(inputs[0]) then [inputs[0].certificate] else []) + Timeouts(inputs[1..])
  }

  function RoundsOffered(o: ChainOwnership, hasKey: bool, s: State, inputs: seq<Input>): seq<Round>
    decreases |inputs|
  {
    if inputs == [] then []
    else ToSeq(RoundOffered(o, hasKey, s, inputs[0]))
         + RoundsOffered(o, hasKey, Step(o, hasKey, s, inputs[0]), inputs[1..])
  }

  // ---- The most recent of several ----

  function Latest(first: Option<BlockProposal>, proposals: seq<BlockProposal>): Option<BlockProposal> {
    if proposals == [] then first else Some(proposals[|proposals| - 1])
  }

  function NewerOf(held: Option<Certificate>, c: Certificate): Option<Certificate> {
    if held.Some? && Rank(c.round) <= Rank(held.value.round) then held else Some(c)
  }

  /** The certificate of the highest round, and the earliest of those. */
  function Newest(first: Option<Certificate>, certificates: seq<Certificate>): Option<Certificate>
    decreases |certificates|
  {
    if certificates == [] then first else Newest(NewerOf(first, certificates[0]), certificates[1..])
  }

  function Highest(first: Round, rounds: seq<Round>): Round
    decreases |rounds|
  {
    if rounds == [] then first else Highest(MaxRound(first, rounds[0]), rounds[1..])
  }

  /** The newest certificate is one of those given, and none of them is newer. */
  lemma {:induction false} NewestIsNewest(first: Option<Certificate>, certificates: seq<Certificate>)
    ensures Newest(first, certificates).None? <==> first.None? && certificates == []
    ensures Newest(first, certificates).Some? ==>
              var newest := Newest(first, certificates).value;
              && (first == Some(newest) || newest in certificates)
              && (first.Some? ==> Rank(first.value.round) <= Rank(newest.round))
              && (forall c <- certificates :: Rank(c.round) <= Rank(newest.round))
    decreases |certificates|
  {
    if certificates != [] {
      NewestIsNewest(NewerOf(first, certificates[0]), certificates[1..]);
      assert forall c <- certificates :: c == certificates[0] || c in certificates[1..];
    }
  }

  /** The highest round is one of those given, and none of them is higher. */
  lemma {:induction false} HighestIsHighest(first: Round, rounds: seq<Round>)
    ensures Highest(first, rounds) == first || Highest(first, rounds) in rounds
    ensures Rank(first) <= Rank(Highest(first, rounds))
    ensures forall r <- rounds :: Rank(r) <= Rank(Highest(first, rounds))
    decreases |rounds|
  {
    if rounds != [] {
      HighestIsHighest(MaxRound(first, rounds[0]), rounds[1..]);
      assert forall r <- rounds :: r == rounds[0] || r in rounds[1..];
    }
  }

  // ---- One request ----

  lemma StepProposal(o: ChainOwnership, hasKey: bool, s: State, i: Input)
    ensures Step(o, hasKey, s, i).proposed == if AcceptsProposal(o, s, i) then Some(i.proposal) else s.proposed
  {
  }

  lemma StepLock(o: ChainOwnership, hasKey: bool, s: State, i: Input)
    ensures Step(o, hasKey, s, i).locked
         == match LockOffered(o, hasKey, s, i) case Some(c) => NewerOf(s.locked, c) case None => s.locked
  {
    if i.Proposed? {
      UpdateKeeps(o, s.(proposed := Some(i.proposal)), i.localTime);
    }
  }

  lemma StepTimeout(o: ChainOwnership, hasKey: bool, s: State, i: Input)
    ensures Step(o, hasKey, s, i).timeout == if BringsTimeout(i) then NewerOf(s.timeout, i.certificate) else s.timeout
  {
  }

  lemma ConfirmRaises(o: ChainOwnership, hasKey: bool, s: State, c: Certificate, localTime: u64)
    requires Tracked(o, s) && TakesValidated(hasKey, s, Validated(c, localTime))
    ensures CreateFinalVote(o, s, c, hasKey, localTime).currentRound == MaxRound(s.currentRound, c.round)
  {
    var raised := s.(locked := Some(c));
    UpdateTracks(o, s, raised, localTime);
    RankIsDerivedOrder(KnownRound(o, raised), MaxRound(s.currentRound, c.round));
  }

  /** A newer timeout certificate raises what is known to the round after it. */
  lemma KnownAfterTimeout(o: ChainOwnership, s: State, c: Certificate)
    requires s.timeout.Some? ==> Rank(o.RoundAfterTimeout(s.timeout.value.round)) <= Rank(o.RoundAfterTimeout(c.round))
    ensures KnownRound(o, s.(timeout := Some(c))) == MaxRound(KnownRound(o, s), o.RoundAfterTimeout(c.round))
  {
    var next := o.RoundAfterTimeout(c.round);
    RankIsDerivedOrder(KnownRound(o, s.(timeout := Some(c))), MaxRound(KnownRound(o, s), next));
  }

  lemma TimeoutRaises(o: ChainOwnership, s: State, c: Certificate, localTime: u64)
    requires Tracked(o, s) && c.value.Timeout?
    ensures HandleTimeoutCertificate(o, s, c, localTime).currentRound
         == MaxRound(s.currentRound, o.RoundAfterTimeout(c.round))
  {
    if s.timeout.Some? && Rank(s.timeout.value.round) >= Rank(c.round) {
      RoundAfterTimeoutMonotone(o, c.round, s.timeout.value.round);
    } else {
      var raised := s.(timeout := Some(c));
      if s.timeout.Some? {
        RoundAfterTimeoutMonotone(o, s.timeout.value.round, c.round);
      }
      KnownAfterTimeout(o, s, c);
      UpdateTracks(o, s, raised, localTime);
    }
  }

  lemma StepRound(o: ChainOwnership, hasKey: bool, s: State, i: Input)
    requires Tracked(o, s)
    ensures Step(o, hasKey, s, i).currentRound
         == match RoundOffered(o, hasKey, s, i) case Some(r) => MaxRound(s.currentRound, r) case None => s.currentRound
  {
    match i
    case Proposed(p, outcome, t) =>
      if AcceptsProposal(o, s, i) {
        CreateVoteTracks(o, s, p, outcome, hasKey, t);
        RankIsDerivedOrder(s.currentRound, p.content.round);
      }
    case Validated(c, t) =>
      if TakesValidated(hasKey, s, i) {
        ConfirmRaises(o, hasKey, s, c, t);
      }
    case TimedOut(c, t) =>
      if BringsTimeout(i) {
        TimeoutRaises(o, s, c, t);
      }
  }

  // ---- Whole histories ----

  lemma {:induction false} RunProposal(o: ChainOwnership, hasKey: bool, s: State, inputs: seq<Input>)
    ensures Run(o, hasKey, s, inputs).proposed == Latest(s.proposed, Proposals(o, hasKey, s, inputs))
    decreases |inputs|
  {
    if inputs != [] {
      StepProposal(o, hasKey, s, inputs[0]);
      RunProposal(o, hasKey, Step(o, hasKey, s, inputs[0]), inputs[1..]);
    }
  }

  lemma {:induction false} RunLock(o: ChainOwnership, hasKey: bool, s: State, inputs: seq<Input>)
    ensures Run(o, hasKey, s, inputs).locked == Newest(s.locked, Locks(o, hasKey, s, inputs))
    decreases |inputs|
  {
    if inputs != [] {
      var next := Step(o, hasKey, s, inputs[0]);
      StepLock(o, hasKey, s, inputs[0]);
      RunLock(o, hasKey, next, inputs[1..]);
      var offered := LockOffered(o, hasKey, s, inputs[0]);
      var rest := Locks(o, hasKey, next, inputs[1..]);
      assert (ToSeq(offered) + rest)[|ToSeq(offered)|..] == rest;
    }
  }

  lemma {:induction false} RunTimeout(o: ChainOwnership, hasKey: bool, s: State, inputs: seq<Input>)
    ensures Run(o, hasKey, s, inputs).timeout == Newest(s.timeout, Timeouts(inputs))
    decreases |inputs|
  {
    if inputs != [] {
      var next := Step(o, hasKey, s, inputs[0]);
      StepTimeout(o, hasKey, s, inputs[0]);
      RunTimeout(o, hasKey, next, inputs[1..]);
      var rest := Timeouts(inputs[1..]);
      if BringsTimeout(inputs[0]) {
        assert ([inputs[0].certificate] + rest)[1..] == rest;
      } else {
        assert [] + rest == rest;
      }
    }
  }

  lemma {:induction false} RunRound(o: ChainOwnership, hasKey: bool, s: State, inputs: seq<Input>)
    requires Tracked(o, s)
    ensures Run(o, hasKey, s, inputs).currentRound == Highest(s.currentRound, RoundsOffered(o, hasKey, s, inputs))
    decreases |inputs|
  {
    if inputs != [] {
      var next := Step(o, hasKey, s, inputs[0]);
      StepRound(o, hasKey, s, inputs[0]);
      StepTracks(o, hasKey, s, inputs[0]);
      RunRound(o, hasKey, next, inputs[1..]);
      var offered := RoundOffered(o, hasKey, s, inputs[0]);
      var rest := RoundsOffered(o, hasKey, next, inputs[1..]);
      assert (ToSeq(offered) + rest)[|ToSeq(offered)|..] == rest;
    }
  }

  /**
   After every history: the stored proposal is the last one accepted; the lock is the newest certificate among
   those carried by accepted proposals and the validated blocks taken up; the timeout is the newest of all
   timeout certificates; and the current round is the highest of the first round, the rounds of accepted
   proposals and of validated blocks taken up, and the successors of the rounds of all timeout certificates.
   */
  lemma StateOfHistory(o: ChainOwnership, hasKey: bool, start: u64, history: seq<Input>)
    ensures var init := NewState(o, start);
            var s := Run(o, hasKey, init, history);
            && s.proposed == Latest(None, Proposals(o, hasKey, init, history))
            && s.locked == Newest(None, Locks(o, hasKey, init, history))
            && s.timeout == Newest(None, Timeouts(history))
            && s.currentRound == Highest(o.FirstRound(), RoundsOffered(o, hasKey, init, history))
  {
    var init := NewState(o, start);
    RunProposal(o, hasKey, init, history);
    RunLock(o, hasKey, init, history);
    RunTimeout(o, hasKey, init, history);
    RunRound(o, hasKey, init, history);
  }

  lemma {:induction false} TimeoutOffered(o: ChainOwnership, hasKey: bool, s: State, inputs: seq<Input>, i: Input)
    requires i in inputs && BringsTimeout(i)
    ensures o.RoundAfterTimeout(i.certificate.round) in RoundsOffered(o, hasKey, s, inputs)
    decreases |inputs|
  {
    if i != inputs[0] {
      assert i in inputs[1..];
      TimeoutOffered(o, hasKey, Step(o, hasKey, s, inputs[0]), inputs[1..], i);
    }
  }

  /** The current round is at or after the successor of every timeout certificate ever received. */
  lemma NoTimeoutForgotten(o: ChainOwnership, hasKey: bool, start: u64, history: seq<Input>, i: Input)
    requires i in history && BringsTimeout(i)
    ensures Rank(o.RoundAfterTimeout(i.certificate.round)) <= Rank(Run(o, hasKey, NewState(o, start), history).currentRound)
  {
    StateOfHistory(o, hasKey, start, history);
    TimeoutOffered(o, hasKey, NewState(o, start), history, i);
    HighestIsHighest(o.FirstRound(), RoundsOffered(o, hasKey, NewState(o, start), history));
  }

  // ---- What a carried certificate binds to ----

  /** Accepting a proposal takes over the certificate it carries, unless the lock is from that round already. */
  lemma CarriedBecomesLock(o: ChainOwnership, hasKey: bool, s: State, i: Input)
    requires AcceptsProposal(o, s, i) && Carried(i).Some?
    ensures var lock := Step(o, hasKey, s, i).locked;
            && (s.locked.None? || Rank(s.locked.value.round) < Rank(Carried(i).value.round) ==> lock == Carried(i))
            && lock.Some? && Rank(lock.value.round) == Rank(Carried(i).value.round)
  {
    StepLock(o, hasKey, s, i);
  }

  /** A validated block that is taken up becomes the lock. */
  lemma TakenBecomesLock(o: ChainOwnership, hasKey: bool, s: State, i: Input)
    requires TakesValidated(hasKey, s, i)
    ensures Step(o, hasKey, s, i).locked == Some(i.certificate)
  {
    StepLock(o, hasKey, s, i);
  }

  /** A lock is replaced only by newer ones. */
  lemma LockOnlyGrows(o: ChainOwnership, hasKey: bool, s: State, later: seq<Input>)
    requires s.locked.Some?
    ensures var lock := Run(o, hasKey, s, later).locked;
            lock.Some? && Rank(s.locked.value.round) <= Rank(lock.value.round)
  {
    RunLock(o, hasKey, s, later);
    NewestIsNewest(s.locked, Locks(o, hasKey, s, later));
  }

  /**
   Once a proposal with a certificate for the executed block was accepted, at every later point the lock is from
   that certificate's round or later, and only proposals with a certificate from that round or later are accepted.
   */
  lemma CarriedCertificateBinds(o: ChainOwnership, hasKey: bool, start: u64, history: seq<Input>, i: Input,
                                later: seq<Input>, p: BlockProposal)
    requires AcceptsProposal(o, Run(o, hasKey, NewState(o, start), history), i) && Carried(i).Some?
    ensures var end := Run(o, hasKey, NewState(o, start), history + [i] + later);
            && end.locked.Some? && Rank(Carried(i).value.round) <= Rank(end.locked.value.round)
            && (CheckProposedBlock(o, end, p) == Ok(Accept) ==>
                  && p.validatedBlockCertificate.Some?
                  && Rank(Carried(i).value.round) <= Rank(p.validatedBlockCertificate.value.round))
  {
    var init := NewState(o, start);
    RunAppend(o, hasKey, init, history + [i], later);
    RunAppend(o, hasKey, init, history, [i]);
    var s := Run(o, hasKey, init, history);
    assert Run(o, hasKey, s, [i]) == Step(o, hasKey, s, i) by {
      assert [i][1..] == [];
    }
    CarriedBecomesLock(o, hasKey, s, i);
    LockOnlyGrows(o, hasKey, Step(o, hasKey, s, i), later);
  }

  // ---- Votes ----

  /** The block votes that a history makes a validator sign. */
  function VotesCast(o: ChainOwnership, s: State, inputs: seq<Input>): seq<Vote>
    decreases |inputs|
  {
    if inputs == [] then []
    else ToSeq(CastVote(o, s, inputs[0])) + VotesCast(o, Step(o, true, s, inputs[0]), inputs[1..])
  }

  /** With a key, the pending vote is the last one that the history called for; without a key there is none. */
  lemma {:induction false} PendingOfHistory(o: ChainOwnership, s: State, inputs: seq<Input>)
    ensures Run(o, false, s, inputs).pending == s.pending
    ensures var votes := VotesCast(o, s, inputs);
            Run(o, true, s, inputs).pending == if votes == [] then s.pending else Some(votes[|votes| - 1])
    decreases |inputs|
  {
    if inputs != [] {
      PendingIsLastVote(o, s, inputs[0]);
      PendingOfHistory(o, Step(o, true, s, inputs[0]), inputs[1..]);
      PendingOfHistory(o, Step(o, false, s, inputs[0]), inputs[1..]);
    }
  }

  // ---- Deadlines ----

  /** The local time of the request that entered the current round. */
  function EnteredAt(o: ChainOwnership, hasKey: bool, s: State, entered: u64, inputs: seq<Input>): u64
    decreases |inputs|
  {
    if inputs == [] then entered
    else
      var next := Step(o, hasKey, s, inputs[0]);
      EnteredAt(o, hasKey, next, if next.currentRound == s.currentRound then entered else inputs[0].localTime, inputs[1..])
  }

  lemma StepDeadline(o: ChainOwnership, hasKey: bool, s: State, i: Input)
    ensures var t := Step(o, hasKey, s, i);
            t.roundTimeout == if t.currentRound == s.currentRound then s.roundTimeout
                              else Deadline(o, t.currentRound, i.localTime)
  {
  }

  lemma {:induction false} RunDeadline(o: ChainOwnership, hasKey: bool, s: State, entered: u64, inputs: seq<Input>)
    requires s.roundTimeout == Deadline(o, s.currentRound, entered)
    ensures var t := Run(o, hasKey, s, inputs);
            t.roundTimeout == Deadline(o, t.currentRound, EnteredAt(o, hasKey, s, entered, inputs))
    decreases |inputs|
  {
    if inputs != [] {
      var next := Step(o, hasKey, s, inputs[0]);
      StepDeadline(o, hasKey, s, inputs[0]);
      RunDeadline(o, hasKey, next, if next.currentRound == s.currentRound then entered else inputs[0].localTime, inputs[1..]);
    }
  }

  /** The deadline of the current round is its duration after the moment when it was entered, if it has one. */
  lemma DeadlineOfHistory(o: ChainOwnership, hasKey: bool, start: u64, history: seq<Input>)
    ensures var s := Run(o, hasKey, NewState(o, start), history);
            var entered := EnteredAt(o, hasKey, NewState(o, start), start, history);
            match o.RoundTimeout(s.currentRound)
            case None => s.roundTimeout == None
            case Some(duration) =>
              s.roundTimeout == Some(if entered + duration <= U64_MAX then entered + duration else U64_MAX)
  {
    RunDeadline(o, hasKey, NewState(o, start), start, history);
  }
}
