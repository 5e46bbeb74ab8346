/** Consensus rounds and the ownership configuration that decides how they follow each other. */
module Rounds {
  import opened Base

  datatype Round =
    | Fast
    | MultiLeader(number: u32)
    | SingleLeader(number: u32)
    | Validator(number: u32)

  /** Position of a round in the total order of rounds. All comparisons go through this number. */
  function Rank(r: Round): nat {
    match r
    case Fast => 0
    case MultiLeader(n) => 1 + n
    case SingleLeader(n) => 1 + (U32_MAX + 1) + n
    case Validator(n) => 1 + 2 * (U32_MAX + 1) + n
  }

  function Kind(r: Round): nat {
    match r
    case Fast => 0
    case MultiLeader(_) => 1
    case SingleLeader(_) => 2
    case Validator(_) => 3
  }

  function Number(r: Round): nat {
    if r.Fast? then 0 else r.number
  }

  function MaxRound(a: Round, b: Round): Round {
    if Rank(a) < Rank(b) then b else a
  }

  /** `Rank` is exactly the derived order: first the kind of round, then its number. */
  lemma RankIsDerivedOrder(a: Round, b: Round)
    ensures Rank(a) < Rank(b) <==> Kind(a) < Kind(b) || (Kind(a) == Kind(b) && Number(a) < Number(b))
    ensures Rank(a) == Rank(b) ==> a == b
  {
    assert Number(a) <= U32_MAX && Number(b) <= U32_MAX;
  }

  type Owner = nat

  type PublicKey = nat

  datatype TimeoutConfig = TimeoutConfig(
    fastRoundDuration: Option<u64>,
    baseTimeout: u64,
    timeoutIncrement: u64)

  datatype ChainOwnership = ChainOwnership(
    superOwners: map<Owner, PublicKey>,
    owners: map<Owner, (PublicKey, u64)>,
    multiLeaderRounds: u32,
    timeoutConfig: TimeoutConfig)
  {
    function FirstRound(): Round {
      if superOwners != map[] then Fast
      else if owners == map[] then Validator(0)
      else if multiLeaderRounds > 0 then MultiLeader(0)
      else SingleLeader(0)
    }

    function NextRound(r: Round): Option<Round> {
      match r
      case Fast => if multiLeaderRounds == 0 then Some(SingleLeader(0)) else Some(MultiLeader(0))
      case MultiLeader(n) =>
        if n < U32_MAX && n + 1 < multiLeaderRounds then Some(MultiLeader(n + 1)) else Some(SingleLeader(0))
      case SingleLeader(n) => if n < U32_MAX then Some(SingleLeader(n + 1)) else Some(Validator(0))
      case Validator(n) => if n < U32_MAX then Some(Validator(n + 1)) else None
    }

    /** The round that a timeout certificate in `r` starts: the next one, or the very last one. */
    function RoundAfterTimeout(r: Round): Round {
      match NextRound(r)
      case Some(next) => next
      case None => Validator(U32_MAX)
    }

    function RoundTimeout(r: Round): Option<u64> {
      match r
      case Fast => timeoutConfig.fastRoundDuration
      case MultiLeader(n) =>
        var successor := if n < U32_MAX then n + 1 else U32_MAX;
        if successor == multiLeaderRounds then Some(timeoutConfig.baseTimeout) else None
      case SingleLeader(n) =>
        Some(SaturatingAdd64(timeoutConfig.baseTimeout, SaturatingMul64(timeoutConfig.timeoutIncrement, n)))
      case Validator(n) =>
        Some(SaturatingAdd64(timeoutConfig.baseTimeout, SaturatingMul64(timeoutConfig.timeoutIncrement, n)))
    }
  }

  /** The successor of a round is strictly later; only the very last round has none. */
  lemma NextRoundIncreases(o: ChainOwnership, r: Round)
    ensures o.NextRound(r).None? <==> forall q: Round :: Rank(q) <= Rank(r)
    ensures o.NextRound(r).Some? ==> Rank(r) < Rank(o.NextRound(r).value)
  {
    if o.NextRound(r).Some? {
      assert Rank(r) < Rank(o.NextRound(r).value);
    }
  }

  /** Taking successors preserves the order of rounds, also where the last round saturates. */
  lemma RoundAfterTimeoutMonotone(o: ChainOwnership, a: Round, b: Round)
    requires Rank(a) <= Rank(b)
    ensures Rank(o.RoundAfterTimeout(a)) <= Rank(o.RoundAfterTimeout(b))
  {
    RankIsDerivedOrder(a, b);
    RankIsDerivedOrder(b, a);
  }

  /** Between a round and its successor lie only multi-leader rounds beyond the configured number. */
  lemma NextRoundSkipsNothing(o: ChainOwnership, r: Round, q: Round)
    requires o.NextRound(r).Some?
    requires Rank(r) < Rank(q) < Rank(o.NextRound(r).value)
    ensures q.MultiLeader? && q.number >= o.multiLeaderRounds
  {
    RankIsDerivedOrder(r, q);
    RankIsDerivedOrder(q, o.NextRound(r).value);
  }

  /** A successor that is a multi-leader round is a configured one. */
  lemma NextRoundIsConfigured(o: ChainOwnership, r: Round)
    requires o.NextRound(r).Some? && o.NextRound(r).value.MultiLeader?
    ensures o.NextRound(r).value.number < o.multiLeaderRounds
  {
  }

  /** Rounds in which somebody may propose. */
  predicate Open(o: ChainOwnership, r: Round) {
    match r
    case Fast => o.superOwners != map[]
    case MultiLeader(n) => o.owners != map[] && n < o.multiLeaderRounds
    case SingleLeader(_) => o.owners != map[]
    case Validator(_) => true
  }

  /** A regular chain starts in the first round that is open: the fast round is there for super owners only. */
  lemma FirstRoundIsFirstOpen(o: ChainOwnership, r: Round)
    ensures Open(o, o.FirstRound())
    ensures Open(o, r) ==> Rank(o.FirstRound()) <= Rank(r)
  {
  }

  // ---- How long rounds last ----

  /** Single-leader rounds, and likewise validator rounds, last longer each by the increment, up to saturation. */
  lemma DurationsGrow(o: ChainOwnership, n: u32)
    requires n < U32_MAX
    ensures o.RoundTimeout(SingleLeader(0)) == o.RoundTimeout(Validator(0)) == Some(o.timeoutConfig.baseTimeout)
    ensures o.RoundTimeout(SingleLeader(n)).Some? && o.RoundTimeout(Validator(n)).Some?
    ensures o.RoundTimeout(SingleLeader(n + 1))
         == Some(SaturatingAdd64(o.RoundTimeout(SingleLeader(n)).value, o.timeoutConfig.timeoutIncrement))
    ensures o.RoundTimeout(Validator(n + 1))
         == Some(SaturatingAdd64(o.RoundTimeout(Validator(n)).value, o.timeoutConfig.timeoutIncrement))
  {
    var increment := o.timeoutConfig.timeoutIncrement;
    assert increment * (n + 1) == increment * n + increment;
  }

  /** Of the configured multi-leader rounds only the last one times out, after the base timeout. */
  lemma LastMultiLeaderTimesOut(o: ChainOwnership, n: u32)
    requires n < o.multiLeaderRounds
    ensures o.RoundTimeout(MultiLeader(n)) == if n + 1 == o.multiLeaderRounds then Some(o.timeoutConfig.baseTimeout) else None
    ensures o.RoundTimeout(Fast) == o.timeoutConfig.fastRoundDuration
  {
  }
}
