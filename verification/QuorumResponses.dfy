/** Collecting the answers of validators until a quorum agrees or none can. */
module QuorumResponses {
  import opened Base
  import opened Committees

  datatype Response<V, E> = Response(name: ValidatorName, result: Result<V, E>)

  datatype CommunicationError<E> =
    | NoConsensus(threshold: nat)
    | Trusted(error: E)
    | Sample(errors: seq<(E, nat)>)

  /** Every validator answers at most once. */
  ghost predicate DistinctNames<V, E>(responses: seq<Response<V, E>>) {
    forall i, j :: 0 <= i < j < |responses| ==> responses[i].name != responses[j].name
  }

  ghost function Responders<V, E>(responses: seq<Response<V, E>>): set<ValidatorName> {
    set r <- responses :: r.name
  }

  ghost predicate Supports<K, V, E>(groupBy: V -> K, r: Response<V, E>, k: K) {
    r.result.Ok? && groupBy(r.result.value) == k
  }

  ghost function Supporters<K, V, E>(groupBy: V -> K, responses: seq<Response<V, E>>, k: K): set<ValidatorName> {
    set r <- responses | Supports(groupBy, r, k) :: r.name
  }

  ghost function Reporters<V, E>(responses: seq<Response<V, E>>, e: E): set<ValidatorName> {
    set r <- responses | r.result == Err(e) :: r.name
  }

  /** The values grouped under a key, in the order of arrival. */
  ghost function ValuesFor<K, V, E>(groupBy: V -> K, responses: seq<Response<V, E>>, k: K): seq<V> {
    if responses == [] then [] else
      var last := responses[|responses| - 1];
      ValuesFor(groupBy, responses[..|responses| - 1], k)
      + (if Supports(groupBy, last, k) then [last.result.value] else [])
  }

  ghost function Support<K, V, E>(c: Committee, groupBy: V -> K, responses: seq<Response<V, E>>, k: K): nat {
    c.WeightOf(Supporters(groupBy, responses, k))
  }

  ghost function Reported<V, E>(c: Committee, responses: seq<Response<V, E>>, e: E): nat {
    c.WeightOf(Reporters(responses, e))
  }

  /** The votes that may still come in. */
  ghost function Remaining<V, E>(c: Committee, responses: seq<Response<V, E>>): int {
    c.totalVotes - c.WeightOf(Responders(responses))
  }

  ghost predicate Reached<K, V, E>(c: Committee, groupBy: V -> K, responses: seq<Response<V, E>>, k: K) {
    Support(c, groupBy, responses, k) >= c.quorumThreshold
  }

  /** Some key has a quorum. */
  ghost predicate Decided<K(!new), V, E>(c: Committee, groupBy: V -> K, responses: seq<Response<V, E>>) {
    exists k: K :: Reached(c, groupBy, responses, k)
  }

  /** No key has enough supporters and remaining votes together. */
  ghost predicate Hopeless<K(!new), V, E>(c: Committee, groupBy: V -> K, responses: seq<Response<V, E>>) {
    && Remaining(c, responses) < c.quorumThreshold
    && forall k: K :: Support(c, groupBy, responses, k) + Remaining(c, responses) < c.quorumThreshold
  }

  ghost predicate Settled<K(!new), V, E>(c: Committee, groupBy: V -> K, responses: seq<Response<V, E>>) {
    Decided(c, groupBy, responses) || Hopeless(c, groupBy, responses)
  }

  /** An error was reported with the weight of at least one honest validator. */
  ghost predicate Trustworthy<V, E>(c: Committee, responses: seq<Response<V, E>>, e: E) {
    Reporters(responses, e) != {} && Reported(c, responses, e) >= c.validityThreshold
  }

  ghost predicate Untrusted<V, E(!new)>(c: Committee, responses: seq<Response<V, E>>) {
    forall e :: !Trustworthy(c, responses, e)
  }

  /** The first error to become trustworthy. */
  ghost predicate FirstTrusted<V, E(!new)>(c: Committee, responses: seq<Response<V, E>>, e: E) {
    exists n :: 0 <= n <= |responses| && Trustworthy(c, responses[..n], e)
             && forall j :: 0 <= j < n ==> Untrusted(c, responses[..j])
  }

  // ----- What one more response changes -----

  lemma OneMore<V, E>(c: Committee, responses: seq<Response<V, E>>, r: Response<V, E>)
    requires r.name !in Responders(responses)
    ensures c.WeightOf(Responders(responses + [r])) == c.WeightOf(Responders(responses)) + c.Weight(r.name)
  {
    var after := Responders(responses + [r]);
    assert forall t <- responses + [r] :: t in responses || t == r;
    assert forall t <- responses :: t in responses + [r];
    assert r in responses + [r];
    WeightOfRemove(c, after, r.name);
    assert after - {r.name} == Responders(responses);
  }

  lemma OneMoreSupporter<K, V, E>(c: Committee, groupBy: V -> K, responses: seq<Response<V, E>>, r: Response<V, E>,
                                  k: K)
    requires r.name !in Responders(responses)
    ensures Support(c, groupBy, responses + [r], k)
         == Support(c, groupBy, responses, k) + (if Supports(groupBy, r, k) then c.Weight(r.name) else 0)
    ensures ValuesFor(groupBy, responses + [r], k)
         == if Supports(groupBy, r, k) then ValuesFor(groupBy, responses, k) + [r.result.value]
            else ValuesFor(groupBy, responses, k)
  {
    assert (responses + [r])[..|responses|] == responses;
    var before, after := Supporters(groupBy, responses, k), Supporters(groupBy, responses + [r], k);
    assert forall t <- responses + [r] :: t in responses || t == r;
    assert forall t <- responses :: t in responses + [r];
    assert r in responses + [r];
    if Supports(groupBy, r, k) {
      assert r.name !in before;
      WeightOfRemove(c, after, r.name);
      assert after - {r.name} == before;
    } else {
      assert after == before;
    }
  }

  lemma OneMoreReporter<V, E>(c: Committee, responses: seq<Response<V, E>>, r: Response<V, E>, e: E)
    requires r.name !in Responders(responses)
    ensures Reported(c, responses + [r], e)
         == Reported(c, responses, e) + (if r.result == Err(e) then c.Weight(r.name) else 0)
  {
    var before, after := Reporters(responses, e), Reporters(responses + [r], e);
    assert forall t <- responses + [r] :: t in responses || t == r;
    assert forall t <- responses :: t in responses + [r];
    assert r in responses + [r];
    if r.result == Err(e) {
      assert r.name !in before;
      WeightOfRemove(c, after, r.name);
      assert after - {r.name} == before;
    } else {
      assert after == before;
    }
  }

  /** Nobody is in two camps. */
  lemma OneCamp<V, E>(responses: seq<Response<V, E>>, r: Response<V, E>, s: Response<V, E>)
    requires DistinctNames(responses) && r in responses && s in responses && r.name == s.name
    ensures r == s
  {
    var i :| 0 <= i < |responses| && responses[i] == r;
    var j :| 0 <= j < |responses| && responses[j] == s;
    assert !(i < j) && !(j < i);
  }

  lemma DisjointWeights(c: Committee, a: set<ValidatorName>, b: set<ValidatorName>, whole: set<ValidatorName>)
    requires a !! b && a <= whole && b <= whole
    ensures c.WeightOf(a) + c.WeightOf(b) <= c.WeightOf(whole)
  {
    assert a * b == {};
    WeightOfUnion(c, a, b);
    WeightOfSubset(c, a + b, whole);
  }

  lemma RespondersWeigh<V, E>(c: Committee, responses: seq<Response<V, E>>)
    requires c.Valid()
    ensures c.WeightOf(Responders(responses)) <= c.totalVotes
  {
    var outside := Responders(responses) - c.validators.Keys;
    WeightOfUnion(c, Responders(responses) * c.validators.Keys, outside);
    assert Responders(responses) * c.validators.Keys + outside == Responders(responses);
    assert (Responders(responses) * c.validators.Keys) * outside == {};
    OutsidersWeighNothing(c, outside);
    WeightOfSubset(c, Responders(responses) * c.validators.Keys, c.validators.Keys);
  }

  lemma {:induction false} OutsidersWeighNothing(c: Committee, s: set<ValidatorName>)
    requires s !! c.validators.Keys
    ensures c.WeightOf(s) == 0
    decreases |s|
  {
    if s != {} {
      var v :| v in s;
      WeightOfRemove(c, s, v);
      OutsidersWeighNothing(c, s - {v});
    }
  }

  // ----- Laws of every collection of responses -----

  /** At most one key is backed by a quorum. */
  lemma OneQuorumKey<K, V, E>(c: Committee, groupBy: V -> K, responses: seq<Response<V, E>>, k: K, l: K)
    requires c.Valid() && DistinctNames(responses)
    requires Reached(c, groupBy, responses, k) && Reached(c, groupBy, responses, l)
    ensures k == l
  {
    if k != l {
      var a, b := Supporters(groupBy, responses, k), Supporters(groupBy, responses, l);
      forall v | v in a && v in b
        ensures false
      {
        var r :| r in responses && Supports(groupBy, r, k) && r.name == v;
        var s :| s in responses && Supports(groupBy, s, l) && s.name == v;
        OneCamp(responses, r, s);
      }
      DisjointWeights(c, a, b, Responders(responses));
      RespondersWeigh(c, responses);
      Thresholds(c);
    }
  }

  /** An error with the weight to be trusted leaves no key a quorum, however the collection goes on. */
  lemma TrustedRulesOutQuorum<K, V, E>(c: Committee, groupBy: V -> K, responses: seq<Response<V, E>>,
                                       more: seq<Response<V, E>>, e: E, k: K)
    requires c.Valid() && DistinctNames(responses + more)
    requires Reported(c, responses, e) >= c.validityThreshold
    ensures !Reached(c, groupBy, responses + more, k)
  {
    assert forall r <- responses :: r in responses + more;
    WeightOfSubset(c, Reporters(responses, e), Reporters(responses + more, e));
    TrustedHasNoQuorum(c, groupBy, responses + more, e, k);
  }

  lemma TrustedHasNoQuorum<K, V, E>(c: Committee, groupBy: V -> K, responses: seq<Response<V, E>>, e: E, k: K)
    requires c.Valid() && DistinctNames(responses)
    requires Reported(c, responses, e) >= c.validityThreshold
    ensures !Reached(c, groupBy, responses, k)
  {
    var a, b := Supporters(groupBy, responses, k), Reporters(responses, e);
    forall v | v in a && v in b
      ensures false
    {
      var r :| r in responses && Supports(groupBy, r, k) && r.name == v;
      var s :| s in responses && s.result == Err(e) && s.name == v;
      OneCamp(responses, r, s);
    }
    DisjointWeights(c, a, b, Responders(responses));
    RespondersWeigh(c, responses);
    Thresholds(c);
  }

  /** A trusted error was returned by a validator that is not faulty. */
  lemma TrustedIsHonest<V, E>(c: Committee, responses: seq<Response<V, E>>, e: E, faulty: set<ValidatorName>)
    requires c.WeightOf(faulty) < c.validityThreshold <= Reported(c, responses, e)
    ensures exists r <- responses :: r.result == Err(e) && r.name !in faulty
  {
    if Reporters(responses, e) <= faulty {
      WeightOfSubset(c, Reporters(responses, e), faulty);
      assert false;
    }
    var v :| v in Reporters(responses, e) && v !in faulty;
  }

  lemma TrustGrows<V, E>(c: Committee, responses: seq<Response<V, E>>, n: nat, e: E)
    requires n <= |responses| && Trustworthy(c, responses[..n], e)
    ensures Trustworthy(c, responses, e)
  {
    assert forall r <- responses[..n] :: r in responses;
    assert Reporters(responses[..n], e) <= Reporters(responses, e);
    WeightOfSubset(c, Reporters(responses[..n], e), Reporters(responses, e));
  }

  /** Once hopeless, no further responses bring any key to a quorum. */
  lemma HopelessIsFinal<K(!new), V, E>(c: Committee, groupBy: V -> K, responses: seq<Response<V, E>>,
                                       more: seq<Response<V, E>>, k: K)
    requires c.Valid() && DistinctNames(responses + more) && Hopeless(c, groupBy, responses)
    ensures !Reached(c, groupBy, responses + more, k)
  {
    SupportGrowth(c, groupBy, responses, more, k);
    RespondersWeigh(c, responses + more);
  }

  /** A key gains no more support than votes come in. */
  lemma {:induction false} SupportGrowth<K, V, E>(c: Committee, groupBy: V -> K, responses: seq<Response<V, E>>,
                                                  more: seq<Response<V, E>>, k: K)
    requires DistinctNames(responses + more)
    ensures Support(c, groupBy, responses, k) <= Support(c, groupBy, responses + more, k)
    ensures Support(c, groupBy, responses + more, k) - Support(c, groupBy, responses, k)
         <= c.WeightOf(Responders(responses + more)) - c.WeightOf(Responders(responses))
    ensures (forall r <- more :: Supports(groupBy, r, k)) ==>
              Support(c, groupBy, responses + more, k) - Support(c, groupBy, responses, k)
              == c.WeightOf(Responders(responses + more)) - c.WeightOf(Responders(responses))
    decreases |more|
  {
    if more == [] {
      assert responses + more == responses;
    } else {
      var init, last := more[..|more| - 1], more[|more| - 1];
      assert responses + more == responses + init + [last];
      DistinctPrefix(responses + init, last);
      SupportGrowth(c, groupBy, responses, init, k);
      OneMore(c, responses + init, last);
      OneMoreSupporter(c, groupBy, responses + init, last, k);
    }
  }

  lemma DistinctPrefix<V, E>(responses: seq<Response<V, E>>, r: Response<V, E>)
    requires DistinctNames(responses + [r])
    ensures DistinctNames(responses) && r.name !in Responders(responses)
  {
    var all := responses + [r];
    forall i, j | 0 <= i < j < |responses|
      ensures responses[i].name != responses[j].name
    {
      assert all[i] == responses[i] && all[j] == responses[j];
    }
    forall i | 0 <= i < |responses|
      ensures responses[i].name != r.name
    {
      assert all[i] == responses[i] && all[|responses|] == r;
    }
  }

  /** Answers with one value from everyone in a set. */
  lemma {:induction false} Unanimous<V, E>(s: set<ValidatorName>, v: V) returns (more: seq<Response<V, E>>)
    ensures DistinctNames(more) && Responders(more) == s
    ensures forall r <- more :: r.result == Ok(v)
    decreases |s|
  {
    if s == {} {
      more := [];
    } else {
      var n :| n in s;
      var rest := Unanimous<V, E>(s - {n}, v);
      more := rest + [Response(n, Ok(v))];
      RespondersConcat(rest, [Response(n, Ok(v))]);
    }
  }

  lemma RespondersConcat<V, E>(responses: seq<Response<V, E>>, more: seq<Response<V, E>>)
    ensures Responders(responses + more) == Responders(responses) + Responders(more)
    ensures DistinctNames(responses) && DistinctNames(more) && Responders(responses) !! Responders(more)
            ==> DistinctNames(responses + more)
  {
    var all := responses + more;
    assert forall r <- all :: r in responses || r in more;
    assert forall r <- responses :: r in all;
    assert forall r <- more :: r in all;
    if DistinctNames(responses) && DistinctNames(more) && Responders(responses) !! Responders(more) {
      forall i, j | 0 <= i < j < |all|
        ensures all[i].name != all[j].name
      {
        if i < |responses| <= j {
          assert all[i] == responses[i] && all[j] == more[j - |responses|];
          assert responses[i].name in Responders(responses) && more[j - |responses|].name in Responders(more);
        }
      }
    }
  }

  /** Unless a key is hopeless, some further responses do bring it to a quorum. */
  lemma StillPossible<K, V, E>(c: Committee, groupBy: V -> K, responses: seq<Response<V, E>>, v: V)
    returns (more: seq<Response<V, E>>)
    requires c.Valid() && DistinctNames(responses)
    requires Support(c, groupBy, responses, groupBy(v)) + Remaining(c, responses) >= c.quorumThreshold
    ensures DistinctNames(responses + more)
    ensures Reached(c, groupBy, responses + more, groupBy(v))
  {
    var rest := c.validators.Keys - Responders(responses);
    more := Unanimous<V, E>(rest, v);
    RespondersConcat(responses, more);
    SupportGrowth(c, groupBy, responses, more, groupBy(v));
    WeightOfSubset(c, c.validators.Keys, Responders(responses + more));
  }

  // ----- The collection loop -----

  function Entry<K, V>(valueScores: map<K, (nat, seq<V>)>, k: K): (nat, seq<V>) {
    if k in valueScores then valueScores[k] else (0, [])
  }

  function Score<E>(errorScores: map<E, nat>, e: E): nat {
    if e in errorScores then errorScores[e] else 0
  }

  function Max(a: nat, b: nat): nat {
    if a < b then b else a
  }

  ghost predicate EntriesExact<K(!new), V, E>(c: Committee, groupBy: V -> K, responses: seq<Response<V, E>>,
                                              valueScores: map<K, (nat, seq<V>)>) {
    forall k {:trigger Support(c, groupBy, responses, k)} {:trigger Entry(valueScores, k)} ::
      Entry(valueScores, k) == (Support(c, groupBy, responses, k), ValuesFor(groupBy, responses, k))
  }

  ghost predicate IsHighest<K(!new), V>(highest: nat, valueScores: map<K, (nat, seq<V>)>) {
    && (forall k {:trigger Entry(valueScores, k)} :: Entry(valueScores, k).0 <= highest)
    && (highest == 0 || exists k :: Entry(valueScores, k).0 == highest)
  }

  /** The table of values agrees with the responses so far. */
  ghost predicate ValuesTallied<K(!new), V, E>(c: Committee, groupBy: V -> K, responses: seq<Response<V, E>>,
                                               highest: nat, valueScores: map<K, (nat, seq<V>)>) {
    EntriesExact(c, groupBy, responses, valueScores) && IsHighest(highest, valueScores)
  }

  /** The table of errors agrees with the responses so far. */
  ghost predicate ErrorsTallied<V, E(!new)>(c: Committee, responses: seq<Response<V, E>>, errorScores: map<E, nat>) {
    && (forall e {:trigger Reported(c, responses, e)} {:trigger Score(errorScores, e)} ::
          Score(errorScores, e) == Reported(c, responses, e))
    && (forall e {:trigger Reporters(responses, e)} {:trigger e in errorScores} ::
          e in errorScores <==> Reporters(responses, e) != {})
  }

  lemma NothingTallied<K(!new), V, E(!new)>(c: Committee, groupBy: V -> K, none: seq<Response<V, E>>)
    requires c.Valid() && none == []
    ensures Remaining(c, none) == c.totalVotes
    ensures ValuesTallied(c, groupBy, none, 0, map[]) && ErrorsTallied(c, none, map[])
  {
    assert Responders(none) == {};
    forall k: K
      ensures Support(c, groupBy, none, k) == 0
    {
      assert Supporters(groupBy, none, k) == {};
    }
    forall e: E
      ensures Reporters(none, e) == {}
    {
    }
  }

  lemma HighestRaised<K(!new), V>(highest: nat, valueScores: map<K, (nat, seq<V>)>, key: K, score: nat, values: seq<V>)
    requires IsHighest(highest, valueScores) && score >= Entry(valueScores, key).0
    ensures IsHighest(Max(highest, score), valueScores[key := (score, values)])
  {
    var after := valueScores[key := (score, values)];
    forall k: K
      ensures Entry(after, k).0 <= Max(highest, score)
    {
      assert Entry(valueScores, k).0 <= highest;
    }
    if highest <= score {
      assert Entry(after, key).0 == score;
    } else {
      var k :| Entry(valueScores, k).0 == highest;
      assert Entry(after, k).0 == highest;
    }
  }

  lemma ValueEntered<K(!new), V, E>(c: Committee, groupBy: V -> K, responses: seq<Response<V, E>>, r: Response<V, E>,
                                    more: seq<Response<V, E>>, valueScores: map<K, (nat, seq<V>)>)
    requires r.name !in Responders(responses) && more == responses + [r] && r.result.Ok?
    requires EntriesExact(c, groupBy, responses, valueScores)
    ensures var key := groupBy(r.result.value);
            var entry := Entry(valueScores, key);
            EntriesExact(c, groupBy, more,
                         valueScores[key := (entry.0 + c.Weight(r.name), entry.1 + [r.result.value])])
  {
    var key := groupBy(r.result.value);
    var entry := Entry(valueScores, key);
    var after := valueScores[key := (entry.0 + c.Weight(r.name), entry.1 + [r.result.value])];
    forall k: K
      ensures Entry(after, k) == (Support(c, groupBy, more, k), ValuesFor(groupBy, more, k))
    {
      OneMoreSupporter(c, groupBy, responses, r, k);
      assert Entry(valueScores, k) == (Support(c, groupBy, responses, k), ValuesFor(groupBy, responses, k));
    }
  }

  lemma ValueCounted<K(!new), V, E>(c: Committee, groupBy: V -> K, responses: seq<Response<V, E>>, r: Response<V, E>,
                                    more: seq<Response<V, E>>, t: Tally<K, V, E>)
    requires r.name !in Responders(responses) && more == responses + [r] && r.result.Ok?
    requires ValuesTallied(c, groupBy, responses, t.highest, t.valueScores)
    ensures ValuesTallied(c, groupBy, more, Count(c, groupBy, t, r).highest, Count(c, groupBy, t, r).valueScores)
  {
    var key := groupBy(r.result.value);
    var entry := Entry(t.valueScores, key);
    ValueEntered(c, groupBy, responses, r, more, t.valueScores);
    HighestRaised(t.highest, t.valueScores, key, entry.0 + c.Weight(r.name), entry.1 + [r.result.value]);
  }

  lemma ErrorLeavesValues<K(!new), V, E>(c: Committee, groupBy: V -> K, responses: seq<Response<V, E>>,
                                         r: Response<V, E>, more: seq<Response<V, E>>, t: Tally<K, V, E>)
    requires r.name !in Responders(responses) && more == responses + [r] && r.result.Err?
    requires ValuesTallied(c, groupBy, responses, t.highest, t.valueScores)
    ensures ValuesTallied(c, groupBy, more, t.highest, t.valueScores)
  {
    forall k: K
      ensures Entry(t.valueScores, k) == (Support(c, groupBy, more, k), ValuesFor(groupBy, more, k))
    {
      OneMoreSupporter(c, groupBy, responses, r, k);
      assert Entry(t.valueScores, k) == (Support(c, groupBy, responses, k), ValuesFor(groupBy, responses, k));
    }
  }

  lemma ErrorsCounted<K, V, E(!new)>(c: Committee, groupBy: V -> K, responses: seq<Response<V, E>>,
                                     r: Response<V, E>, more: seq<Response<V, E>>, t: Tally<K, V, E>)
    requires r.name !in Responders(responses) && more == responses + [r]
    requires ErrorsTallied(c, responses, t.errorScores)
    ensures ErrorsTallied(c, more, Count(c, groupBy, t, r).errorScores)
  {
    var after := Count(c, groupBy, t, r).errorScores;
    forall e: E
      ensures Score(after, e) == Reported(c, more, e)
      ensures e in after <==> Reporters(more, e) != {}
    {
      OneMoreReporter(c, responses, r, e);
      assert Score(t.errorScores, e) == Reported(c, responses, e);
      assert Reporters(more, e) == Reporters(responses, e) + (if r.result == Err(e) then {r.name} else {}) by {
        assert forall t <- more :: t in responses || t == r;
        assert forall t <- responses :: t in more;
        assert r in more;
      }
    }
  }

  /** The table tells whether the outcome is settled. */
  lemma SettledByTally<K(!new), V, E>(c: Committee, groupBy: V -> K, responses: seq<Response<V, E>>,
                                      highest: nat, valueScores: map<K, (nat, seq<V>)>)
    requires c.Valid() && ValuesTallied(c, groupBy, responses, highest, valueScores)
    ensures highest >= c.quorumThreshold || highest + Remaining(c, responses) < c.quorumThreshold
       <==> Settled(c, groupBy, responses)
    ensures (exists k :: k in valueScores && valueScores[k].0 >= c.quorumThreshold)
       <==> Decided(c, groupBy, responses)
  {
    forall k: K
      ensures Support(c, groupBy, responses, k) == Entry(valueScores, k).0 <= highest
    {
    }
    if highest > 0 {
      var k :| Entry(valueScores, k).0 == highest;
      assert Support(c, groupBy, responses, k) == highest;
      assert Reached(c, groupBy, responses, k) <==> highest >= c.quorumThreshold;
    }
    if k :| Reached(c, groupBy, responses, k) {
      assert Entry(valueScores, k).0 >= c.quorumThreshold;
      assert k in valueScores && valueScores[k].0 >= c.quorumThreshold;
    }
    if k :| k in valueScores && valueScores[k].0 >= c.quorumThreshold {
      assert Entry(valueScores, k).0 == Support(c, groupBy, responses, k);
      assert Reached(c, groupBy, responses, k);
    }
  }

  predicate Listed<E(==)>(sample: seq<(E, nat)>, e: E) {
    exists i :: 0 <= i < |sample| && sample[i].0 == e
  }

  /** Errors with their scores, each once, heaviest first. */
  ghost predicate Ranked<E(!new)>(scores: map<E, nat>, sample: seq<(E, nat)>) {
    && (forall i :: 0 <= i < |sample| ==> sample[i].0 in scores && sample[i].1 == scores[sample[i].0])
    && (forall i, j :: 0 <= i < j < |sample| ==> sample[i].0 != sample[j].0 && sample[i].1 >= sample[j].1)
  }

  /** The errors not listed yet, none of them heavier than a listed one. */
  ghost predicate Behind<E(!new)>(scores: map<E, nat>, sample: seq<(E, nat)>, rest: set<E>) {
    && (forall e <- rest :: e in scores && !Listed(sample, e))
    && (forall e <- scores :: e in rest || Listed(sample, e))
    && (forall e <- rest :: forall s <- sample :: scores[e] <= s.1)
  }

  lemma ListHeaviest<E(!new)>(scores: map<E, nat>, sample: seq<(E, nat)>, rest: set<E>, e: E)
    requires Ranked(scores, sample) && Behind(scores, sample, rest)
    requires e in rest && forall f <- rest :: scores[f] <= scores[e]
    ensures Ranked(scores, sample + [(e, scores[e])])
    ensures Behind(scores, sample + [(e, scores[e])], rest - {e})
  {
    ListedAfter(sample, e, scores[e]);
    var longer := sample + [(e, scores[e])];
    forall i, j | 0 <= i < j < |longer|
      ensures longer[i].0 != longer[j].0 && longer[i].1 >= longer[j].1
    {
      assert longer[i] == sample[i];
      if j == |sample| {
        assert sample[i] in sample;
        assert Listed(sample, sample[i].0);
      }
    }
  }

  /** At most four errors: all of them, or four that weigh at least as much as any other; heaviest first. */
  method SampleErrors<E(==,!new)>(scores: map<E, nat>) returns (sample: seq<(E, nat)>)
    ensures |sample| <= 4 && Ranked(scores, sample)
    ensures |sample| < 4 ==> forall e <- scores :: Listed(sample, e)
    ensures forall e <- scores :: !Listed(sample, e) ==> forall s <- sample :: scores[e] <= s.1
  {
    sample := [];
    var rest := scores.Keys;
    while rest != {} && |sample| < 4
      invariant |sample| <= 4
      invariant Ranked(scores, sample)
      invariant Behind(scores, sample, rest)
      decreases rest
    {
      HeaviestExists(scores, rest);
      var e :| e in rest && forall f <- rest :: scores[f] <= scores[e];
      ListHeaviest(scores, sample, rest, e);
      sample := sample + [(e, scores[e])];
      rest := rest - {e};
    }
  }

  lemma ListedAfter<E>(sample: seq<(E, nat)>, e: E, score: nat)
    ensures forall f :: Listed(sample + [(e, score)], f) <==> f == e || Listed(sample, f)
  {
    var longer := sample + [(e, score)];
    forall f
      ensures Listed(longer, f) <==> f == e || Listed(sample, f)
    {
      assert longer[|sample|].0 == e;
      if i :| 0 <= i < |sample| && sample[i].0 == f {
        assert longer[i].0 == f;
      }
    }
  }

  lemma {:induction false} HeaviestExists<E>(scores: map<E, nat>, s: set<E>)
    requires s != {} && s <= scores.Keys
    ensures exists e :: e in s && forall f <- s :: scores[f] <= scores[e]
    decreases |s|
  {
    var e :| e in s;
    if s != {e} {
      HeaviestExists(scores, s - {e});
      var best :| best in s - {e} && forall f <- s - {e} :: scores[f] <= scores[best];
      var heaviest := if scores[e] <= scores[best] then best else e;
      assert forall f <- s :: f == e || f in s - {e};
      assert heaviest in s && forall f <- s :: scores[f] <= scores[heaviest];
    }
  }

  /** The outcome was settled by one of the first responses. */
  ghost predicate SettledBy<K(!new), V, E>(c: Committee, groupBy: V -> K, responses: seq<Response<V, E>>, i: nat)
    requires i <= |responses|
  {
    exists n :: 0 < n <= i && Settled(c, groupBy, responses[..n])
  }

  lemma SettledStep<K(!new), V, E>(c: Committee, groupBy: V -> K, responses: seq<Response<V, E>>, i: nat)
    requires i < |responses|
    ensures SettledBy(c, groupBy, responses, i + 1)
       <==> SettledBy(c, groupBy, responses, i) || Settled(c, groupBy, responses[..i + 1])
  {
    if SettledBy(c, groupBy, responses, i) {
      var n :| 0 < n <= i && Settled(c, groupBy, responses[..n]);
      assert 0 < n <= i + 1;
    }
  }

  lemma TrustedFirst<V, E(!new)>(c: Committee, responses: seq<Response<V, E>>, i: nat, e: E)
    requires i < |responses| && Trustworthy(c, responses[..i + 1], e)
    requires Untrusted(c, responses[..i])
    ensures FirstTrusted(c, responses, e) && Trustworthy(c, responses, e)
  {
    forall j | 0 <= j < i + 1
      ensures Untrusted(c, responses[..j])
    {
      assert responses[..i][..j] == responses[..j];
      if f :| Trustworthy(c, responses[..j], f) {
        TrustGrows(c, responses[..i], j, f);
      }
    }
    TrustGrows(c, responses, i + 1, e);
  }

  /** Both tables and the highest score agree with the responses so far. */
  ghost predicate Tallied<K(!new), V, E(!new)>(c: Committee, groupBy: V -> K, responses: seq<Response<V, E>>,
                                               t: Tally<K, V, E>) {
    && t.remaining == Remaining(c, responses)
    && ValuesTallied(c, groupBy, responses, t.highest, t.valueScores)
    && ErrorsTallied(c, responses, t.errorScores)
  }

  datatype Tally<K, V, E> = Tally(
    remaining: int,
    highest: nat,
    valueScores: map<K, (nat, seq<V>)>,
    errorScores: map<E, nat>)

  /** Enters one response into the tables. */
  function Count<K, V, E>(c: Committee, groupBy: V -> K, t: Tally<K, V, E>, r: Response<V, E>): Tally<K, V, E> {
    var weight := c.Weight(r.name);
    match r.result
    case Ok(value) =>
      var entry := Entry(t.valueScores, groupBy(value));
      t.(remaining := t.remaining - weight,
         highest := Max(t.highest, entry.0 + weight),
         valueScores := t.valueScores[groupBy(value) := (entry.0 + weight, entry.1 + [value])])
    case Err(err) =>
      t.(remaining := t.remaining - weight,
         errorScores := t.errorScores[err := Score(t.errorScores, err) + weight])
  }

  lemma Counted<K(!new), V, E(!new)>(c: Committee, groupBy: V -> K, responses: seq<Response<V, E>>,
                                     r: Response<V, E>, more: seq<Response<V, E>>, t: Tally<K, V, E>)
    requires r.name !in Responders(responses) && more == responses + [r]
    requires Tallied(c, groupBy, responses, t)
    ensures Tallied(c, groupBy, more, Count(c, groupBy, t, r))
  {
    OneMore(c, responses, r);
    ErrorsCounted(c, groupBy, responses, r, more, t);
    if r.result.Ok? {
      ValueCounted(c, groupBy, responses, r, more, t);
    } else {
      ErrorLeavesValues(c, groupBy, responses, r, more, t);
    }
  }

  lemma NextCounted<K(!new), V, E(!new)>(c: Committee, groupBy: V -> K, responses: seq<Response<V, E>>, i: nat,
                                         t: Tally<K, V, E>)
    requires DistinctNames(responses) && i < |responses|
    requires Tallied(c, groupBy, responses[..i], t)
    ensures Tallied(c, groupBy, responses[..i + 1], Count(c, groupBy, t, responses[i]))
  {
    NewResponder(responses, i);
    Counted(c, groupBy, responses[..i], responses[i], responses[..i + 1], t);
  }

  /** Whether a response just made its error trustworthy. */
  predicate NowTrusted<K, V, E>(c: Committee, t: Tally<K, V, E>, r: Response<V, E>) {
    r.result.Err? && Score(t.errorScores, r.result.error) >= c.validityThreshold
  }

  lemma TrustAfter<K(!new), V, E(!new)>(c: Committee, groupBy: V -> K, responses: seq<Response<V, E>>, i: nat,
                                        t: Tally<K, V, E>)
    requires DistinctNames(responses) && i < |responses| && Untrusted(c, responses[..i])
    requires Tallied(c, groupBy, responses[..i + 1], t)
    ensures NowTrusted(c, t, responses[i]) ==> FirstTrusted(c, responses, responses[i].result.error)
    ensures NowTrusted(c, t, responses[i]) ==> Trustworthy(c, responses, responses[i].result.error)
    ensures !NowTrusted(c, t, responses[i]) ==> Untrusted(c, responses[..i + 1])
  {
    var r := responses[i];
    if r.result.Err? {
      var e := r.result.error;
      assert Score(t.errorScores, e) == Reported(c, responses[..i + 1], e);
      if NowTrusted(c, t, r) {
        assert responses[..i + 1][i] == r;
        assert r.name in Reporters(responses[..i + 1], e);
        TrustedFirst(c, responses, i, e);
      }
    }
    if !NowTrusted(c, t, r) {
      StillUntrusted(c, responses, i);
    }
  }

  lemma GraceAfter<K(!new), V, E(!new)>(c: Committee, groupBy: V -> K, responses: seq<Response<V, E>>, i: nat,
                                        t: Tally<K, V, E>)
    requires c.Valid() && i < |responses| && Tallied(c, groupBy, responses[..i + 1], t)
    ensures SettledBy(c, groupBy, responses, i + 1)
       <==> SettledBy(c, groupBy, responses, i)
            || t.highest >= c.quorumThreshold || t.highest + t.remaining < c.quorumThreshold
  {
    SettledByTally(c, groupBy, responses[..i + 1], t.highest, t.valueScores);
    SettledStep(c, groupBy, responses, i);
  }

  /** What holds after a number of responses without a trustworthy error. */
  ghost predicate Collected<K(!new), V, E(!new)>(c: Committee, groupBy: V -> K, responses: seq<Response<V, E>>, i: nat,
                                                 t: Tally<K, V, E>, grace: bool)
    requires i <= |responses|
  {
    && Tallied(c, groupBy, responses[..i], t)
    && Untrusted(c, responses[..i])
    && (grace <==> SettledBy(c, groupBy, responses, i))
  }

  lemma NothingCollected<K(!new), V, E(!new)>(c: Committee, groupBy: V -> K, responses: seq<Response<V, E>>)
    requires c.Valid()
    ensures Collected(c, groupBy, responses, 0, Tally(c.totalVotes, 0, map[], map[]), false)
  {
    NothingTallied(c, groupBy, responses[..0]);
  }

  /** The tables after one more response. */
  lemma NextCollected<K(!new), V, E(!new)>(c: Committee, groupBy: V -> K, responses: seq<Response<V, E>>, i: nat,
                                           t: Tally<K, V, E>, grace: bool)
    requires c.Valid() && DistinctNames(responses) && i < |responses|
    requires Collected(c, groupBy, responses, i, t, grace)
    ensures var after := Count(c, groupBy, t, responses[i]);
            var settled := after.highest >= c.quorumThreshold || after.highest + after.remaining < c.quorumThreshold;
            if NowTrusted(c, after, responses[i])
            then FirstTrusted(c, responses, responses[i].result.error)
                 && Trustworthy(c, responses, responses[i].result.error)
            else Collected(c, groupBy, responses, i + 1, after, grace || settled)
  {
    var after := Count(c, groupBy, t, responses[i]);
    NextCounted(c, groupBy, responses, i, t);
    TrustAfter(c, groupBy, responses, i, after);
    GraceAfter(c, groupBy, responses, i, after);
  }

  lemma AllCollected<K(!new), V, E(!new)>(c: Committee, groupBy: V -> K, responses: seq<Response<V, E>>, i: nat,
                                          t: Tally<K, V, E>, grace: bool)
    requires i == |responses| && Collected(c, groupBy, responses, i, t, grace)
    ensures Untrusted(c, responses) && Tallied(c, groupBy, responses, t)
    ensures grace <==> SettledBy(c, groupBy, responses, |responses|)
  {
    assert responses[..i] == responses;
  }

  /**
   * Takes in the answers in the order of arrival, up to the end of the list or a trustworthy
   * error. The flag tells that the grace period began.
   */
  method Collect<K(==,!new), V, E(==,!new)>(c: Committee, groupBy: V -> K, responses: seq<Response<V, E>>)
    returns (trusted: Option<E>, t: Tally<K, V, E>, grace: bool)
    requires c.Valid() && DistinctNames(responses)
    ensures trusted.Some? ==> FirstTrusted(c, responses, trusted.value) && Trustworthy(c, responses, trusted.value)
    ensures trusted.None? ==> Untrusted(c, responses)
    ensures trusted.None? ==> Tallied(c, groupBy, responses, t)
    ensures trusted.None? ==> (grace <==> SettledBy(c, groupBy, responses, |responses|))
  {
    grace := false;
    t := Tally(c.totalVotes, 0, map[], map[]);
    NothingCollected(c, groupBy, responses);
    var i := 0;
    while i < |responses|
      invariant 0 <= i <= |responses|
      invariant Collected(c, groupBy, responses, i, t, grace)
    {
      var response := responses[i];
      NextCollected(c, groupBy, responses, i, t, grace);
      t := Count(c, groupBy, t, response);
      if NowTrusted(c, t, response) {
        trusted := Some(response.result.error);
        return;
      }
      grace := grace || (t.highest >= c.quorumThreshold || t.highest + t.remaining < c.quorumThreshold);
      i := i + 1;
    }
    AllCollected(c, groupBy, responses, i, t, grace);
    trusted := None;
  }

  /** Validators without votes are not asked, whatever they would answer. */
  function Asked<V, E>(c: Committee, replies: seq<Response<V, E>>): seq<Response<V, E>> {
    if replies == [] then [] else
      var init, last := replies[..|replies| - 1], replies[|replies| - 1];
      if c.Weight(last.name) == 0 then Asked(c, init) else Asked(c, init) + [last]
  }

  lemma {:induction false} AskedDistinct<V, E>(c: Committee, replies: seq<Response<V, E>>)
    requires DistinctNames(replies)
    ensures DistinctNames(Asked(c, replies))
    ensures forall r <- Asked(c, replies) :: r in replies && c.Weight(r.name) > 0
    ensures forall r <- replies :: c.Weight(r.name) > 0 ==> r in Asked(c, replies)
  {
    if replies != [] {
      var init, last := replies[..|replies| - 1], replies[|replies| - 1];
      assert replies == init + [last];
      AskedDistinct(c, init);
      assert forall r <- init :: r in replies;
      assert forall r <- replies :: r in init || r == last;
      DistinctPrefix(init, last);
      var asked := Asked(c, init);
      assert forall r <- asked :: r in init && r.name in Responders(init);
      RespondersConcat(asked, [last]);
    }
  }

  /**
   * Asks all validators with votes and reports what a quorum of them agrees on. The replies
   * are those that arrive before the deadline, in the order of arrival.
   */
  method CommunicateWithQuorum<K(==,!new), V, E(==,!new)>(c: Committee, groupBy: V -> K, replies: seq<Response<V, E>>)
    returns (r: Result<(K, seq<V>), CommunicationError<E>>, grace: bool)
    requires c.Valid() && DistinctNames(replies)
    ensures var responses := Asked(c, replies);
            && (r.Ok? <==> Decided(c, groupBy, responses))
            && (r.Ok? ==> Reached(c, groupBy, responses, r.value.0))
            && (r.Ok? ==> r.value.1 == ValuesFor(groupBy, responses, r.value.0))
            && (r.Err? && r.error.Trusted? <==> !Untrusted(c, responses))
            && (r.Err? && r.error.Trusted? ==> FirstTrusted(c, responses, r.error.error))
            && (r.Err? && r.error.NoConsensus? ==> forall e :: Reporters(responses, e) == {})
            && (r.Err? && r.error.NoConsensus? ==> r.error.threshold == c.quorumThreshold)
            && (r.Err? && r.error.Sample? ==> Sampled(c, responses, r.error.errors))
            && (!(r.Err? && r.error.Trusted?) ==> (grace <==> SettledBy(c, groupBy, responses, |responses|)))
  {
    var responses := Asked(c, replies);
    AskedDistinct(c, replies);
    var trusted: Option<E>, t: Tally<K, V, E>;
    trusted, t, grace := Collect(c, groupBy, responses);
    if trusted.Some? {
      NoQuorum(c, groupBy, responses, trusted.value);
      r := Err(Trusted(trusted.value));
      return;
    }
    SettledByTally(c, groupBy, responses, t.highest, t.valueScores);
    if k :| k in t.valueScores && t.valueScores[k].0 >= c.quorumThreshold {
      assert Entry(t.valueScores, k) == t.valueScores[k];
      assert Reached(c, groupBy, responses, k);
      return Ok((k, t.valueScores[k].1)), grace;
    }
    if t.errorScores == map[] {
      return Err(NoConsensus(c.quorumThreshold)), grace;
    }
    var sample := SampleErrors(t.errorScores);
    SampleIsSampled(c, responses, t.errorScores, sample);
    r := Err(Sample(sample));
  }

  /** All reported errors with their weights, or four that are at least as heavy as the others; heaviest first. */
  ghost predicate Sampled<V, E(!new)>(c: Committee, responses: seq<Response<V, E>>, sample: seq<(E, nat)>) {
    && 0 < |sample| <= 4
    && (forall s <- sample :: Reporters(responses, s.0) != {} && s.1 == Reported(c, responses, s.0))
    && (forall i, j :: 0 <= i < j < |sample| ==> sample[i].0 != sample[j].0 && sample[i].1 >= sample[j].1)
    && (forall e {:trigger Listed(sample, e)} :: Reporters(responses, e) != {} && !Listed(sample, e) ==>
          |sample| == 4 && forall s <- sample :: Reported(c, responses, e) <= s.1)
  }

  lemma SampleIsSampled<V, E(!new)>(c: Committee, responses: seq<Response<V, E>>, scores: map<E, nat>,
                                    sample: seq<(E, nat)>)
    requires ErrorsTallied(c, responses, scores) && scores != map[]
    requires |sample| <= 4 && Ranked(scores, sample)
    requires |sample| < 4 ==> forall e <- scores :: Listed(sample, e)
    requires forall e <- scores :: !Listed(sample, e) ==> forall s <- sample :: scores[e] <= s.1
    ensures Sampled(c, responses, sample)
  {
    var some :| some in scores;
    assert sample != [] by {
      assert Listed(sample, some) || |sample| == 4;
    }
    forall s <- sample
      ensures Reporters(responses, s.0) != {} && s.1 == Reported(c, responses, s.0)
    {
      assert s.1 == Score(scores, s.0);
    }
    forall e | Reporters(responses, e) != {} && !Listed(sample, e)
      ensures |sample| == 4 && forall s <- sample :: Reported(c, responses, e) <= s.1
    {
      assert Score(scores, e) == Reported(c, responses, e);
    }
  }

  lemma NewResponder<V, E>(responses: seq<Response<V, E>>, i: nat)
    requires DistinctNames(responses) && i < |responses|
    ensures responses[i].name !in Responders(responses[..i])
  {
    forall j | 0 <= j < i
      ensures responses[..i][j].name != responses[i].name
    {
      assert responses[..i][j] == responses[j];
    }
  }

  lemma NoQuorum<K(!new), V, E>(c: Committee, groupBy: V -> K, responses: seq<Response<V, E>>, e: E)
    requires c.Valid() && DistinctNames(responses) && Trustworthy(c, responses, e)
    ensures forall k :: !Reached(c, groupBy, responses, k)
  {
    forall k
      ensures !Reached(c, groupBy, responses, k)
    {
      TrustedHasNoQuorum(c, groupBy, responses, e, k);
    }
  }

  /** A response only makes its own error more trustworthy. */
  lemma StillUntrusted<V, E(!new)>(c: Committee, responses: seq<Response<V, E>>, i: nat)
    requires DistinctNames(responses) && i < |responses|
    requires Untrusted(c, responses[..i])
    requires responses[i].result.Err?
             ==> Reported(c, responses[..i + 1], responses[i].result.error) < c.validityThreshold
    ensures Untrusted(c, responses[..i + 1])
  {
    NewResponder(responses, i);
    var r, before, after := responses[i], responses[..i], responses[..i + 1];
    assert after == before + [r];
    forall e | r.result != Err(e)
      ensures !Trustworthy(c, after, e)
    {
      assert Reporters(after, e) == Reporters(before, e) by {
        assert forall t <- after :: t in before || t == r;
        assert forall t <- before :: t in after;
      }
      assert !Trustworthy(c, before, e);
    }
  }
}
