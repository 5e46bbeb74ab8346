/** Weighted validator committees, and why two quorums always share an honest validator. */
module Committees {
  type ValidatorName = nat

  datatype Committee = Committee(
    validators: map<ValidatorName, nat>,
    totalVotes: nat,
    quorumThreshold: nat,
    validityThreshold: nat)
  {
    function Weight(author: ValidatorName): nat {
      if author in validators then validators[author] else 0
    }

    /** Sum of the weights of a set of validators. */
    ghost function WeightOf(s: set<ValidatorName>): nat {
      if s == {} then 0 else
        var v :| v in s;
        Weight(v) + WeightOf(s - {v})
    }

    /** The thresholds belong to the validators, as the constructor establishes. */
    ghost predicate Valid() {
      && totalVotes == WeightOf(validators.Keys)
      && quorumThreshold == 2 * totalVotes / 3 + 1
      && validityThreshold == (totalVotes + 2) / 3
    }

    ghost predicate IsQuorum(s: set<ValidatorName>) {
      s <= validators.Keys && WeightOf(s) >= quorumThreshold
    }
  }

  /** Adds up all votes and derives the two thresholds. */
  method NewCommittee(validators: map<ValidatorName, nat>) returns (c: Committee)
    ensures c.validators == validators && c.Valid()
  {
    var total := 0;
    var rest := validators.Keys;
    ghost var weights := Committee(validators, 0, 0, 0);
    while rest != {}
      invariant rest <= validators.Keys
      invariant total + weights.WeightOf(rest) == weights.WeightOf(validators.Keys)
      decreases rest
    {
      var v :| v in rest;
      WeightOfRemove(weights, rest, v);
      total := total + validators[v];
      rest := rest - {v};
    }
    c := Committee(validators, total, 2 * total / 3 + 1, (total + 2) / 3);
    SameWeights(c, weights, validators.Keys);
  }

  lemma {:induction false} SameWeights(c: Committee, d: Committee, s: set<ValidatorName>)
    requires c.validators == d.validators
    ensures c.WeightOf(s) == d.WeightOf(s)
    decreases |s|
  {
    if s != {} {
      var v :| v in s;
      WeightOfRemove(c, s, v);
      WeightOfRemove(d, s, v);
      SameWeights(c, d, s - {v});
    }
  }

  lemma {:induction false} WeightOfRemove(c: Committee, s: set<ValidatorName>, v: ValidatorName)
    requires v in s
    ensures c.WeightOf(s) == c.Weight(v) + c.WeightOf(s - {v})
    decreases |s|
  {
    var u :| u in s && c.WeightOf(s) == c.Weight(u) + c.WeightOf(s - {u});
    if u != v {
      WeightOfRemove(c, s - {u}, v);
      assert s - {u} - {v} == s - {v} - {u};
      WeightOfRemove(c, s - {v}, u);
    }
  }

  lemma {:induction false} WeightOfUnion(c: Committee, s: set<ValidatorName>, t: set<ValidatorName>)
    ensures c.WeightOf(s + t) + c.WeightOf(s * t) == c.WeightOf(s) + c.WeightOf(t)
    decreases |s|
  {
    if s == {} {
      assert s + t == t && s * t == {};
    } else {
      var v :| v in s;
      var s' := s - {v};
      WeightOfUnion(c, s', t);
      WeightOfRemove(c, s, v);
      WeightOfRemove(c, s + t, v);
      if v in t {
        assert s' + t == s + t;
        assert s' * t == s * t - {v};
        WeightOfRemove(c, s * t, v);
      } else {
        assert s' + t == s + t - {v};
        assert s' * t == s * t;
      }
    }
  }

  lemma WeightOfSubset(c: Committee, s: set<ValidatorName>, t: set<ValidatorName>)
    requires s <= t
    ensures c.WeightOf(s) <= c.WeightOf(t)
  {
    WeightOfUnion(c, s, t - s);
    assert s + (t - s) == t && s * (t - s) == {};
  }

  /** What the two thresholds are chosen for, for every total weight. */
  lemma Thresholds(c: Committee)
    requires c.Valid()
    ensures 2 * c.quorumThreshold - c.totalVotes >= c.validityThreshold
    ensures c.totalVotes - c.quorumThreshold < c.validityThreshold <= c.quorumThreshold
  {
  }

  /** Two quorums share at least the weight needed to contain an honest validator. */
  lemma QuorumsOverlap(c: Committee, s: set<ValidatorName>, t: set<ValidatorName>)
    requires c.Valid() && c.IsQuorum(s) && c.IsQuorum(t)
    ensures c.WeightOf(s * t) >= c.validityThreshold
  {
    WeightOfUnion(c, s, t);
    WeightOfSubset(c, s + t, c.validators.Keys);
    Thresholds(c);
  }

  /** If the faulty weight is below the validity threshold, two quorums share a correct validator. */
  lemma QuorumsShareCorrect(c: Committee, s: set<ValidatorName>, t: set<ValidatorName>, faulty: set<ValidatorName>)
    returns (v: ValidatorName)
    requires c.Valid() && c.IsQuorum(s) && c.IsQuorum(t)
    requires c.WeightOf(faulty) < c.validityThreshold
    ensures v in s && v in t && v !in faulty
  {
    QuorumsOverlap(c, s, t);
    if s * t <= faulty {
      WeightOfSubset(c, s * t, faulty);
      assert false;
    }
    v :| v in s * t && v !in faulty;
  }
}
