/** Aggregating validator signatures into a certificate, and checking the certificate. */
module Certificates {
  import opened Base
  import opened Committees

  type Signature = nat

  /** Whether a signature by a validator matches the value and round being certified. */
  type Verifier = (ValidatorName, Signature) -> bool

  datatype Signed = Signed(validator: ValidatorName, signature: Signature)

  datatype CertificateError = BadSignature | CertificateValidatorReuse | InvalidSigner | CertificateRequiresQuorum

  datatype Aggregate = Aggregate(weight: nat, used: set<ValidatorName>, signatures: seq<Signed>)

  const EMPTY: Aggregate := Aggregate(0, {}, [])

  function Names(signatures: seq<Signed>): set<ValidatorName> {
    set s <- signatures :: s.validator
  }

  /** The test applied to neighbours when a certificate is deserialized. */
  predicate IsStrictlyOrdered(signatures: seq<Signed>) {
    forall i :: 0 < i < |signatures| ==> signatures[i - 1].validator < signatures[i].validator
  }

  ghost predicate Ordered(signatures: seq<Signed>) {
    forall i, j :: 0 <= i < j < |signatures| ==> signatures[i].validator < signatures[j].validator
  }

  lemma {:induction false} OrderedPair(signatures: seq<Signed>, i: nat, j: nat)
    requires IsStrictlyOrdered(signatures) && i < j < |signatures|
    ensures signatures[i].validator < signatures[j].validator
    decreases j
  {
    if i + 1 < j {
      OrderedPair(signatures, i, j - 1);
    }
  }

  /** Comparing neighbours is enough: the whole list is ordered and names nobody twice. */
  lemma NeighboursSuffice(signatures: seq<Signed>)
    ensures IsStrictlyOrdered(signatures) <==> Ordered(signatures)
    ensures IsStrictlyOrdered(signatures) ==> Distinct(signatures)
  {
    if IsStrictlyOrdered(signatures) {
      forall i, j | 0 <= i < j < |signatures|
        ensures signatures[i].validator < signatures[j].validator
      {
        OrderedPair(signatures, i, j);
      }
    }
  }

  ghost predicate Distinct(signatures: seq<Signed>) {
    forall i, j :: 0 <= i < j < |signatures| ==> signatures[i].validator != signatures[j].validator
  }

  /** How many entries come before a validator in an ordered list. */
  function Place(signatures: seq<Signed>, v: ValidatorName): (k: nat)
    ensures k <= |signatures|
    ensures k < |signatures| ==> signatures[k].validator >= v
    ensures forall i :: 0 <= i < k ==> signatures[i].validator < v
  {
    if signatures != [] && signatures[0].validator < v then
      var k := Place(signatures[1..], v) + 1;
      assert forall i :: 0 < i < k ==> signatures[i] == signatures[1..][i - 1];
      k
    else 0
  }

  function Insert(signatures: seq<Signed>, s: Signed): seq<Signed> {
    var k := Place(signatures, s.validator);
    signatures[..k] + [s] + signatures[k..]
  }

  lemma PlaceIsUnique(signatures: seq<Signed>, v: ValidatorName, k: nat)
    requires k <= |signatures|
    requires k < |signatures| ==> signatures[k].validator >= v
    requires forall i :: 0 <= i < k ==> signatures[i].validator < v
    ensures k == Place(signatures, v)
  {
    var p := Place(signatures, v);
    assert !(p < k) && !(k < p);
  }

  lemma InsertAdds(signatures: seq<Signed>, s: Signed)
    ensures forall t :: t in Insert(signatures, s) <==> t in signatures || t == s
    ensures Names(Insert(signatures, s)) == Names(signatures) + {s.validator}
    ensures multiset(Insert(signatures, s)) == multiset(signatures) + multiset{s}
  {
    var k := Place(signatures, s.validator);
    var longer := Insert(signatures, s);
    assert signatures == signatures[..k] + signatures[k..];
    forall t
      ensures t in longer <==> t in signatures || t == s
    {
      assert t in signatures <==> t in signatures[..k] || t in signatures[k..];
    }
  }

  lemma InsertedAt(signatures: seq<Signed>, s: Signed, i: nat)
    requires i <= |signatures|
    ensures |Insert(signatures, s)| == |signatures| + 1
    ensures var k := Place(signatures, s.validator);
            Insert(signatures, s)[i] == if i < k then signatures[i] else if i == k then s else signatures[i - 1]
  {
  }

  lemma NewBehindPlace(signatures: seq<Signed>, v: ValidatorName, i: nat)
    requires Ordered(signatures) && v !in Names(signatures) && Place(signatures, v) <= i < |signatures|
    ensures v < signatures[i].validator
  {
    var k := Place(signatures, v);
    assert signatures[k].validator in Names(signatures);
    assert k < i ==> signatures[k].validator < signatures[i].validator;
  }

  lemma InsertKeepsOrder(signatures: seq<Signed>, s: Signed)
    requires Ordered(signatures) && s.validator !in Names(signatures)
    ensures Ordered(Insert(signatures, s))
  {
    var k := Place(signatures, s.validator);
    var longer := Insert(signatures, s);
    forall i, j | 0 <= i < j < |longer|
      ensures longer[i].validator < longer[j].validator
    {
      InsertedAt(signatures, s, i);
      InsertedAt(signatures, s, j);
      if i == k {
        NewBehindPlace(signatures, s.validator, j - 1);
      }
    }
  }

  /** Tries to add one signature; the second component is what the caller gets. */
  function Append(c: Committee, verify: Verifier, a: Aggregate, s: Signed)
    : (Aggregate, Result<Option<seq<Signed>>, CertificateError>)
  {
    if !verify(s.validator, s.signature) then (a, Err(BadSignature))
    else if s.validator in a.used then (a, Err(CertificateValidatorReuse))
    else
      var marked := a.(used := a.used + {s.validator});
      if c.Weight(s.validator) == 0 then (marked, Err(InvalidSigner))
      else
        var signatures := Insert(a.signatures, s);
        var weight := a.weight + c.Weight(s.validator);
        if weight >= c.quorumThreshold then
          (Aggregate(0, marked.used, signatures), Ok(Some(signatures)))
        else
          (Aggregate(weight, marked.used, signatures), Ok(None))
  }

  // ----- Runs of the aggregator -----

  function After(c: Committee, verify: Verifier, calls: seq<Signed>): Aggregate {
    if calls == [] then EMPTY
    else Append(c, verify, After(c, verify, calls[..|calls| - 1]), calls[|calls| - 1]).0
  }

  function Answer(c: Committee, verify: Verifier, calls: seq<Signed>, k: nat)
    : Result<Option<seq<Signed>>, CertificateError>
    requires k < |calls|
  {
    Append(c, verify, After(c, verify, calls[..k]), calls[k]).1
  }

  /** Validators of whom some valid signature was offered. */
  ghost function Offered(verify: Verifier, calls: seq<Signed>): set<ValidatorName> {
    set s <- calls | verify(s.validator, s.signature) :: s.validator
  }

  /** Those of them who have a say. */
  ghost function Signers(c: Committee, verify: Verifier, calls: seq<Signed>): set<ValidatorName> {
    set v <- Offered(verify, calls) | c.Weight(v) > 0
  }

  ghost predicate Aggregates(c: Committee, verify: Verifier, calls: seq<Signed>, a: Aggregate) {
    && a.used == Offered(verify, calls)
    && Names(a.signatures) == Signers(c, verify, calls)
    && Ordered(a.signatures)
    && (forall s <- a.signatures :: s in calls && verify(s.validator, s.signature))
  }

  /** The running weight is exact before the quorum and can never reach it a second time. */
  ghost predicate Weighs(c: Committee, signers: set<ValidatorName>, weight: nat) {
    if c.WeightOf(signers) < c.quorumThreshold then weight == c.WeightOf(signers)
    else weight + c.quorumThreshold <= c.WeightOf(signers)
  }

  lemma OfferedGrows(c: Committee, verify: Verifier, calls: seq<Signed>, s: Signed)
    ensures Offered(verify, calls + [s])
         == Offered(verify, calls) + (if verify(s.validator, s.signature) then {s.validator} else {})
    ensures Signers(c, verify, calls + [s])
         == Signers(c, verify, calls)
          + (if verify(s.validator, s.signature) && c.Weight(s.validator) > 0 then {s.validator} else {})
  {
    var more := calls + [s];
    assert forall t <- more :: t in calls || t == s;
    assert forall t <- calls :: t in more;
    assert s in more;
  }

  lemma AppendAggregates(c: Committee, verify: Verifier, calls: seq<Signed>, a: Aggregate, s: Signed)
    requires Aggregates(c, verify, calls, a)
    ensures Aggregates(c, verify, calls + [s], Append(c, verify, a, s).0)
  {
    OfferedGrows(c, verify, calls, s);
    if verify(s.validator, s.signature) && s.validator !in a.used {
      InsertAdds(a.signatures, s);
      if c.Weight(s.validator) > 0 {
        InsertKeepsOrder(a.signatures, s);
      }
    }
  }

  lemma AppendWeighs(c: Committee, verify: Verifier, calls: seq<Signed>, a: Aggregate, s: Signed)
    requires c.Valid()
    requires Aggregates(c, verify, calls, a) && Weighs(c, Signers(c, verify, calls), a.weight)
    ensures Weighs(c, Signers(c, verify, calls + [s]), Append(c, verify, a, s).0.weight)
    ensures Append(c, verify, a, s).1.Ok? && Append(c, verify, a, s).1.value.Some?
       <==> c.WeightOf(Signers(c, verify, calls)) < c.quorumThreshold
         <= c.WeightOf(Signers(c, verify, calls + [s]))
  {
    var before, after := Signers(c, verify, calls), Signers(c, verify, calls + [s]);
    OfferedGrows(c, verify, calls, s);
    if verify(s.validator, s.signature) && s.validator !in a.used && c.Weight(s.validator) > 0 {
      WeightOfRemove(c, after, s.validator);
      assert after - {s.validator} == before;
      WeightOfSubset(c, after, c.validators.Keys);
      Thresholds(c);
    } else {
      assert after == before;
    }
  }

  lemma {:induction false} RunAggregates(c: Committee, verify: Verifier, calls: seq<Signed>)
    requires c.Valid()
    ensures Aggregates(c, verify, calls, After(c, verify, calls))
    ensures Weighs(c, Signers(c, verify, calls), After(c, verify, calls).weight)
    decreases |calls|
  {
    if calls != [] {
      var init, s := calls[..|calls| - 1], calls[|calls| - 1];
      assert calls == init + [s];
      RunAggregates(c, verify, init);
      AppendAggregates(c, verify, init, After(c, verify, init), s);
      AppendWeighs(c, verify, init, After(c, verify, init), s);
    } else {
      assert Signers(c, verify, calls) == {};
    }
  }

  /**
   * What every call of every run answers, in terms of the calls alone: the certificate
   * appears exactly at the call that brings the signers to a quorum.
   */
  lemma AnswerOfCall(c: Committee, verify: Verifier, calls: seq<Signed>, k: nat)
    requires c.Valid() && k < |calls|
    ensures var s, r := calls[k], Answer(c, verify, calls, k);
            var earlier := Offered(verify, calls[..k]);
            && (r == Err(BadSignature) <==> !verify(s.validator, s.signature))
            && (r == Err(CertificateValidatorReuse) <==> verify(s.validator, s.signature) && s.validator in earlier)
            && (r == Err(InvalidSigner)
                <==> verify(s.validator, s.signature) && s.validator !in earlier && c.Weight(s.validator) == 0)
            && (r.Ok? && r.value.Some?
                <==> !c.IsQuorum(Signers(c, verify, calls[..k])) && c.IsQuorum(Signers(c, verify, calls[..k + 1])))
  {
    assert calls[..k + 1] == calls[..k] + [calls[k]];
    RunAggregates(c, verify, calls[..k]);
    AppendWeighs(c, verify, calls[..k], After(c, verify, calls[..k]), calls[k]);
  }

  lemma SignersGrow(c: Committee, verify: Verifier, calls: seq<Signed>, i: nat, j: nat)
    requires i <= j <= |calls|
    ensures c.WeightOf(Signers(c, verify, calls[..i])) <= c.WeightOf(Signers(c, verify, calls[..j]))
  {
    assert forall s <- calls[..i] :: s in calls[..j];
    WeightOfSubset(c, Signers(c, verify, calls[..i]), Signers(c, verify, calls[..j]));
  }

  /** No run of the aggregator yields two certificates. */
  lemma AtMostOneCertificate(c: Committee, verify: Verifier, calls: seq<Signed>, i: nat, j: nat)
    requires c.Valid() && i < j < |calls|
    requires Answer(c, verify, calls, i).Ok? && Answer(c, verify, calls, i).value.Some?
    ensures Answer(c, verify, calls, j).Ok? ==> Answer(c, verify, calls, j).value.None?
  {
    AnswerOfCall(c, verify, calls, i);
    AnswerOfCall(c, verify, calls, j);
    SignersGrow(c, verify, calls, i + 1, j);
  }

  /** A run whose signers reach a quorum yields a certificate. */
  lemma {:induction false} SomeCertificate(c: Committee, verify: Verifier, calls: seq<Signed>) returns (k: nat)
    requires c.Valid() && c.IsQuorum(Signers(c, verify, calls))
    ensures k < |calls| && Answer(c, verify, calls, k).Ok? && Answer(c, verify, calls, k).value.Some?
    decreases |calls|
  {
    assert Signers(c, verify, []) == {};
    var init := calls[..|calls| - 1];
    assert calls[..|calls| - 1 + 1] == calls;
    if c.IsQuorum(Signers(c, verify, init)) {
      k := SomeCertificate(c, verify, init);
      assert init[..k] == calls[..k];
    } else {
      k := |calls| - 1;
      AnswerOfCall(c, verify, calls, k);
    }
  }

  /** What a certificate must satisfy to be accepted. */
  ghost predicate Proper(c: Committee, verify: Verifier, signatures: seq<Signed>) {
    && Distinct(signatures)
    && (forall s <- signatures :: c.Weight(s.validator) > 0 && verify(s.validator, s.signature))
    && c.IsQuorum(Names(signatures))
  }

  /** The certificate a run yields is well ordered, lists exactly the signers so far, and checks. */
  lemma CertificateIsProper(c: Committee, verify: Verifier, calls: seq<Signed>, k: nat, signatures: seq<Signed>)
    requires c.Valid() && k < |calls| && Answer(c, verify, calls, k) == Ok(Some(signatures))
    ensures IsStrictlyOrdered(signatures) && Proper(c, verify, signatures)
    ensures Names(signatures) == Signers(c, verify, calls[..k + 1])
    ensures forall s <- signatures :: s in calls[..k + 1]
  {
    assert calls[..k + 1] == calls[..k] + [calls[k]];
    assert calls[..k + 1][..k] == calls[..k];
    RunAggregates(c, verify, calls[..k]);
    AppendAggregates(c, verify, calls[..k], After(c, verify, calls[..k]), calls[k]);
    AnswerOfCall(c, verify, calls, k);
    NeighboursSuffice(signatures);
    forall s <- signatures
      ensures c.Weight(s.validator) > 0
    {
      assert s.validator in Names(signatures);
    }
  }

  /** Two accepted certificates share signers whose weight includes an honest one. */
  lemma CertificatesOverlap(c: Committee, verify: Verifier, s: seq<Signed>, other: Verifier, t: seq<Signed>,
                            faulty: set<ValidatorName>) returns (v: ValidatorName)
    requires c.Valid() && Proper(c, verify, s) && Proper(c, other, t)
    requires c.WeightOf(faulty) < c.validityThreshold
    ensures v !in faulty
    ensures exists a <- s :: a.validator == v && verify(v, a.signature)
    ensures exists b <- t :: b.validator == v && other(v, b.signature)
  {
    v := QuorumsShareCorrect(c, Names(s), Names(t), faulty);
  }

  // ----- The two operations -----

  /** The certificate check: accepts exactly the proper signature lists, and names the first fault. */
  method CheckSignatures(c: Committee, verify: Verifier, signatures: seq<Signed>)
    returns (r: Result<(), CertificateError>)
    ensures r.Ok? <==> Proper(c, verify, signatures)
    ensures r == Err(CertificateValidatorReuse) <==> RepeatsFirst(c, signatures)
    ensures r == Err(InvalidSigner) <==> PowerlessFirst(c, signatures)
    ensures r == Err(CertificateRequiresQuorum)
       <==> Sound(c, signatures) && c.WeightOf(Names(signatures)) < c.quorumThreshold
  {
    var weight := 0;
    var used: set<ValidatorName> := {};
    var i := 0;
    while i < |signatures|
      invariant 0 <= i <= |signatures|
      invariant used == Names(signatures[..i])
      invariant Sound(c, signatures[..i])
      invariant weight == c.WeightOf(used)
    {
      var v := signatures[i].validator;
      NamesOfPrefix(signatures, i);
      if v in used {
        FirstFault(c, signatures, i);
        return Err(CertificateValidatorReuse);
      }
      WeightOfRemove(c, used + {v}, v);
      assert used + {v} - {v} == used;
      used := used + {v};
      if c.Weight(v) == 0 {
        FirstFault(c, signatures, i);
        return Err(InvalidSigner);
      }
      weight := weight + c.Weight(v);
      i := i + 1;
    }
    assert signatures[..i] == signatures;
    NoFault(c, signatures);
    if weight < c.quorumThreshold {
      return Err(CertificateRequiresQuorum);
    }
    if exists s <- signatures :: !verify(s.validator, s.signature) {
      return Err(BadSignature);
    }
    r := Ok(());
  }

  /** Every signer counts, and counts once. */
  ghost predicate Sound(c: Committee, signatures: seq<Signed>) {
    Distinct(signatures) && forall s <- signatures :: c.Weight(s.validator) > 0
  }

  ghost predicate Repeats(signatures: seq<Signed>, k: nat)
    requires k < |signatures|
  {
    signatures[k].validator in Names(signatures[..k])
  }

  /** The first fault of the list is a validator who signed before. */
  ghost predicate RepeatsFirst(c: Committee, signatures: seq<Signed>) {
    exists k :: 0 <= k < |signatures| && Sound(c, signatures[..k]) && Repeats(signatures, k)
  }

  /** The first fault of the list is a new signer without votes. */
  ghost predicate PowerlessFirst(c: Committee, signatures: seq<Signed>) {
    exists k :: 0 <= k < |signatures| && Sound(c, signatures[..k]) && !Repeats(signatures, k)
             && c.Weight(signatures[k].validator) == 0
  }

  lemma NamesOfPrefix(signatures: seq<Signed>, k: nat)
    requires k < |signatures|
    ensures Names(signatures[..k + 1]) == Names(signatures[..k]) + {signatures[k].validator}
    ensures !Repeats(signatures, k) && Distinct(signatures[..k]) ==> Distinct(signatures[..k + 1])
  {
    var shorter, longer := signatures[..k], signatures[..k + 1];
    assert longer == shorter + [signatures[k]];
    assert forall s <- longer :: s in shorter || s == signatures[k];
    assert forall s <- shorter :: s in longer;
    assert signatures[k] in longer;
    if !Repeats(signatures, k) && Distinct(shorter) {
      forall i, j | 0 <= i < j < |longer|
        ensures longer[i].validator != longer[j].validator
      {
        if j == k {
          assert shorter[i] in shorter;
        } else {
          assert longer[i] == shorter[i] && longer[j] == shorter[j];
        }
      }
    }
  }

  /** The first fault decides the error. */
  lemma FirstFault(c: Committee, signatures: seq<Signed>, k: nat)
    requires k < |signatures| && Sound(c, signatures[..k])
    requires Repeats(signatures, k) || c.Weight(signatures[k].validator) == 0
    ensures !Sound(c, signatures)
    ensures RepeatsFirst(c, signatures) <==> Repeats(signatures, k)
    ensures PowerlessFirst(c, signatures) <==> !Repeats(signatures, k)
  {
    Unsound(c, signatures, k, |signatures|);
    assert signatures[..|signatures|] == signatures;
    forall j | 0 <= j < |signatures| && j != k && Sound(c, signatures[..j])
      ensures !Repeats(signatures, j) && c.Weight(signatures[j].validator) > 0
    {
      if k < j {
        Unsound(c, signatures, k, j);
      } else if Repeats(signatures, j) || c.Weight(signatures[j].validator) == 0 {
        Unsound(c, signatures, j, k);
      }
    }
  }

  lemma Unsound(c: Committee, signatures: seq<Signed>, k: nat, j: nat)
    requires k < j <= |signatures|
    requires Repeats(signatures, k) || c.Weight(signatures[k].validator) == 0
    ensures !Sound(c, signatures[..j])
  {
    var prefix := signatures[..j];
    assert prefix[k] == signatures[k];
    if Repeats(signatures, k) {
      var i :| 0 <= i < k && signatures[..k][i].validator == signatures[k].validator;
      assert prefix[i] == signatures[..k][i];
    } else {
      assert prefix[k] in prefix;
    }
  }

  lemma NoFault(c: Committee, signatures: seq<Signed>)
    requires Sound(c, signatures)
    ensures !RepeatsFirst(c, signatures) && !PowerlessFirst(c, signatures)
    ensures Names(signatures) <= c.validators.Keys
  {
    forall k | 0 <= k < |signatures|
      ensures !Repeats(signatures, k) && c.Weight(signatures[k].validator) > 0
    {
      NotRepeated(signatures, k);
    }
  }

  lemma NotRepeated(signatures: seq<Signed>, k: nat)
    requires Distinct(signatures) && k < |signatures|
    ensures !Repeats(signatures, k)
  {
    forall i | 0 <= i < k
      ensures signatures[..k][i].validator != signatures[k].validator
    {
      assert signatures[..k][i] == signatures[i];
    }
  }

  /** Binary search for the place of a validator in an ordered signature list. */
  method FindPlace(signatures: seq<Signed>, v: ValidatorName) returns (k: nat)
    requires Ordered(signatures)
    ensures k == Place(signatures, v)
  {
    var lo, hi := 0, |signatures|;
    while lo < hi
      invariant 0 <= lo <= hi <= |signatures|
      invariant forall i :: 0 <= i < lo ==> signatures[i].validator < v
      invariant forall i :: hi <= i < |signatures| ==> v < signatures[i].validator
    {
      var mid := (lo + hi) / 2;
      if signatures[mid].validator == v {
        PlaceIsUnique(signatures, v, mid);
        return mid;
      } else if signatures[mid].validator < v {
        lo := mid + 1;
      } else {
        hi := mid;
      }
    }
    k := lo;
    PlaceIsUnique(signatures, v, k);
  }

  class SignatureAggregator {
    const committee: Committee
    const verify: Verifier
    var weight: nat
    var used: set<ValidatorName>
    var signatures: seq<Signed>

    ghost predicate Valid()
      reads this
    {
      Ordered(signatures) && Names(signatures) <= used
    }

    ghost function View(): Aggregate
      reads this
    {
      Aggregate(weight, used, signatures)
    }

    constructor (committee: Committee, verify: Verifier)
      ensures this.committee == committee && this.verify == verify
      ensures Valid() && View() == EMPTY
    {
      this.committee := committee;
      this.verify := verify;
      weight, used, signatures := 0, {}, [];
    }

    method AddSignature(s: Signed)
      requires Ordered(signatures) && s.validator !in Names(signatures)
      modifies this`signatures
      ensures signatures == Insert(old(signatures), s) && Ordered(signatures)
      ensures Names(signatures) == old(Names(signatures)) + {s.validator}
    {
      var k := FindPlace(signatures, s.validator);
      InsertAdds(signatures, s);
      InsertKeepsOrder(signatures, s);
      signatures := signatures[..k] + [s] + signatures[k..];
    }

    method AppendSignature(s: Signed) returns (r: Result<Option<seq<Signed>>, CertificateError>)
      requires Valid()
      modifies this
      ensures Valid()
      ensures (View(), r) == Append(committee, verify, old(View()), s)
    {
      if !verify(s.validator, s.signature) {
        return Err(BadSignature);
      }
      if s.validator in used {
        return Err(CertificateValidatorReuse);
      }
      used := used + {s.validator};
      var votingRights := committee.Weight(s.validator);
      if votingRights == 0 {
        return Err(InvalidSigner);
      }
      weight := weight + votingRights;
      AddSignature(s);
      if weight >= committee.quorumThreshold {
        weight := 0;
        r := Ok(Some(signatures));
      } else {
        r := Ok(None);
      }
    }
  }
}
