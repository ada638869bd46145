/**
 Bornite: exact fractions, the frozen electorate, the voting rules and the nine-step count.

 The specification says what every reported quantity means as a sum over the electorate; the
 method counts as the engine does, ballot by ballot with checked `u64` additions, and is
 proved to compute exactly that.
 */
module Bornite {
  import opened Bytes
  import opened Ordering

  type U64 = n: nat | n <= U64_MAX

  /** A voting weight, at least one. */
  type Weight = w: nat | 1 <= w <= U64_MAX witness 1

  type Positive = n: nat | 1 <= n <= U64_MAX witness 1

  datatype Choice = Yes | No | Abstain

  datatype Voter = Voter(id: Id, weight: Weight, excluded: bool)

  datatype Ballot = Ballot(voter: Id, choice: Choice)

  function VoterId(v: Voter): Id { v.id }

  function BallotVoter(b: Ballot): Id { b.voter }

  function VoterIds(vs: seq<Voter>): seq<Id> { Keys(VoterId, vs) }

  function BallotVoters(bs: seq<Ballot>): seq<Id> { Keys(BallotVoter, bs) }

  /** A frozen electorate: in id order, without duplicates. */
  type Electorate = vs: seq<Voter> | Strict(VoterIds(vs))

  /** A ballot set: in voter order, one ballot a voter. */
  type BallotSet = bs: seq<Ballot> | Strict(BallotVoters(bs))

  /** `ElectorateV1::new`. */
  function NewElectorate(voters: seq<Voter>): Result<Electorate, Id> {
    DistinctByOrders(VoterId, voters);
    match DistinctBy(VoterId, voters)
    case Ok(vs) => Ok(vs)
    case Err(id) => Err(id)
  }

  /** `BallotSetV1::new`. */
  function NewBallotSet(ballots: seq<Ballot>): Result<BallotSet, Id> {
    DistinctByOrders(BallotVoter, ballots);
    match DistinctBy(BallotVoter, ballots)
    case Ok(bs) => Ok(bs)
    case Err(id) => Err(id)
  }

  /** `ElectorateV1::get`. */
  function Get(vs: seq<Voter>, id: Id): (r: Option<Voter>)
    ensures r.Some? ==> r.value in vs && r.value.id == id
  {
    match Search(VoterIds(vs), id)
    case None => None
    case Some(i) => Some(vs[i])
  }

  // ---------------------------------------------------------------- fractions

  datatype Fraction = Fraction(numerator: U64, denominator: Positive)

  datatype Comparison = Above | Exactly | Below

  const HALF := Fraction(1, 2)

  const U128_MAX: nat := 0xFFFF_FFFF_FFFF_FFFF_FFFF_FFFF_FFFF_FFFF

  predicate IsProportion(f: Fraction) { f.numerator <= f.denominator }

  /** `compare_share`: how `value / basis` stands to the fraction, by cross-multiplication. */
  function CompareShare(f: Fraction, value: nat, basis: nat): Comparison {
    var lhs, rhs := value * f.denominator, f.numerator * basis;
    if lhs > rhs then Above else if lhs == rhs then Exactly else Below
  }

  /** Both products of `compare_share` fit in `u128`. */
  lemma ProductsFit(f: Fraction, value: U64, basis: U64)
    ensures value * f.denominator <= U128_MAX && f.numerator * basis <= U128_MAX
  {
    ProductBound(value, f.denominator);
    ProductBound(f.numerator, basis);
  }

  lemma ProductBound(a: U64, b: U64)
    ensures a * b <= U128_MAX
  {
    assert a * b <= U64_MAX * b <= U64_MAX * U64_MAX;
  }

  /** The smallest weight that meets a share: the ceiling the final record stores. */
  function RequiredWeight(f: Fraction, basis: nat): nat {
    CeilDiv(basis * f.numerator, f.denominator)
  }

  function CeilDiv(p: nat, d: nat): nat
    requires d > 0
  {
    (p + (d - 1)) / d
  }

  lemma Ceiling(p: nat, d: nat, n: nat)
    requires d > 0
    ensures n >= CeilDiv(p, d) <==> n * d >= p
  {
    var q := CeilDiv(p, d);
    assert q * d <= p + (d - 1) < q * d + d;
    if n >= q { Scale(q, n, d); } else { Scale(n + 1, q, d); }
  }

  lemma Scale(a: nat, b: nat, d: nat)
    requires a <= b
    ensures a * d <= b * d
  {
  }

  /**
   The stored number refines the comparison: a weight reaches it exactly when the share
   comparison is not `Less`; and for a proportion it never exceeds the basis, so converting
   it back to `u64` never needs its fallback.
   */
  lemma RequiredWeightExact(f: Fraction, basis: U64, actual: nat)
    ensures actual >= RequiredWeight(f, basis) <==> CompareShare(f, actual, basis) != Below
    ensures IsProportion(f) ==> RequiredWeight(f, basis) <= basis
  {
    hide CeilDiv;
    Ceiling(basis * f.numerator, f.denominator, actual);
    if IsProportion(f) {
      Scale(f.numerator, f.denominator, basis);
      Ceiling(basis * f.numerator, f.denominator, basis);
    }
  }

  // ---------------------------------------------------------------- rules

  datatype WeightRule = EqualWeights | ElectorateWeights
  datatype QuorumBasis = TotalElectorateQuorum | EffectiveElectorateQuorum
  datatype QuorumRule =
    | NoQuorum
    | AbsoluteQuorum(weight: Weight)
    | FractionQuorum(fraction: Fraction, basis: QuorumBasis)
  datatype ThresholdBasis = VotesCast | EffectiveElectorate | TotalElectorate
  datatype ThresholdRule =
    | SimpleMajority(basis: ThresholdBasis)
    | FractionThreshold(fraction: Fraction, basis: ThresholdBasis)
  datatype AbstentionTreatment = ExcludeAbstentions | IncludeAbstentions
  datatype TieTreatment = RejectTie | AcceptTie

  datatype Rules = Rules(
    weight: WeightRule, exclusionsEnabled: bool, quorum: QuorumRule, threshold: ThresholdRule,
    abstentions: AbstentionTreatment, tie: TieTreatment)

  function ThresholdFraction(t: ThresholdRule): Fraction {
    match t
    case SimpleMajority(_) => HALF
    case FractionThreshold(f, _) => f
  }

  function WeightOf(rules: Rules, v: Voter): Weight {
    if rules.weight.EqualWeights? then 1 else v.weight
  }

  predicate Effective(rules: Rules, v: Voter) { !(rules.exclusionsEnabled && v.excluded) }

  // ---------------------------------------------------------------- sums over the electorate

  datatype Measure = ByWeight | ByCount

  /** A part of the electorate, given the ballots. */
  datatype Group = Everyone | EffectiveVoters | Choosing(choice: Choice) | Participating | Silent

  function ChoiceOf(bs: seq<Ballot>, id: Id): Option<Choice> {
    match Search(BallotVoters(bs), id)
    case None => None
    case Some(i) => Some(bs[i].choice)
  }

  predicate InGroup(rules: Rules, bs: seq<Ballot>, g: Group, v: Voter) {
    match g
    case Everyone => true
    case EffectiveVoters => Effective(rules, v)
    case Choosing(c) => Effective(rules, v) && ChoiceOf(bs, v.id) == Some(c)
    case Participating => Effective(rules, v) && ChoiceOf(bs, v.id).Some?
    case Silent => Effective(rules, v) && ChoiceOf(bs, v.id).None?
  }

  function Unit(m: Measure, rules: Rules, v: Voter): nat {
    if m.ByCount? then 1 else WeightOf(rules, v)
  }

  /** What a group of voters weighs, or how many they are. */
  function Total(m: Measure, rules: Rules, bs: seq<Ballot>, vs: seq<Voter>, g: Group): nat {
    if vs == [] then 0 else
      var v := vs[|vs| - 1];
      Total(m, rules, bs, vs[..|vs| - 1], g) + if InGroup(rules, bs, g, v) then Unit(m, rules, v) else 0
  }

  /** Every effective voter either voted one of three ways or stayed silent. */
  lemma {:induction false} GroupsPartition(m: Measure, rules: Rules, bs: seq<Ballot>, vs: seq<Voter>)
    ensures Total(m, rules, bs, vs, Participating) ==
      Total(m, rules, bs, vs, Choosing(Yes)) + Total(m, rules, bs, vs, Choosing(No)) +
          Total(m, rules, bs, vs, Choosing(Abstain))
    ensures Total(m, rules, bs, vs, EffectiveVoters) ==
      Total(m, rules, bs, vs, Participating) + Total(m, rules, bs, vs, Silent)
    ensures Total(m, rules, bs, vs, EffectiveVoters) <= Total(m, rules, bs, vs, Everyone)
  {
    hide ChoiceOf, Effective, WeightOf;
    if vs == [] {
    } else {
      GroupsPartition(m, rules, bs, vs[..|vs| - 1]);
      match ChoiceOf(bs, vs[|vs| - 1].id) {
        case None =>
        case Some(c) => match c { case Yes => case No => case Abstain => }
      }
    }
  }

  // ---------------------------------------------------------------- sums over the ballots

  function UnitAt(m: Measure, rules: Rules, vs: seq<Voter>, id: Id): nat {
    match Get(vs, id)
    case None => 0
    case Some(v) => Unit(m, rules, v)
  }

  predicate Counts(b: Ballot, only: Option<Choice>) { only.None? || b.choice == only.value }

  /** What the ballots cast (with one choice, or at all) add up to, in the order the loop adds. */
  function CastTotal(m: Measure, rules: Rules, vs: seq<Voter>, bs: seq<Ballot>, only: Option<Choice>): nat {
    if bs == [] then 0 else
      var b := bs[|bs| - 1];
      CastTotal(m, rules, vs, bs[..|bs| - 1], only) + if Counts(b, only) then UnitAt(m, rules, vs, b.voter) else 0
  }

  /** Every ballot comes from a voter of the effective electorate. */
  predicate Admissible(rules: Rules, vs: seq<Voter>, bs: seq<Ballot>) {
    forall i :: 0 <= i < |bs| ==> AdmissibleBallot(rules, vs, bs[i])
  }

  predicate AdmissibleBallot(rules: Rules, vs: seq<Voter>, b: Ballot) {
    var v := Get(vs, b.voter);
    v.Some? && Effective(rules, v.value)
  }

  function GroupOf(only: Option<Choice>): Group {
    if only.None? then Participating else Choosing(only.value)
  }

  /** Ids are found in a shorter list exactly when they are found in the longer and are not its last. */
  lemma GetInit(vs: seq<Voter>, id: Id)
    requires vs != [] && Strict(VoterIds(vs))
    ensures Strict(VoterIds(vs[..|vs| - 1]))
    ensures Get(vs, id) == if id == vs[|vs| - 1].id then Some(vs[|vs| - 1]) else Get(vs[..|vs| - 1], id)
  {
    var n, ids := |vs| - 1, VoterIds(vs);
    assert VoterIds(vs[..n]) == ids[..n];
    assert Strict(ids[..n]);
    SearchFinds(ids, id);
    SearchFinds(ids[..n], id);
    if id == vs[n].id {
      assert ids[n] == id;
    } else if id in ids[..n] {
      var i :| 0 <= i < n && ids[i] == id;
      assert ids[..n][i] == id;
    } else {
      assert ids == ids[..n] + [vs[n].id];
    }
  }

  lemma ChoiceInit(bs: seq<Ballot>, id: Id)
    requires bs != [] && Strict(BallotVoters(bs))
    ensures Strict(BallotVoters(bs[..|bs| - 1]))
    ensures ChoiceOf(bs, id) == if id == bs[|bs| - 1].voter then Some(bs[|bs| - 1].choice)
      else ChoiceOf(bs[..|bs| - 1], id)
  {
    var n, ids := |bs| - 1, BallotVoters(bs);
    assert BallotVoters(bs[..n]) == ids[..n];
    assert Strict(ids[..n]);
    SearchFinds(ids, id);
    SearchFinds(ids[..n], id);
    if id == bs[n].voter {
      assert ids[n] == id;
    } else if id in ids[..n] {
      var i :| 0 <= i < n && ids[i] == id;
      assert ids[..n][i] == id;
    } else {
      assert ids == ids[..n] + [bs[n].voter];
    }
  }

  /** A group's total depends on the ballots only through the choices of the voters summed. */
  lemma {:induction false} TotalReadsChoices(m: Measure, rules: Rules, a: seq<Ballot>, b: seq<Ballot>,
      vs: seq<Voter>, g: Group)
    requires forall v :: v in vs ==> ChoiceOf(a, v.id) == ChoiceOf(b, v.id)
    ensures Total(m, rules, a, vs, g) == Total(m, rules, b, vs, g)
  {
    if vs == [] {
    } else {
      TotalReadsChoices(m, rules, a, b, vs[..|vs| - 1], g);
    }
  }

  /** Ballots that do not name the last voter add up the same without that voter. */
  lemma {:induction false} CastWithoutLastVoter(m: Measure, rules: Rules, vs: seq<Voter>, bs: seq<Ballot>,
      only: Option<Choice>)
    requires vs != [] && Strict(VoterIds(vs)) && Admissible(rules, vs, bs)
    requires forall b :: b in bs ==> b.voter != vs[|vs| - 1].id
    ensures Admissible(rules, vs[..|vs| - 1], bs)
    ensures CastTotal(m, rules, vs, bs, only) == CastTotal(m, rules, vs[..|vs| - 1], bs, only)
  {
    hide Get, Search, Before, Strict;
    if bs == [] {
    } else {
      var n := |bs| - 1;
      assert bs == bs[..n] + [bs[n]];
      CastWithoutLastVoter(m, rules, vs, bs[..n], only);
      GetInit(vs, bs[n].voter);
      forall i | 0 <= i < |bs| ensures AdmissibleBallot(rules, vs[..|vs| - 1], bs[i]) {
        if i < n { assert bs[..n][i] == bs[i]; }
      }
    }
  }

  /** Every ballot but the last names someone before the last ballot's voter. */
  lemma LastBallotLast(bs: seq<Ballot>)
    requires bs != [] && Strict(BallotVoters(bs))
    ensures forall b :: b in bs[..|bs| - 1] ==> Before(b.voter, bs[|bs| - 1].voter)
  {
    var ids := BallotVoters(bs);
    forall b | b in bs[..|bs| - 1] ensures Before(b.voter, bs[|bs| - 1].voter) {
      var i :| 0 <= i < |bs| - 1 && bs[i] == b;
      assert Before(ids[i], ids[|bs| - 1]);
    }
  }

  lemma NobodyAfterLast(vs: seq<Voter>, id: Id)
    requires vs != [] && Strict(VoterIds(vs)) && Get(vs, id).Some?
    ensures id == vs[|vs| - 1].id || Before(id, vs[|vs| - 1].id)
  {
    var v := Get(vs, id).value;
    var i :| 0 <= i < |vs| && vs[i] == v;
    if i < |vs| - 1 { assert Before(VoterIds(vs)[i], VoterIds(vs)[|vs| - 1]); }
  }

  /**
   Adding up ballots and adding up voters give one number. Ballots in strict voter order inject
   into the effective electorate; this is what makes every subtraction and later addition of
   the count safe.
   */
  lemma {:induction false} BallotsAreVoters(m: Measure, rules: Rules, vs: seq<Voter>, bs: seq<Ballot>,
      only: Option<Choice>)
    requires Strict(VoterIds(vs)) && Strict(BallotVoters(bs)) && Admissible(rules, vs, bs)
    ensures CastTotal(m, rules, vs, bs, only) == Total(m, rules, bs, vs, GroupOf(only))
    decreases |vs|
  {
    hide CastTotal, Before, Strict, ChoiceOf, Get;
    if vs == [] {
      NoVotersNoBallots(m, rules, bs, only);
    } else {
      var v := vs[|vs| - 1];
      GetInit(vs, v.id);
      if bs != [] && bs[|bs| - 1].voter == v.id {
        PeelBallot(m, rules, vs, bs, only);
        BallotsAreVoters(m, rules, vs[..|vs| - 1], bs[..|bs| - 1], only);
      } else {
        NotNamed(rules, vs, bs);
        CastWithoutLastVoter(m, rules, vs, bs, only);
        BallotsAreVoters(m, rules, vs[..|vs| - 1], bs, only);
      }
    }
  }

  lemma NoVotersNoBallots(m: Measure, rules: Rules, bs: seq<Ballot>, only: Option<Choice>)
    ensures Admissible(rules, [], bs) ==> CastTotal(m, rules, [], bs, only) == 0
  {
    if bs != [] { assert !AdmissibleBallot(rules, [], bs[0]); }
  }

  /** If the last ballot is not the last voter's, no ballot is. */
  lemma NotNamed(rules: Rules, vs: seq<Voter>, bs: seq<Ballot>)
    requires vs != [] && Strict(VoterIds(vs)) && Strict(BallotVoters(bs)) && Admissible(rules, vs, bs)
    requires bs == [] || bs[|bs| - 1].voter != vs[|vs| - 1].id
    ensures forall b :: b in bs ==> b.voter != vs[|vs| - 1].id
    ensures ChoiceOf(bs, vs[|vs| - 1].id).None?
  {
    hide Before;
    var id := vs[|vs| - 1].id;
    forall i | 0 <= i < |bs| ensures bs[i].voter != id {
      var last := bs[|bs| - 1];
      assert AdmissibleBallot(rules, vs, last);
      NobodyAfterLast(vs, last.voter);
      if i < |bs| - 1 {
        assert Before(BallotVoters(bs)[i], BallotVoters(bs)[|bs| - 1]);
        BeforeIsTransitive(bs[i].voter, last.voter, id);
        BeforeIsTotal(bs[i].voter, id);
      }
    }
    SearchFinds(BallotVoters(bs), id);
  }

  lemma PeelBallot(m: Measure, rules: Rules, vs: seq<Voter>, bs: seq<Ballot>, only: Option<Choice>)
    requires vs != [] && bs != [] && Strict(VoterIds(vs)) && Strict(BallotVoters(bs)) && Admissible(rules, vs, bs)
    requires bs[|bs| - 1].voter == vs[|vs| - 1].id
    ensures var v, b, us, cs := vs[|vs| - 1], bs[|bs| - 1], vs[..|vs| - 1], bs[..|bs| - 1];
      && Strict(BallotVoters(cs)) && Admissible(rules, us, cs)
      && CastTotal(m, rules, vs, bs, only) ==
         CastTotal(m, rules, us, cs, only) + (if Counts(b, only) then Unit(m, rules, v) else 0)
      && Total(m, rules, bs, us, GroupOf(only)) == Total(m, rules, cs, us, GroupOf(only))
      && ChoiceOf(bs, v.id) == Some(b.choice) && Effective(rules, v)
  {
    hide Total, ChoiceOf, Get, Search, Before;
    var v, b, us, cs := vs[|vs| - 1], bs[|bs| - 1], vs[..|vs| - 1], bs[..|bs| - 1];
    ChoiceInit(bs, v.id);
    GetInit(vs, v.id);
    assert AdmissibleBallot(rules, vs, b);
    LastBallotLast(bs);
    forall c | c in cs ensures c.voter != v.id { BeforeIsTotal(c.voter, v.id); }
    assert Admissible(rules, vs, cs) by {
      forall i | 0 <= i < |cs| ensures AdmissibleBallot(rules, vs, cs[i]) { assert AdmissibleBallot(rules, vs, bs[i]); }
    }
    CastWithoutLastVoter(m, rules, vs, cs, only);
    forall u | u in us ensures ChoiceOf(bs, u.id) == ChoiceOf(cs, u.id) {
      ChoiceInit(bs, u.id);
      var i :| 0 <= i < |us| && us[i] == u;
      assert Before(VoterIds(vs)[i], VoterIds(vs)[|vs| - 1]);
      BeforeIsTotal(u.id, v.id);
    }
    TotalReadsChoices(m, rules, bs, cs, us, GroupOf(only));
  }
}
