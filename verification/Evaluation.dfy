/** Bornite's rule validation and its evaluation, with what the result may and may not depend on. */
module Evaluation {
  import opened Bytes
  import opened Ordering
  import opened Bornite

  // ---------------------------------------------------------------- checked sums

  function Units(rules: Rules, vs: seq<Voter>): nat { Total(ByWeight, rules, [], vs, Everyone) }

  /** `WeightTotalV1::sum`: adds from the left, refusing the first partial sum past `u64::MAX`. */
  method SumWeights(rules: Rules, vs: seq<Voter>, effectiveOnly: bool) returns (total: Option<U64>)
    ensures var exact := Total(ByWeight, rules, [], vs, if effectiveOnly then EffectiveVoters else Everyone);
      total == if exact <= U64_MAX then Some(exact) else None
  {
    var g := if effectiveOnly then EffectiveVoters else Everyone;
    var sum: nat := 0;
    for i := 0 to |vs|
      invariant sum == Total(ByWeight, rules, [], vs[..i], g) <= U64_MAX
    {
      assert vs[..i + 1][..i] == vs[..i];
      if InGroup(rules, [], g, vs[i]) {
        if sum + WeightOf(rules, vs[i]) > U64_MAX {
          TotalGrows(ByWeight, rules, [], vs, g, i + 1);
          return None;
        }
        sum := sum + WeightOf(rules, vs[i]);
      }
    }
    assert vs[..|vs|] == vs;
    total := Some(sum);
  }

  lemma {:induction false} TotalGrows(m: Measure, rules: Rules, bs: seq<Ballot>, vs: seq<Voter>, g: Group, n: nat)
    requires n <= |vs|
    ensures Total(m, rules, bs, vs[..n], g) <= Total(m, rules, bs, vs, g)
  {
    if n < |vs| {
      TotalGrows(m, rules, bs, vs[..|vs| - 1], g, n);
      assert vs[..|vs| - 1][..n] == vs[..n];
    } else {
      assert vs[..n] == vs;
    }
  }

  // ---------------------------------------------------------------- validation

  /**
   A reason why rules cannot be applied to an electorate. The order of a report is fixed by its
   contents and nothing is reported twice, so a report is the set of these.
   */
  datatype ValidationIssue =
    | ContradictoryWeight(voter: Id, weight: Weight)
    | ContradictoryExclusion(excludedVoter: Id)
    | UnachievableQuorum(required: Weight, total: nat)
    | ImproperQuorum(fraction: Fraction)
    | ImproperThreshold(thresholdFraction: Fraction)
    | ElectorateOverflow

  function RuleIssues(rules: Rules): set<ValidationIssue> {
    (match rules.quorum
     case FractionQuorum(f, _) => if IsProportion(f) then {} else {ImproperQuorum(f)}
     case _ => {}) +
    (match rules.threshold
     case FractionThreshold(f, _) => if IsProportion(f) then {} else {ImproperThreshold(f)}
     case _ => {})
  }

  function VoterIssues(rules: Rules, v: Voter): set<ValidationIssue> {
    (if rules.weight.EqualWeights? && v.weight != 1 then {ContradictoryWeight(v.id, v.weight)} else {}) +
    (if !rules.exclusionsEnabled && v.excluded then {ContradictoryExclusion(v.id)} else {})
  }

  function QuorumIssues(rules: Rules, electorate: seq<Voter>): set<ValidationIssue> {
    match rules.quorum
    case AbsoluteQuorum(required) =>
      var total := Units(rules, electorate);
      if total > U64_MAX then {ElectorateOverflow}
      else if required > total then {UnachievableQuorum(required, total)}
      else {}
    case _ => {}
  }

  /** Everything wrong with applying `rules` to `electorate`. */
  function Issues(rules: Rules, electorate: seq<Voter>): set<ValidationIssue> {
    RuleIssues(rules) + QuorumIssues(rules, electorate) +
    set v, issue | v in electorate && issue in VoterIssues(rules, v) :: issue
  }

  /** `validate`. */
  method Validate(rules: Rules, electorate: Electorate) returns (issues: set<ValidationIssue>)
    ensures issues == Issues(rules, electorate)
  {
    issues := RuleIssues(rules);
    for i := 0 to |electorate|
      invariant issues == RuleIssues(rules) + set v, issue | v in electorate[..i]
        && issue in VoterIssues(rules, v) :: issue
    {
      assert electorate[..i + 1] == electorate[..i] + [electorate[i]];
      issues := issues + VoterIssues(rules, electorate[i]);
    }
    assert electorate[..|electorate|] == electorate;
    if rules.quorum.AbsoluteQuorum? {
      var total := SumWeights(rules, electorate, false);
      match total {
        case None => issues := issues + {ElectorateOverflow};
        case Some(t) => if rules.quorum.weight > t { issues := issues + {UnachievableQuorum(rules.quorum.weight, t)}; }
      }
    }
  }

  // ---------------------------------------------------------------- the result

  datatype QuorumRequirement =
    | NoRequirement
    | AbsoluteRequirement(weight: Weight)
    | FractionRequirement(fraction: Fraction, basis: QuorumBasis, basisWeight: nat)

  datatype Tally = Tally(yesWeight: nat, noWeight: nat, abstainWeight: nat, yesCount: nat, noCount: nat,
      abstainCount: nat)

  datatype Outcome = Accepted | Rejected

  datatype Reason = ThresholdMet | ThresholdNotMet | TieAccepted | TieRejected | QuorumNotMet | EmptyThresholdBasis

  datatype VoteEvaluation = VoteEvaluation(
    rules: Rules,
    voterCount: nat, excludedCount: nat, effectiveVoterCount: nat, totalWeight: nat, effectiveWeight: nat,
    ballotCount: nat, participatingWeight: nat, nonParticipantCount: nat, nonParticipantWeight: nat,
    tally: Tally, requirement: QuorumRequirement, quorumMet: bool,
    denominatorWeight: nat, requiredFraction: Fraction, abstentionsAffected: bool,
    comparison: Comparison, thresholdMet: bool,
    outcome: Outcome, reason: Reason)

  datatype BallotIssue = UnknownVoter(voter: Id) | ExcludedVoter(excludedVoter: Id)

  datatype EvaluationError =
    | ValidationFailed(issues: set<ValidationIssue>)
    | WeightOverflow
    | BallotsRefused(ballotIssues: set<BallotIssue>)

  function BallotIssuesOf(rules: Rules, electorate: seq<Voter>, b: Ballot): set<BallotIssue> {
    match Get(electorate, b.voter)
    case None => {UnknownVoter(b.voter)}
    case Some(v) => if Effective(rules, v) then {} else {ExcludedVoter(b.voter)}
  }

  function BallotIssues(rules: Rules, electorate: seq<Voter>, bs: seq<Ballot>): set<BallotIssue> {
    set b, issue | b in bs && issue in BallotIssuesOf(rules, electorate, b) :: issue
  }

  lemma NoIssuesAdmissible(rules: Rules, electorate: seq<Voter>, bs: seq<Ballot>)
    ensures BallotIssues(rules, electorate, bs) == {} <==> Admissible(rules, electorate, bs)
  {
    var all := BallotIssues(rules, electorate, bs);
    assert forall b :: b in bs ==> BallotIssuesOf(rules, electorate, b) <= all;
    assert forall i :: 0 <= i < |bs| ==>
      (AdmissibleBallot(rules, electorate, bs[i]) <==> BallotIssuesOf(rules, electorate, bs[i]) == {});
    if Admissible(rules, electorate, bs) {
      assert forall b :: b in bs ==> BallotIssuesOf(rules, electorate, b) == {};
    }
  }

  function Requirement(rules: Rules, total: nat, effective: nat): QuorumRequirement {
    match rules.quorum
    case NoQuorum => NoRequirement
    case AbsoluteQuorum(w) => AbsoluteRequirement(w)
    case FractionQuorum(f, basis) =>
      FractionRequirement(f, basis, if basis.TotalElectorateQuorum? then total else effective)
  }

  predicate QuorumMet(requirement: QuorumRequirement, participating: nat) {
    match requirement
    case NoRequirement => true
    case AbsoluteRequirement(w) => participating >= w
    case FractionRequirement(f, _, basisWeight) => CompareShare(f, participating, basisWeight) != Below
  }

  function Denominator(rules: Rules, tally: Tally, participating: nat, effective: nat, total: nat): nat {
    match rules.threshold.basis
    case VotesCast => if rules.abstentions.ExcludeAbstentions? then tally.yesWeight + tally.noWeight else participating
    case EffectiveElectorate => effective
    case TotalElectorate => total
  }

  /** Step 8: the order of refusals, then the tie rule. */
  function Decide(quorumMet: bool, denominator: nat, comparison: Comparison, tie: TieTreatment): (Outcome, Reason) {
    if !quorumMet then (Rejected, QuorumNotMet)
    else if denominator == 0 then (Rejected, EmptyThresholdBasis)
    else match comparison
      case Above => (Accepted, ThresholdMet)
      case Below => (Rejected, ThresholdNotMet)
      case Exactly => if tie.AcceptTie? then (Accepted, TieAccepted) else (Rejected, TieRejected)
  }

  function TallyOf(rules: Rules, electorate: seq<Voter>, bs: seq<Ballot>): Tally {
    Tally(Total(ByWeight, rules, bs, electorate, Choosing(Yes)),
          Total(ByWeight, rules, bs, electorate, Choosing(No)),
          Total(ByWeight, rules, bs, electorate, Choosing(Abstain)),
          Total(ByCount, rules, bs, electorate, Choosing(Yes)),
          Total(ByCount, rules, bs, electorate, Choosing(No)),
          Total(ByCount, rules, bs, electorate, Choosing(Abstain)))
  }

  /** The result in terms of the electorate: who is effective, who took part, who chose what. */
  function Count(rules: Rules, electorate: seq<Voter>, bs: seq<Ballot>): VoteEvaluation {
    GroupsPartition(ByCount, rules, bs, electorate);
    var total := Total(ByWeight, rules, bs, electorate, Everyone);
    var effective := Total(ByWeight, rules, bs, electorate, EffectiveVoters);
    var participating := Total(ByWeight, rules, bs, electorate, Participating);
    var tally := TallyOf(rules, electorate, bs);
    var requirement := Requirement(rules, total, effective);
    var denominator := Denominator(rules, tally, participating, effective, total);
    var fraction := ThresholdFraction(rules.threshold);
    var comparison := CompareShare(fraction, tally.yesWeight, denominator);
    var met := QuorumMet(requirement, participating);
    var decision := Decide(met, denominator, comparison, rules.tie);
    VoteEvaluation(
      rules,
      Total(ByCount, rules, bs, electorate, Everyone),
      Total(ByCount, rules, bs, electorate, Everyone) - Total(ByCount, rules, bs, electorate, EffectiveVoters),
      Total(ByCount, rules, bs, electorate, EffectiveVoters), total, effective,
      Total(ByCount, rules, bs, electorate, Participating), participating,
      Total(ByCount, rules, bs, electorate, Silent), Total(ByWeight, rules, bs, electorate, Silent),
      tally, requirement, met, denominator, fraction, rules.threshold.basis.VotesCast?,
      comparison, (comparison.Above? || (comparison.Exactly? && rules.tie.AcceptTie?)) && denominator != 0,
      decision.0, decision.1)
  }

  /** `evaluate`, steps 1 to 9. */
  function Evaluate(rules: Rules, electorate: Electorate, bs: BallotSet): Result<VoteEvaluation, EvaluationError> {
    var issues := Issues(rules, electorate);
    var ballotIssues := BallotIssues(rules, electorate, bs);
    if issues != {} then Err(ValidationFailed(issues))
    else if Units(rules, electorate) > U64_MAX then Err(WeightOverflow)
    else if ballotIssues != {} then Err(BallotsRefused(ballotIssues))
    else Ok(Count(rules, electorate, bs))
  }

  /** Totals over everyone and over the effective voters do not read the ballots. */
  lemma {:induction false} ElectorateTotals(m: Measure, rules: Rules, bs: seq<Ballot>, vs: seq<Voter>)
    ensures Total(m, rules, bs, vs, Everyone) == Total(m, rules, [], vs, Everyone)
    ensures Total(m, rules, bs, vs, EffectiveVoters) == Total(m, rules, [], vs, EffectiveVoters)
  {
    if vs == [] {
    } else {
      ElectorateTotals(m, rules, bs, vs[..|vs| - 1]);
    }
  }

  lemma {:induction false} EveryoneCounts(rules: Rules, bs: seq<Ballot>, vs: seq<Voter>)
    ensures Total(ByCount, rules, bs, vs, Everyone) == |vs|
  {
    if vs == [] {
    } else {
      EveryoneCounts(rules, bs, vs[..|vs| - 1]);
    }
  }

  lemma {:induction false} CastCounts(rules: Rules, vs: seq<Voter>, bs: seq<Ballot>)
    requires Admissible(rules, vs, bs)
    ensures CastTotal(ByCount, rules, vs, bs, None) == |bs|
  {
    if bs == [] {
    } else {
      var n := |bs| - 1;
      assert AdmissibleBallot(rules, vs, bs[n]);
      forall i | 0 <= i < n
        ensures AdmissibleBallot(rules, vs, bs[..n][i])
      {
        assert AdmissibleBallot(rules, vs, bs[i]);
      }
      CastCounts(rules, vs, bs[..n]);
    }
  }

  /**
   Counting is conservative: the three tallies add up to participation, participation and
   silence add up to the effective electorate, by weight and by head, and participation is
   exactly the ballots cast.
   */
  lemma CountConserves(rules: Rules, electorate: Electorate, bs: BallotSet)
    requires Evaluate(rules, electorate, bs).Ok?
    ensures var ev := Evaluate(rules, electorate, bs).value; var t := ev.tally;
      && t.yesWeight + t.noWeight + t.abstainWeight == ev.participatingWeight
      && t.yesCount + t.noCount + t.abstainCount == ev.ballotCount == |bs|
      && ev.participatingWeight + ev.nonParticipantWeight == ev.effectiveWeight <= ev.totalWeight <= U64_MAX
      && ev.ballotCount + ev.nonParticipantCount == ev.effectiveVoterCount
      && ev.effectiveVoterCount + ev.excludedCount == ev.voterCount == |electorate|
  {
    NoIssuesAdmissible(rules, electorate, bs);
    GroupsPartition(ByWeight, rules, bs, electorate);
    GroupsPartition(ByCount, rules, bs, electorate);
    ElectorateTotals(ByWeight, rules, bs, electorate);
    EveryoneCounts(rules, bs, electorate);
    BallotsAreVoters(ByCount, rules, electorate, bs, None);
    CastCounts(rules, electorate, bs);
  }

  // ---------------------------------------------------------------- the count as run

  /** Adding ballots one by one never passes the electorate's total. */
  lemma PartialSumsFit(rules: Rules, electorate: Electorate, bs: BallotSet, n: nat, only: Option<Choice>)
    requires n <= |bs| && Admissible(rules, electorate, bs) && Units(rules, electorate) <= U64_MAX
    ensures CastTotal(ByWeight, rules, electorate, bs[..n], only) <= CastTotal(ByWeight, rules, electorate, bs, only)
    ensures CastTotal(ByWeight, rules, electorate, bs, only) <= Units(rules, electorate)
  {
    CastGrows(rules, electorate, bs, n, only);
    BallotsAreVoters(ByWeight, rules, electorate, bs, only);
    GroupsPartition(ByWeight, rules, bs, electorate);
    ElectorateTotals(ByWeight, rules, bs, electorate);
    if only.Some? { match only.value { case Yes => case No => case Abstain => } }
  }

  lemma {:induction false} CastGrows(rules: Rules, vs: seq<Voter>, bs: seq<Ballot>, n: nat, only: Option<Choice>)
    requires n <= |bs|
    ensures CastTotal(ByWeight, rules, vs, bs[..n], only) <= CastTotal(ByWeight, rules, vs, bs, only)
  {
    if n < |bs| {
      CastGrows(rules, vs, bs[..|bs| - 1], n, only);
      assert bs[..|bs| - 1][..n] == bs[..n];
    } else {
      assert bs[..n] == bs;
    }
  }

  /** One more ballot, seen by every running total. */
  lemma CastStep(m: Measure, rules: Rules, vs: seq<Voter>, bs: seq<Ballot>, n: nat, only: Option<Choice>)
    requires n < |bs|
    ensures CastTotal(m, rules, vs, bs[..n + 1], only) ==
      CastTotal(m, rules, vs, bs[..n], only) + if Counts(bs[n], only) then UnitAt(m, rules, vs, bs[n].voter) else 0
  {
    assert bs[..n + 1][..n] == bs[..n];
  }

  predicate TallySoFar(rules: Rules, vs: seq<Voter>, bs: seq<Ballot>, t: Tally) {
    && t.yesWeight == CastTotal(ByWeight, rules, vs, bs, Some(Yes))
    && t.noWeight == CastTotal(ByWeight, rules, vs, bs, Some(No))
    && t.abstainWeight == CastTotal(ByWeight, rules, vs, bs, Some(Abstain))
    && t.yesCount == CastTotal(ByCount, rules, vs, bs, Some(Yes))
    && t.noCount == CastTotal(ByCount, rules, vs, bs, Some(No))
    && t.abstainCount == CastTotal(ByCount, rules, vs, bs, Some(Abstain))
  }

  /** Step 6: one bucket and one counter move for each ballot. */
  function Tallied(t: Tally, choice: Choice, weight: nat): Tally {
    match choice
    case Yes => t.(yesWeight := t.yesWeight + weight, yesCount := t.yesCount + 1)
    case No => t.(noWeight := t.noWeight + weight, noCount := t.noCount + 1)
    case Abstain => t.(abstainWeight := t.abstainWeight + weight, abstainCount := t.abstainCount + 1)
  }

  /** Step 4: every ballot from an unknown or excluded voter is reported. */
  method CheckBallots(rules: Rules, electorate: Electorate, bs: BallotSet) returns (issues: set<BallotIssue>)
    ensures issues == BallotIssues(rules, electorate, bs)
  {
    issues := {};
    for i := 0 to |bs|
      invariant issues == BallotIssues(rules, electorate, bs[..i])
    {
      assert bs[..i + 1] == bs[..i] + [bs[i]];
      issues := issues + BallotIssuesOf(rules, electorate, bs[i]);
    }
    assert bs[..|bs|] == bs;
  }

  lemma TallyStep(rules: Rules, vs: seq<Voter>, bs: seq<Ballot>, n: nat, t: Tally)
    requires n < |bs| && TallySoFar(rules, vs, bs[..n], t) && AdmissibleBallot(rules, vs, bs[n])
    ensures TallySoFar(rules, vs, bs[..n + 1], Tallied(t, bs[n].choice, UnitAt(ByWeight, rules, vs, bs[n].voter)))
  {
    hide CastTotal;
    CastStep(ByWeight, rules, vs, bs, n, Some(Yes));
    CastStep(ByWeight, rules, vs, bs, n, Some(No));
    CastStep(ByWeight, rules, vs, bs, n, Some(Abstain));
    CastStep(ByCount, rules, vs, bs, n, Some(Yes));
    CastStep(ByCount, rules, vs, bs, n, Some(No));
    CastStep(ByCount, rules, vs, bs, n, Some(Abstain));
  }

  /** Steps 5 and 6: participation and the three-way tally, each addition within `u64`. */
  method CountBallots(rules: Rules, electorate: Electorate, bs: BallotSet) returns (participating: U64, tally: Tally)
    requires Admissible(rules, electorate, bs) && Units(rules, electorate) <= U64_MAX
    ensures participating == Total(ByWeight, rules, bs, electorate, Participating)
    ensures tally == TallyOf(rules, electorate, bs)
  {
    hide CastTotal, Total, Units;
    participating := 0;
    tally := Tally(0, 0, 0, 0, 0, 0);
    NothingCast(rules, electorate, bs);
    for i := 0 to |bs|
      invariant participating == CastTotal(ByWeight, rules, electorate, bs[..i], None)
      invariant TallySoFar(rules, electorate, bs[..i], tally)
    {
      assert AdmissibleBallot(rules, electorate, bs[i]);
      var weight := WeightOf(rules, Get(electorate, bs[i].voter).value);
      PartialSumsFit(rules, electorate, bs, i + 1, None);
      CastStep(ByWeight, rules, electorate, bs, i, None);
      TallyStep(rules, electorate, bs, i, tally);
      participating := participating + weight;
      tally := Tallied(tally, bs[i].choice, weight);
    }
    assert bs[..|bs|] == bs;
    BallotsAreVoters(ByWeight, rules, electorate, bs, None);
    TalliesAgree(rules, electorate, bs, tally);
  }

  lemma NothingCast(rules: Rules, vs: seq<Voter>, bs: seq<Ballot>)
    ensures CastTotal(ByWeight, rules, vs, bs[..0], None) == 0
    ensures TallySoFar(rules, vs, bs[..0], Tally(0, 0, 0, 0, 0, 0))
  {
  }

  lemma TalliesAgree(rules: Rules, electorate: Electorate, bs: BallotSet, tally: Tally)
    requires Admissible(rules, electorate, bs) && TallySoFar(rules, electorate, bs, tally)
    ensures tally == TallyOf(rules, electorate, bs)
  {
    hide CastTotal, Total;
    BallotsAreVoters(ByWeight, rules, electorate, bs, Some(Yes));
    BallotsAreVoters(ByWeight, rules, electorate, bs, Some(No));
    BallotsAreVoters(ByWeight, rules, electorate, bs, Some(Abstain));
    BallotsAreVoters(ByCount, rules, electorate, bs, Some(Yes));
    BallotsAreVoters(ByCount, rules, electorate, bs, Some(No));
    BallotsAreVoters(ByCount, rules, electorate, bs, Some(Abstain));
  }

  /** The number of effective voters, as the engine counts them. */
  method CountEffective(rules: Rules, electorate: Electorate) returns (n: nat)
    ensures n == Total(ByCount, rules, [], electorate, EffectiveVoters)
  {
    n := 0;
    for i := 0 to |electorate|
      invariant n == Total(ByCount, rules, [], electorate[..i], EffectiveVoters)
    {
      assert electorate[..i + 1][..i] == electorate[..i];
      if Effective(rules, electorate[i]) { n := n + 1; }
    }
    assert electorate[..|electorate|] == electorate;
  }

  /** `evaluate`: what the engine computes is what `Evaluate` means, and no `expect` can fail. */
  method EvaluateVote(rules: Rules, electorate: Electorate, bs: BallotSet)
    returns (r: Result<VoteEvaluation, EvaluationError>)
    ensures r == Evaluate(rules, electorate, bs)
  {
    hide Total, Issues, BallotIssues, Admissible, CompareShare, QuorumMet, Requirement;
    var issues := Validate(rules, electorate);
    if issues != {} { return Err(ValidationFailed(issues)); }
    var total := SumWeights(rules, electorate, false);
    if total.None? { return Err(WeightOverflow); }
    GroupsPartition(ByWeight, rules, [], electorate);
    var effective := SumWeights(rules, electorate, true);
    var effectiveCount := CountEffective(rules, electorate);
    var ballotIssues := CheckBallots(rules, electorate, bs);
    if ballotIssues != {} { return Err(BallotsRefused(ballotIssues)); }
    NoIssuesAdmissible(rules, electorate, bs);
    var participating, tally := CountBallots(rules, electorate, bs);
    CountsAgree(ByWeight, rules, electorate, bs);
    CountsAgree(ByCount, rules, electorate, bs);
    // The two subtractions the engine justifies by "participants are a subset of the effective electorate".
    var nonParticipants: nat := effectiveCount - |bs|;
    var nonParticipantWeight: U64 := effective.value - participating;
    // `yes + no` is added with a check too; it cannot fail.
    assert tally.yesWeight + tally.noWeight <= participating by { GroupsPartition(ByWeight, rules, bs, electorate); }
    var denominator: U64 := Denominator(rules, tally, participating, effective.value, total.value);
    var requirement := Requirement(rules, total.value, effective.value);
    var fraction := ThresholdFraction(rules.threshold);
    var comparison := CompareShare(fraction, tally.yesWeight, denominator);
    var met := QuorumMet(requirement, participating);
    var decision := Decide(met, denominator, comparison, rules.tie);
    r := Ok(VoteEvaluation(
      rules, |electorate|, |electorate| - effectiveCount, effectiveCount, total.value, effective.value,
      |bs|, participating, nonParticipants, nonParticipantWeight, tally, requirement, met,
      denominator, fraction, rules.threshold.basis.VotesCast?, comparison,
      (comparison.Above? || (comparison.Exactly? && rules.tie.AcceptTie?)) && denominator != 0,
      decision.0, decision.1));
  }

  /** Everything counted, in terms of the electorate. */
  lemma CountsAgree(m: Measure, rules: Rules, electorate: Electorate, bs: BallotSet)
    requires Admissible(rules, electorate, bs)
    ensures |bs| == Total(ByCount, rules, bs, electorate, Participating)
    ensures |electorate| == Total(ByCount, rules, bs, electorate, Everyone)
    ensures Total(m, rules, [], electorate, EffectiveVoters) ==
      Total(m, rules, bs, electorate, Participating) + Total(m, rules, bs, electorate, Silent)
    ensures Total(m, rules, bs, electorate, EffectiveVoters) == Total(m, rules, [], electorate, EffectiveVoters)
    ensures Total(m, rules, bs, electorate, Everyone) == Total(m, rules, [], electorate, Everyone)
    ensures Total(m, rules, bs, electorate, EffectiveVoters) <= Total(m, rules, bs, electorate, Everyone)
  {
    GroupsPartition(m, rules, bs, electorate);
    ElectorateTotals(m, rules, bs, electorate);
    BallotsAreVoters(ByCount, rules, electorate, bs, None);
    EveryoneCounts(rules, bs, electorate);
    CastCounts(rules, electorate, bs);
  }

  // ---------------------------------------------------------------- monotonicity

  /** Every effective voter says in `b` what they said in `a`, or says Yes. */
  ghost predicate TurnedToYes(rules: Rules, electorate: seq<Voter>, a: seq<Ballot>, b: seq<Ballot>) {
    forall v :: v in electorate && Effective(rules, v) ==>
      ChoiceOf(b, v.id) == ChoiceOf(a, v.id) || ChoiceOf(b, v.id) == Some(Yes)
  }

  /** How the tally moves when voters turn to Yes: what Yes gains, the others lose. */
  lemma {:induction false} YesGains(rules: Rules, a: seq<Ballot>, b: seq<Ballot>, vs: seq<Voter>)
    requires TurnedToYes(rules, vs, a, b)
    ensures var s, t := TallyOf(rules, vs, a), TallyOf(rules, vs, b);
      && s.yesWeight <= t.yesWeight && t.noWeight <= s.noWeight && t.abstainWeight <= s.abstainWeight
      && s.yesWeight + s.noWeight <= t.yesWeight + t.noWeight
      && s.yesWeight + s.noWeight + s.abstainWeight <= t.yesWeight + t.noWeight + t.abstainWeight
  {
    hide ChoiceOf;
    if vs == [] {
    } else {
      var v := vs[|vs| - 1];
      YesGains(rules, a, b, vs[..|vs| - 1]);
    }
  }

  /** Adding to both sides of a share comparison cannot lose it when the share is a proportion. */
  lemma ShareKept(f: Fraction, yes: nat, denominator: nat, moreYes: nat, moreDenominator: nat)
    requires IsProportion(f) && yes <= moreYes && denominator <= moreDenominator
    requires moreDenominator - denominator <= moreYes - yes
    ensures CompareShare(f, yes, denominator) == Above ==> CompareShare(f, moreYes, moreDenominator) == Above
    ensures CompareShare(f, yes, denominator) == Exactly ==> CompareShare(f, moreYes, moreDenominator) != Below
  {
    var x, y := moreYes - yes, moreDenominator - denominator;
    assert moreYes * f.denominator == yes * f.denominator + x * f.denominator;
    assert f.numerator * moreDenominator == f.numerator * denominator + f.numerator * y;
    assert f.numerator * y <= f.denominator * x by {
      Scale(f.numerator, f.denominator, y);
      Scale(y, x, f.denominator);
    }
  }

  lemma QuorumKept(requirement: QuorumRequirement, less: nat, more: nat)
    requires less <= more && QuorumMet(requirement, less)
    ensures QuorumMet(requirement, more)
  {
    if requirement.FractionRequirement? { Scale(less, more, requirement.fraction.denominator); }
  }

  /**
   More Yes never loses: if a ballot set is accepted, then after any effective voters turn
   their No, their abstention or their silence into Yes, the result is still accepted.
   */
  lemma AcceptanceIsMonotone(rules: Rules, electorate: Electorate, a: BallotSet, b: BallotSet)
    requires Evaluate(rules, electorate, a).Ok? && Evaluate(rules, electorate, a).value.outcome == Accepted
    requires TurnedToYes(rules, electorate, a, b) && BallotIssues(rules, electorate, b) == {}
    ensures Evaluate(rules, electorate, b).Ok? && Evaluate(rules, electorate, b).value.outcome == Accepted
  {
    var x, y := Count(rules, electorate, a), Count(rules, electorate, b);
    CountConserves(rules, electorate, a);
    CountConserves(rules, electorate, b);
    YesGains(rules, a, b, electorate);
    ElectorateTotals(ByWeight, rules, a, electorate);
    ElectorateTotals(ByWeight, rules, b, electorate);
    QuorumKept(x.requirement, x.participatingWeight, y.participatingWeight);
    assert IsProportion(x.requiredFraction) by { ThresholdIsProportion(rules, electorate); }
    ShareKept(x.requiredFraction, x.tally.yesWeight, x.denominatorWeight, y.tally.yesWeight, y.denominatorWeight);
  }

  lemma ThresholdIsProportion(rules: Rules, electorate: Electorate)
    requires Issues(rules, electorate) == {}
    ensures IsProportion(ThresholdFraction(rules.threshold))
  {
    assert RuleIssues(rules) <= Issues(rules, electorate);
  }

  // ---------------------------------------------------------------- order independence

  datatype Failure =
    | DuplicateVoter(id: Id)
    | DuplicateBallot(voter: Id)
    | NotEvaluated(error: EvaluationError)

  /** From listed voters and ballots to a result, as a caller runs it. */
  function EvaluateListed(rules: Rules, voters: seq<Voter>, ballots: seq<Ballot>): Result<VoteEvaluation, Failure> {
    match NewElectorate(voters)
    case Err(id) => Err(DuplicateVoter(id))
    case Ok(electorate) =>
      match NewBallotSet(ballots)
      case Err(id) => Err(DuplicateBallot(id))
      case Ok(bs) =>
        match Evaluate(rules, electorate, bs)
        case Err(e) => Err(NotEvaluated(e))
        case Ok(ev) => Ok(ev)
  }

  /** In every input order: the same result, the same complaint, the same duplicate named. */
  lemma ListingOrderIsIrrelevant(
      rules: Rules, voters: seq<Voter>, voters': seq<Voter>, ballots: seq<Ballot>, ballots': seq<Ballot>)
    requires multiset(voters) == multiset(voters') && multiset(ballots) == multiset(ballots')
    ensures EvaluateListed(rules, voters, ballots) == EvaluateListed(rules, voters', ballots')
  {
    DistinctByForgetsOrder(VoterId, voters, voters');
    DistinctByForgetsOrder(BallotVoter, ballots, ballots');
  }
}
