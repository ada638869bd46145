/**
 What a result says, in plain sums over the people: no step of the engine is named here. A group
 is weighed by going through the electorate and looking the ballots up by hand.
 */
module Results {
  import opened Bytes
  import opened Ordering
  import opened Bornite
  import opened Evaluation

  // ---------------------------------------------------------------- groups, told from the ballots

  predicate Belongs(bs: seq<Ballot>, g: Group, v: Voter) {
    match g
    case Everyone => true
    case EffectiveVoters => !v.excluded
    case Choosing(c) => !v.excluded && Ballot(v.id, c) in bs
    case Participating => !v.excluded && exists c :: Ballot(v.id, c) in bs
    case Silent => !v.excluded && forall c :: Ballot(v.id, c) !in bs
  }

  /** What a group of voters holds. */
  function Weigh(bs: seq<Ballot>, vs: seq<Voter>, g: Group): nat {
    if vs == [] then 0 else
      var v := vs[|vs| - 1];
      Weigh(bs, vs[..|vs| - 1], g) + if Belongs(bs, g, v) then v.weight else 0
  }

  function Number(bs: seq<Ballot>, vs: seq<Voter>, g: Group): nat {
    if vs == [] then 0 else
      Number(bs, vs[..|vs| - 1], g) + if Belongs(bs, g, vs[|vs| - 1]) then 1 else 0
  }

  // ---------------------------------------------------------------- rules that suit an electorate

  predicate Proper(f: Fraction) { f.numerator <= f.denominator }

  predicate SuitedVoter(rules: Rules, v: Voter) {
    (rules.weight == EqualWeights ==> v.weight == 1) && (v.excluded ==> rules.exclusionsEnabled)
  }

  /** Rules and people do not contradict each other. */
  predicate Suited(rules: Rules, vs: seq<Voter>) {
    && (rules.quorum.FractionQuorum? ==> Proper(rules.quorum.fraction))
    && (rules.threshold.FractionThreshold? ==> Proper(rules.threshold.fraction))
    && (forall v :: v in vs ==> SuitedVoter(rules, v))
    && (rules.quorum.AbsoluteQuorum? ==> rules.quorum.weight <= Weigh([], vs, Everyone) <= U64_MAX)
  }

  lemma NoVoterIssues(rules: Rules, vs: seq<Voter>)
    ensures (set v, issue | v in vs && issue in VoterIssues(rules, v) :: issue) == {}
      <==> forall v :: v in vs ==> SuitedVoter(rules, v)
  {
    var all := set v, issue | v in vs && issue in VoterIssues(rules, v) :: issue;
    forall v | v in vs ensures SuitedVoter(rules, v) <==> VoterIssues(rules, v) == {} {
      if rules.weight == EqualWeights && v.weight != 1 {
        assert ContradictoryWeight(v.id, v.weight) in VoterIssues(rules, v);
      }
      if v.excluded && !rules.exclusionsEnabled { assert ContradictoryExclusion(v.id) in VoterIssues(rules, v); }
    }
    if all == {} {
      forall v | v in vs ensures VoterIssues(rules, v) == {} { assert VoterIssues(rules, v) <= all; }
    }
  }

  lemma {:induction false} UnitsAreHeld(rules: Rules, vs: seq<Voter>)
    requires forall v :: v in vs ==> SuitedVoter(rules, v)
    ensures Units(rules, vs) == Weigh([], vs, Everyone)
  {
    if vs == [] {
    } else {
      assert vs[|vs| - 1] in vs;
      UnitsAreHeld(rules, vs[..|vs| - 1]);
    }
  }

  lemma RuleIssuesAre(rules: Rules)
    ensures RuleIssues(rules) == {} <==>
      (rules.quorum.FractionQuorum? ==> Proper(rules.quorum.fraction))
      && (rules.threshold.FractionThreshold? ==> Proper(rules.threshold.fraction))
  {
    if rules.quorum.FractionQuorum? && !Proper(rules.quorum.fraction) {
      assert ImproperQuorum(rules.quorum.fraction) in RuleIssues(rules);
    }
    if rules.threshold.FractionThreshold? && !Proper(rules.threshold.fraction) {
      assert ImproperThreshold(rules.threshold.fraction) in RuleIssues(rules);
    }
  }

  lemma QuorumIssuesAre(rules: Rules, vs: seq<Voter>)
    ensures QuorumIssues(rules, vs) == {} <==>
      (rules.quorum.AbsoluteQuorum? ==> rules.quorum.weight <= Units(rules, vs) <= U64_MAX)
  {
    hide Units;
    if rules.quorum.AbsoluteQuorum? {
      var total := Units(rules, vs);
      assert total > U64_MAX ==> ElectorateOverflow in QuorumIssues(rules, vs);
      assert total <= U64_MAX && rules.quorum.weight > total ==>
        UnachievableQuorum(rules.quorum.weight, total) in QuorumIssues(rules, vs);
    }
  }

  /** The validator complains of nothing exactly when there is nothing to complain of. */
  lemma IssuesAreExact(rules: Rules, vs: seq<Voter>)
    ensures Issues(rules, vs) == {} <==> Suited(rules, vs)
  {
    hide VoterIssues, SuitedVoter, Units, Weigh;
    var voters := set v, issue | v in vs && issue in VoterIssues(rules, v) :: issue;
    NoVoterIssues(rules, vs);
    assert Issues(rules, vs) == {} <==> RuleIssues(rules) == {} && QuorumIssues(rules, vs) == {} && voters == {};
    if voters == {} { UnitsAreHeld(rules, vs); }
    QuorumIssuesAre(rules, vs);
    RuleIssuesAre(rules);
  }

  // ---------------------------------------------------------------- the engine's groups are these groups

  /** Among ballots one a voter, looking a choice up is finding the ballot. */
  lemma ChoiceIsBallot(bs: seq<Ballot>, id: Id, c: Choice)
    requires Strict(BallotVoters(bs))
    ensures ChoiceOf(bs, id) == Some(c) <==> Ballot(id, c) in bs
  {
    hide Before;
    SearchFinds(BallotVoters(bs), id);
    if Ballot(id, c) in bs {
      var i :| 0 <= i < |bs| && bs[i] == Ballot(id, c);
      assert BallotVoters(bs)[i] == id;
    }
  }

  lemma ChoicesAreBallots(bs: seq<Ballot>, id: Id)
    requires Strict(BallotVoters(bs))
    ensures forall c :: ChoiceOf(bs, id) == Some(c) <==> Ballot(id, c) in bs
    ensures ChoiceOf(bs, id).Some? <==> exists c :: Ballot(id, c) in bs
  {
    hide Strict, ChoiceOf, BallotVoters;
    forall c ensures ChoiceOf(bs, id) == Some(c) <==> Ballot(id, c) in bs { ChoiceIsBallot(bs, id, c); }
    if ChoiceOf(bs, id).Some? { assert Ballot(id, ChoiceOf(bs, id).value) in bs; }
  }

  lemma SameGroup(rules: Rules, bs: seq<Ballot>, g: Group, v: Voter)
    requires Strict(BallotVoters(bs)) && SuitedVoter(rules, v)
    ensures InGroup(rules, bs, g, v) == Belongs(bs, g, v) && WeightOf(rules, v) == v.weight
  {
    hide Strict, ChoiceOf, BallotVoters;
    ChoicesAreBallots(bs, v.id);
  }

  lemma {:induction false} GroupsWeigh(rules: Rules, bs: seq<Ballot>, vs: seq<Voter>, g: Group)
    requires Strict(BallotVoters(bs)) && forall v :: v in vs ==> SuitedVoter(rules, v)
    ensures Total(ByWeight, rules, bs, vs, g) == Weigh(bs, vs, g)
    ensures Total(ByCount, rules, bs, vs, g) == Number(bs, vs, g)
  {
    hide Strict, InGroup, Belongs, SuitedVoter, WeightOf;
    if vs == [] {
    } else {
      assert vs[|vs| - 1] in vs;
      GroupsWeigh(rules, bs, vs[..|vs| - 1], g);
      SameGroup(rules, bs, g, vs[|vs| - 1]);
    }
  }

  // ---------------------------------------------------------------- what an outcome means

  /** What a quorum share is a share of. */
  function Whole(basis: QuorumBasis, bs: seq<Ballot>, vs: seq<Voter>): nat {
    match basis
    case TotalElectorateQuorum => Weigh(bs, vs, Everyone)
    case EffectiveElectorateQuorum => Weigh(bs, vs, EffectiveVoters)
  }

  predicate MakesShare(f: Fraction, n: nat, whole: nat) { f.numerator * whole <= n * f.denominator }

  /** The quorum, as an inequality between what took part and what the rule names. */
  predicate Quorate(rules: Rules, bs: seq<Ballot>, vs: seq<Voter>) {
    var took := Weigh(bs, vs, Participating);
    match rules.quorum
    case NoQuorum => true
    case AbsoluteQuorum(w) => w <= took
    case FractionQuorum(f, basis) => MakesShare(f, took, Whole(basis, bs, vs))
  }

  /** What the Yes weight is measured against: votes cast with abstentions only where they are included. */
  function Base(rules: Rules, bs: seq<Ballot>, vs: seq<Voter>): nat {
    match rules.threshold.basis
    case TotalElectorate => Weigh(bs, vs, Everyone)
    case EffectiveElectorate => Weigh(bs, vs, EffectiveVoters)
    case VotesCast =>
      Weigh(bs, vs, Choosing(Yes)) + Weigh(bs, vs, Choosing(No)) +
      if rules.abstentions == IncludeAbstentions then Weigh(bs, vs, Choosing(Abstain)) else 0
  }

  /** The share asked for: more than one half, or the fraction named. */
  function Asked(t: ThresholdRule): (nat, nat) {
    match t
    case SimpleMajority(_) => (1, 2)
    case FractionThreshold(f, _) => (f.numerator, f.denominator)
  }

  predicate MoreThanAsked(rules: Rules, bs: seq<Ballot>, vs: seq<Voter>) {
    Weigh(bs, vs, Choosing(Yes)) * Asked(rules.threshold).1 > Asked(rules.threshold).0 * Base(rules, bs, vs)
  }

  predicate ExactlyAsked(rules: Rules, bs: seq<Ballot>, vs: seq<Voter>) {
    Weigh(bs, vs, Choosing(Yes)) * Asked(rules.threshold).1 == Asked(rules.threshold).0 * Base(rules, bs, vs)
  }

  /** Of something, more than the share asked for; or just that share, where a tie is accepted. */
  predicate Won(rules: Rules, bs: seq<Ballot>, vs: seq<Voter>) {
    && Base(rules, bs, vs) > 0
    && (MoreThanAsked(rules, bs, vs) || (ExactlyAsked(rules, bs, vs) && rules.tie == AcceptTie))
  }

  predicate Carried(rules: Rules, bs: seq<Ballot>, vs: seq<Voter>) { Quorate(rules, bs, vs) && Won(rules, bs, vs) }

  lemma EvaluatedIsSuited(rules: Rules, electorate: Electorate, bs: BallotSet)
    requires Evaluate(rules, electorate, bs).Ok?
    ensures Suited(rules, electorate)
  {
    hide Suited;
    IssuesAreExact(rules, electorate);
  }

  /** Every total of the result is the weight, or the number, of the group it is named after. */
  lemma TotalsMean(rules: Rules, electorate: Electorate, bs: BallotSet)
    requires Evaluate(rules, electorate, bs).Ok?
    ensures var ev := Evaluate(rules, electorate, bs).value; var t := ev.tally;
      && t.yesWeight == Weigh(bs, electorate, Choosing(Yes)) && t.yesCount == Number(bs, electorate, Choosing(Yes))
      && t.noWeight == Weigh(bs, electorate, Choosing(No)) && t.noCount == Number(bs, electorate, Choosing(No))
      && t.abstainWeight == Weigh(bs, electorate, Choosing(Abstain))
      && t.abstainCount == Number(bs, electorate, Choosing(Abstain))
      && ev.totalWeight == Weigh(bs, electorate, Everyone) && ev.voterCount == |electorate|
      && ev.effectiveWeight == Weigh(bs, electorate, EffectiveVoters)
      && ev.effectiveVoterCount == Number(bs, electorate, EffectiveVoters)
      && ev.excludedCount == |electorate| - Number(bs, electorate, EffectiveVoters)
      && ev.participatingWeight == Weigh(bs, electorate, Participating) && ev.ballotCount == |bs|
      && ev.nonParticipantWeight == Weigh(bs, electorate, Silent)
      && ev.nonParticipantCount == Number(bs, electorate, Silent)
  {
    hide Belongs, InGroup, Total, Weigh, Number;
    EvaluatedIsSuited(rules, electorate, bs);
    CountConserves(rules, electorate, bs);
    GroupsWeigh(rules, bs, electorate, Choosing(Yes));
    GroupsWeigh(rules, bs, electorate, Choosing(No));
    GroupsWeigh(rules, bs, electorate, Choosing(Abstain));
    GroupsWeigh(rules, bs, electorate, Everyone);
    GroupsWeigh(rules, bs, electorate, EffectiveVoters);
    GroupsWeigh(rules, bs, electorate, Participating);
    GroupsWeigh(rules, bs, electorate, Silent);
  }

  /**
   The outcome, exactly. Accepted means that the quorum the rules name was reached, that there was
   something to measure against, and that the Yes weight is more than the share asked for, or that
   very share under rules that accept a tie.
   */
  lemma OutcomeMeans(rules: Rules, electorate: Electorate, bs: BallotSet)
    requires Evaluate(rules, electorate, bs).Ok?
    ensures var ev := Evaluate(rules, electorate, bs).value;
      && ev.denominatorWeight == Base(rules, bs, electorate) && ev.quorumMet == Quorate(rules, bs, electorate)
      && (ev.outcome == Accepted <==> Carried(rules, bs, electorate))
      && ev.thresholdMet == Won(rules, bs, electorate)
  {
    hide Belongs, InGroup, Total, Weigh, Number, Issues, BallotIssues;
    TotalsMean(rules, electorate, bs);
    CountConserves(rules, electorate, bs);
  }

  function Why(rules: Rules, bs: seq<Ballot>, vs: seq<Voter>): Reason {
    if !Quorate(rules, bs, vs) then QuorumNotMet
    else if Base(rules, bs, vs) == 0 then EmptyThresholdBasis
    else if MoreThanAsked(rules, bs, vs) then ThresholdMet
    else if !ExactlyAsked(rules, bs, vs) then ThresholdNotMet
    else if rules.tie == AcceptTie then TieAccepted else TieRejected
  }

  /** The reason given is the first that applies: quorum, nothing to measure against, then the share. */
  lemma ReasonMeans(rules: Rules, electorate: Electorate, bs: BallotSet)
    requires Evaluate(rules, electorate, bs).Ok?
    ensures Evaluate(rules, electorate, bs).value.reason == Why(rules, bs, electorate)
    ensures var comparison := Evaluate(rules, electorate, bs).value.comparison;
      && (comparison == Above <==> MoreThanAsked(rules, bs, electorate))
      && (comparison == Exactly <==> ExactlyAsked(rules, bs, electorate))
  {
    hide Belongs, InGroup, Total, Weigh, Number, Issues, BallotIssues;
    TotalsMean(rules, electorate, bs);
    CountConserves(rules, electorate, bs);
  }

  // ---------------------------------------------------------------- what abstaining and tying change

  lemma {:induction false} WeighReads(a: seq<Ballot>, b: seq<Ballot>, vs: seq<Voter>, g: Group)
    requires forall v :: v in vs ==> Belongs(a, g, v) == Belongs(b, g, v)
    ensures Weigh(a, vs, g) == Weigh(b, vs, g)
  {
    hide Belongs;
    if vs == [] {
    } else {
      assert vs[|vs| - 1] in vs;
      WeighReads(a, b, vs[..|vs| - 1], g);
    }
  }

  /** The ballots without one of them, and with one of them changed. */
  function Without(bs: seq<Ballot>, i: nat): seq<Ballot>
    requires i < |bs|
  {
    bs[..i] + bs[i + 1..]
  }

  function Changed(bs: seq<Ballot>, i: nat, c: Choice): seq<Ballot>
    requires i < |bs|
  {
    bs[i := Ballot(bs[i].voter, c)]
  }

  lemma OneBallotEach(bs: seq<Ballot>, i: nat, j: nat)
    requires Strict(BallotVoters(bs)) && i < |bs| && j < |bs| && bs[i].voter == bs[j].voter
    ensures i == j
  {
    hide Before;
    var ids := BallotVoters(bs);
    if i < j { assert Before(ids[i], ids[j]); }
    if j < i { assert Before(ids[j], ids[i]); }
    BeforeIsTotal(ids[i], ids[j]);
  }

  lemma WithoutKeeps(rules: Rules, vs: seq<Voter>, bs: seq<Ballot>, i: nat)
    requires Strict(BallotVoters(bs)) && i < |bs| && Admissible(rules, vs, bs)
    ensures Strict(BallotVoters(Without(bs, i))) && Admissible(rules, vs, Without(bs, i))
    ensures forall b :: b in Without(bs, i) <==> b in bs && b != bs[i]
  {
    hide Before, AdmissibleBallot;
    var cs, ids := Without(bs, i), BallotVoters(bs);
    forall k | 0 <= k < |cs|
      ensures cs[k] in bs && cs[k] != bs[i] && AdmissibleBallot(rules, vs, cs[k])
    {
      var j := if k < i then k else k + 1;
      assert cs[k] == bs[j] && AdmissibleBallot(rules, vs, bs[j]);
      if bs[j] == bs[i] { OneBallotEach(bs, i, j); }
    }
    forall b | b in bs && b != bs[i] ensures b in cs {
      var j :| 0 <= j < |bs| && bs[j] == b;
      assert cs[if j < i then j else j - 1] == b;
    }
    forall k, l | 0 <= k < l < |cs| ensures Before(BallotVoters(cs)[k], BallotVoters(cs)[l]) {
      assert Before(ids[if k < i then k else k + 1], ids[if l < i then l else l + 1]);
    }
  }

  lemma ChangedKeeps(rules: Rules, vs: seq<Voter>, bs: seq<Ballot>, i: nat, c: Choice)
    requires Strict(BallotVoters(bs)) && i < |bs| && Admissible(rules, vs, bs)
    ensures BallotVoters(Changed(bs, i, c)) == BallotVoters(bs) && Admissible(rules, vs, Changed(bs, i, c))
    ensures forall b :: b in Changed(bs, i, c) <==> b == Ballot(bs[i].voter, c) || (b in bs && b.voter != bs[i].voter)
  {
    hide Before, Get, Strict;
    var cs := Changed(bs, i, c);
    assert BallotVoters(cs) == BallotVoters(bs);
    forall k | 0 <= k < |cs| ensures AdmissibleBallot(rules, vs, cs[k]) { assert AdmissibleBallot(rules, vs, bs[k]); }
    forall b | b in bs && b.voter != bs[i].voter ensures b in cs {
      var j :| 0 <= j < |bs| && bs[j] == b;
      assert cs[j] == b;
    }
    forall b | b in cs ensures b == Ballot(bs[i].voter, c) || (b in bs && b.voter != bs[i].voter) {
      var j :| 0 <= j < |cs| && cs[j] == b;
      if j != i && b.voter == bs[i].voter { OneBallotEach(bs, i, j); }
    }
    assert cs[i] == Ballot(bs[i].voter, c);
  }

  /** An admissible set of ballots over rules that evaluated once evaluates again. */
  lemma EvaluatesAgain(rules: Rules, electorate: Electorate, a: BallotSet, b: BallotSet)
    requires Evaluate(rules, electorate, a).Ok? && Admissible(rules, electorate, b)
    ensures Evaluate(rules, electorate, b).Ok?
  {
    hide Issues, BallotIssues, Units, Count;
    NoIssuesAdmissible(rules, electorate, b);
  }

  lemma EvaluatedIsAdmissible(rules: Rules, electorate: Electorate, bs: BallotSet)
    requires Evaluate(rules, electorate, bs).Ok?
    ensures Admissible(rules, electorate, bs)
  {
    hide Issues, BallotIssues, Units, Count;
    NoIssuesAdmissible(rules, electorate, bs);
  }

  /**
   Where abstentions are excluded, abstaining is staying silent: under rules without a quorum that
   measure against the votes cast, taking an abstention out never changes the outcome.
   */
  lemma ExcludedAbstentionIsSilence(rules: Rules, electorate: Electorate, bs: BallotSet, i: nat)
    requires Evaluate(rules, electorate, bs).Ok? && i < |bs| && bs[i].choice == Abstain
    requires rules.quorum == NoQuorum && rules.threshold.basis == VotesCast && rules.abstentions == ExcludeAbstentions
    ensures Strict(BallotVoters(Without(bs, i))) && Evaluate(rules, electorate, Without(bs, i)).Ok?
    ensures Evaluate(rules, electorate, Without(bs, i)).value.outcome == Evaluate(rules, electorate, bs).value.outcome
  {
    hide Evaluate, Weigh, Admissible, Strict, Without;
    EvaluatedIsAdmissible(rules, electorate, bs);
    WithoutKeeps(rules, electorate, bs, i);
    var cs := Without(bs, i);
    EvaluatesAgain(rules, electorate, bs, cs);
    WeighReads(bs, cs, electorate, Choosing(Yes));
    WeighReads(bs, cs, electorate, Choosing(No));
    OutcomeMeans(rules, electorate, bs);
    OutcomeMeans(rules, electorate, cs);
    assert Carried(rules, bs, electorate) == Carried(rules, cs, electorate);
  }

  lemma NoForAbstention(bs: seq<Ballot>, cs: seq<Ballot>, i: nat, vs: seq<Voter>)
    requires i < |bs| && bs[i].choice == Abstain && Strict(BallotVoters(bs))
    requires forall b :: b in cs <==> b == Ballot(bs[i].voter, No) || (b in bs && b.voter != bs[i].voter)
    ensures Weigh(cs, vs, Choosing(Yes)) == Weigh(bs, vs, Choosing(Yes))
    ensures forall g :: g in {Everyone, EffectiveVoters, Participating} ==> Weigh(cs, vs, g) == Weigh(bs, vs, g)
  {
    hide Weigh, Strict;
    forall c | Ballot(bs[i].voter, c) in bs ensures c == Abstain {
      var j :| 0 <= j < |bs| && bs[j] == Ballot(bs[i].voter, c);
      OneBallotEach(bs, i, j);
    }
    forall v | v in vs ensures Belongs(bs, Participating, v) == Belongs(cs, Participating, v) {
      if v.id == bs[i].voter {
        assert Ballot(v.id, Abstain) in bs && Ballot(v.id, No) in cs;
      } else {
        assert forall c :: Ballot(v.id, c) in bs <==> Ballot(v.id, c) in cs;
      }
    }
    WeighReads(bs, cs, vs, Choosing(Yes));
    WeighReads(bs, cs, vs, Everyone);
    WeighReads(bs, cs, vs, EffectiveVoters);
    WeighReads(bs, cs, vs, Participating);
  }

  /** Those who took part are those who said one of the three things. */
  lemma TookPart(rules: Rules, electorate: Electorate, bs: BallotSet)
    requires Evaluate(rules, electorate, bs).Ok?
    ensures Weigh(bs, electorate, Participating) ==
      Weigh(bs, electorate, Choosing(Yes)) + Weigh(bs, electorate, Choosing(No)) +
          Weigh(bs, electorate, Choosing(Abstain))
  {
    hide Evaluate, Weigh, Number;
    TotalsMean(rules, electorate, bs);
    CountConserves(rules, electorate, bs);
  }

  /**
   Everywhere else abstaining is saying No: where abstentions are included, or where the votes cast
   are not what is measured against, turning an abstention into No never changes the outcome,
   whatever the quorum.
   */
  lemma IncludedAbstentionIsNo(rules: Rules, electorate: Electorate, bs: BallotSet, i: nat)
    requires Evaluate(rules, electorate, bs).Ok? && i < |bs| && bs[i].choice == Abstain
    requires rules.threshold.basis == VotesCast ==> rules.abstentions == IncludeAbstentions
    ensures Strict(BallotVoters(Changed(bs, i, No))) && Evaluate(rules, electorate, Changed(bs, i, No)).Ok?
    ensures Evaluate(rules, electorate, Changed(bs, i, No)).value.outcome
      == Evaluate(rules, electorate, bs).value.outcome
  {
    hide Evaluate, Weigh, Admissible, Strict, Changed, Belongs;
    EvaluatedIsAdmissible(rules, electorate, bs);
    ChangedKeeps(rules, electorate, bs, i, No);
    var cs := Changed(bs, i, No);
    EvaluatesAgain(rules, electorate, bs, cs);
    NoForAbstention(bs, cs, i, electorate);
    TookPart(rules, electorate, bs);
    TookPart(rules, electorate, cs);
    OutcomeMeans(rules, electorate, bs);
    OutcomeMeans(rules, electorate, cs);
    assert Carried(rules, bs, electorate) == Carried(rules, cs, electorate);
  }

  /** Exactly the share asked for, of something, with the quorum reached. */
  predicate Tied(rules: Rules, bs: seq<Ballot>, vs: seq<Voter>) {
    Quorate(rules, bs, vs) && Base(rules, bs, vs) > 0 && ExactlyAsked(rules, bs, vs)
  }

  lemma SuitedIgnoresTie(rules: Rules, vs: seq<Voter>, tie: TieTreatment)
    ensures Suited(rules.(tie := tie), vs) == Suited(rules, vs)
    ensures Suited(rules, vs) ==> Units(rules.(tie := tie), vs) == Units(rules, vs)
  {
    hide Weigh, Units;
    if Suited(rules, vs) {
      UnitsAreHeld(rules, vs);
      UnitsAreHeld(rules.(tie := tie), vs);
    }
  }

  lemma TieAdmits(rules: Rules, vs: seq<Voter>, b: Ballot, tie: TieTreatment)
    ensures AdmissibleBallot(rules.(tie := tie), vs, b) == AdmissibleBallot(rules, vs, b)
  {
    hide Get;
  }

  lemma TieIsNoIssue(rules: Rules, electorate: Electorate, bs: BallotSet, tie: TieTreatment)
    requires Evaluate(rules, electorate, bs).Ok?
    ensures Evaluate(rules.(tie := tie), electorate, bs).Ok?
  {
    hide Issues, BallotIssues, Count, Suited, Weigh, AdmissibleBallot;
    var other := rules.(tie := tie);
    IssuesAreExact(rules, electorate);
    IssuesAreExact(other, electorate);
    SuitedIgnoresTie(rules, electorate, tie);
    EvaluatedIsAdmissible(rules, electorate, bs);
    forall i | 0 <= i < |bs| ensures AdmissibleBallot(other, electorate, bs[i]) {
      assert AdmissibleBallot(rules, electorate, bs[i]);
      TieAdmits(rules, electorate, bs[i], tie);
    }
    NoIssuesAdmissible(other, electorate, bs);
    TotalsMean(rules, electorate, bs);
    CountConserves(rules, electorate, bs);
  }

  /** The tie rule decides an exact tie, and nothing else. */
  lemma TieRuleDecidesTies(rules: Rules, electorate: Electorate, bs: BallotSet, tie: TieTreatment)
    requires Evaluate(rules, electorate, bs).Ok?
    ensures Evaluate(rules.(tie := tie), electorate, bs).Ok?
    ensures var before := Evaluate(rules, electorate, bs).value.outcome;
      var after := Evaluate(rules.(tie := tie), electorate, bs).value.outcome;
      if Tied(rules, bs, electorate) then (after == Accepted <==> tie == AcceptTie) else after == before
  {
    hide Evaluate, Weigh, Issues, BallotIssues, Units, Count;
    var other := rules.(tie := tie);
    TieIsNoIssue(rules, electorate, bs, tie);
    OutcomeMeans(rules, electorate, bs);
    OutcomeMeans(other, electorate, bs);
  }
}
