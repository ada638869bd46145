/** When a count succeeds, and so when a meeting can be closed: a question about the channel alone. */
module Counting {
  import opened Bytes
  import opened Ordering
  import opened Bornite
  import opened Evaluation
  import opened Parts
  import opened Records
  import opened Ledger
  import opened Resolve
  import opened Vote

  // ---------------------------------------------------------------- the electorate of a channel

  /** The people of a channel as voters: everybody at their weight, nobody excluded. */
  function VotersOf(actors: seq<Actor>): (vs: seq<Voter>)
    ensures |vs| == |actors|
  {
    seq(|actors|, i requires 0 <= i < |actors| => Voter(actors[i].id, actors[i].weight, false))
  }

  lemma FrozenAsVoters(actors: seq<Actor>)
    ensures Voters(FrozenElectorate(actors)) == Some(VotersOf(actors))
    ensures VoterIds(VotersOf(actors)) == ActorIds(actors) == Keys(EntryId, FrozenElectorate(actors))
  {
    var es := FrozenElectorate(actors);
    forall e | e in es ensures 1 <= e.weight <= U64_MAX {
      var i :| 0 <= i < |es| && es[i] == e;
      assert e == EntryOfActor(actors[i]);
    }
    assert Voters(es).value == VotersOf(actors);
  }

  /** No voter counts for more than they hold, so the electorate weighs no more than the register. */
  lemma {:induction false} UnitsWithinAmount(rules: Rules, hs: seq<Holding>, actors: seq<Actor>)
    requires |actors| == |hs| && forall i :: 0 <= i < |hs| ==> actors[i].weight == hs[i].amount
    ensures Units(rules, VotersOf(actors)) <= Amount(hs)
  {
    if hs == [] {
    } else {
      var n := |hs| - 1;
      UnitsWithinAmount(rules, hs[..n], actors[..n]);
      assert VotersOf(actors)[..n] == VotersOf(actors[..n]);
    }
  }

  /** A channel that resolves gives an electorate in order whose weight fits. */
  lemma ResolvedElectorate(c: Company, channel: Id, rules: Rules)
    requires ResolveChannel(c, channel).Ok?
    ensures var actors := ResolveChannel(c, channel).value.actors;
      Strict(ActorIds(actors)) && Units(rules, VotersOf(actors)) <= U64_MAX
  {
    var resolved := ResolveChannel(c, channel).value;
    var source := resolved.channel.actors;
    ActorsAlwaysDerive(source, c.shares.value, c.persons.value);
    UnitsWithinAmount(rules, Listed(source, c.shares.value), resolved.actors);
  }

  // ---------------------------------------------------------------- the count of a vote

  /** What is wrong with a channel's rules for the people it had at a height. */
  function Contradictions(b: Blocks, at: nat, channel: Id): set<ValidationIssue>
    requires |b| > 0 && RulesAt(b, at, channel).Some?
  {
    var (rules, actors) := RulesAt(b, at, channel).value;
    Issues(rules, VotersOf(actors))
  }

  /** A ballot a frozen electorate admits, the count admits. */
  lemma AdmittedBallot(w: World, rules: Rules, actors: seq<Actor>, s: VoteSnapshot, ballot: SignedBallot)
    requires s.electorate == FrozenElectorate(actors) && BallotRefusal(w, ballot, s).None?
    ensures AdmissibleBallot(rules, VotersOf(actors), Ballot(ballot.body.voter, ballot.body.choice))
  {
    hide Search;
    FrozenAsVoters(actors);
  }

  lemma CastInOrder(ballots: seq<SignedBallot>)
    ensures BallotVoters(Cast(ballots)) == SignedVoters(ballots)
  {
  }

  /** The count of a frozen electorate is the count of those people and those ballots as they are. */
  lemma FrozenIsEvaluated(rules: Rules, actors: seq<Actor>, s: VoteSnapshot, ballots: seq<SignedBallot>)
    requires s.electorate == FrozenElectorate(actors)
    requires Strict(VoterIds(VotersOf(actors))) && Strict(BallotVoters(Cast(ballots)))
    ensures EvaluateFrozen(rules, s, ballots) == match Evaluate(rules, VotersOf(actors), Cast(ballots))
      case Ok(ev) => Ok(ev)
      case Err(e) => Err(EvaluationRefused(e))
  {
    hide Strict, Evaluate, DistinctBy;
    FrozenAsVoters(actors);
    DistinctByKeeps(VoterId, VotersOf(actors));
    DistinctByKeeps(BallotVoter, Cast(ballots));
  }

  /** Counting sound ballots over a channel's own electorate fails only on the rules. */
  lemma FrozenCount(w: World, rules: Rules, actors: seq<Actor>, s: VoteSnapshot, ballots: seq<SignedBallot>)
    requires s.electorate == FrozenElectorate(actors) && Strict(ActorIds(actors)) && Strict(SignedVoters(ballots))
    requires Units(rules, VotersOf(actors)) <= U64_MAX && AllBallotsVerify(w, ballots, s)
    ensures var issues := Issues(rules, VotersOf(actors));
      EvaluateFrozen(rules, s, ballots) ==
        if issues != {} then Err(EvaluationRefused(ValidationFailed(issues)))
        else Ok(Count(rules, VotersOf(actors), Cast(ballots)))
  {
    hide Strict, Issues, Units, Count, BallotRefusal, AdmissibleBallot, DistinctBy;
    FrozenAsVoters(actors);
    CastInOrder(ballots);
    DistinctByKeeps(VoterId, VotersOf(actors));
    DistinctByKeeps(BallotVoter, Cast(ballots));
    assert Admissible(rules, VotersOf(actors), Cast(ballots)) by {
      forall i | 0 <= i < |ballots| ensures AdmissibleBallot(rules, VotersOf(actors), Cast(ballots)[i]) {
        AdmittedBallot(w, rules, actors, s, ballots[i]);
      }
    }
    NoIssuesAdmissible(rules, VotersOf(actors), Cast(ballots));
  }

  /**
   The exact condition of a count. A vote as any run keeps it counts, whatever ballots it took and
   whatever the ledger gained, unless the rules it is counted under contradict the electorate they
   are applied to; then no count of it succeeds. Nothing else can go wrong.
   */
  lemma CountDecides(w: World, v: VoteState, b: Blocks)
    requires VoteInvariant(w, v, b)
    ensures |b| > 0 && v.snapshot.Some?
    ensures var s := v.snapshot.value;
      && RulesAt(b, s.height, s.channel).Some?
      && var (rules, actors) := RulesAt(b, s.height, s.channel).value;
         var issues := Contradictions(b, s.height, s.channel);
         EvaluateNow(b, s, v.ballots) ==
           if issues != {} then Err(EvaluationRefused(ValidationFailed(issues)))
           else Ok(Count(rules, VotersOf(actors), Cast(v.ballots)))
  {
    hide Strict, Issues, Units, Count, AllBallotsVerify, Reconstruct, ResolveChannel, VoteFiled, EvaluateFrozen;
    VoteInvariantIsFormed(w, v, b);
    var s := v.snapshot.value;
    var (rules, actors) := RulesAt(b, s.height, s.channel).value;
    ResolvedElectorate(Reconstruct(b, s.height).value, s.channel, rules);
    FrozenCount(w, rules, actors, s, v.ballots);
  }
}
