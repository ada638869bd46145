/**
 What a record that verifies is evidence of, told from the company it names: who was entitled to
 take part, whose signatures are there, and what the numbers are the numbers of.
 */
module Evidence {
  import opened Bytes
  import opened Ordering
  import opened Bornite
  import opened Evaluation
  import opened Parts
  import opened Records
  import opened Ledger
  import opened Resolve
  import opened Admission
  import opened Results
  import C = Counting
  import V = Vote
  import D = Decision
  import M = Meeting

  // ---------------------------------------------------------------- who a channel is

  /** The people of a channel: the shareholders, or the members it lists. */
  function Roll(c: Company, channel: Channel): seq<Holding> {
    match channel.actors
    case ShareRegister => c.shares.value
    case Members(roster) => roster
  }

  predicate OnRoll(c: Company, channel: Channel, id: Id) {
    exists h :: h in Roll(c, channel) && h.id == id
  }

  /** The identities in force say that the person holds the key. */
  predicate HasKey(c: Company, id: Id, key: PublicKey) {
    exists p :: p in c.persons.value && p.id == id && p.key == Some(key)
  }

  predicate Lists(c: Company, id: Id, channel: Channel) { channel in c.channels.value && channel.id == id }

  lemma KeyIsHeld(c: Company, id: Id, key: PublicKey)
    ensures KeyOf(c.persons.value, id) == Some(key) <==> HasKey(c, id, key)
  {
    if p :| p in c.persons.value && p.id == id && p.key == Some(key) { ListedPersonFound(c.persons.value, p); }
  }

  /** An actor is a line of the roll with the key its person holds. */
  ghost predicate ActsFor(c: Company, a: Actor, h: Holding) {
    a.id == h.id && a.weight == h.amount && forall key :: a.key == Some(key) <==> HasKey(c, h.id, key)
  }

  ghost predicate ActFor(c: Company, actors: seq<Actor>, roll: seq<Holding>) {
    |actors| == |roll| && forall i :: 0 <= i < |roll| ==> ActsFor(c, actors[i], roll[i])
  }

  /** A listed channel resolves, to its people; an individual channel only when it has just one. */
  lemma ListedResolves(c: Company, channel: Channel)
    requires channel in c.channels.value
    ensures ResolveChannel(c, channel.id).Ok? <==> channel.mode.Collective? || |Roll(c, channel)| == 1
    ensures ResolveChannel(c, channel.id).Ok? ==> ResolveChannel(c, channel.id).value.channel == channel
    ensures ResolveChannel(c, channel.id).Ok? ==>
      ActFor(c, ResolveChannel(c, channel.id).value.actors, Roll(c, channel))
  {
    hide KeyOf, HasKey;
    ListedChannelFound(c.channels.value, channel);
    ActorsAlwaysDerive(channel.actors, c.shares.value, c.persons.value);
    var actors, roll := ActorsOf(channel.actors, c.shares.value, c.persons.value).value, Roll(c, channel);
    forall i | 0 <= i < |roll| ensures ActsFor(c, actors[i], roll[i]) {
      forall key ensures actors[i].key == Some(key) <==> HasKey(c, roll[i].id, key) { KeyIsHeld(c, roll[i].id, key); }
    }
  }

  lemma ResolvedIsListed(c: Company, id: Id)
    requires ResolveChannel(c, id).Ok?
    ensures Lists(c, id, ResolveChannel(c, id).value.channel)
  {
    hide ActorsOf;
  }

  /** At most one channel has an id. */
  lemma OneChannel(c: Company, id: Id, x: Channel, y: Channel)
    requires Lists(c, id, x) && Lists(c, id, y)
    ensures x == y
  {
    ListedChannelFound(c.channels.value, x);
    ListedChannelFound(c.channels.value, y);
  }

  /** The signer of a governance record is somebody the company of that height lists for governance. */
  lemma SignerIsListed(b: Blocks, height: nat, key: PublicKey)
    requires |b| > 0
    ensures GovernanceSignerAt(b, height, key) <==>
      && Reconstruct(b, height).Ok?
      && var c := Reconstruct(b, height).value;
         ListedSigner(c.persons.value, c.authorisation.value, GovernanceFamily, key)
  {
    hide Reconstruct, SignerOf, ListedSigner;
    if Reconstruct(b, height).Ok? {
      var c := Reconstruct(b, height).value;
      SignersAreListed(c.persons.value, c.authorisation.value, GovernanceFamily, key);
    }
  }

  // ---------------------------------------------------------------- ballots

  /** The person is the voter and signed under the key they hold. */
  predicate SignedBy(w: World, p: Person, ballot: SignedBallot) {
    p.id == ballot.body.voter && p.key.Some? && w.verifies(p.key.value, BallotStatement(ballot.body), ballot.signature)
  }

  predicate SignedByVoter(w: World, c: Company, ballot: SignedBallot) {
    exists p :: p in c.persons.value && SignedBy(w, p, ballot)
  }

  /** Cast for this vote by somebody on the roll, under the key the identities say is theirs. */
  predicate Genuine(w: World, c: Company, channel: Channel, s: VoteSnapshot, ballot: SignedBallot) {
    ballot.body.voteId == w.voteId(s) && OnRoll(c, channel, ballot.body.voter) && SignedByVoter(w, c, ballot)
  }

  predicate AllGenuine(w: World, c: Company, channel: Channel, s: VoteSnapshot, ballots: seq<SignedBallot>) {
    forall i :: 0 <= i < |ballots| ==> Genuine(w, c, channel, s, ballots[i])
  }

  /** The channel a snapshot names, in the company at its height, decides together; and this is it. */
  predicate DecidesTogether(b: Blocks, s: VoteSnapshot, c: Company, channel: Channel) {
    |b| > 0 && Reconstruct(b, s.height) == Ok(c) && Lists(c, s.channel, channel) && channel.mode.Collective?
  }

  lemma FrozenVoterIs(c: Company, channel: Channel, actors: seq<Actor>, s: VoteSnapshot, id: Id)
    requires s.electorate == V.FrozenElectorate(actors)
    requires ActFor(c, actors, Roll(c, channel)) && Strict(ActorIds(actors))
    ensures V.FrozenVoter(s, id).Some? <==> OnRoll(c, channel, id)
    ensures V.FrozenVoter(s, id).Some? ==> !V.FrozenVoter(s, id).value.excluded
    ensures V.FrozenVoter(s, id).Some? ==> forall key :: V.FrozenVoter(s, id).value.key == Some(key) <==>
      HasKey(c, id, key)
  {
    hide HasKey, Before, Strict;
    var ids, roll := Keys(V.EntryId, s.electorate), Roll(c, channel);
    assert ids == ActorIds(actors);
    SearchFinds(ids, id);
    if V.FrozenVoter(s, id).Some? {
      var i := Search(ids, id).value;
      assert roll[i].id == id && ActsFor(c, actors[i], roll[i]);
    }
    if h :| h in roll && h.id == id {
      var i :| 0 <= i < |roll| && roll[i] == h;
      assert ActsFor(c, actors[i], roll[i]) && ids[i] == id;
    }
  }

  lemma VoterSigned(w: World, c: Company, ballot: SignedBallot, key: PublicKey)
    requires HasKey(c, ballot.body.voter, key)
    ensures SignedByVoter(w, c, ballot) <==> w.verifies(key, BallotStatement(ballot.body), ballot.signature)
  {
    KeyIsHeld(c, ballot.body.voter, key);
    if p :| p in c.persons.value && SignedBy(w, p, ballot) {
      ListedPersonFound(c.persons.value, p);
    }
  }

  lemma NoKeyNoSignature(w: World, c: Company, ballot: SignedBallot)
    requires forall key :: !HasKey(c, ballot.body.voter, key)
    ensures !SignedByVoter(w, c, ballot)
  {
    if p :| p in c.persons.value && SignedBy(w, p, ballot) {
      assert HasKey(c, ballot.body.voter, p.key.value);
    }
  }

  predicate Keyless(c: Company, id: Id) { forall p :: p in c.persons.value && p.id == id ==> p.key.None? }

  lemma KeylessIs(c: Company, id: Id)
    ensures Keyless(c, id) <==> forall key :: !HasKey(c, id, key)
  {
    if p :| p in c.persons.value && p.id == id && p.key.Some? { assert HasKey(c, id, p.key.value); }
  }

  /** Why a ballot is refused, exactly, in the fixed order of the reasons. */
  lemma RefusalIsExact(w: World, c: Company, channel: Channel, actors: seq<Actor>, s: VoteSnapshot,
      ballot: SignedBallot)
    requires s.electorate == V.FrozenElectorate(actors)
    requires ActFor(c, actors, Roll(c, channel)) && Strict(ActorIds(actors))
    ensures V.BallotRefusal(w, ballot, s) ==
      if ballot.body.voteId != w.voteId(s) then Some(V.WrongVote)
      else if !OnRoll(c, channel, ballot.body.voter) then Some(V.NotInElectorate)
      else if Keyless(c, ballot.body.voter) then Some(V.NoKey)
      else if !SignedByVoter(w, c, ballot) then Some(V.BadSignature)
      else None
    ensures V.BallotRefusal(w, ballot, s).None? <==> Genuine(w, c, channel, s, ballot)
  {
    hide HasKey, SignedByVoter, OnRoll, Keyless, V.FrozenVoter, Strict, ActFor;
    var id := ballot.body.voter;
    FrozenVoterIs(c, channel, actors, s, id);
    KeylessIs(c, id);
    if Keyless(c, id) { NoKeyNoSignature(w, c, ballot); }
    if V.FrozenVoter(s, id).Some? && V.FrozenVoter(s, id).value.key.Some? {
      VoterSigned(w, c, ballot, V.FrozenVoter(s, id).value.key.value);
    }
  }

  /** A snapshot whose rules are read and whose electorate derives is a snapshot of a channel's people. */
  lemma PinnedChannel(b: Blocks, s: VoteSnapshot) returns (c: Company, channel: Channel, actors: seq<Actor>)
    requires |b| > 0 && V.PinnedRules(b, s).Some?
    ensures DecidesTogether(b, s, c, channel) && ActFor(c, actors, Roll(c, channel)) && Strict(ActorIds(actors))
    ensures V.PinnedRules(b, s) == Some((channel.mode.rules, actors))
  {
    hide Reconstruct, ResolveChannel, ActFor, Strict;
    c := Reconstruct(b, s.height).value;
    var resolved := ResolveChannel(c, s.channel).value;
    channel, actors := resolved.channel, resolved.actors;
    ResolvedIsListed(c, s.channel);
    ListedResolves(c, channel);
    C.ResolvedElectorate(c, s.channel, channel.mode.rules);
  }

  lemma VerifiedVoteGathered(w: World, b: Blocks, txId: TxId)
    requires V.VoteVerifies(w, b, txId)
    ensures |b| > 0 && Locate(b, txId).Some? && V.HoldsVote(Locate(b, txId).value)
    ensures var e := Locate(b, txId).value; var r := e.tx.body.payload.vote; var s := r.snapshot;
      && V.PinnedRules(b, s).Some? && s.electorate == V.FrozenElectorate(V.PinnedRules(b, s).value.1)
      && V.AllBallotsVerify(w, r.ballots, s) && Strict(V.SignedVoters(r.ballots))
      && V.Reproduces(V.PinnedRules(b, s).value.0, r) && s.height < e.height && r.voteId == w.voteId(s)
      && V.VoteRecordsResolve(b, s) && GovernanceSignerAt(b, e.height, e.tx.body.signer)
      && V.Commitment(w, r.ballots) == r.commitment
  {
    hide V.PinnedRules, V.AllBallotsVerify, V.Reproduces, Strict, V.VoteRecordsResolve, GovernanceSignerAt,
        V.Commitment;
    hide V.FrozenElectorate;
    M.VerifiedIsLocated(w, b, txId);
    var e := Locate(b, txId).value;
    var holds := V.VoteChecks(w, b, e);
    assert holds(V.ElectorateDerives) && holds(V.BallotsVerify) && holds(V.BallotsOrdered) && holds(V.ResultReproduces);
    assert holds(V.SnapshotPrecedesRecord) && holds(V.VoteIdDerives) && holds(V.RecordsResolve);
    assert holds(V.SignerAuthorised) && holds(V.CommitmentDerives);
    AdjacentDecides(V.SignedVoters(e.tx.body.payload.vote.ballots));
  }

  lemma OneBallotAVoter(ballots: seq<SignedBallot>)
    requires Strict(V.SignedVoters(ballots))
    ensures forall i, j :: 0 <= i < j < |ballots| ==> ballots[i].body.voter != ballots[j].body.voter
  {
    hide Before;
    StrictIsSortedDistinct(V.SignedVoters(ballots));
    forall i, j | 0 <= i < j < |ballots| ensures ballots[i].body.voter != ballots[j].body.voter {
      assert V.SignedVoters(ballots)[i] != V.SignedVoters(ballots)[j];
    }
  }

  /**
   Every ballot of a vote that verifies was cast for that vote by somebody on the roll of its
   channel, and is signed under the key that person had in the company at the frozen height; and
   nobody voted twice.
   */
  lemma VerifiedBallotsAreGenuine(w: World, b: Blocks, txId: TxId)
    requires V.VoteVerifies(w, b, txId)
    ensures Locate(b, txId).Some? && V.HoldsVote(Locate(b, txId).value)
    ensures var r := Locate(b, txId).value.tx.body.payload.vote;
      && (exists c, channel ::
            DecidesTogether(b, r.snapshot, c, channel) && AllGenuine(w, c, channel, r.snapshot, r.ballots))
      && forall i, j :: 0 <= i < j < |r.ballots| ==> r.ballots[i].body.voter != r.ballots[j].body.voter
  {
    hide V.VoteVerifies, V.PinnedRules, V.BallotRefusal, V.FrozenElectorate, Genuine, DecidesTogether, ActFor, Strict;
    hide V.Reproduces, V.VoteRecordsResolve, GovernanceSignerAt, V.Commitment, Locate;
    VerifiedVoteGathered(w, b, txId);
    var r := Locate(b, txId).value.tx.body.payload.vote;
    var c, channel, actors := PinnedChannel(b, r.snapshot);
    forall i | 0 <= i < |r.ballots| ensures Genuine(w, c, channel, r.snapshot, r.ballots[i]) {
      RefusalIsExact(w, c, channel, actors, r.snapshot, r.ballots[i]);
    }
    OneBallotAVoter(r.ballots);
  }

  lemma RefrozenElectorate(b: Blocks, s: VoteSnapshot)
    requires V.Refreezes(b, s)
    ensures |b| > 0 && V.PinnedRules(b, s).Some? && s.electorate == V.FrozenElectorate(V.PinnedRules(b, s).value.1)
  {
    hide Reconstruct, V.PinnedRules, V.FrozenElectorate;
  }

  /** What any run keeps of the ballots it holds: genuine, all of them, and one a voter. */
  lemma HeldBallotsAreGenuine(w: World, v: V.VoteState, b: Blocks)
    requires V.VoteInvariant(w, v, b)
    ensures v.snapshot.Some?
    ensures exists c, channel ::
      DecidesTogether(b, v.snapshot.value, c, channel) && AllGenuine(w, c, channel, v.snapshot.value, v.ballots)
    ensures forall i, j :: 0 <= i < j < |v.ballots| ==> v.ballots[i].body.voter != v.ballots[j].body.voter
  {
    hide V.PinnedRules, V.BallotRefusal, V.FrozenElectorate, Genuine, DecidesTogether, ActFor, Strict, V.VoteFiled;
    hide V.Refreezes;
    RefrozenElectorate(b, v.snapshot.value);
    var c, channel, actors := PinnedChannel(b, v.snapshot.value);
    forall i | 0 <= i < |v.ballots| ensures Genuine(w, c, channel, v.snapshot.value, v.ballots[i]) {
      RefusalIsExact(w, c, channel, actors, v.snapshot.value, v.ballots[i]);
    }
    OneBallotAVoter(v.ballots);
  }

  /** From any freeze at or below the head, through any run: every ballot held is genuine. */
  lemma RunBallotsAreGenuine(w: World, subject: string, proposalDigest: Digest, b: Blocks, at: nat, channel: Id,
      events: seq<V.VoteEvent>)
    requires at < |b| && V.FreezeVote(V.DraftVote(subject, proposalDigest), b, at, channel).Ok?
    ensures var frozen := V.FreezeVote(V.DraftVote(subject, proposalDigest), b, at, channel).value;
      var (v, b') := V.VoteRun(w, frozen, b, events);
      && v.snapshot == frozen.snapshot && v.snapshot.Some?
      && exists c, channel ::
           DecidesTogether(b', v.snapshot.value, c, channel) && AllGenuine(w, c, channel, v.snapshot.value, v.ballots)
  {
    hide V.Refreezes, Reconstruct, ResolveChannel, V.VoteRun, Genuine, DecidesTogether, V.VoteFiled, V.BallotRefusal;
    var frozen := V.FreezeVote(V.DraftVote(subject, proposalDigest), b, at, channel).value;
    V.FrozenRefreezes(V.DraftVote(subject, proposalDigest), b, at, channel);
    V.VoteRunKeeps(w, frozen, b, events);
    var (v, b') := V.VoteRun(w, frozen, b, events);
    HeldBallotsAreGenuine(w, v, b');
  }

  predicate HasVoted(v: V.VoteState, id: Id) { exists x :: x in v.ballots && x.body.voter == id }

  lemma VotedIsListed(v: V.VoteState, id: Id)
    ensures HasVoted(v, id) <==> id in V.SignedVoters(v.ballots)
  {
    var ids := V.SignedVoters(v.ballots);
    if HasVoted(v, id) {
      var x :| x in v.ballots && x.body.voter == id;
      var i :| 0 <= i < |v.ballots| && v.ballots[i] == x;
      assert ids[i] == id;
    }
    if id in ids {
      var i :| 0 <= i < |ids| && ids[i] == id;
      assert v.ballots[i] in v.ballots && v.ballots[i].body.voter == id;
    }
  }

  /**
   Casting, exactly. An open vote takes a ballot if and only if it is genuine and its voter has not
   voted; then it holds that ballot besides those it held. Otherwise the first reason that applies
   is given, and a forged ballot is refused for its signature.
   */
  lemma CastDecides(w: World, v: V.VoteState, b: Blocks, c: Company, channel: Channel, ballot: SignedBallot)
    requires V.VoteInvariant(w, v, b) && v.status == V.VoteStatus.Open && v.snapshot.Some?
    requires DecidesTogether(b, v.snapshot.value, c, channel)
    ensures var r := V.CastVote(w, v, ballot); var s := v.snapshot.value; var id := ballot.body.voter;
      && (r.Ok? <==> Genuine(w, c, channel, s, ballot) && !HasVoted(v, id))
      && (r.Ok? ==> multiset(r.value.ballots) == multiset(v.ballots) + multiset{ballot})
      && (r.Err? ==> r.error == V.BallotRefused(
            if ballot.body.voteId != w.voteId(s) then V.WrongVote
            else if !OnRoll(c, channel, id) then V.NotInElectorate
            else if Keyless(c, id) then V.NoKey
            else if !SignedByVoter(w, c, ballot) then V.BadSignature
            else V.AlreadyVoted))
  {
    hide V.PinnedRules, V.BallotRefusal, V.FrozenElectorate, Genuine, ActFor, Strict, V.VoteFiled, V.Refreezes, Insert;
    hide OnRoll, Keyless, SignedByVoter, Reconstruct;
    var s := v.snapshot.value;
    RefrozenElectorate(b, s);
    var c', channel', actors := PinnedChannel(b, s);
    OneChannel(c, s.channel, channel, channel');
    RefusalIsExact(w, c, channel, actors, s, ballot);
    VotedIsListed(v, ballot.body.voter);
    InsertPermutes(V.SignedVoter, v.ballots, ballot);
  }

  // ---------------------------------------------------------------- results

  /** Every line of a roll is a voter, at what it holds. */
  predicate VotersOfRoll(roll: seq<Holding>, vs: seq<Voter>) {
    |vs| == |roll| &&
    forall i :: 0 <= i < |roll| ==> vs[i].id == roll[i].id && vs[i].weight == roll[i].amount && !vs[i].excluded
  }

  /** What the ballots say. */
  function Said(ballots: seq<SignedBallot>): seq<Ballot> {
    if ballots == [] then [] else
      var last := ballots[|ballots| - 1].body;
      Said(ballots[..|ballots| - 1]) + [Ballot(last.voter, last.choice)]
  }

  lemma {:induction false} SaidIsCast(ballots: seq<SignedBallot>)
    ensures Said(ballots) == V.Cast(ballots)
  {
    if ballots == [] {
    } else {
      SaidIsCast(ballots[..|ballots| - 1]);
    }
  }

  /** The stored quorum number: none, the number asked for, or the smallest that makes the share. */
  ghost predicate QuorumNumber(rules: Rules, bs: seq<Ballot>, vs: seq<Voter>, stored: Option<nat>) {
    match rules.quorum
    case NoQuorum => stored == None
    case AbsoluteQuorum(w) => stored == Some(w)
    case FractionQuorum(f, basis) =>
      stored.Some? && forall n: nat :: MakesShare(f, n, Whole(basis, bs, vs)) <==> n >= stored.value
  }

  predicate ReportsTotals(sum: Summary, bs: seq<Ballot>, vs: seq<Voter>) {
    && sum.voterCount == |vs| && sum.ballotCount == |bs|
    && sum.effectiveVoterCount == Number(bs, vs, EffectiveVoters)
    && sum.excludedCount == |vs| - Number(bs, vs, EffectiveVoters)
    && sum.totalWeight == Weigh(bs, vs, Everyone) && sum.effectiveWeight == Weigh(bs, vs, EffectiveVoters)
    && sum.participatingWeight == Weigh(bs, vs, Participating)
    && sum.nonParticipantCount == Number(bs, vs, Silent) && sum.nonParticipantWeight == Weigh(bs, vs, Silent)
    && sum.tally.yesWeight == Weigh(bs, vs, Choosing(Yes)) && sum.tally.yesCount == Number(bs, vs, Choosing(Yes))
    && sum.tally.noWeight == Weigh(bs, vs, Choosing(No)) && sum.tally.noCount == Number(bs, vs, Choosing(No))
    && sum.tally.abstainWeight == Weigh(bs, vs, Choosing(Abstain))
    && sum.tally.abstainCount == Number(bs, vs, Choosing(Abstain))
  }

  /** A stored result says what the ballots and the rules make of these people. */
  ghost predicate Reports(sum: Summary, rules: Rules, bs: seq<Ballot>, vs: seq<Voter>) {
    && (sum.outcome == Accepted <==> Carried(rules, bs, vs)) && sum.reason == Why(rules, bs, vs)
    && sum.quorumMet == Quorate(rules, bs, vs) && QuorumNumber(rules, bs, vs, sum.quorumRequired)
    && sum.denominatorWeight == Base(rules, bs, vs) && (sum.numerator, sum.denominator) == Asked(rules.threshold)
    && (sum.comparison == Above <==> MoreThanAsked(rules, bs, vs))
    && (sum.comparison == Exactly <==> ExactlyAsked(rules, bs, vs))
    && sum.thresholdMet == Won(rules, bs, vs)
    && (sum.abstentionsAffected <==> rules.threshold.basis == VotesCast) && ReportsTotals(sum, bs, vs)
  }

  lemma SummaryCopies(rules: Rules, electorate: Electorate, bs: BallotSet)
    requires Evaluate(rules, electorate, bs).Ok?
    ensures var ev := Evaluate(rules, electorate, bs).value;
      && (ev.requiredFraction.numerator, ev.requiredFraction.denominator) == Asked(rules.threshold)
      && (ev.abstentionsAffected <==> rules.threshold.basis == VotesCast)
  {
    hide Issues, BallotIssues, Units, Total, TallyOf;
  }

  lemma SharesCompare(f: Fraction, value: nat, basis: nat)
    ensures CompareShare(f, value, basis) != Below <==> f.numerator * basis <= value * f.denominator
  {
  }

  lemma SummaryQuorum(rules: Rules, electorate: Electorate, bs: BallotSet)
    requires Evaluate(rules, electorate, bs).Ok?
    ensures QuorumNumber(rules, bs, electorate, V.SummaryOf(Evaluate(rules, electorate, bs).value).quorumRequired)
  {
    hide Issues, BallotIssues, Units, Total, TallyOf, Weigh, CompareShare, RequiredWeight;
    CountConserves(rules, electorate, bs);
    TotalsMean(rules, electorate, bs);
    if rules.quorum.FractionQuorum? {
      var f, basis := rules.quorum.fraction, rules.quorum.basis;
      var whole := Whole(basis, bs, electorate);
      forall n: nat ensures MakesShare(f, n, whole) <==> n >= RequiredWeight(f, whole) {
        RequiredWeightExact(f, whole, n);
        SharesCompare(f, n, whole);
      }
    }
  }

  lemma SummaryReports(rules: Rules, electorate: Electorate, bs: BallotSet)
    requires Evaluate(rules, electorate, bs).Ok?
    ensures Reports(V.SummaryOf(Evaluate(rules, electorate, bs).value), rules, bs, electorate)
  {
    hide Evaluate, Weigh, Number, Quorate, Base, Why, Won, MoreThanAsked, ExactlyAsked, RequiredWeight, QuorumNumber;
    TotalsMean(rules, electorate, bs);
    OutcomeMeans(rules, electorate, bs);
    ReasonMeans(rules, electorate, bs);
    SummaryQuorum(rules, electorate, bs);
    SummaryCopies(rules, electorate, bs);
  }

  /** The people and the rules a stored result is the result of. */
  ghost predicate ResultOf(b: Blocks, r: VoteRecord, c: Company, channel: Channel, vs: seq<Voter>) {
    && DecidesTogether(b, r.snapshot, c, channel) && VotersOfRoll(Roll(c, channel), vs)
    && Reports(r.evaluation, channel.mode.rules, Said(r.ballots), vs)
  }

  lemma VotersAreTheRoll(c: Company, actors: seq<Actor>, roll: seq<Holding>)
    requires ActFor(c, actors, roll)
    ensures VotersOfRoll(roll, C.VotersOf(actors))
  {
    hide HasKey;
    forall i | 0 <= i < |roll|
      ensures C.VotersOf(actors)[i].id == roll[i].id && C.VotersOf(actors)[i].weight == roll[i].amount
    {
      assert ActsFor(c, actors[i], roll[i]);
    }
  }

  /**
   The result a verifying vote stores is the result: of its own ballots, under the rules of its
   channel, over everybody on the channel's roll at what they held when the vote was frozen.
   */
  lemma VerifiedResultIsTheCount(w: World, b: Blocks, txId: TxId)
    requires V.VoteVerifies(w, b, txId)
    ensures Locate(b, txId).Some? && V.HoldsVote(Locate(b, txId).value)
    ensures exists c, channel, vs :: ResultOf(b, Locate(b, txId).value.tx.body.payload.vote, c, channel, vs)
  {
    hide V.VoteVerifies, V.PinnedRules, V.AllBallotsVerify, V.FrozenElectorate, Lists, ActFor, Strict, Evaluate;
    hide Reconstruct, V.EvaluateFrozen, V.VoteRecordsResolve, GovernanceSignerAt, V.Commitment, Locate, Reports,
        VotersOfRoll, Roll;
    hide V.SummaryOf;
    VerifiedVoteGathered(w, b, txId);
    var r := Locate(b, txId).value.tx.body.payload.vote;
    var c, channel, actors := PinnedChannel(b, r.snapshot);
    C.FrozenAsVoters(actors);
    C.CastInOrder(r.ballots);
    SaidIsCast(r.ballots);
    C.FrozenIsEvaluated(channel.mode.rules, actors, r.snapshot, r.ballots);
    SummaryReports(channel.mode.rules, C.VotersOf(actors), V.Cast(r.ballots));
    VotersAreTheRoll(c, actors, Roll(c, channel));
    assert ResultOf(b, r, c, channel, C.VotersOf(actors));
  }

  /** The rest of what a verifying vote record says: when, of which company and its records, and signed by whom. */
  lemma VerifiedVoteIsPinned(w: World, b: Blocks, txId: TxId)
    requires V.VoteVerifies(w, b, txId)
    ensures Locate(b, txId).Some? && V.HoldsVote(Locate(b, txId).value)
    ensures var e := Locate(b, txId).value; var s := e.tx.body.payload.vote.snapshot;
      && s.height < e.height && e.tx.body.payload.vote.voteId == w.voteId(s)
      && Reconstruct(b, s.height).Ok? && Reconstruct(b, e.height).Ok?
      && var c, now := Reconstruct(b, s.height).value, Reconstruct(b, e.height).value;
         && c.company == s.company && c.genesisTx == s.genesisTx && c.shares.txId == s.sharesTx
         && c.channels.txId == s.channelsTx && c.persons.txId == s.identitiesTx
         && ListedSigner(now.persons.value, now.authorisation.value, GovernanceFamily, e.tx.body.signer)
  {
    hide V.VoteVerifies, V.PinnedRules, V.AllBallotsVerify, V.Reproduces, Strict, GovernanceSignerAt, V.Commitment;
    hide Reconstruct, ListedSigner, Locate, V.FrozenElectorate;
    VerifiedVoteGathered(w, b, txId);
    var e := Locate(b, txId).value;
    SignerIsListed(b, e.height, e.tx.body.signer);
  }

  // ---------------------------------------------------------------- decisions

  /** The channel a decision names, in the company at its height, is one person's, and this is whose. */
  predicate DecidesAlone(b: Blocks, s: DecisionSnapshot, c: Company, channel: Channel) {
    && |b| > 0 && Reconstruct(b, s.height) == Ok(c) && Lists(c, s.channel, channel) && channel.mode.Individual?
    && |Roll(c, channel)| == 1 && Roll(c, channel)[0].id == s.actor && HasKey(c, s.actor, s.key)
  }

  lemma SoleActorIs(c: Company, id: Id)
    requires ResolveChannel(c, id).Ok? && ResolveChannel(c, id).value.SoleActor().Some?
    ensures var channel, actor := ResolveChannel(c, id).value.channel, ResolveChannel(c, id).value.SoleActor().value;
      && Lists(c, id, channel) && channel.mode.Individual? && |Roll(c, channel)| == 1
      && ActsFor(c, actor, Roll(c, channel)[0])
  {
    hide ResolveChannel, HasKey;
    ResolvedIsListed(c, id);
    ListedResolves(c, ResolveChannel(c, id).value.channel);
  }

  /**
   A decision that verifies was signed by the one person its channel listed, under the key the
   company at the frozen height held for them, over the snapshot itself; and it is of the records
   in force there.
   */
  lemma VerifiedDecisionIsSigned(w: World, b: Blocks, txId: TxId)
    requires D.DecisionVerifies(w, b, txId)
    ensures Locate(b, txId).Some? && D.HoldsDecision(Locate(b, txId).value)
    ensures var e := Locate(b, txId).value; var r := e.tx.body.payload.decision; var s := r.snapshot;
      && s.height < e.height && r.decisionId == w.decisionId(s)
      && w.verifies(s.key, DecisionStatement(s), r.signature)
      && Reconstruct(b, s.height).Ok? && Reconstruct(b, e.height).Ok?
      && var c, now := Reconstruct(b, s.height).value, Reconstruct(b, e.height).value;
         && (exists channel :: DecidesAlone(b, s, c, channel))
         && c.company == s.company && c.genesisTx == s.genesisTx && c.shares.txId == s.sharesTx
         && c.channels.txId == s.channelsTx && c.persons.txId == s.identitiesTx
         && ListedSigner(now.persons.value, now.authorisation.value, GovernanceFamily, e.tx.body.signer)
  {
    hide Reconstruct, ListedSigner, Locate, ResolveChannel, GovernanceSignerAt, HasKey, Roll;
    var e := Locate(b, txId).value;
    var holds := D.DecisionChecks(w, b, e);
    assert holds(D.Decodes) && holds(D.DecisionIdDerives) && holds(D.SnapshotPrecedesRecord) && holds(D.RecordsResolve);
    assert holds(D.SignerAuthorised) && holds(D.ChannelIsIndividual) && holds(D.ActorResolves)
      && holds(D.SignatureVerifies);
    var s := e.tx.body.payload.decision.snapshot;
    SignerIsListed(b, e.height, e.tx.body.signer);
    var c := Reconstruct(b, s.height).value;
    SoleActorIs(c, s.channel);
    assert DecidesAlone(b, s, c, ResolveChannel(c, s.channel).value.channel);
  }

  // ---------------------------------------------------------------- freezing

  ghost predicate CollectiveAt(b: Blocks, at: nat, id: Id)
    requires |b| > 0
  {
    Reconstruct(b, at).Ok? &&
    exists channel :: Lists(Reconstruct(b, at).value, id, channel) && channel.mode.Collective?
  }

  /** A vote freezes, on a ledger and at a height, exactly through the channels that decide together there. */
  lemma VoteFreezes(v: V.VoteState, b: Blocks, at: nat, id: Id)
    requires |b| > 0 && v.status == V.Draft
    ensures V.FreezeVote(v, b, at, id).Ok? <==> CollectiveAt(b, at, id)
  {
    hide Reconstruct, ResolveChannel, Roll, ActFor;
    if Reconstruct(b, at).Ok? {
      var c := Reconstruct(b, at).value;
      if ResolveChannel(c, id).Ok? {
        var found := ResolveChannel(c, id).value.channel;
        ResolvedIsListed(c, id);
        if channel :| Lists(c, id, channel) && channel.mode.Collective? { OneChannel(c, id, found, channel); }
      } else {
        if channel :| Lists(c, id, channel) && channel.mode.Collective? { ListedResolves(c, channel); }
      }
    }
  }

  /** An individual channel with just one person on its roll, who holds that key. */
  predicate OnePersons(c: Company, id: Id, channel: Channel, key: PublicKey) {
    && Lists(c, id, channel) && channel.mode.Individual? && |Roll(c, channel)| == 1
    && HasKey(c, Roll(c, channel)[0].id, key)
  }

  ghost predicate OnePersonAt(b: Blocks, at: nat, id: Id)
    requires |b| > 0
  {
    && Reconstruct(b, at).Ok?
    && exists channel, key :: OnePersons(Reconstruct(b, at).value, id, channel, key)
  }

  lemma OnePersonFreezes(c: Company, id: Id, channel: Channel, key: PublicKey)
    requires OnePersons(c, id, channel, key)
    ensures ResolveChannel(c, id).Ok? && ResolveChannel(c, id).value.SoleActor().Some?
    ensures ResolveChannel(c, id).value.SoleActor().value.key == Some(key)
  {
    hide ResolveChannel, HasKey;
    ListedResolves(c, channel);
    assert ActsFor(c, ResolveChannel(c, id).value.actors[0], Roll(c, channel)[0]);
  }

  /** A decision freezes exactly through the channels that have one person, and that person a key. */
  lemma DecisionFreezes(d: D.DecisionState, b: Blocks, at: nat, id: Id)
    requires |b| > 0 && d.status == D.Draft
    ensures D.FreezeDecision(d, b, at, id).Ok? <==> OnePersonAt(b, at, id)
  {
    hide Reconstruct, ResolveChannel, HasKey, Lists, Roll;
    if Reconstruct(b, at).Ok? {
      var c := Reconstruct(b, at).value;
      if D.FreezeDecision(d, b, at, id).Ok? {
        SoleActorIs(c, id);
        var channel, actor := ResolveChannel(c, id).value.channel, ResolveChannel(c, id).value.SoleActor().value;
        assert OnePersons(c, id, channel, actor.key.value);
      }
      if channel, key :| OnePersons(c, id, channel, key) { OnePersonFreezes(c, id, channel, key); }
    }
  }

  // ---------------------------------------------------------------- meetings

  /**
   The line names a vote filed before the meeting's record, which verifies, was held for that very
   item, and decided this.
   */
  ghost predicate TellsItsVote(w: World, b: Blocks, company: Id, record: FinalMeeting, height: nat, line: FinalItem) {
    && line.item.body.VoteItem? && line.voteTx.Some? && V.VoteVerifies(w, b, line.voteTx.value)
    && Locate(b, line.voteTx.value).Some?
    && var e := Locate(b, line.voteTx.value).value;
       && e.height < height && e.tx.body.payload.VotePayload?
       && var vote := e.tx.body.payload.vote;
          && vote.snapshot.company == company && vote.snapshot.channel == record.metadata.channel
          && vote.snapshot.height == record.openedAt && vote.snapshot.proposalDigest == line.item.body.proposalDigest
          && vote.snapshot.subject == M.Subject(line.item) && line.outcome == Some(vote.evaluation.outcome)
  }

  ghost predicate TellsTheTruth(w: World, b: Blocks, company: Id, record: FinalMeeting, height: nat, line: FinalItem) {
    match line.item.body
    case Informational(_) => line.voteTx.None? && line.outcome.None?
    case VoteItem(_) => TellsItsVote(w, b, company, record, height, line)
  }

  /** The convening a final record names: on the ledger, of this company, with this very agenda. */
  predicate ConvenedAs(b: Blocks, company: Id, record: FinalMeeting, e: Entry) {
    && Locate(b, record.meetingId) == Some(e) && e.height <= record.openedAt && |record.items| > 0
    && e.tx.body.payload.MeetingPayload? && e.tx.body.payload.company == company
    && e.tx.body.payload.meeting.Convened? && e.tx.body.payload.meeting.metadata == record.metadata
    && |e.tx.body.payload.meeting.agenda| == |record.items|
    && forall i :: 0 <= i < |record.items| ==>
         record.items[i].item == e.tx.body.payload.meeting.agenda[i] && record.items[i].item.number == i + 1
  }

  lemma LineTells(w: World, b: Blocks, company: Id, record: FinalMeeting, height: nat, line: FinalItem)
    requires M.LineVerifies(w, b, line) && M.LineConsistent(line)
    requires M.LineBelongs(b, company, record.metadata.channel, record.openedAt, height, line)
    ensures TellsTheTruth(w, b, company, record, height, line)
  {
    hide V.VoteVerifies, Locate, M.Subject;
    if line.item.body.VoteItem? { M.VerifiedIsLocated(w, b, line.voteTx.value); }
  }

  lemma AgendaMatches(b: Blocks, company: Id, record: FinalMeeting, e: Entry)
    requires M.ConveningOf(b, record.meetingId) == Some(e) && e.height <= record.openedAt
    requires e.tx.body.payload.company == company && e.tx.body.payload.meeting.metadata == record.metadata
    requires M.SameAgenda(record.items, e.tx.body.payload.meeting.agenda)
    ensures ConvenedAs(b, company, record, e)
  {
    hide M.Blank, Locate;
    var agenda := e.tx.body.payload.meeting.agenda;
    assert M.AgendaOf(record.items) == agenda;
    forall i | 0 <= i < |record.items|
      ensures record.items[i].item == agenda[i] && record.items[i].item.number == i + 1
    {
      assert M.AgendaOf(record.items)[i] == record.items[i].item && M.AgendaEntry(agenda, i);
    }
  }

  /**
   What a meeting's final record tells is so, if it verifies: the meeting was convened before with
   this agenda, every vote it names was held for that item through its channel at the height it
   opened and really had the outcome stated, and nothing is claimed of the other items.
   */
  lemma VerifiedMeetingTellsTheTruth(w: World, b: Blocks, txId: TxId)
    requires M.MeetingVerifies(w, b, txId)
    ensures Locate(b, txId).Some? && M.HoldsFinal(Locate(b, txId).value)
    ensures var e := Locate(b, txId).value;
      var company, record := e.tx.body.payload.company, e.tx.body.payload.meeting.record;
      && record.openedAt < e.height && (exists convening :: ConvenedAs(b, company, record, convening))
      && forall i :: 0 <= i < |record.items| ==> TellsTheTruth(w, b, company, record, e.height, record.items[i])
  {
    hide M.MeetingCheckHolds, M.ConveningOf, M.CompanyIs, M.BothSigners, M.LineVerifies, M.LineBelongs,
        M.LineConsistent;
    hide M.SameAgenda, M.MeetingChecks, M.Blank, M.ValidAgenda, Locate, TellsTheTruth;
    var e := Locate(b, txId).value;
    M.VerifiedNames(w, b, e);
    var company, record := e.tx.body.payload.company, e.tx.body.payload.meeting.record;
    var convening := M.ConveningOf(b, record.meetingId).value;
    M.ConvenedMeanings(w, b, e, convening, company, record, convening.tx.body.payload.company,
      convening.tx.body.payload.meeting.metadata, convening.tx.body.payload.meeting.agenda);
    var holds := M.MeetingChecks(w, b, e);
    assert holds(M.ConveningExists) && holds(M.HeightsOrdered) && holds(M.AgendaMatches) && holds(M.MetadataMatches);
    assert holds(M.VotesVerify) && holds(M.VotesBelong) && holds(M.ItemsConsistent);
    AgendaMatches(b, company, record, convening);
    forall i | 0 <= i < |record.items| ensures TellsTheTruth(w, b, company, record, e.height, record.items[i]) {
      LineTells(w, b, company, record, e.height, record.items[i]);
    }
  }

  /** And both its records were signed by somebody the company of the time lists for governance. */
  lemma VerifiedMeetingIsSigned(w: World, b: Blocks, txId: TxId)
    requires M.MeetingVerifies(w, b, txId)
    ensures Locate(b, txId).Some? && M.HoldsFinal(Locate(b, txId).value)
    ensures var e := Locate(b, txId).value; var convened := Locate(b, e.tx.body.payload.meeting.record.meetingId);
      && convened.Some? && Reconstruct(b, e.height).Ok? && Reconstruct(b, convened.value.height).Ok?
      && var then_, now := Reconstruct(b, convened.value.height).value, Reconstruct(b, e.height).value;
         && then_.company == e.tx.body.payload.company
         && ListedSigner(then_.persons.value, then_.authorisation.value, GovernanceFamily,
              convened.value.tx.body.signer)
         && ListedSigner(now.persons.value, now.authorisation.value, GovernanceFamily, e.tx.body.signer)
  {
    hide M.MeetingCheckHolds, M.ConveningOf, M.LinesVerify, M.LinesBelong, M.LinesConsistent, M.SameAgenda;
    hide M.MeetingChecks, M.Blank, M.ValidAgenda, Locate, Reconstruct, ListedSigner, GovernanceSignerAt;
    var e := Locate(b, txId).value;
    M.VerifiedNames(w, b, e);
    var company, record := e.tx.body.payload.company, e.tx.body.payload.meeting.record;
    var convening := M.ConveningOf(b, record.meetingId).value;
    M.ConvenedMeanings(w, b, e, convening, company, record, convening.tx.body.payload.company,
      convening.tx.body.payload.meeting.metadata, convening.tx.body.payload.meeting.agenda);
    var holds := M.MeetingChecks(w, b, e);
    assert holds(M.SignerAuthorised) && holds(M.CompanyReconstructs);
    SignerIsListed(b, convening.height, convening.tx.body.signer);
    SignerIsListed(b, e.height, e.tx.body.signer);
  }
}
