/** What each verifier accepts, exactly, told from the records and the companies they name. */
module Verdicts {
  import opened Bytes
  import opened Ordering
  import opened Bornite
  import opened Evaluation
  import opened Parts
  import opened Records
  import opened Text
  import opened Ledger
  import opened Resolve
  import opened Admission
  import opened Results
  import opened Conditions
  import opened Mandate
  import A = Approvals
  import R = Resolution
  import X = Executions
  import V = Vote
  import D = Decision
  import M = Meeting
  import H = History
  import C = Counting
  import E = Evidence
  import Demotion

  // ---------------------------------------------------------------- who signed

  /** The company of a height, and a governance signer of it holding the key. */
  predicate SignedForAt(b: Blocks, height: nat, key: PublicKey, c: Company)
    requires |b| > 0
  {
    Reconstruct(b, height) == Ok(c) && ListedSigner(c.persons.value, c.authorisation.value, GovernanceFamily, key)
  }

  lemma SignedForIs(b: Blocks, height: nat, key: PublicKey)
    requires |b| > 0
    ensures GovernanceSignerAt(b, height, key) <==>
      Reconstruct(b, height).Ok? && SignedForAt(b, height, key, Reconstruct(b, height).value)
  {
    hide Reconstruct, GovernanceSignerAt, ListedSigner;
    E.SignerIsListed(b, height, key);
  }

  // ---------------------------------------------------------------- votes

  /** The records pinned are those in force, and the company is the one named. */
  predicate OfThese(c: Company, company: Id, genesisTx: TxId, sharesTx: TxId, channelsTx: TxId, identitiesTx: TxId) {
    && c.company == company && c.genesisTx == genesisTx && c.shares.txId == sharesTx && c.channels.txId == channelsTx
    && c.persons.txId == identitiesTx
  }

  /** A frozen entry is a line of the roll, at what it holds and under the key its person holds. */
  ghost predicate EntryIs(c: Company, e: ElectorateEntry, h: Holding) {
    && e.id == h.id && e.weight == h.amount && !e.excluded
    && forall key :: e.key == Some(key) <==> E.HasKey(c, h.id, key)
  }

  ghost predicate ElectorateIs(c: Company, es: seq<ElectorateEntry>, roll: seq<Holding>) {
    |es| == |roll| && forall i :: 0 <= i < |roll| ==> EntryIs(c, es[i], roll[i])
  }

  /** The people of the channel at the frozen height, their genuine ballots, and what these come to under its rules. */
  ghost predicate TrueVote(w: World, b: Blocks, r: VoteRecord, c: Company, channel: Channel, vs: seq<Voter>) {
    && E.ResultOf(b, r, c, channel, vs) && Suited(channel.mode.rules, vs)
    && ElectorateIs(c, r.snapshot.electorate, E.Roll(c, channel))
    && E.AllGenuine(w, c, channel, r.snapshot, r.ballots)
  }

  /**
   A true vote of the records in force when it was frozen, its ballots in order and committed to;
   filed by a governance signer.
   */
  ghost predicate VoteStands(w: World, b: Blocks, e: Entry) {
    && b != [] && e.tx.body.ns == VoteNs && e.tx.body.payload.VotePayload?
    && e.tx.body.payload.vote.version == V.RECORD_VERSION &&
    var r := e.tx.body.payload.vote;
    var s := r.snapshot;
    && s.height < e.height && r.voteId == w.voteId(s) && r.commitment == V.Commitment(w, r.ballots)
    && (forall i, j :: 0 <= i < j < |r.ballots| ==> Before(r.ballots[i].body.voter, r.ballots[j].body.voter))
    && Reconstruct(b, s.height).Ok?
    && OfThese(Reconstruct(b, s.height).value, s.company, s.genesisTx, s.sharesTx, s.channelsTx, s.identitiesTx)
    && (exists c, channel, vs :: TrueVote(w, b, r, c, channel, vs))
    && Reconstruct(b, e.height).Ok? && SignedForAt(b, e.height, e.tx.body.signer, Reconstruct(b, e.height).value)
  }

  lemma OneQuorumNumber(rules: Rules, bs: seq<Ballot>, vs: seq<Voter>, x: Option<nat>, y: Option<nat>)
    requires E.QuorumNumber(rules, bs, vs, x) && E.QuorumNumber(rules, bs, vs, y)
    ensures x == y
  {
    if rules.quorum.FractionQuorum? {
      var f, whole := rules.quorum.fraction, Whole(rules.quorum.basis, bs, vs);
      assert MakesShare(f, x.value, whole) && MakesShare(f, y.value, whole);
    }
  }

  /** A result is the only one that reports what it reports. */
  lemma OneReport(x: Summary, y: Summary, rules: Rules, bs: seq<Ballot>, vs: seq<Voter>)
    requires E.Reports(x, rules, bs, vs) && E.Reports(y, rules, bs, vs)
    ensures x == y
  {
    hide Carried, Why, Quorate, Base, Asked, MoreThanAsked, ExactlyAsked, Won, Weigh, Number;
    OneQuorumNumber(rules, bs, vs, x.quorumRequired, y.quorumRequired);
  }

  lemma OneEntry(c: Company, x: ElectorateEntry, y: ElectorateEntry, h: Holding)
    requires EntryIs(c, x, h) && EntryIs(c, y, h)
    ensures x == y
  {
    hide E.HasKey;
    if x.key.Some? { assert E.HasKey(c, h.id, x.key.value); }
    if y.key.Some? { assert E.HasKey(c, h.id, y.key.value); }
  }

  lemma FrozenIsRoll(c: Company, actors: seq<Actor>, roll: seq<Holding>, es: seq<ElectorateEntry>)
    requires E.ActFor(c, actors, roll)
    ensures es == V.FrozenElectorate(actors) <==> ElectorateIs(c, es, roll)
  {
    hide E.HasKey;
    var frozen := V.FrozenElectorate(actors);
    forall i | 0 <= i < |roll| ensures EntryIs(c, frozen[i], roll[i]) { assert E.ActsFor(c, actors[i], roll[i]); }
    if ElectorateIs(c, es, roll) {
      forall i | 0 <= i < |roll| ensures es[i] == frozen[i] { OneEntry(c, es[i], frozen[i], roll[i]); }
    }
  }

  lemma VotersAre(roll: seq<Holding>, c: Company, actors: seq<Actor>, vs: seq<Voter>)
    requires E.ActFor(c, actors, roll) && E.VotersOfRoll(roll, vs)
    ensures vs == C.VotersOf(actors)
  {
    E.VotersAreTheRoll(c, actors, roll);
  }

  /** Sound ballots over a channel's own people reproduce exactly the result that reports them. */
  lemma ResultIsReproduced(w: World, rules: Rules, c: Company, channel: Channel, actors: seq<Actor>, r: VoteRecord)
    requires E.ActFor(c, actors, E.Roll(c, channel)) && r.snapshot.electorate == V.FrozenElectorate(actors)
    requires Strict(ActorIds(actors)) && Strict(V.SignedVoters(r.ballots))
    requires V.AllBallotsVerify(w, r.ballots, r.snapshot)
    requires Units(rules, C.VotersOf(actors)) <= U64_MAX
    ensures V.Reproduces(rules, r) <==>
      Suited(rules, C.VotersOf(actors)) && E.Reports(r.evaluation, rules, E.Said(r.ballots), C.VotersOf(actors))
  {
    hide Strict, Issues, Units, Count, V.BallotRefusal, V.AllBallotsVerify, Suited, E.Reports, V.SummaryOf, Evaluate;
    hide E.ActFor, V.FrozenElectorate, V.EvaluateFrozen;
    var vs := C.VotersOf(actors);
    C.FrozenAsVoters(actors);
    C.CastInOrder(r.ballots);
    E.SaidIsCast(r.ballots);
    C.FrozenCount(w, rules, actors, r.snapshot, r.ballots);
    C.FrozenIsEvaluated(rules, actors, r.snapshot, r.ballots);
    IssuesAreExact(rules, vs);
    if Evaluate(rules, vs, V.Cast(r.ballots)).Ok? {
      E.SummaryReports(rules, vs, V.Cast(r.ballots));
      var sum := V.SummaryOf(Evaluate(rules, vs, V.Cast(r.ballots)).value);
      if E.Reports(r.evaluation, rules, V.Cast(r.ballots), vs) {
        OneReport(r.evaluation, sum, rules, V.Cast(r.ballots), vs);
      }
    }
  }

  lemma OrderedIsStrict(ballots: seq<SignedBallot>)
    ensures Strict(V.SignedVoters(ballots)) <==>
      forall i, j :: 0 <= i < j < |ballots| ==> Before(ballots[i].body.voter, ballots[j].body.voter)
    ensures Strict(V.SignedVoters(ballots)) <==> V.BallotsOrderly(ballots)
  {
    hide Before;
    AdjacentDecides(V.SignedVoters(ballots));
  }

  /** Given the people, the ballots and the result are checked exactly for being true. */
  lemma VoteIsTrue(w: World, b: Blocks, r: VoteRecord, c: Company, channel: Channel, actors: seq<Actor>)
    requires E.DecidesTogether(b, r.snapshot, c, channel) && E.ActFor(c, actors, E.Roll(c, channel))
    requires Strict(ActorIds(actors)) && Strict(V.SignedVoters(r.ballots))
    requires Units(channel.mode.rules, C.VotersOf(actors)) <= U64_MAX
    ensures TrueVote(w, b, r, c, channel, C.VotersOf(actors)) <==>
      && r.snapshot.electorate == V.FrozenElectorate(actors) && V.AllBallotsVerify(w, r.ballots, r.snapshot)
      && V.Reproduces(channel.mode.rules, r)
  {
    hide Strict, Units, V.BallotRefusal, Suited, E.Reports, V.Reproduces, E.ActFor, V.FrozenElectorate, E.Genuine,
        E.Roll;
    hide Reconstruct, E.Lists, ElectorateIs;
    var s := r.snapshot;
    FrozenIsRoll(c, actors, E.Roll(c, channel), s.electorate);
    E.VotersAreTheRoll(c, actors, E.Roll(c, channel));
    if s.electorate == V.FrozenElectorate(actors) {
      forall i | 0 <= i < |r.ballots|
        ensures V.BallotRefusal(w, r.ballots[i], s).None? <==> E.Genuine(w, c, channel, s, r.ballots[i])
      {
        E.RefusalIsExact(w, c, channel, actors, s, r.ballots[i]);
      }
      if V.AllBallotsVerify(w, r.ballots, s) { ResultIsReproduced(w, channel.mode.rules, c, channel, actors, r); }
    }
  }

  lemma StandingVoteVerifies(w: World, b: Blocks, e: Entry)
    requires VoteStands(w, b, e)
    ensures V.VoteEntryVerifies(w, b, e)
  {
    hide Reconstruct, ListedSigner, V.FrozenElectorate, GovernanceSignerAt, V.AllBallotsVerify, V.Reproduces,
        V.Commitment;
    hide E.Reports, Suited, ElectorateIs, E.AllGenuine, E.VotersOfRoll, Strict, ResolveChannel, E.ActFor, E.Roll, Units;
    var r := e.tx.body.payload.vote;
    var c, channel, vs :| TrueVote(w, b, r, c, channel, vs);
    E.ListedResolves(c, channel);
    C.ResolvedElectorate(c, channel.id, channel.mode.rules);
    var actors := ResolveChannel(c, channel.id).value.actors;
    VotersAre(E.Roll(c, channel), c, actors, vs);
    OrderedIsStrict(r.ballots);
    VoteIsTrue(w, b, r, c, channel, actors);
    SignedForIs(b, e.height, e.tx.body.signer);
  }

  lemma PinnedFits(b: Blocks, s: VoteSnapshot)
    requires |b| > 0 && V.PinnedRules(b, s).Some?
    ensures Units(V.PinnedRules(b, s).value.0, C.VotersOf(V.PinnedRules(b, s).value.1)) <= U64_MAX
  {
    hide Reconstruct, ResolveChannel, Units;
    C.ResolvedElectorate(Reconstruct(b, s.height).value, s.channel, V.PinnedRules(b, s).value.0);
  }

  lemma VerifiedVoteStands(w: World, b: Blocks, txId: TxId)
    requires V.VoteVerifies(w, b, txId)
    ensures Locate(b, txId).Some? && VoteStands(w, b, Locate(b, txId).value)
  {
    hide Reconstruct, ListedSigner, V.FrozenElectorate, GovernanceSignerAt, V.AllBallotsVerify, V.Reproduces,
        V.Commitment;
    hide TrueVote, E.DecidesTogether, Strict, V.PinnedRules, V.VoteVerifies, E.ActFor, Units, Locate;
    E.VerifiedVoteGathered(w, b, txId);
    var e := Locate(b, txId).value;
    var r := e.tx.body.payload.vote;
    var c, channel, actors := E.PinnedChannel(b, r.snapshot);
    PinnedFits(b, r.snapshot);
    OrderedIsStrict(r.ballots);
    VoteIsTrue(w, b, r, c, channel, actors);
    SignedForIs(b, e.height, e.tx.body.signer);
  }

  /** The verifier of votes accepts exactly these. */
  lemma VoteVerdictIsExact(w: World, b: Blocks, txId: TxId)
    ensures V.VoteVerifies(w, b, txId) <==> Locate(b, txId).Some? && VoteStands(w, b, Locate(b, txId).value)
  {
    hide Locate, VoteStands, V.VoteEntryVerifies;
    if V.VoteVerifies(w, b, txId) { VerifiedVoteStands(w, b, txId); }
    if Locate(b, txId).Some? && VoteStands(w, b, Locate(b, txId).value) {
      StandingVoteVerifies(w, b, Locate(b, txId).value);
    }
  }

  // ---------------------------------------------------------------- decisions

  /**
   A decision made before, of the records then in force, signed over the snapshot under the key of
   the one person its channel listed; filed by a governance signer.
   */
  ghost predicate DecisionStands(w: World, b: Blocks, e: Entry) {
    && b != [] && e.tx.body.ns == DecisionNs && e.tx.body.payload.DecisionPayload?
    && e.tx.body.payload.decision.version == D.RECORD_VERSION &&
    var r := e.tx.body.payload.decision;
    var s := r.snapshot;
    && s.height < e.height && r.decisionId == w.decisionId(s) && w.verifies(s.key, DecisionStatement(s), r.signature)
    && Reconstruct(b, s.height).Ok?
    && OfThese(Reconstruct(b, s.height).value, s.company, s.genesisTx, s.sharesTx, s.channelsTx, s.identitiesTx)
    && (exists channel :: E.DecidesAlone(b, s, Reconstruct(b, s.height).value, channel))
    && Reconstruct(b, e.height).Ok? && SignedForAt(b, e.height, e.tx.body.signer, Reconstruct(b, e.height).value)
  }

  lemma AloneIsFrozen(b: Blocks, s: DecisionSnapshot, c: Company, channel: Channel)
    requires E.DecidesAlone(b, s, c, channel)
    ensures D.PinnedActor(b, s).Some? && D.IsFrozenActor(D.PinnedActor(b, s).value, s)
  {
    hide Reconstruct, ResolveChannel, E.HasKey;
    E.OnePersonFreezes(c, s.channel, channel, s.key);
    E.ListedResolves(c, channel);
    assert E.ActsFor(c, ResolveChannel(c, s.channel).value.actors[0], E.Roll(c, channel)[0]);
  }

  lemma StandingDecisionVerifies(w: World, b: Blocks, e: Entry)
    requires DecisionStands(w, b, e)
    ensures D.DecisionEntryVerifies(w, b, e)
  {
    hide Reconstruct, ListedSigner, D.PinnedActor, GovernanceSignerAt, E.DecidesAlone, D.IsFrozenActor;
    var s := e.tx.body.payload.decision.snapshot;
    var channel :| E.DecidesAlone(b, s, Reconstruct(b, s.height).value, channel);
    AloneIsFrozen(b, s, Reconstruct(b, s.height).value, channel);
    SignedForIs(b, e.height, e.tx.body.signer);
  }

  lemma DecisionIsOnLedger(w: World, b: Blocks, e: Entry)
    requires D.DecisionEntryVerifies(w, b, e)
    ensures b != []
  {
    assert D.DecisionChecks(w, b, e)(D.Decodes);
  }

  /** The verifier of decisions accepts exactly these. */
  lemma DecisionVerdictIsExact(w: World, b: Blocks, txId: TxId)
    ensures D.DecisionVerifies(w, b, txId) <==>
      Locate(b, txId).Some? && DecisionStands(w, b, Locate(b, txId).value)
  {
    hide Reconstruct, ListedSigner, Locate, E.DecidesAlone, D.DecisionEntryVerifies;
    if D.DecisionVerifies(w, b, txId) {
      E.VerifiedDecisionIsSigned(w, b, txId);
      DecisionIsOnLedger(w, b, Locate(b, txId).value);
    }
    if Locate(b, txId).Some? && DecisionStands(w, b, Locate(b, txId).value) {
      StandingDecisionVerifies(w, b, Locate(b, txId).value);
    }
  }

  // ---------------------------------------------------------------- meetings

  /** A meeting convened with a titled agenda, in the company of that height, by a governance signer of it. */
  ghost predicate ConveningStands(b: Blocks, company: Id, record: FinalMeeting, convening: Entry)
    requires |b| > 0
  {
    && E.ConvenedAs(b, company, record, convening) && convening.tx.body.ns == MeetingNs && |record.items| <= U32_MAX
    && (forall i :: 0 <= i < |record.items| ==> !M.Blank(record.items[i].item.title))
    && Reconstruct(b, convening.height).Ok? && Reconstruct(b, convening.height).value.company == company
    && SignedForAt(b, convening.height, convening.tx.body.signer, Reconstruct(b, convening.height).value)
  }

  /** A final record that tells the truth about a meeting properly convened, filed by a governance signer. */
  ghost predicate MeetingStands(w: World, b: Blocks, e: Entry) {
    && b != [] && e.tx.body.ns == MeetingNs && e.tx.body.payload.MeetingPayload? && e.tx.body.payload.meeting.Final? &&
    var company, record := e.tx.body.payload.company, e.tx.body.payload.meeting.record;
    && !M.Blank(record.metadata.title) && record.openedAt < e.height
    && (exists convening :: ConveningStands(b, company, record, convening))
    && (forall i :: 0 <= i < |record.items| ==> E.TellsTheTruth(w, b, company, record, e.height, record.items[i]))
    && Reconstruct(b, e.height).Ok? && SignedForAt(b, e.height, e.tx.body.signer, Reconstruct(b, e.height).value)
  }

  lemma ConveningIsHeld(b: Blocks, company: Id, record: FinalMeeting, convening: Entry)
    requires b != [] && ConveningStands(b, company, record, convening)
    ensures M.ConveningOf(b, record.meetingId) == Some(convening)
    ensures M.SameAgenda(record.items, convening.tx.body.payload.meeting.agenda)
  {
    hide M.Blank, Reconstruct, SignedForAt, Locate;
    var agenda := convening.tx.body.payload.meeting.agenda;
    forall i | 0 <= i < |agenda| ensures M.AgendaEntry(agenda, i) { assert record.items[i].item == agenda[i]; }
    assert M.AgendaOf(record.items) == agenda;
  }

  lemma HeldConveningStands(b: Blocks, company: Id, record: FinalMeeting, convening: Entry)
    requires b != [] && E.ConvenedAs(b, company, record, convening) && M.HoldsConvening(convening)
    requires Reconstruct(b, convening.height).Ok? && Reconstruct(b, convening.height).value.company == company
    requires SignedForAt(b, convening.height, convening.tx.body.signer, Reconstruct(b, convening.height).value)
    ensures ConveningStands(b, company, record, convening)
  {
    hide M.Blank, Reconstruct, SignedForAt, Locate;
    var agenda := convening.tx.body.payload.meeting.agenda;
    forall i | 0 <= i < |record.items|
      ensures !M.Blank(record.items[i].item.title) && record.items[i].item.number <= U32_MAX
    {
      assert M.AgendaEntry(agenda, i);
    }
    assert record.items[|record.items| - 1].item.number <= U32_MAX;
  }

  lemma TrueLineVerifies(w: World, b: Blocks, company: Id, record: FinalMeeting, height: nat, line: FinalItem)
    requires E.TellsTheTruth(w, b, company, record, height, line)
    ensures M.LineVerifies(w, b, line) && M.LineConsistent(line)
    ensures M.LineBelongs(b, company, record.metadata.channel, record.openedAt, height, line)
  {
    hide V.VoteVerifies, Locate, M.Subject;
  }

  lemma MeetingIsConvened(b: Blocks, company: Id, record: FinalMeeting, convening: Entry)
    requires E.ConvenedAs(b, company, record, convening)
    ensures convening.tx.body.payload ==
      MeetingPayload(company, MeetingBody.Convened(record.metadata, convening.tx.body.payload.meeting.agenda))
    ensures convening.height <= record.openedAt && Locate(b, record.meetingId) == Some(convening)
  {
    hide Locate;
  }

  lemma StandingMeetingVerifies(w: World, b: Blocks, e: Entry)
    requires MeetingStands(w, b, e)
    ensures M.MeetingEntryVerifies(w, b, e)
  {
    hide Reconstruct, ListedSigner, GovernanceSignerAt, Locate, M.Blank, E.TellsTheTruth, E.ConvenedAs, M.ConveningOf;
    hide M.LineVerifies, M.LineBelongs, M.LineConsistent, M.SameAgenda, M.MeetingChecks, M.ValidAgenda, V.VoteVerifies;
    var company, record := e.tx.body.payload.company, e.tx.body.payload.meeting.record;
    var convening :| ConveningStands(b, company, record, convening);
    ConveningIsHeld(b, company, record, convening);
    MeetingIsConvened(b, company, record, convening);
    M.ConvenedMeanings(w, b, e, convening, company, record, company, record.metadata,
      convening.tx.body.payload.meeting.agenda);
    forall i | 0 <= i < |record.items|
      ensures M.LineVerifies(w, b, record.items[i]) && M.LineConsistent(record.items[i])
      ensures M.LineBelongs(b, company, record.metadata.channel, record.openedAt, e.height, record.items[i])
    {
      TrueLineVerifies(w, b, company, record, e.height, record.items[i]);
    }
    SignedForIs(b, e.height, e.tx.body.signer);
    SignedForIs(b, convening.height, convening.tx.body.signer);
    var holds := M.MeetingChecks(w, b, e);
    forall check: M.MeetingCheck ensures holds(check) {
      match check case Decodes => case ConveningExists => case HeightsOrdered => case AgendaMatches =>
      case MetadataMatches => case CompanyReconstructs => case SignerAuthorised => case VotesVerify =>
      case VotesBelong => case ItemsConsistent =>
    }
  }

  /** The verifier of meetings accepts exactly these. */
  lemma MeetingVerdictIsExact(w: World, b: Blocks, txId: TxId)
    ensures M.MeetingVerifies(w, b, txId) <==>
      Locate(b, txId).Some? && MeetingStands(w, b, Locate(b, txId).value)
  {
    hide Reconstruct, ListedSigner, Locate, E.TellsTheTruth, E.ConvenedAs, M.MeetingEntryVerifies, M.Blank,
        M.ConveningOf;
    hide ConveningStands, M.LinesVerify, M.LinesBelong, M.ValidAgenda;
    if M.MeetingVerifies(w, b, txId) {
      var e := Locate(b, txId).value;
      E.VerifiedMeetingTellsTheTruth(w, b, txId);
      E.VerifiedMeetingIsSigned(w, b, txId);
      M.VerifiedNames(w, b, e);
      var company, record := e.tx.body.payload.company, e.tx.body.payload.meeting.record;
      var convening :| E.ConvenedAs(b, company, record, convening);
      MeetingIsConvened(b, company, record, convening);
      HeldConveningStands(b, company, record, convening);
    }
    if Locate(b, txId).Some? && MeetingStands(w, b, Locate(b, txId).value) {
      StandingMeetingVerifies(w, b, Locate(b, txId).value);
    }
  }

  // ---------------------------------------------------------------- resolutions

  /** Where on the ledger the record that settles an authority is: its meeting's, or its decision's. */
  function SettledAt(b: Blocks, authority: Authority): Option<nat> {
    var tx := match authority case ByVote(_, meetingTx, _, _) => meetingTx case ByDecision(_, decisionTx) => decisionTx;
    match Locate(b, tx) case None => None case Some(e) => Some(e.height)
  }

  /**
   A resolution with a title, carrying something that reads, with a mandate for it from the company it names,
   settled before it; signed by a governance signer of that company.
   */
  ghost predicate ResolutionStands(w: World, b: Blocks, e: Entry) {
    b != [] && e.tx.body.ns == ResolutionNs && e.tx.body.payload.ResolutionPayload? &&
    var record := e.tx.body.payload.resolution;
    && !M.Blank(record.title) && (record.kind.Amendment? ==> ReadsAs(w, PartOf(record.kind.target), record.kind.body))
    && Mandated(w, b, record.authority, record.kind) && DecidedFor(b, record.authority) == Some(record.company)
    && SettledAt(b, record.authority).Some? && SettledAt(b, record.authority).value < e.height
    && Reconstruct(b, e.height).Ok? && Reconstruct(b, e.height).value.company == record.company
    && SignedForAt(b, e.height, e.tx.body.signer, Reconstruct(b, e.height).value)
  }

  lemma SettledWhere(w: World, b: Blocks, authority: Authority, kind: ResolutionKind)
    requires b != [] && A.AuthorityStands(w, b, authority, kind)
    ensures SettledAt(b, authority) == Some(A.DecidedBy(b, authority).value.height)
    ensures A.DecidedBy(b, authority).value.approval.proposalDigest == DigestOf(w, kind)
  {
    hide Reconstruct, Locate, V.VoteVerifies, D.DecisionVerifies, M.MeetingVerifies, A.ScopeError, A.AnswerStands;
  }

  lemma MandateIsRead(w: World, b: Blocks, authority: Authority, kind: ResolutionKind)
    requires b != [] && Mandated(w, b, authority, kind)
    ensures A.DecidedBy(b, authority).Some? && SettledAt(b, authority) == Some(A.DecidedBy(b, authority).value.height)
    ensures var approval := A.DecidedBy(b, authority).value.approval;
      && DecidedFor(b, authority) == Some(approval.company) && DecidedAt(b, authority) == Some(approval.height)
      && DecidedByWhom(b, authority) == approval.actor && approval.proposalDigest == DigestOf(w, kind)
      && forall target: Target ::
           && Reconstruct(b, approval.height).Ok?
           && approval.BaseOf(target) == Provider(Reconstruct(b, approval.height).value, target)
  {
    hide Mandated, Reconstruct, A.CheckedAuthority, A.DecidedBy, DecidedFor, DecidedAt, DecidedByWhom,
        A.AuthorityStands;
    hide SettledAt;
    AuthorityIsMandate(w, b, authority, kind);
    A.LifecycleAndVerifierAgree(w, b, authority, kind);
    ApprovedFor(w, b, authority, kind);
    ApprovedByWhom(w, b, authority, kind);
    SettledWhere(w, b, authority, kind);
    forall target: Target { ApprovedBase(w, b, authority, kind, target); }
  }

  /** The verifier of resolutions accepts exactly these. */
  lemma ResolutionVerdictIsExact(w: World, b: Blocks, txId: TxId)
    ensures R.ResolutionVerifies(w, b, txId) <==>
      Locate(b, txId).Some? && ResolutionStands(w, b, Locate(b, txId).value)
  {
    hide R.ResolutionEntryVerifies, A.AuthorityStands, Mandated, Reconstruct, SignedForAt, M.Blank, Locate;
    hide GovernanceSignerAt, A.DecidedBy, SettledAt, DecidedFor, DecidedAt, DecidedByWhom;
    if Locate(b, txId).Some? {
      var e := Locate(b, txId).value;
      R.ChecksGathered(w, b, e);
      if b != [] && e.tx.body.payload.ResolutionPayload? {
        var record := e.tx.body.payload.resolution;
        AuthorityIsMandate(w, b, record.authority, record.kind);
        SignedForIs(b, e.height, e.tx.body.signer);
        if Mandated(w, b, record.authority, record.kind) { MandateIsRead(w, b, record.authority, record.kind); }
      }
    }
  }

  // ---------------------------------------------------------------- executions

  /** The record replaced is the one that provided the part when they decided. */
  predicate ReplacedApproved(b: Blocks, authority: Authority, x: Execution)
    requires |b| > 0
  {
    && DecidedAt(b, authority).Some? && Reconstruct(b, DecidedAt(b, authority).value).Ok?
    && x.replacedTx == Provider(Reconstruct(b, DecidedAt(b, authority).value).value, x.target)
  }

  /** What one person decided alone gained them nothing, in the company just before the block of the amendment. */
  ghost predicate GaveUp(b: Blocks, authority: Authority, amendment: Entry)
    requires |b| > 0 && amendment.tx.body.payload.CompanyPayload?
  {
    var body := amendment.tx.body.payload.record.body;
    authority.ByDecision? ==>
      && amendment.height > 0 && Reconstruct(b, amendment.height - 1).Ok? && DecidedByWhom(b, authority).Some?
      && var c := Reconstruct(b, amendment.height - 1).value;
         body.Kind() != SharesKind ==>
           Demotion.GainedNothing(DecidedByWhom(b, authority).value, c, Amended(c, body))
  }

  predicate IsAmendment(r: RecordRef, amendmentTx: TxId, part: RecordKind) {
    r.txId == amendmentTx && r.record.body.Kind() in {part, GenesisKind}
  }

  /** The company of that height has the amendment among its records. */
  predicate AmongRecords(b: Blocks, height: nat, amendmentTx: TxId, part: RecordKind)
    requires |b| > 0
  {
    && Reconstruct(b, height).Ok?
    && exists r :: r in Reconstruct(b, height).value.applied && IsAmendment(r, amendmentTx, part)
  }

  predicate IsExecutionOf(e: Entry, resolutionTx: TxId) {
    && e.tx.body.ns == ExecutionNs && e.tx.body.payload.ExecutionPayload?
    && e.tx.body.payload.execution.execution.resolutionTx == resolutionTx
  }

  predicate FirstAt(es: seq<Entry>, k: nat, resolutionTx: TxId)
    requires k < |es|
  {
    IsExecutionOf(es[k], resolutionTx) && forall j :: 0 <= j < k ==> !IsExecutionOf(es[j], resolutionTx)
  }

  /** In chain order nothing before the transaction executes the resolution. */
  predicate FirstToExecute(b: Blocks, resolutionTx: TxId, txId: TxId) {
    exists k :: 0 <= k < |Entries(b)| && FirstAt(Entries(b), k, resolutionTx) && Entries(b)[k].tx.id == txId
  }

  /**
   A first execution of a resolution that stands, tied to an amendment published after it that
   carries its body, replaced what was in force when they decided, gained a single decider nothing
   and is among the company's records; signed by a governance signer.
   */
  ghost predicate ExecutionStands(w: World, b: Blocks, e: Entry) {
    b != [] && e.tx.body.ns == ExecutionNs && e.tx.body.payload.ExecutionPayload? &&
    var x := e.tx.body.payload.execution.execution;
    && Locate(b, x.resolutionTx).Some? && ResolutionStands(w, b, Locate(b, x.resolutionTx).value)
    && Locate(b, x.amendmentTx).Some?
    && var resolution, amendment := Locate(b, x.resolutionTx).value, Locate(b, x.amendmentTx).value;
       && Ties(w, b, x, e, resolution, amendment)
       && ReplacedApproved(b, resolution.tx.body.payload.resolution.authority, x)
       && GaveUp(b, resolution.tx.body.payload.resolution.authority, amendment)
       && AmongRecords(b, e.height, x.amendmentTx, PartOf(x.target))
       && FirstToExecute(b, x.resolutionTx, e.tx.id)
       && Reconstruct(b, e.height).Ok? && SignedForAt(b, e.height, e.tx.body.signer, Reconstruct(b, e.height).value)
  }

  lemma RegisterIsFree(signer: Id, c: Company, body: RecordBody)
    requires body.Kind() == SharesKind
    ensures Demotion.VerdictHolds(signer, c, body)
  {
  }

  /** How one person's amendment is judged is what it gains them. */
  lemma JudgedByGains(b: Blocks, authority: Authority, amendment: Entry, approval: A.Approval)
    requires |b| > 0 && amendment.tx.body.payload.CompanyPayload?
    requires amendment.tx.body.payload.record.body.Kind() in {SharesKind, ChannelsKind, PersonsKind, AuthorisationKind}
    requires approval.actor == DecidedByWhom(b, authority) && (approval.actor.Some? <==> authority.ByDecision?)
    ensures X.DemotionStands(b, amendment, approval) <==> GaveUp(b, authority, amendment)
  {
    hide Reconstruct, Demotion.VerdictHolds, Demotion.GainedNothing, Amended, DecidedByWhom;
    if authority.ByDecision? && amendment.height > 0 && Reconstruct(b, amendment.height - 1).Ok? {
      var c, body := Reconstruct(b, amendment.height - 1).value, amendment.tx.body.payload.record.body;
      if body.Kind() != SharesKind { RuleIsGainingNothing(approval.actor.value, c, body); }
      if body.Kind() == SharesKind { RegisterIsFree(approval.actor.value, c, body); }
    }
  }

  lemma DecidedAloneOrNot(w: World, b: Blocks, authority: Authority, kind: ResolutionKind)
    requires b != [] && Mandated(w, b, authority, kind)
    ensures DecidedByWhom(b, authority).Some? <==> authority.ByDecision?
  {
    hide V.VoteVerifies, D.DecisionVerifies, M.MeetingVerifies, Locate, ItemAnswered, MayDecide;
  }

  lemma LinkIsExact(w: World, b: Blocks, e: Entry, x: Execution, resolution: Entry)
    requires b != [] && R.HoldsResolution(w, resolution) && X.AmendsTarget(resolution, x.target)
    requires Locate(b, x.resolutionTx) == Some(resolution)
    requires var record := resolution.tx.body.payload.resolution; Mandated(w, b, record.authority, record.kind)
    ensures X.LinkIsSound(w, b, e, x, resolution) <==>
      && Locate(b, x.amendmentTx).Some?
      && Ties(w, b, x, e, resolution, Locate(b, x.amendmentTx).value)
      && ReplacedApproved(b, resolution.tx.body.payload.resolution.authority, x)
      && GaveUp(b, resolution.tx.body.payload.resolution.authority, Locate(b, x.amendmentTx).value)
  {
    hide Mandated, Reconstruct, M.Blank, R.Readable, Locate, A.DecidedBy, DecidedFor, DecidedAt, DecidedByWhom,
        Contains;
    hide CarriedIn, Normalise, X.DemotionStands, GaveUp, SettledAt;
    var record := resolution.tx.body.payload.resolution;
    MandateIsRead(w, b, record.authority, record.kind);
    var approval := A.DecidedBy(b, record.authority).value.approval;
    if Locate(b, x.amendmentTx).Some? {
      var amendment := Locate(b, x.amendmentTx).value;
      if X.AmendsPart(amendment, x.target.Kind(), record.company) {
        ContainedIsCarried(amendment.tx.body.payload.text, record.kind.body);
        DecidedAloneOrNot(w, b, record.authority, record.kind);
        JudgedByGains(b, record.authority, amendment, approval);
      }
    }
  }

  lemma HistoryIsRecords(b: Blocks, height: nat, x: Execution)
    requires |b| > 0
    ensures X.Applied(b, height, x) <==> AmongRecords(b, height, x.amendmentTx, PartOf(x.target))
  {
    hide Reconstruct, HistoryIn;
    if Reconstruct(b, height).Ok? {
      H.HistoryIsApplied(Reconstruct(b, height).value.applied, x.target.Kind());
      if X.Applied(b, height, x) {
        var r :| r in Reconstruct(b, height).value.HistoryOf(x.target.Kind()) && r.txId == x.amendmentTx;
        assert IsAmendment(r, x.amendmentTx, PartOf(x.target));
      }
    }
  }

  lemma {:induction false} FirstIsFirst(es: seq<Entry>, resolutionTx: TxId, k: nat)
    requires k < |es| && FirstAt(es, k, resolutionTx)
    ensures First(X.Executes(resolutionTx), es) == Some(es[k])
    decreases |es|
  {
    var n := |es| - 1;
    var init := es[..n];
    if k < n {
      assert FirstAt(init, k, resolutionTx);
      FirstIsFirst(init, resolutionTx, k);
    } else {
      assert forall e :: e in init ==> !X.Executes(resolutionTx)(e);
    }
  }

  lemma {:induction false} FoundIsFirst(es: seq<Entry>, resolutionTx: TxId) returns (k: nat)
    requires First(X.Executes(resolutionTx), es).Some?
    ensures k < |es| && FirstAt(es, k, resolutionTx) && First(X.Executes(resolutionTx), es) == Some(es[k])
    decreases |es|
  {
    var n := |es| - 1;
    var init := es[..n];
    if First(X.Executes(resolutionTx), init).Some? {
      k := FoundIsFirst(init, resolutionTx);
      assert FirstAt(es, k, resolutionTx);
    } else {
      k := n;
      assert forall j :: 0 <= j < n ==> es[j] in init;
    }
  }

  lemma OnlyIsFirst(b: Blocks, txId: TxId, x: Execution)
    ensures X.OnlyExecution(b, txId, x) <==> FirstToExecute(b, x.resolutionTx, txId)
  {
    hide Entries, First, FirstAt;
    assert X.FoundExecution(b, x.resolutionTx) == First(X.Executes(x.resolutionTx), Entries(b));
    if X.OnlyExecution(b, txId, x) { var k := FoundIsFirst(Entries(b), x.resolutionTx); }
    if k :| 0 <= k < |Entries(b)| && FirstAt(Entries(b), k, x.resolutionTx) && Entries(b)[k].tx.id == txId {
      FirstIsFirst(Entries(b), x.resolutionTx, k);
    }
  }

  lemma StandingIsHeld(w: World, b: Blocks, resolution: Entry)
    requires ResolutionStands(w, b, resolution)
    ensures b != [] && R.HoldsResolution(w, resolution)
    ensures var record := resolution.tx.body.payload.resolution; Mandated(w, b, record.authority, record.kind)
  {
    hide Mandated, M.Blank, DecidedFor, SettledAt, SignedForAt, Reconstruct;
  }

  lemma TiedIsTarget(w: World, b: Blocks, x: Execution, e: Entry, resolution: Entry)
    ensures (exists amendment :: Ties(w, b, x, e, resolution, amendment)) ==> X.AmendsTarget(resolution, x.target)
  {
    hide Locate, CarriedIn, Normalise;
  }

  /** The verifier of executions accepts exactly these. */
  lemma ExecutionVerdictIsExact(w: World, b: Blocks, txId: TxId)
    ensures X.ExecutionVerifies(w, b, txId) <==>
      Locate(b, txId).Some? && ExecutionStands(w, b, Locate(b, txId).value)
  {
    hide X.ExecutionEntryVerifies, R.ResolutionVerifies, ResolutionStands, X.LinkIsSound, Mandated, Locate, Ties;
    hide X.Applied, AmongRecords, FirstToExecute, X.OnlyExecution, Reconstruct, GovernanceSignerAt, SignedForAt;
    hide ReplacedApproved, GaveUp, R.HoldsResolution;
    if Locate(b, txId).Some? {
      var e := Locate(b, txId).value;
      X.ExecutionGathered(w, b, e);
      if b != [] && X.HoldsExecution(e) {
        var x := X.ExecutionOf(e);
        ResolutionVerdictIsExact(w, b, x.resolutionTx);
        HistoryIsRecords(b, e.height, x);
        OnlyIsFirst(b, e.tx.id, x);
        SignedForIs(b, e.height, e.tx.body.signer);
        if R.ResolutionVerifies(w, b, x.resolutionTx) && Locate(b, x.resolutionTx).Some? {
          var resolution := Locate(b, x.resolutionTx).value;
          StandingIsHeld(w, b, resolution);
          if X.AmendsTarget(resolution, x.target) { LinkIsExact(w, b, e, x, resolution); }
          TiedIsTarget(w, b, x, e, resolution);
        }
      }
    }
  }
}
