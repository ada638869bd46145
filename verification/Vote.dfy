/** The collective decision: a vote from draft to final record, and its verification from the ledger alone. */
module Vote {
  import opened Bytes
  import opened Ordering
  import opened Bornite
  import opened Evaluation
  import opened Merkle
  import opened Parts
  import opened Records
  import opened Ledger
  import opened Resolve

  datatype BallotRejection = WrongVote | NotInElectorate | Excluded | NoKey | BadSignature | AlreadyVoted

  datatype VoteError =
    | InvalidTransition(from: VoteStatus)
    | LedgerFailed(ledger: LedgerError)
    | ChannelFailed(resolve: ResolveError)
    | NotCollective(channel: Id)
    | BallotRefused(rejection: BallotRejection)
    | ChannelsMoved
    | InvalidFrozenInputs
    | EvaluationRefused(evaluation: EvaluationError)
    | ResultMismatch
    | VoteNotAppended

  datatype VoteStatus = Draft | Frozen | Open | Closed | Evaluated | Finalized

  /** The whole state of a vote. */
  datatype VoteState = VoteState(
    status: VoteStatus, company: Id, subject: string, proposalDigest: Digest,
    snapshot: Option<VoteSnapshot>, ballots: seq<SignedBallot>, evaluation: Option<Summary>,
    finalized: Option<(TxId, nat)>)

  /** `VoteV1::draft`. */
  function DraftVote(subject: string, proposalDigest: Digest): VoteState {
    VoteState(Draft, "", subject, proposalDigest, None, [], None, None)
  }

  // ---------------------------------------------------------------- frozen inputs

  function EntryId(e: ElectorateEntry): Id { e.id }

  function EntryOfActor(a: Actor): ElectorateEntry { ElectorateEntry(a.id, a.weight, false, a.key) }

  function FrozenElectorate(actors: seq<Actor>): (es: seq<ElectorateEntry>)
    ensures |es| == |actors|
  {
    seq(|actors|, i requires 0 <= i < |actors| => EntryOfActor(actors[i]))
  }

  /** What freezing through a channel pins. */
  function SnapshotOf(c: Company, at: nat, channel: Id, actors: seq<Actor>, subject: string,
      proposalDigest: Digest): VoteSnapshot {
    VoteSnapshot(c.company, subject, proposalDigest, at, c.genesisTx, c.shares.txId, c.channels.txId, c.persons.txId,
                 channel, FrozenElectorate(actors))
  }

  /** `VoteSnapshotV1::entry`. */
  function FrozenVoter(s: VoteSnapshot, id: Id): Option<ElectorateEntry> {
    match Search(Keys(EntryId, s.electorate), id)
    case None => None
    case Some(i) => Some(s.electorate[i])
  }

  /** `SignedBallotV1::check`: the first reason to refuse the ballot, in the fixed order. */
  function BallotRefusal(w: World, ballot: SignedBallot, s: VoteSnapshot): Option<BallotRejection> {
    if ballot.body.voteId != w.voteId(s) then Some(WrongVote)
    else match FrozenVoter(s, ballot.body.voter)
      case None => Some(NotInElectorate)
      case Some(entry) =>
        if entry.excluded then Some(Excluded)
        else match entry.key
          case None => Some(NoKey)
          case Some(key) =>
            if w.verifies(key, BallotStatement(ballot.body), ballot.signature) then None else Some(BadSignature)
  }

  function SignedVoter(b: SignedBallot): Id { b.body.voter }

  function SignedVoters(bs: seq<SignedBallot>): seq<Id> { Keys(SignedVoter, bs) }

  function Voters(es: seq<ElectorateEntry>): Option<seq<Voter>> {
    if forall e :: e in es ==> 1 <= e.weight <= U64_MAX
    then Some(seq(|es|, i requires 0 <= i < |es| => Voter(es[i].id, es[i].weight, es[i].excluded))) else None
  }

  function Cast(bs: seq<SignedBallot>): seq<Ballot> {
    seq(|bs|, i requires 0 <= i < |bs| => Ballot(bs[i].body.voter, bs[i].body.choice))
  }

  /** Bornite over the frozen electorate and the ballots. */
  function EvaluateFrozen(rules: Rules, s: VoteSnapshot, ballots: seq<SignedBallot>)
    : Result<VoteEvaluation, VoteError> {
    match Voters(s.electorate)
    case None => Err(InvalidFrozenInputs)
    case Some(voters) =>
      match NewElectorate(voters)
      case Err(_) => Err(InvalidFrozenInputs)
      case Ok(electorate) =>
        match NewBallotSet(Cast(ballots))
        case Err(_) => Err(InvalidFrozenInputs)
        case Ok(set_) =>
          match Evaluate(rules, electorate, set_)
          case Err(e) => Err(EvaluationRefused(e))
          case Ok(ev) => Ok(ev)
  }

  /** `EvaluationSummaryV1::of`. */
  function SummaryOf(ev: VoteEvaluation): Summary {
    Summary(ev.outcome, ev.reason, ev.voterCount, ev.excludedCount, ev.effectiveVoterCount, ev.totalWeight,
            ev.effectiveWeight, ev.ballotCount, ev.participatingWeight, ev.nonParticipantCount, ev.nonParticipantWeight,
            ev.tally,
            (match ev.requirement
             case NoRequirement => None
             case AbsoluteRequirement(weight) => Some(weight)
             case FractionRequirement(f, _, basis) => Some(RequiredWeight(f, basis))),
            ev.quorumMet, ev.denominatorWeight, ev.requiredFraction.numerator, ev.requiredFraction.denominator,
            ev.abstentionsAffected, ev.comparison, ev.thresholdMet)
  }

  /** The number a summary stores for the quorum says by itself whether the quorum was met. */
  lemma StoredQuorumDecides(rules: Rules, electorate: Electorate, bs: BallotSet)
    requires Evaluate(rules, electorate, bs).Ok?
    ensures var s := SummaryOf(Evaluate(rules, electorate, bs).value);
      && (s.quorumMet <==> s.quorumRequired.None? || s.participatingWeight >= s.quorumRequired.value)
      && (s.quorumRequired.Some? ==> s.quorumRequired.value <= U64_MAX)
  {
    CountConserves(rules, electorate, bs);
    var ev := Evaluate(rules, electorate, bs).value;
    if ev.requirement.FractionRequirement? {
      assert RuleIssues(rules) <= Issues(rules, electorate);
      RequiredWeightExact(ev.requirement.fraction, ev.requirement.basisWeight, ev.participatingWeight);
    }
  }

  /** `evaluate_now`: the rules are re-read from the pinned channel set. */
  function EvaluateNow(b: Blocks, s: VoteSnapshot, ballots: seq<SignedBallot>): Result<VoteEvaluation, VoteError>
    requires |b| > 0
  {
    match Reconstruct(b, s.height)
    case Err(e) => Err(LedgerFailed(e))
    case Ok(c) =>
      if c.channels.txId != s.channelsTx || c.company != s.company then Err(ChannelsMoved)
      else match ResolveChannel(c, s.channel)
        case Err(e) => Err(ChannelFailed(e))
        case Ok(resolved) =>
          match resolved.Rules()
          case None => Err(NotCollective(s.channel))
          case Some(rules) => EvaluateFrozen(rules, s, ballots)
  }

  // ---------------------------------------------------------------- transitions

  /** `freeze`. */
  function FreezeVote(v: VoteState, b: Blocks, at: nat, channel: Id): Result<VoteState, VoteError>
    requires |b| > 0
  {
    if v.status != Draft then Err(InvalidTransition(v.status)) else
    match Reconstruct(b, at)
    case Err(e) => Err(LedgerFailed(e))
    case Ok(c) =>
      match ResolveChannel(c, channel)
      case Err(e) => Err(ChannelFailed(e))
      case Ok(resolved) =>
        if resolved.Rules().None? then Err(NotCollective(channel)) else
          Ok(v.(status := Frozen, company := c.company,
                snapshot := Some(SnapshotOf(c, at, channel, resolved.actors, v.subject, v.proposalDigest))))
  }

  function OpenVote(v: VoteState): Result<VoteState, VoteError> {
    if v.status != Frozen then Err(InvalidTransition(v.status)) else Ok(v.(status := Open))
  }

  /** `cast`: the ballot's own checks, then one ballot a voter; ballots are kept in voter order. */
  function CastVote(w: World, v: VoteState, ballot: SignedBallot): Result<VoteState, VoteError>
    requires v.status.Open? ==> v.snapshot.Some?
  {
    if v.status != Open then Err(InvalidTransition(v.status)) else
    match BallotRefusal(w, ballot, v.snapshot.value)
    case Some(rejection) => Err(BallotRefused(rejection))
    case None =>
      if ballot.body.voter in SignedVoters(v.ballots) then Err(BallotRefused(AlreadyVoted))
      else Ok(v.(ballots := Insert(SignedVoter, v.ballots, ballot)))
  }

  function CloseVote(v: VoteState): Result<VoteState, VoteError> {
    if v.status != Open then Err(InvalidTransition(v.status)) else Ok(v.(status := Closed))
  }

  function CountVote(v: VoteState, b: Blocks): Result<VoteState, VoteError>
    requires |b| > 0 && (v.status.Closed? ==> v.snapshot.Some?)
  {
    if v.status != Closed then Err(InvalidTransition(v.status)) else
    match EvaluateNow(b, v.snapshot.value, v.ballots)
    case Err(e) => Err(e)
    case Ok(ev) => Ok(v.(status := Evaluated, evaluation := Some(SummaryOf(ev))))
  }

  const RECORD_VERSION: nat := 1

  function BallotDigests(w: World, ballots: seq<SignedBallot>): seq<Digest> {
    if ballots == [] then [] else BallotDigests(w, ballots[..|ballots| - 1]) + [w.ballotDigest(ballots[|ballots| - 1])]
  }

  /** `ballot_commitment`: Prunella's tree, in Irena's own domains. */
  function Commitment(w: World, ballots: seq<SignedBallot>): Digest {
    Root(w.hash, COMMITMENT_TAGS, BallotDigests(w, ballots))
  }

  lemma {:induction false} DigestAt(w: World, ballots: seq<SignedBallot>, i: nat)
    requires i < |ballots|
    ensures |BallotDigests(w, ballots)| == |ballots| && BallotDigests(w, ballots)[i] == w.ballotDigest(ballots[i])
  {
    var n := |ballots| - 1;
    if n == 0 { assert ballots[..n] == []; } else { DigestAt(w, ballots[..n], if i < n then i else 0); }
  }

  /** Two different ballots with one digest. */
  predicate SameDigest(w: World, a: SignedBallot, b: SignedBallot) { a != b && w.ballotDigest(a) == w.ballotDigest(b) }

  /** Every byte string hashed on the way to a commitment. */
  ghost function HashedFor(w: World, ballots: seq<SignedBallot>): set<seq<Byte>> {
    Preimages(w.hash, COMMITMENT_TAGS, BallotDigests(w, ballots))
  }

  /**
   The commitment binds the ballots: one commitment over two lists means one list, or two byte
   strings hashed in the tree collide, or two different ballots at one place digest alike.
   */
  lemma CommitmentBinds(w: World, s: seq<SignedBallot>, t: seq<SignedBallot>)
    requires Commitment(w, s) == Commitment(w, t)
    ensures s == t || CollisionIn(w.hash, HashedFor(w, s), HashedFor(w, t))
      || exists i :: 0 <= i < |s| && i < |t| && SameDigest(w, s[i], t[i])
  {
    hide BallotDigests, Root, Preimages;
    TagsSeparated();
    RootCommits(w.hash, COMMITMENT_TAGS, BallotDigests(w, s), BallotDigests(w, t));
    if BallotDigests(w, s) == BallotDigests(w, t) { DigestsBind(w, s, t); }
  }

  lemma DigestsBind(w: World, s: seq<SignedBallot>, t: seq<SignedBallot>)
    requires BallotDigests(w, s) == BallotDigests(w, t)
    ensures s == t || exists i :: 0 <= i < |s| && i < |t| && SameDigest(w, s[i], t[i])
  {
    hide BallotDigests;
    DigestCount(w, s);
    DigestCount(w, t);
    forall i | 0 <= i < |s| ensures w.ballotDigest(s[i]) == w.ballotDigest(t[i]) {
      DigestAt(w, s, i);
      DigestAt(w, t, i);
    }
    if s != t {
      var i :| 0 <= i < |s| && s[i] != t[i];
      assert SameDigest(w, s[i], t[i]);
    }
  }

  lemma DigestCount(w: World, ballots: seq<SignedBallot>)
    ensures |BallotDigests(w, ballots)| == |ballots|
  {
    if ballots != [] { DigestAt(w, ballots, 0); }
  }

  /** `FinalVoteRecordV1::assemble`. */
  function FinalRecord(w: World, snapshot: VoteSnapshot, ballots: seq<SignedBallot>, evaluation: Summary): VoteRecord {
    VoteRecord(RECORD_VERSION, w.voteId(snapshot), snapshot, Commitment(w, ballots), ballots, evaluation)
  }

  /** The transaction `finalize` writes. */
  function VoteTx(w: World, v: VoteState, key: PublicKey, height: nat): Tx
    requires v.snapshot.Some? && v.evaluation.Some?
  {
    Sealed(w, VoteNs, VotePayload(FinalRecord(w, v.snapshot.value, v.ballots, v.evaluation.value)), key, height)
  }

  /** `finalize`: recount, check the signer, write. The ledger changes only on success. */
  function FinalizeVote(w: World, v: VoteState, b: Blocks, key: PublicKey,
      works: bool): (r: (Result<VoteState, VoteError>, Blocks))
    requires |b| > 0 && (v.status.Evaluated? ==> v.snapshot.Some? && v.evaluation.Some?)
    ensures b <= r.1
  {
    if v.status != Evaluated then (Err(InvalidTransition(v.status)), b) else
    match EvaluateNow(b, v.snapshot.value, v.ballots)
    case Err(e) => (Err(e), b)
    case Ok(ev) =>
      if Some(SummaryOf(ev)) != v.evaluation then (Err(ResultMismatch), b) else
      match CompanyNow(b)
      case Err(e) => (Err(LedgerFailed(e)), b)
      case Ok(c) =>
        if !MaySign(c, GovernanceFamily, key)
          then (Err(LedgerFailed(UnauthorisedSigner(GovernanceFamily, key))), b) else
          var tx := VoteTx(w, v, key, |b|);
          if works && Locate(b, tx.id).None?
          then (Ok(v.(status := Finalized, finalized := Some((tx.id, |b|)))), b + [[tx]])
          else (Err(VoteNotAppended), b)
  }

  // ---------------------------------------------------------------- verification

  datatype VoteCheck =
    | Decodes | VoteIdDerives | SnapshotPrecedesRecord | RecordsResolve | SignerAuthorised | ChannelIsCollective
    | ElectorateDerives | BallotsVerify | BallotsOrdered | CommitmentDerives | ResultReproduces

  predicate HoldsVote(e: Entry) {
    e.tx.body.ns == VoteNs && e.tx.body.payload.VotePayload? && e.tx.body.payload.vote.version == RECORD_VERSION
  }

  /** The founding record, register, channel set and identities in force are the pinned ones. */
  predicate VotePinsHold(c: Company, s: VoteSnapshot) {
    && c.company == s.company && c.genesisTx == s.genesisTx && c.shares.txId == s.sharesTx
    && c.channels.txId == s.channelsTx && c.persons.txId == s.identitiesTx
  }

  predicate VoteRecordsResolve(b: Blocks, s: VoteSnapshot)
    requires |b| > 0
  {
    Reconstruct(b, s.height).Ok? && VotePinsHold(Reconstruct(b, s.height).value, s)
  }

  /** The rules of the pinned channel, if it resolves and is collective. */
  function PinnedRules(b: Blocks, s: VoteSnapshot): Option<(Rules, seq<Actor>)>
    requires |b| > 0
  {
    RulesAt(b, s.height, s.channel)
  }

  /** The rules and the people of a channel as it stood at a height, if it resolves and is collective. */
  function RulesAt(b: Blocks, at: nat, channel: Id): Option<(Rules, seq<Actor>)>
    requires |b| > 0
  {
    match Reconstruct(b, at)
    case Err(_) => None
    case Ok(c) =>
      match ResolveChannel(c, channel)
      case Err(_) => None
      case Ok(resolved) =>
        match resolved.Rules()
        case None => None
        case Some(rules) => Some((rules, resolved.actors))
  }

  predicate Reproduces(rules: Rules, record: VoteRecord) {
    var rerun := EvaluateFrozen(rules, record.snapshot, record.ballots);
    rerun.Ok? && SummaryOf(rerun.value) == record.evaluation
  }

  /** What each check of the verifier means. */
  predicate VoteCheckHolds(w: World, b: Blocks, e: Entry, check: VoteCheck) {
    b != [] && HoldsVote(e) &&
    var record := e.tx.body.payload.vote;
    var s := record.snapshot;
    match check
    case Decodes => true
    case VoteIdDerives => w.voteId(s) == record.voteId
    case SnapshotPrecedesRecord => s.height < e.height
    case RecordsResolve => VoteRecordsResolve(b, s)
    case SignerAuthorised => GovernanceSignerAt(b, e.height, e.tx.body.signer)
    case ChannelIsCollective => PinnedRules(b, s).Some?
    case ElectorateDerives => PinnedRules(b, s).Some? && FrozenElectorate(PinnedRules(b, s).value.1) == s.electorate
    case BallotsVerify => AllBallotsVerify(w, record.ballots, s)
    case BallotsOrdered => BallotsOrderly(record.ballots)
    case CommitmentDerives => Commitment(w, record.ballots) == record.commitment
    case ResultReproduces => PinnedRules(b, s).Some? && Reproduces(PinnedRules(b, s).value.0, record)
  }

  predicate AllBallotsVerify(w: World, ballots: seq<SignedBallot>, s: VoteSnapshot) {
    forall i :: 0 <= i < |ballots| ==> BallotRefusal(w, ballots[i], s).None?
  }

  /** `ballots_are_sorted`: each before the next. */
  predicate BallotsOrderly(ballots: seq<SignedBallot>) {
    forall i :: 0 <= i < |ballots| - 1 ==> Before(ballots[i].body.voter, ballots[i + 1].body.voter)
  }

  ghost function VoteChecks(w: World, b: Blocks, e: Entry): VoteCheck -> bool {
    (check: VoteCheck) => VoteCheckHolds(w, b, e, check)
  }

  /** The record at an entry passes every check. */
  ghost predicate VoteEntryVerifies(w: World, b: Blocks, e: Entry) {
    forall check :: VoteChecks(w, b, e)(check)
  }

  /** The record a transaction carries passes every check. */
  ghost predicate VoteVerifies(w: World, b: Blocks, txId: TxId) {
    Locate(b, txId).Some? && VoteEntryVerifies(w, b, Locate(b, txId).value)
  }

  /**
   `verify`: pushes its checks in order and stops where nothing further can be read. `None` means
   no such transaction. Every check reported is reported as it is, and the report is valid
   exactly when all eleven checks hold.
   */
  method VerifyVote(w: World, b: Blocks, txId: TxId) returns (r: Option<seq<Check<VoteCheck>>>)
    requires |b| > 0
    ensures r.None? <==> Locate(b, txId).None?
    ensures r.Some? ==> Exact(VoteChecks(w, b, Locate(b, txId).value), r.value)
    ensures r.Some? ==> (IsValid(r.value) <==> VoteVerifies(w, b, txId))
  {
    hide Reconstruct, ResolveChannel, EvaluateFrozen, BallotRefusal, MaySign, Commitment, SummaryOf, Locate;
    hide IsValid, Exact, Reported;
    var located := Locate(b, txId);
    if located.None? { return None; }
    var e := located.value;
    ghost var holds := VoteChecks(w, b, e);
    NothingReported(holds);
    var report: seq<Check<VoteCheck>> := Push(holds, [], Decodes, HoldsVote(e));
    if HoldsVote(e) { report := VerifyHeldVote(w, b, e, report); }
    ReportDecides(holds, report);
    r := Some(report);
  }

  method PinsResolve(b: Blocks, s: VoteSnapshot) returns (ok: bool)
    requires |b| > 0
    ensures ok == VoteRecordsResolve(b, s)
  {
    var company := ReconstructAt(b, s.height);
    ok := company.Ok? && VotePinsHold(company.value, s);
  }

  method CheckEachBallot(w: World, ballots: seq<SignedBallot>, s: VoteSnapshot) returns (ok: bool)
    ensures ok == AllBallotsVerify(w, ballots, s)
  {
    var bad := 0;
    for i := 0 to |ballots|
      invariant bad == 0 <==> forall k :: 0 <= k < i ==> BallotRefusal(w, ballots[k], s).None?
    {
      if BallotRefusal(w, ballots[i], s).Some? { bad := bad + 1; }
    }
    ok := bad == 0;
  }

  lemma VoteCheckMeanings(w: World, b: Blocks, e: Entry)
    requires b != [] && HoldsVote(e)
    ensures var record, holds := e.tx.body.payload.vote, VoteChecks(w, b, e);
      var s := record.snapshot;
      var rules := PinnedRules(b, s);
      && holds(VoteIdDerives) == (w.voteId(s) == record.voteId)
      && holds(SnapshotPrecedesRecord) == (s.height < e.height)
      && holds(RecordsResolve) == VoteRecordsResolve(b, s)
      && holds(SignerAuthorised) == GovernanceSignerAt(b, e.height, e.tx.body.signer)
      && holds(ChannelIsCollective) == rules.Some?
      && holds(ElectorateDerives) == (rules.Some? && FrozenElectorate(rules.value.1) == s.electorate)
      && holds(BallotsVerify) == AllBallotsVerify(w, record.ballots, s)
      && holds(BallotsOrdered) == BallotsOrderly(record.ballots)
      && holds(CommitmentDerives) == (Commitment(w, record.ballots) == record.commitment)
      && holds(ResultReproduces) == (rules.Some? && Reproduces(rules.value.0, record))
  {
    hide VoteRecordsResolve, PinnedRules, Reproduces, AllBallotsVerify, BallotsOrderly, FrozenElectorate;
    hide GovernanceSignerAt, Commitment;
  }

  /** The checks on a transaction that does hold a vote record. */
  method VerifyHeldVote(w: World, b: Blocks, e: Entry,
      decoded: seq<Check<VoteCheck>>) returns (report: seq<Check<VoteCheck>>)
    requires |b| > 0 && HoldsVote(e) && Exact(VoteChecks(w, b, e), decoded) && Decodes in Reported(decoded)
    ensures Exact(VoteChecks(w, b, e), report) && report != []
    ensures (forall check :: check in Reported(report)) || !IsValid(report)
  {
    hide VoteRecordsResolve, PinnedRules, Reproduces, AllBallotsVerify, BallotsOrderly, FrozenElectorate;
    hide GovernanceSignerAt;
    hide Commitment, IsValid, Exact, Reported, VoteCheckHolds, VoteChecks;
    VoteCheckMeanings(w, b, e);
    ghost var holds := VoteChecks(w, b, e);
    var record := e.tx.body.payload.vote;
    var s := record.snapshot;
    report := Push(holds, decoded, VoteIdDerives, w.voteId(s) == record.voteId);
    report := Push(holds, report, SnapshotPrecedesRecord, s.height < e.height);
    var resolves := PinsResolve(b, s);
    report := Push(holds, report, RecordsResolve, resolves);
    if !resolves { return; }
    report := Push(holds, report, SignerAuthorised, GovernanceSignerAt(b, e.height, e.tx.body.signer));
    var rules := PinnedRules(b, s);
    report := Push(holds, report, ChannelIsCollective, rules.Some?);
    if rules.Some? {
      report := Push(holds, report, ElectorateDerives, FrozenElectorate(rules.value.1) == s.electorate);
    }
    var verified := CheckEachBallot(w, record.ballots, s);
    report := Push(holds, report, BallotsVerify, verified);
    report := Push(holds, report, BallotsOrdered, BallotsOrderly(record.ballots));
    report := Push(holds, report, CommitmentDerives, Commitment(w, record.ballots) == record.commitment);
    if rules.None? { return; }
    report := Push(holds, report, ResultReproduces, Reproduces(rules.value.0, record));
    forall check: VoteCheck ensures check in Reported(report) {
      match check case Decodes => case VoteIdDerives => case SnapshotPrecedesRecord => case RecordsResolve =>
      case SignerAuthorised => case ChannelIsCollective => case ElectorateDerives => case BallotsVerify =>
      case BallotsOrdered => case CommitmentDerives => case ResultReproduces =>
    }
  }

  // ---------------------------------------------------------------- verdicts are permanent

  lemma PinnedInputsStay(b: Blocks, b': Blocks, s: VoteSnapshot)
    requires b <= b' && s.height < |b|
    ensures VoteRecordsResolve(b', s) == VoteRecordsResolve(b, s)
    ensures PinnedRules(b', s) == PinnedRules(b, s)
    ensures forall ballots :: EvaluateNow(b', s, ballots) == EvaluateNow(b, s, ballots)
  {
    PastIsFixed(b, b', s.height);
  }

  lemma VoteEntryStays(w: World, b: Blocks, b': Blocks, e: Entry)
    requires b <= b' && |b| > 0 && e.height < |b|
    ensures VoteEntryVerifies(w, b', e) <==> VoteEntryVerifies(w, b, e)
  {
    hide Reconstruct, ResolveChannel, EvaluateFrozen, BallotRefusal, MaySign, Commitment, SummaryOf;
    var before, after := VoteChecks(w, b, e), VoteChecks(w, b', e);
    assert before(SnapshotPrecedesRecord) == after(SnapshotPrecedesRecord);
    if before(SnapshotPrecedesRecord) {
      PinnedInputsStay(b, b', e.tx.body.payload.vote.snapshot);
      GovernanceSignerStays(b, b', e.height, e.tx.body.signer);
      forall check ensures after(check) == before(check) { }
    }
  }

  /** The verdict on a vote, once it is on the ledger, never changes, whatever is appended. */
  lemma VoteVerdictIsPermanent(w: World, b: Blocks, b': Blocks, txId: TxId)
    requires b <= b' && Locate(b, txId).Some?
    ensures VoteVerifies(w, b', txId) <==> VoteVerifies(w, b, txId)
    ensures Locate(b', txId) == Locate(b, txId)
  {
    hide VoteEntryVerifies;
    LocateStays(b, b', txId);
    VoteEntryStays(w, b, b', Locate(b, txId).value);
  }

  // ---------------------------------------------------------------- what the lifecycle writes, the verifier accepts

  predicate Formed(v: VoteState) {
    && (v.status != Draft ==> v.snapshot.Some?)
    && (v.status in {Evaluated, Finalized} ==> v.evaluation.Some?)
    && (v.status == Finalized <==> v.finalized.Some?)
  }

  /** Every ballot held is good under the frozen snapshot, and they are in voter order, one a voter. */
  ghost predicate BallotsSound(w: World, v: VoteState) {
    && Formed(v) && Strict(SignedVoters(v.ballots))
    && (v.status == Draft ==> v.ballots == [])
    && (v.status != Draft ==> AllBallotsVerify(w, v.ballots, v.snapshot.value))
  }

  /** The snapshot is what freezing at its height, on this ledger, would pin. */
  predicate Refreezes(b: Blocks, s: VoteSnapshot) {
    s.height < |b| && Reconstruct(b, s.height).Ok? && PinnedRules(b, s).Some? &&
    s == SnapshotOf(Reconstruct(b, s.height).value, s.height, s.channel, PinnedRules(b, s).value.1, s.subject,
        s.proposalDigest)
  }

  lemma RefreezesStays(b: Blocks, b': Blocks, s: VoteSnapshot)
    requires b <= b' && Refreezes(b, s)
    ensures Refreezes(b', s)
  {
    PastIsFixed(b, b', s.height);
  }

  lemma FrozenRefreezes(v: VoteState, b: Blocks, at: nat, channel: Id)
    requires |b| > 0 && at < |b| && FreezeVote(v, b, at, channel).Ok?
    ensures Refreezes(b, FreezeVote(v, b, at, channel).value.snapshot.value)
  {
    hide Reconstruct, ResolveChannel;
  }

  /** Inserting a ballot the set does not hold keeps it ordered and keeps every other ballot. */
  lemma CastKeepsOrder(ballots: seq<SignedBallot>, ballot: SignedBallot)
    requires Strict(SignedVoters(ballots)) && ballot.body.voter !in SignedVoters(ballots)
    ensures Strict(SignedVoters(Insert(SignedVoter, ballots, ballot)))
    ensures multiset(Insert(SignedVoter, ballots, ballot)) == multiset(ballots) + multiset{ballot}
  {
    InsertPermutes(SignedVoter, ballots, ballot);
    forall y | y in ballots ensures SignedVoter(y) != ballot.body.voter {
      var k :| 0 <= k < |ballots| && ballots[k] == y;
      assert SignedVoters(ballots)[k] == SignedVoter(y);
    }
    InsertStrict(SignedVoter, ballots, ballot);
  }

  // ---------------------------------------------------------------- runs

  /** What can happen to a vote, and to the ledger between its steps. */
  datatype VoteEvent =
    | LedgerGrows(more: Blocks)
    | Opening
    | Casting(ballot: SignedBallot)
    | Closing
    | Counting
    | Finalising(key: PublicKey, works: bool)

  function KeptVote(v: VoteState, r: Result<VoteState, VoteError>): VoteState { if r.Ok? then r.value else v }

  /** One event; a refused operation leaves the vote as it was. */
  function VoteNext(w: World, v: VoteState, b: Blocks, event: VoteEvent): (r: (VoteState, Blocks))
    requires |b| > 0 && Formed(v)
    ensures b <= r.1 && Formed(r.0)
  {
    match event
    case LedgerGrows(more) => (v, b + more)
    case Opening => (KeptVote(v, OpenVote(v)), b)
    case Casting(ballot) => (KeptVote(v, CastVote(w, v, ballot)), b)
    case Closing => (KeptVote(v, CloseVote(v)), b)
    case Counting => (KeptVote(v, CountVote(v, b)), b)
    case Finalising(key, works) => var (r, b') := FinalizeVote(w, v, b, key, works); (KeptVote(v, r), b')
  }

  function VoteRun(w: World, v: VoteState, b: Blocks, events: seq<VoteEvent>): (r: (VoteState, Blocks))
    requires |b| > 0 && Formed(v)
    ensures b <= r.1 && Formed(r.0)
    decreases |events|
  {
    if events == [] then (v, b) else
      var (v', b') := VoteNext(w, v, b, events[0]);
      VoteRun(w, v', b', events[1..])
  }

  lemma CastKeepsSound(w: World, v: VoteState, ballot: SignedBallot)
    requires BallotsSound(w, v) && CastVote(w, v, ballot).Ok?
    ensures BallotsSound(w, CastVote(w, v, ballot).value)
  {
    hide BallotRefusal, Insert;
    CastKeepsOrder(v.ballots, ballot);
    var after := CastVote(w, v, ballot).value.ballots;
    forall i | 0 <= i < |after| ensures BallotRefusal(w, after[i], v.snapshot.value).None? {
      assert after[i] in multiset(v.ballots) + multiset{ballot};
      if after[i] != ballot { var k :| 0 <= k < |v.ballots| && v.ballots[k] == after[i]; }
    }
  }

  /** Given inputs from below the record, only what was pinned can still be wrong. */
  lemma FinalizedChecks(w: World, v: VoteState, b: Blocks, key: PublicKey, works: bool)
    requires |b| > 0 && BallotsSound(w, v) && FinalizeVote(w, v, b, key, works).0.Ok?
    requires v.snapshot.value.height < |b|
    ensures var tx, s := VoteTx(w, v, key, |b|), v.snapshot.value;
      var holds := VoteChecks(w, b + [[tx]], Entry(|b|, 0, tx));
      && PinnedRules(b, s).Some?
      && (forall check: VoteCheck :: check != RecordsResolve && check != ElectorateDerives ==> holds(check))
      && holds(RecordsResolve) == VoteRecordsResolve(b, s)
      && holds(ElectorateDerives) == (FrozenElectorate(PinnedRules(b, s).value.1) == s.electorate)
  {
    hide Reconstruct, ResolveChannel, EvaluateFrozen, BallotRefusal, MaySign, Commitment, SummaryOf, Strict;
    hide Locate, Before;
    var tx, s := VoteTx(w, v, key, |b|), v.snapshot.value;
    GovernanceSignerAfter(b, tx, key);
    AdjacentDecides(SignedVoters(v.ballots));
    PinnedInputsStay(b, b + [[tx]], s);
  }

  lemma PinnedOrNot(b: Blocks, s: VoteSnapshot)
    requires s.height < |b| && PinnedRules(b, s).Some?
    ensures Refreezes(b, s) <==> VoteRecordsResolve(b, s) && FrozenElectorate(PinnedRules(b, s).value.1) == s.electorate
  {
    hide Reconstruct, ResolveChannel;
  }

  /** The snapshot is what some draft was frozen to on that ledger, through that channel. */
  predicate FrozenOn(b: Blocks, draft: VoteState, channel: Id, s: VoteSnapshot) {
    && b != [] && FreezeVote(draft, b, s.height, channel).Ok?
    && FreezeVote(draft, b, s.height, channel).value.snapshot == Some(s)
  }

  /** A snapshot frozen at a height not above the head is what every extension holds there. */
  lemma FrozenBelowRefreezes(b: Blocks, b': Blocks, draft: VoteState, channel: Id, s: VoteSnapshot)
    requires b <= b' && FrozenOn(b, draft, channel, s) && s.height < |b|
    ensures Refreezes(b', s)
  {
    hide FreezeVote, Refreezes;
    FrozenRefreezes(draft, b, s.height, channel);
    RefreezesStays(b, b', s);
  }

  /**
   A finalised vote verifies exactly when its snapshot is what the ledger holds at its height:
   every other check is guaranteed by the lifecycle. Only a vote frozen above the head can miss
   the condition.
   */
  lemma FinalizedVoteVerifies(w: World, v: VoteState, b: Blocks, key: PublicKey, works: bool)
    requires |b| > 0 && BallotsSound(w, v) && FinalizeVote(w, v, b, key, works).0.Ok?
    ensures var (r, b') := FinalizeVote(w, v, b, key, works); var tx := VoteTx(w, v, key, |b|);
      && r.value.finalized == Some((tx.id, |b|)) && b' == b + [[tx]]
      && Locate(b', tx.id) == Some(Entry(|b|, 0, tx))
      && (VoteVerifies(w, b', tx.id) <==> Refreezes(b, v.snapshot.value))
      && forall earlier: Blocks, draft: VoteState, channel: Id ::
           earlier <= b && FrozenOn(earlier, draft, channel, v.snapshot.value) && v.snapshot.value.height < |earlier|
           ==> VoteVerifies(w, b', tx.id)
  {
    hide EvaluateNow, BallotsSound, MaySign, CompanyNow, VoteRecordsResolve, PinnedRules, Locate, Reproduces;
    hide FrozenElectorate, Refreezes, FrozenOn;
    hide Commitment, BallotsOrderly, AllBallotsVerify, GovernanceSignerAt;
    SoundIsFormed(w, v);
    var tx := VoteTx(w, v, key, |b|);
    var b', s := b + [[tx]], v.snapshot.value;
    AppendedIsLocated(b, tx);
    var holds := VoteChecks(w, b', Entry(|b|, 0, tx));
    assert holds(SnapshotPrecedesRecord) == (s.height < |b|);
    if s.height < |b| {
      FinalizedChecks(w, v, b, key, works);
      PinnedOrNot(b, s);
    } else {
      NotRefrozen(b, s);
    }
    forall earlier: Blocks, draft: VoteState, channel: Id | earlier <= b && FrozenOn(earlier, draft, channel, s)
      && s.height < |earlier|
      ensures Refreezes(b, s)
    {
      FrozenBelowRefreezes(earlier, b, draft, channel, s);
    }
  }

  lemma NotRefrozen(b: Blocks, s: VoteSnapshot)
    ensures Refreezes(b, s) ==> s.height < |b|
  {
  }

  /** What a run keeps: sound ballots over a snapshot of the past, and a final record that verifies. */
  ghost predicate VoteInvariant(w: World, v: VoteState, b: Blocks) {
    && |b| > 0 && BallotsSound(w, v) && v.status != Draft
    && Refreezes(b, v.snapshot.value)
    && (v.status == Finalized ==> VoteFiled(w, v, b))
  }

  /** The vote's final record is on the ledger, where the vote says it is, and verifies. */
  ghost predicate VoteFiled(w: World, v: VoteState, b: Blocks)
    requires Formed(v) && v.status == Finalized
  {
    var (txId, height) := v.finalized.value;
    && Locate(b, txId).Some? && Locate(b, txId).value.height == height && VoteVerifies(w, b, txId)
    && Locate(b, txId).value.tx.body.payload
         == VotePayload(FinalRecord(w, v.snapshot.value, v.ballots, v.evaluation.value))
  }

  lemma VoteInvariantGrows(w: World, v: VoteState, b: Blocks, b': Blocks)
    requires b <= b' && VoteInvariant(w, v, b)
    ensures VoteInvariant(w, v, b')
  {
    hide VoteVerifies, Locate, Refreezes, BallotsSound, FinalRecord;
    SoundIsFormed(w, v);
    RefreezesStays(b, b', v.snapshot.value);
    if v.status == Finalized { VoteVerdictIsPermanent(w, b, b', v.finalized.value.0); }
  }

  lemma SoundIsFormed(w: World, v: VoteState)
    requires BallotsSound(w, v)
    ensures Formed(v)
  {
  }

  lemma VoteStepKeeps(w: World, v: VoteState, b: Blocks, event: VoteEvent)
    requires VoteInvariant(w, v, b)
    ensures var (v', b') := VoteNext(w, v, b, event); VoteInvariant(w, v', b') && v'.snapshot == v.snapshot
  {
    hide VoteVerifies, Locate, Refreezes, EvaluateNow, MaySign, CompanyNow, AllBallotsVerify, Insert;
    hide SignedVoters, Strict, BallotRefusal, FinalRecord;
    match event {
      case LedgerGrows(more) => VoteInvariantGrows(w, v, b, b + more);
      case Casting(ballot) => if CastVote(w, v, ballot).Ok? { CastKeepsSound(w, v, ballot); }
      case Finalising(key, works) =>
        if FinalizeVote(w, v, b, key, works).0.Ok? {
          FinalizedVoteVerifies(w, v, b, key, works);
          RefreezesStays(b, b + [[VoteTx(w, v, key, |b|)]], v.snapshot.value);
        }
      case Opening => case Closing => case Counting =>
    }
  }

  lemma {:induction false} VoteRunKeeps(w: World, v: VoteState, b: Blocks, events: seq<VoteEvent>)
    requires VoteInvariant(w, v, b)
    ensures var (v', b') := VoteRun(w, v, b, events); VoteInvariant(w, v', b') && v'.snapshot == v.snapshot
    decreases |events|
  {
    hide VoteNext, VoteInvariant;
    VoteInvariantIsFormed(w, v, b);
    if events == [] {
    } else {
      var (v', b') := VoteNext(w, v, b, events[0]);
      VoteStepKeeps(w, v, b, events[0]);
      VoteRunKeeps(w, v', b', events[1..]);
    }
  }

  lemma VoteInvariantIsFormed(w: World, v: VoteState, b: Blocks)
    requires VoteInvariant(w, v, b)
    ensures |b| > 0 && Formed(v)
  {
  }

  /**
   What the lifecycle writes, the verifier accepts for ever: a vote frozen at a height not above
   the head, then any attempts in any order with any blocks between them, and once it is
   finalised its record carries what the vote holds and passes all eleven checks on the ledger
   it is on and on every extension.
   */
  lemma VoteRoundTrip(w: World, subject: string, proposalDigest: Digest, b: Blocks, at: nat,
      channel: Id, events: seq<VoteEvent>, later: Blocks)
    requires at < |b| && FreezeVote(DraftVote(subject, proposalDigest), b, at, channel).Ok?
    requires var frozen := FreezeVote(DraftVote(subject, proposalDigest), b, at, channel).value;
      var (v, b') := VoteRun(w, frozen, b, events);
      v.status == Finalized && b' <= later
    ensures var frozen := FreezeVote(DraftVote(subject, proposalDigest), b, at, channel).value;
      var (v, b') := VoteRun(w, frozen, b, events);
      && VoteVerifies(w, later, v.finalized.value.0)
      && Locate(later, v.finalized.value.0).value.tx.body.payload
         == VotePayload(FinalRecord(w, frozen.snapshot.value, v.ballots, v.evaluation.value))
  {
    hide Refreezes, VoteVerifies, Reconstruct, ResolveChannel, Locate, VoteRun, FinalRecord;
    var draft := DraftVote(subject, proposalDigest);
    var frozen := FreezeVote(draft, b, at, channel).value;
    FrozenRefreezes(draft, b, at, channel);
    VoteRunKeeps(w, frozen, b, events);
    var (v, b') := VoteRun(w, frozen, b, events);
    VoteInvariantGrows(w, v, b', later);
  }

  // ---------------------------------------------------------------- the vote as an object

  /** `VoteV1`: each operation moves the fields as its transition says, and a refusal moves nothing. */
  class Vote {
    var status: VoteStatus
    var company: Id
    var subject: string
    var proposalDigest: Digest
    var snapshot: Option<VoteSnapshot>
    var ballots: seq<SignedBallot>
    var evaluation: Option<Summary>
    var finalized: Option<(TxId, nat)>

    function State(): VoteState
      reads this
    {
      VoteState(status, company, subject, proposalDigest, snapshot, ballots, evaluation, finalized)
    }

    ghost predicate Valid()
      reads this
    {
      Formed(State())
    }

    /** A vote held elsewhere as a value, taken up again. */
    constructor From(v: VoteState)
      requires Formed(v)
      ensures Valid() && State() == v
    {
      status, company, subject, proposalDigest := v.status, v.company, v.subject, v.proposalDigest;
      snapshot, ballots, evaluation, finalized := v.snapshot, v.ballots, v.evaluation, v.finalized;
    }

    constructor Draft(subject: string, proposalDigest: Digest)
      ensures Valid() && State() == DraftVote(subject, proposalDigest)
    {
      status, company, this.subject, this.proposalDigest := VoteStatus.Draft, "", subject, proposalDigest;
      snapshot, ballots, evaluation, finalized := None, [], None, None;
    }

    method Freeze(store: Store, at: nat, channel: Id) returns (r: Result<VoteSnapshot, VoteError>)
      requires Valid() && store.Valid()
      modifies this
      ensures Valid()
      ensures match FreezeVote(old(State()), store.blocks, at, channel)
        case Ok(next) => State() == next && r == Ok(next.snapshot.value)
        case Err(e) => State() == old(State()) && r == Err(e)
    {
      hide Reconstruct, ResolveChannel;
      if status != VoteStatus.Draft { return Err(InvalidTransition(status)); }
      var company' := ReconstructAt(store.blocks, at);
      if company'.Err? { return Err(LedgerFailed(company'.error)); }
      var c := company'.value;
      var resolved := ResolveChannel(c, channel);
      if resolved.Err? { return Err(ChannelFailed(resolved.error)); }
      if resolved.value.Rules().None? { return Err(NotCollective(channel)); }
      company := c.company;
      var electorate: seq<ElectorateEntry> := FrozenElectorate(resolved.value.actors);
      snapshot := Some(VoteSnapshot(company, subject, proposalDigest, at, c.genesisTx, c.shares.txId, c.channels.txId,
                                    c.persons.txId, channel, electorate));
      status := Frozen;
      r := Ok(snapshot.value);
    }

    method Open() returns (r: Result<(), VoteError>)
      requires Valid()
      modifies this`status
      ensures Valid()
      ensures match OpenVote(old(State()))
        case Ok(next) => State() == next && r == Ok(())
        case Err(e) => State() == old(State()) && r == Err(e)
    {
      if status != Frozen { return Err(InvalidTransition(status)); }
      status := VoteStatus.Open;
      r := Ok(());
    }

    method Cast(w: World, ballot: SignedBallot) returns (r: Result<(), VoteError>)
      requires Valid()
      modifies this`ballots
      ensures Valid()
      ensures match CastVote(w, old(State()), ballot)
        case Ok(next) => State() == next && r == Ok(())
        case Err(e) => State() == old(State()) && r == Err(e)
    {
      hide BallotRefusal, Insert;
      if status != VoteStatus.Open { return Err(InvalidTransition(status)); }
      var refusal := BallotRefusal(w, ballot, snapshot.value);
      if refusal.Some? { return Err(BallotRefused(refusal.value)); }
      if ballot.body.voter in SignedVoters(ballots) { return Err(BallotRefused(AlreadyVoted)); }
      ballots := Insert(SignedVoter, ballots, ballot);
      r := Ok(());
    }

    method Close() returns (r: Result<(), VoteError>)
      requires Valid()
      modifies this`status
      ensures Valid()
      ensures match CloseVote(old(State()))
        case Ok(next) => State() == next && r == Ok(())
        case Err(e) => State() == old(State()) && r == Err(e)
    {
      if status != VoteStatus.Open { return Err(InvalidTransition(status)); }
      status := Closed;
      r := Ok(());
    }

    method Count(store: Store) returns (r: Result<Summary, VoteError>)
      requires Valid() && store.Valid()
      modifies this`status, this`evaluation
      ensures Valid()
      ensures match CountVote(old(State()), store.blocks)
        case Ok(next) => State() == next && r == Ok(next.evaluation.value)
        case Err(e) => State() == old(State()) && r == Err(e)
    {
      hide EvaluateNow, SummaryOf;
      if status != Closed { return Err(InvalidTransition(status)); }
      var counted := EvaluateNow(store.blocks, snapshot.value, ballots);
      if counted.Err? { return Err(counted.error); }
      evaluation := Some(SummaryOf(counted.value));
      status := Evaluated;
      r := Ok(evaluation.value);
    }

    method Finalize(w: World, store: Store, key: PublicKey) returns (r: Result<(TxId, nat), VoteError>)
      requires Valid() && store.Valid()
      modifies this`status, this`finalized, store
      ensures Valid() && store.Valid()
      ensures var (result, blocks) := FinalizeVote(w, old(State()), old(store.blocks), key, Says(old(store.answers)));
        && store.blocks == blocks
        && match result
           case Ok(next) => State() == next && r == Ok(next.finalized.value)
           case Err(e) => State() == old(State()) && r == Err(e)
      ensures store.answers == if r.Ok? || r.error.VoteNotAppended? then After(old(store.answers))
        else old(store.answers)
    {
      hide EvaluateNow, SummaryOf, Reconstruct, MaySign, FinalRecord;
      if status != Evaluated { return Err(InvalidTransition(status)); }
      var counted := EvaluateNow(store.blocks, snapshot.value, ballots);
      if counted.Err? {
        CountingNeverAppends(store.blocks, snapshot.value, ballots);
        return Err(counted.error);
      }
      if Some(SummaryOf(counted.value)) != evaluation { return Err(ResultMismatch); }
      var company := ReconstructAt(store.blocks, |store.blocks| - 1);
      if company.Err? { return Err(LedgerFailed(company.error)); }
      if !MaySign(company.value, GovernanceFamily, key) {
        return Err(LedgerFailed(UnauthorisedSigner(GovernanceFamily, key)));
      }
      var appended := store.Append(VoteTx(w, State(), key, |store.blocks|));
      if appended.Refused? { return Err(VoteNotAppended); }
      finalized := Some((appended.txId, appended.height));
      status := Finalized;
      r := Ok(finalized.value);
    }
  }

  lemma CountingNeverAppends(b: Blocks, s: VoteSnapshot, ballots: seq<SignedBallot>)
    requires |b| > 0 && EvaluateNow(b, s, ballots).Err?
    ensures !EvaluateNow(b, s, ballots).error.VoteNotAppended?
  {
    hide Reconstruct, ResolveChannel, NewElectorate, NewBallotSet, Evaluate, Voters;
  }
}
