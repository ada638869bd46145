/** The resolution: an approved proposal put on the ledger, and its verification from the ledger alone. */
module Resolution {
  import opened Ordering
  import opened Parts
  import opened Records
  import opened Text
  import opened Ledger
  import opened Resolve
  import opened Approvals
  import V = Vote
  import D = Decision
  import M = Meeting

  /** An execution as the resolution remembers it. */
  datatype Executed = Executed(amendmentTx: TxId, amendmentHeight: nat, executionTx: TxId, executionHeight: nat,
      replacedTx: TxId)

  /** The whole state of a resolution. */
  datatype ResolutionState = ResolutionState(
    status: ResolutionStatus, company: Id, title: string, authority: Authority, kind: ResolutionKind,
    finalized: Option<(TxId, nat)>, executed: Option<Executed>)

  function DraftResolution(title: string, authority: Authority, kind: ResolutionKind): ResolutionState {
    ResolutionState(Draft, "", title, authority, kind, None, None)
  }

  predicate Formed(r: ResolutionState) { r.status != Draft ==> r.finalized.Some? }

  // ---------------------------------------------------------------- finalising

  /** What the record carries: an amendment's body is embedded normalised. */
  function Recorded(kind: ResolutionKind): ResolutionKind {
    match kind
    case Declarative(_) => kind
    case Amendment(target, body) => Amendment(target, Normalise(body))
  }

  /** A body that reads as the document its target calls for. */
  predicate Readable(w: World, kind: ResolutionKind) {
    match kind
    case Declarative(_) => true
    case Amendment(target, body) =>
      w.read(target.Kind(), body).Some? && w.read(target.Kind(), body).value.Kind() == target.Kind()
  }

  function RecordOf(r: ResolutionState, company: Id, notarisation: Notarisation): ResolutionRecord {
    ResolutionRecord(company, notarisation, r.title, r.authority, Recorded(r.kind))
  }

  function ResolutionTx(w: World, r: ResolutionState, company: Id, notarisation: Notarisation, key: PublicKey,
      height: nat): Tx {
    Sealed(w, ResolutionNs, ResolutionPayload(RecordOf(r, company, notarisation)), key, height)
  }

  /** `finalize`: the authority, the signer, the company, the record itself, then the ledger. */
  ghost function FinalizeResolution(w: World, r: ResolutionState, b: Blocks, key: PublicKey,
      notarisation: Notarisation, works: bool)
    : (res: (Result<ResolutionState, ResolutionError>, Blocks))
    requires |b| > 0
    ensures b <= res.1
  {
    if r.status != Draft then (Err(InvalidTransition(r.status)), b) else
    match CheckedAuthority(w, b, r.authority, r.kind)
    case Err(e) => (Err(e), b)
    case Ok(approval) =>
      match CompanyNow(b)
      case Err(e) => (Err(LedgerFailed(e)), b)
      case Ok(c) =>
        if !MaySign(c, GovernanceFamily, key) then (Err(LedgerFailed(UnauthorisedSigner(GovernanceFamily, key))), b)
        else if approval.company != c.company then (Err(CompanyMismatch), b)
        else if M.Blank(r.title) || !Readable(w, Recorded(r.kind)) then (Err(InvalidRecord), b)
        else
          var tx := ResolutionTx(w, r, c.company, notarisation, key, |b|);
          if works && Locate(b, tx.id).None?
          then (Ok(r.(status := Finalized, company := c.company, finalized := Some((tx.id, |b|)))), b + [[tx]])
          else (Err(NotAppendedRecord), b)
  }

  // ---------------------------------------------------------------- verification

  datatype ResolutionCheck =
    | Decodes | MeetingVerifies | ItemIsAVote | VoteAnsweredTheItem | VoteVerifies | VotePassed | DecisionVerifies
    | ChannelMatches | WithinChannelScope | ProposalMatches | CompanyMatches | HeightsOrdered | SignerAuthorised

  predicate HoldsResolution(w: World, e: Entry) {
    && e.tx.body.ns == ResolutionNs && e.tx.body.payload.ResolutionPayload?
    && !M.Blank(e.tx.body.payload.resolution.title) && Readable(w, e.tx.body.payload.resolution.kind)
  }

  predicate ScopeStands(b: Blocks, authority: Authority, kind: ResolutionKind)
    requires |b| > 0
  {
    DecidedBy(b, authority).Some? && ScopeError(b, DecidedBy(b, authority).value.approval, kind).None?
  }

  predicate ProposalStands(w: World, b: Blocks, authority: Authority, kind: ResolutionKind)
    requires |b| > 0
  {
    DecidedBy(b, authority).Some? && ApprovedDigest(w, kind) == DecidedBy(b, authority).value.approval.proposalDigest
  }

  predicate ChannelStands(b: Blocks, authority: Authority)
    requires |b| > 0
  {
    DecidedBy(b, authority).Some?
        && DecidedBy(b, authority).value.channel == DecidedBy(b, authority).value.approval.channel
  }

  predicate CompanyStands(b: Blocks, height: nat, record: ResolutionRecord)
    requires |b| > 0
  {
    && M.CompanyIs(b, height, record.company)
    && DecidedBy(b, record.authority).Some? && DecidedBy(b, record.authority).value.approval.company == record.company
  }

  predicate DecidedBefore(b: Blocks, authority: Authority, height: nat)
    requires |b| > 0
  {
    DecidedBy(b, authority).Some? && DecidedBy(b, authority).value.height < height
  }

  /** What each check of the verifier means. A check on the other kind of authority asks nothing. */
  ghost predicate ResolutionCheckHolds(w: World, b: Blocks, e: Entry, check: ResolutionCheck) {
    b != [] && HoldsResolution(w, e) &&
    var record := e.tx.body.payload.resolution;
    match check
    case Decodes => true
    case MeetingVerifies => MeetingStands(w, b, record.authority)
    case ItemIsAVote => ItemStands(b, record.authority)
    case VoteAnsweredTheItem => AnswerStands(b, record.authority)
    case VoteVerifies => VoteStands(w, b, record.authority)
    case VotePassed => Approvals.VotePassed(b, record.authority)
    case DecisionVerifies => DecisionStands(w, b, record.authority)
    case ChannelMatches => ChannelStands(b, record.authority)
    case WithinChannelScope => ScopeStands(b, record.authority, record.kind)
    case ProposalMatches => ProposalStands(w, b, record.authority, record.kind)
    case CompanyMatches => CompanyStands(b, e.height, record)
    case HeightsOrdered => DecidedBefore(b, record.authority, e.height)
    case SignerAuthorised => GovernanceSignerAt(b, e.height, e.tx.body.signer)
  }

  ghost function ResolutionChecks(w: World, b: Blocks, e: Entry): ResolutionCheck -> bool {
    (check: ResolutionCheck) => ResolutionCheckHolds(w, b, e, check)
  }

  ghost predicate ResolutionEntryVerifies(w: World, b: Blocks, e: Entry) {
    forall check :: ResolutionChecks(w, b, e)(check)
  }

  /** The resolution a transaction carries passes every check. */
  ghost predicate ResolutionVerifies(w: World, b: Blocks, txId: TxId) {
    Locate(b, txId).Some? && ResolutionEntryVerifies(w, b, Locate(b, txId).value)
  }

  /**
   The checks of a resolution, gathered: it decodes, its authority stands, and its own place on the
   ledger is right.
   */
  ghost predicate ResolutionIsSound(w: World, b: Blocks, e: Entry) {
    b != [] && HoldsResolution(w, e) &&
    var record := e.tx.body.payload.resolution;
    && AuthorityStands(w, b, record.authority, record.kind)
    && CompanyStands(b, e.height, record)
    && DecidedBefore(b, record.authority, e.height)
    && GovernanceSignerAt(b, e.height, e.tx.body.signer)
  }

  lemma ItemFromAnswer(b: Blocks, authority: Authority)
    ensures AnswerStands(b, authority) ==> ItemStands(b, authority)
  {
  }

  /** A source that verifies says what was decided. */
  lemma StandingSourceDecides(w: World, b: Blocks, authority: Authority)
    requires b != [] && MeetingStands(w, b, authority) && VoteStands(w, b, authority) && DecisionStands(w, b, authority)
    ensures DecidedBy(b, authority).Some?
    ensures authority.ByVote? ==> VoteOn(b, authority.voteTx).Some?
  {
    hide M.MeetingVerifies, V.VoteCheckHolds, D.DecisionCheckHolds, Locate;
    match authority {
      case ByVote(channel, meetingTx, itemNumber, voteTx) =>
        VerifiedMeetingRead(w, b, meetingTx);
        VerifiedVoteRead(w, b, voteTx);
        VoteReconstructs(w, b, Locate(b, voteTx).value);
      case ByDecision(channel, decisionTx) =>
        VerifiedDecisionRead(w, b, decisionTx);
        DecisionReconstructs(w, b, Locate(b, decisionTx).value);
    }
  }

  lemma VoteReconstructs(w: World, b: Blocks, e: Entry)
    requires b != [] && V.VoteEntryVerifies(w, b, e)
    ensures V.HoldsVote(e) && Reconstruct(b, e.tx.body.payload.vote.snapshot.height).Ok?
  {
    hide Reconstruct, V.PinnedRules;
    var holds := V.VoteChecks(w, b, e);
    assert holds(V.RecordsResolve);
  }

  lemma DecisionReconstructs(w: World, b: Blocks, e: Entry)
    requires b != [] && D.DecisionEntryVerifies(w, b, e)
    ensures D.HoldsDecision(e) && Reconstruct(b, e.tx.body.payload.decision.snapshot.height).Ok?
  {
    hide Reconstruct, D.PinnedActor;
    var holds := D.DecisionChecks(w, b, e);
    assert holds(D.RecordsResolve);
  }

  type Report = seq<Check<ResolutionCheck>>

  /** What a report of a resolution comes to: it is exact, and decides. */
  ghost predicate Settles(w: World, b: Blocks, e: Entry, report: Report) {
    Exact(ResolutionChecks(w, b, e), report) && report != [] && (IsValid(report) <==> ResolutionEntryVerifies(w, b, e))
  }

  /**
   `verify_resolution`. An error is a transaction that is not there, or a ledger that does not
   reconstruct where the record stands; otherwise the report is valid exactly when every check holds.
   */
  method VerifyResolution(w: World, b: Blocks, txId: TxId) returns (r: Result<Report, ResolutionError>)
    requires |b| > 0
    ensures r.Err? ==> !ResolutionVerifies(w, b, txId)
    ensures r.Ok? ==> Locate(b, txId).Some? && Settles(w, b, Locate(b, txId).value, r.value)
    ensures r.Ok? ==> (IsValid(r.value) <==> ResolutionVerifies(w, b, txId))
  {
    hide Locate, ResolutionEntryVerifies, HoldsResolution, IsValid, ResolutionChecks, Exact;
    var located := Locate(b, txId);
    if located.None? { return Err(NoSuchTransaction(txId)); }
    r := VerifyEntry(w, b, located.value);
  }

  method VerifyEntry(w: World, b: Blocks, e: Entry) returns (r: Result<Report, ResolutionError>)
    requires |b| > 0
    ensures r.Err? ==> !ResolutionEntryVerifies(w, b, e)
    ensures r.Ok? ==> Settles(w, b, e, r.value)
  {
    hide ResolutionCheckHolds, HoldsResolution, IsValid, Exact, Reported;
    ghost var holds := ResolutionChecks(w, b, e);
    NothingReported(holds);
    DecodesMeans(w, b, e);
    var report: Report := Push(holds, [], Decodes, HoldsResolution(w, e));
    if !HoldsResolution(w, e) {
      ReportDecides(holds, report);
      return Ok(report);
    }
    var authorised, decided := VerifySource(w, b, e, report);
    if authorised.Err? { return authorised; }
    report := authorised.value;
    if !decided {
      ReportDecides(holds, report);
      return Ok(report);
    }
    r := VerifyPlace(w, b, e, report);
  }

  lemma DecodesMeans(w: World, b: Blocks, e: Entry)
    requires b != []
    ensures ResolutionChecks(w, b, e)(Decodes) == HoldsResolution(w, e)
  {
    hide DecidedBy, HoldsResolution;
  }

  lemma SourceMeanings(w: World, b: Blocks, e: Entry, authority: Authority)
    requires b != [] && HoldsResolution(w, e) && e.tx.body.payload.resolution.authority == authority
    ensures var holds := ResolutionChecks(w, b, e);
      && holds(Decodes)
      && holds(MeetingVerifies) == MeetingStands(w, b, authority) && holds(ItemIsAVote) == ItemStands(b, authority)
      && holds(VoteAnsweredTheItem) == AnswerStands(b, authority) && holds(VoteVerifies) == VoteStands(w, b, authority)
      && holds(VotePassed) == Approvals.VotePassed(b, authority)
           && holds(DecisionVerifies) == DecisionStands(w, b, authority)
  {
    hide MeetingStands, ItemStands, AnswerStands, VoteStands, Approvals.VotePassed, DecisionStands, Readable, M.Blank;
  }

  lemma OtherAuthority(w: World, b: Blocks, authority: Authority)
    ensures authority.ByDecision? ==> MeetingStands(w, b, authority) && VoteStands(w, b, authority)
    ensures authority.ByDecision? ==>
      ItemStands(b, authority) && AnswerStands(b, authority) && Approvals.VotePassed(b, authority)
    ensures authority.ByVote? ==> DecisionStands(w, b, authority)
  {
    hide M.MeetingVerifies, V.VoteVerifies, D.DecisionVerifies, VoteLine, MeetingLines;
  }

  /** Whether every check of the source is either reported or holds unasked. */
  ghost predicate SourceChecked(holds: ResolutionCheck -> bool, report: Report) {
    forall check :: check in {Decodes, MeetingVerifies, ItemIsAVote, VoteAnsweredTheItem, VoteVerifies, VotePassed,
      DecisionVerifies}
      ==> check in Reported(report) || holds(check)
  }

  /**
   The checks on the meeting and its vote, or on the decision. Stops where nothing further can be
   read; otherwise what was decided can be read, so the error the code passes on there never arises.
   */
  method VerifySource(w: World, b: Blocks, e: Entry, decoded: Report) returns (r: Result<Report, ResolutionError>,
      decided: bool)
    requires |b| > 0 && HoldsResolution(w, e) && Exact(ResolutionChecks(w, b, e), decoded) && decoded != []
    ensures r.Err? ==> !ResolutionEntryVerifies(w, b, e)
    ensures r.Ok? ==> Exact(ResolutionChecks(w, b, e), r.value) && r.value != []
    ensures r.Ok? && decided ==> SourceChecked(ResolutionChecks(w, b, e), r.value)
    ensures r.Ok? && decided ==> DecidedBy(b, e.tx.body.payload.resolution.authority).Some?
    ensures r.Ok? && !decided ==> !IsValid(r.value)
  {
    hide ResolutionCheckHolds, ResolutionChecks, IsValid, Exact, Reported, MeetingStands, ItemStands;
    hide AnswerStands, VoteStands, Approvals.VotePassed, DecisionStands, Readable, M.Blank, DecidedBy;
    ghost var holds := ResolutionChecks(w, b, e);
    var authority := e.tx.body.payload.resolution.authority;
    SourceMeanings(w, b, e, authority);
    OtherAuthority(w, b, authority);
    if authority.ByVote? {
      r, decided := VerifyCollective(w, b, authority, holds, decoded);
    } else {
      var decision := D.VerifyDecision(w, b, authority.decisionTx);
      DecisionMeans(w, b, authority);
      if decision.None? {
        assert !holds(DecisionVerifies);
        return Err(NoSuchTransaction(authority.decisionTx)), false;
      }
      var report := Push(holds, decoded, DecisionVerifies, IsValid(decision.value));
      r, decided := Ok(report), IsValid(decision.value);
    }
    if r.Ok? && decided { StandingSourceDecides(w, b, authority); }
    if r.Err? { assert !holds(MeetingVerifies) || !holds(VoteVerifies); }
  }

  lemma DecisionMeans(w: World, b: Blocks, authority: Authority)
    requires authority.ByDecision?
    ensures DecisionStands(w, b, authority) == D.DecisionVerifies(w, b, authority.decisionTx)
    ensures Locate(b, authority.decisionTx).None? ==> !D.DecisionVerifies(w, b, authority.decisionTx)
  {
    hide Locate, D.DecisionEntryVerifies;
  }

  lemma CollectiveMeans(w: World, b: Blocks, authority: Authority)
    requires authority.ByVote?
    ensures MeetingStands(w, b, authority) == M.MeetingVerifies(w, b, authority.meetingTx)
    ensures VoteStands(w, b, authority) == V.VoteVerifies(w, b, authority.voteTx)
    ensures Locate(b, authority.meetingTx).None? ==> !M.MeetingVerifies(w, b, authority.meetingTx)
    ensures Locate(b, authority.voteTx).None? ==> !V.VoteVerifies(w, b, authority.voteTx)
  {
    hide Locate, M.MeetingEntryVerifies, V.VoteEntryVerifies;
  }

  /** `verify_collective`: meeting, item, vote, result, in that order. */
  method VerifyCollective(w: World, b: Blocks, authority: Authority,
      ghost holds: ResolutionCheck -> bool, decoded: Report)
    returns (r: Result<Report, ResolutionError>, decided: bool)
    requires |b| > 0 && authority.ByVote? && Exact(holds, decoded)
    requires holds(MeetingVerifies) == MeetingStands(w, b, authority) && holds(ItemIsAVote) == ItemStands(b, authority)
    requires holds(VoteAnsweredTheItem) == AnswerStands(b, authority)
    requires holds(VoteVerifies) == VoteStands(w, b, authority)
    requires holds(VotePassed) == Approvals.VotePassed(b, authority) && holds(DecisionVerifies) && holds(Decodes)
    ensures r.Err? ==> !MeetingStands(w, b, authority) || !VoteStands(w, b, authority)
    ensures r.Ok? ==> Exact(holds, r.value) && r.value != []
    ensures r.Ok? && decided ==>
      SourceChecked(holds, r.value) && MeetingStands(w, b, authority) && VoteStands(w, b, authority)
    ensures r.Ok? && !decided ==> !IsValid(r.value)
  {
    hide IsValid, Exact, Reported, MeetingStands, ItemStands, AnswerStands, VoteStands, Approvals.VotePassed;
    hide M.ReportIsValid, DecidedBy;
    CollectiveMeans(w, b, authority);
    var meeting := M.VerifyMeeting(w, b, authority.meetingTx);
    if meeting.None? { return Err(NoSuchTransaction(authority.meetingTx)), false; }
    var report := Push(holds, decoded, MeetingVerifies, M.ReportIsValid(meeting.value));
    if !M.ReportIsValid(meeting.value) { return Ok(report), false; }
    report := Push(holds, report, ItemIsAVote, ItemStands(b, authority));
    if !ItemStands(b, authority) { return Ok(report), false; }
    report := Push(holds, report, VoteAnsweredTheItem, AnswerStands(b, authority));
    if !AnswerStands(b, authority) { return Ok(report), false; }
    var vote := V.VerifyVote(w, b, authority.voteTx);
    if vote.None? { return Err(NoSuchTransaction(authority.voteTx)), false; }
    report := Push(holds, report, VoteVerifies, IsValid(vote.value));
    if !IsValid(vote.value) { return Ok(report), false; }
    report := Push(holds, report, VotePassed, Approvals.VotePassed(b, authority));
    r, decided := Ok(report), true;
  }

  lemma PlaceMeanings(w: World, b: Blocks, e: Entry, record: ResolutionRecord)
    requires b != [] && HoldsResolution(w, e) && e.tx.body.payload.resolution == record
    ensures var holds := ResolutionChecks(w, b, e);
      && holds(ChannelMatches) == ChannelStands(b, record.authority)
      && holds(WithinChannelScope) == ScopeStands(b, record.authority, record.kind)
      && holds(ProposalMatches) == ProposalStands(w, b, record.authority, record.kind)
      && holds(CompanyMatches) == CompanyStands(b, e.height, record)
      && holds(HeightsOrdered) == DecidedBefore(b, record.authority, e.height)
      && holds(SignerAuthorised) == GovernanceSignerAt(b, e.height, e.tx.body.signer)
  {
    hide ChannelStands, ScopeStands, ProposalStands, CompanyStands, DecidedBefore, GovernanceSignerAt, Readable;
    hide M.Blank;
  }

  lemma NoCompanyNoStanding(b: Blocks, height: nat, record: ResolutionRecord)
    requires |b| > 0 && Reconstruct(b, height).Err?
    ensures !CompanyStands(b, height, record)
  {
    hide Reconstruct, DecidedBy;
  }

  /** The channel, its scope, the proposal, the company, the heights and the signer. */
  method VerifyPlace(w: World, b: Blocks, e: Entry, started: Report) returns (r: Result<Report, ResolutionError>)
    requires |b| > 0 && HoldsResolution(w, e) && Exact(ResolutionChecks(w, b, e), started) && started != []
    requires SourceChecked(ResolutionChecks(w, b, e), started)
    ensures r.Err? ==> !ResolutionEntryVerifies(w, b, e)
    ensures r.Ok? ==> Settles(w, b, e, r.value)
  {
    hide ResolutionCheckHolds, ResolutionChecks, IsValid, Exact, Reported, Readable, M.Blank;
    hide ChannelStands, ScopeStands, ProposalStands, CompanyStands, DecidedBefore, GovernanceSignerAt, Reconstruct;
    ghost var holds := ResolutionChecks(w, b, e);
    var record := e.tx.body.payload.resolution;
    PlaceMeanings(w, b, e, record);
    var report := Push(holds, started, ChannelMatches, ChannelStands(b, record.authority));
    report := Push(holds, report, WithinChannelScope, ScopeStands(b, record.authority, record.kind));
    report := Push(holds, report, ProposalMatches, ProposalStands(w, b, record.authority, record.kind));
    var company := ReconstructAt(b, e.height);
    if company.Err? {
      NoCompanyNoStanding(b, e.height, record);
      assert !holds(CompanyMatches);
      return Err(LedgerFailed(company.error));
    }
    report := Push(holds, report, CompanyMatches, CompanyStands(b, e.height, record));
    report := Push(holds, report, HeightsOrdered, DecidedBefore(b, record.authority, e.height));
    report := Push(holds, report, SignerAuthorised, GovernanceSignerAt(b, e.height, e.tx.body.signer));
    forall check: ResolutionCheck ensures check in Reported(report) || holds(check) {
      match check case Decodes => case MeetingVerifies => case ItemIsAVote => case VoteAnsweredTheItem =>
      case VoteVerifies => case VotePassed => case DecisionVerifies => case ChannelMatches =>
      case WithinChannelScope => case ProposalMatches => case CompanyMatches => case HeightsOrdered =>
      case SignerAuthorised =>
    }
    ReportDecides(holds, report);
    r := Ok(report);
  }

  lemma ChecksGathered(w: World, b: Blocks, e: Entry)
    ensures ResolutionEntryVerifies(w, b, e) <==> ResolutionIsSound(w, b, e)
  {
    hide ResolutionCheckHolds, MeetingStands, AnswerStands, ItemStands, VoteStands, DecisionStands;
    hide Approvals.VotePassed, DecidedBy, ScopeError, ApprovedDigest;
    hide CompanyStands, DecidedBefore, GovernanceSignerAt, Readable, M.Blank, ResolutionChecks;
    var holds := ResolutionChecks(w, b, e);
    if ResolutionEntryVerifies(w, b, e) {
      assert holds(Decodes);
      DecodesAlone(w, b, e);
    }
    if b != [] && HoldsResolution(w, e) {
      var record := e.tx.body.payload.resolution;
      SourceMeanings(w, b, e, record.authority);
      PlaceMeanings(w, b, e, record);
      ItemFromAnswer(b, record.authority);
      if ResolutionEntryVerifies(w, b, e) {
        assert holds(MeetingVerifies) && holds(VoteAnsweredTheItem) && holds(VoteVerifies) && holds(VotePassed);
        assert holds(DecisionVerifies) && holds(ChannelMatches) && holds(WithinChannelScope) && holds(ProposalMatches);
        assert holds(CompanyMatches) && holds(HeightsOrdered) && holds(SignerAuthorised);
      }
      if ResolutionIsSound(w, b, e) {
        forall check: ResolutionCheck ensures holds(check) {
          match check case Decodes => case MeetingVerifies => case ItemIsAVote => case VoteAnsweredTheItem =>
          case VoteVerifies => case VotePassed => case DecisionVerifies => case ChannelMatches =>
          case WithinChannelScope => case ProposalMatches => case CompanyMatches => case HeightsOrdered =>
          case SignerAuthorised =>
        }
      }
    }
  }

  lemma DecodesAlone(w: World, b: Blocks, e: Entry)
    requires ResolutionChecks(w, b, e)(Decodes)
    ensures b != [] && HoldsResolution(w, e)
  {
    hide DecidedBy;
  }

  // ---------------------------------------------------------------- verdicts are permanent

  lemma CompanyStandsStays(b: Blocks, b': Blocks, height: nat, record: ResolutionRecord)
    requires |b| > 0 && b <= b' && height < |b| && DecidedBy(b', record.authority) == DecidedBy(b, record.authority)
    ensures CompanyStands(b', height, record) == CompanyStands(b, height, record)
  {
    hide M.CompanyIs, DecidedBy;
    M.CompanyIsStays(b, b', height, record.company);
  }

  /** With an authority that stands on both ledgers, the record is sound on both or on neither. */
  lemma SoundnessStays(w: World, b: Blocks, b': Blocks, e: Entry)
    requires b != [] && b <= b' && e.height < |b| && HoldsResolution(w, e)
    requires var record := e.tx.body.payload.resolution; AuthorityStands(w, b, record.authority, record.kind)
    ensures ResolutionIsSound(w, b', e) <==> ResolutionIsSound(w, b, e)
  {
    hide AuthorityStands, CompanyStands, GovernanceSignerAt, Readable, M.Blank, Locate, DecidedBy;
    var record := e.tx.body.payload.resolution;
    AuthorityIsPermanent(w, b, b', record.authority, record.kind);
    CompanyStandsStays(b, b', e.height, record);
    GovernanceSignerStays(b, b', e.height, e.tx.body.signer);
  }

  /** Everything a resolution rests on lies below it, so nothing appended later has a say in the verdict. */
  lemma ResolutionEntryStays(w: World, b: Blocks, b': Blocks, e: Entry)
    requires b != [] && b <= b' && e.height < |b|
    ensures ResolutionEntryVerifies(w, b', e) <==> ResolutionEntryVerifies(w, b, e)
  {
    hide AuthorityStands, CompanyStands, GovernanceSignerAt, Readable, M.Blank, DecidedBy, ResolutionEntryVerifies;
    ChecksGathered(w, b, e);
    ChecksGathered(w, b', e);
    if ResolutionIsSound(w, b, e) {
      SoundnessStays(w, b, b', e);
    } else if ResolutionIsSound(w, b', e) {
      var record := e.tx.body.payload.resolution;
      AuthorityStoodBelow(w, b, b', record.authority, record.kind);
      SoundnessStays(w, b, b', e);
    }
  }

  /** The verdict on a resolution, once it is on the ledger, never changes, whatever is appended. */
  lemma ResolutionVerdictIsPermanent(w: World, b: Blocks, b': Blocks, txId: TxId)
    requires b <= b' && Locate(b, txId).Some?
    ensures ResolutionVerifies(w, b', txId) <==> ResolutionVerifies(w, b, txId)
    ensures Locate(b', txId) == Locate(b, txId)
  {
    hide ResolutionEntryVerifies, Locate;
    LocateStays(b, b', txId);
    ResolutionEntryStays(w, b, b', Locate(b, txId).value);
  }

  // ---------------------------------------------------------------- what finalising leaves

  /** The resolution's record is on the ledger as the resolution has it, under an authority that stands. */
  ghost predicate Filed(w: World, r: ResolutionState, b: Blocks) {
    && b != [] && r.finalized.Some? && Locate(b, r.finalized.value.0).Some?
    && FiledAt(w, r, b, Locate(b, r.finalized.value.0).value)
  }

  ghost predicate FiledAt(w: World, r: ResolutionState, b: Blocks, e: Entry)
    requires b != [] && r.finalized.Some?
  {
    && e.height == r.finalized.value.1 < |b| && HoldsResolution(w, e)
    && AuthorityStands(w, b, r.authority, r.kind)
    && DecidedBefore(b, r.authority, e.height)
    && GovernanceSignerAt(b, e.height, e.tx.body.signer)
    && var record := e.tx.body.payload.resolution;
       && record.company == r.company && record.authority == r.authority && record.kind == Recorded(r.kind)
       && CompanyStands(b, e.height, record)
  }

  lemma FiledStays(w: World, r: ResolutionState, b: Blocks, b': Blocks)
    requires b <= b' && Filed(w, r, b)
    ensures Filed(w, r, b') && Locate(b', r.finalized.value.0) == Locate(b, r.finalized.value.0)
    ensures DecidedBy(b', r.authority) == DecidedBy(b, r.authority)
  {
    hide AuthorityStands, CompanyStands, GovernanceSignerAt, Readable, M.Blank, Locate, DecidedBy, Recorded;
    var e := Locate(b, r.finalized.value.0).value;
    LocateStays(b, b', r.finalized.value.0);
    AuthorityIsPermanent(w, b, b', r.authority, r.kind);
    CompanyStandsStays(b, b', e.height, e.tx.body.payload.resolution);
    GovernanceSignerStays(b, b', e.height, e.tx.body.signer);
  }

  /** The carried digest: what normalising the recorded body again digests to. */
  predicate KeepsDigest(w: World, kind: ResolutionKind) { ApprovedDigest(w, Recorded(kind)) == ApprovedDigest(w, kind) }

  /** Two different texts with one digest. */
  predicate SameTextDigest(w: World, a: string, b: string) { a != b && w.textDigest(a) == w.textDigest(b) }

  /**
   What the carried body has to be: a declaration still opening an amendment's normalised body
   has to go unnoticed by the digest.
   */
  predicate Settled(w: World, kind: ResolutionKind) {
    kind.Amendment? && Declared(Normalise(kind.body)) ==>
      SameTextDigest(w, Normalise(kind.body), Normalise(Normalise(kind.body)))
  }

  /** The digest is kept exactly when no declaration is left in front, unless two texts digest alike. */
  lemma NormalKeepsDigest(w: World, kind: ResolutionKind)
    ensures KeepsDigest(w, kind) <==> Settled(w, kind)
  {
    hide Normalise, Declared;
    if kind.Amendment? { NormaliseTwice(kind.body); }
  }

  lemma ScopeReadsTarget(b: Blocks, approval: Approval, kind: ResolutionKind)
    requires |b| > 0
    ensures ScopeError(b, approval, Recorded(kind)) == ScopeError(b, approval, kind)
  {
    hide Reconstruct;
  }

  lemma StandsAsRecorded(w: World, b: Blocks, authority: Authority, kind: ResolutionKind)
    requires |b| > 0 && AuthorityStands(w, b, authority, kind)
    ensures AuthorityStands(w, b, authority, Recorded(kind)) <==> KeepsDigest(w, kind)
  {
    hide MeetingStands, AnswerStands, VoteStands, Approvals.VotePassed, DecisionStands, DecidedBy, ScopeError;
    hide ApprovedDigest, Recorded;
    ScopeReadsTarget(b, DecidedBy(b, authority).value.approval, kind);
  }

  /** A filed resolution verifies exactly when its body keeps its digest once embedded. */
  lemma FiledVerifies(w: World, r: ResolutionState, b: Blocks)
    requires Filed(w, r, b)
    ensures ResolutionVerifies(w, b, r.finalized.value.0) <==> KeepsDigest(w, r.kind)
  {
    hide AuthorityStands, CompanyStands, GovernanceSignerAt, HoldsResolution, Locate, DecidedBy, Recorded;
    hide KeepsDigest, ResolutionEntryVerifies;
    ChecksGathered(w, b, Locate(b, r.finalized.value.0).value);
    StandsAsRecorded(w, b, r.authority, r.kind);
  }

  lemma FinalizedIsFiled(w: World, r: ResolutionState, b: Blocks, key: PublicKey, notarisation: Notarisation,
      works: bool)
    requires |b| > 0 && FinalizeResolution(w, r, b, key, notarisation, works).0.Ok?
    ensures var (res, b') := FinalizeResolution(w, r, b, key, notarisation, works);
      Formed(res.value) && Filed(w, res.value, b') && |b'| == |b| + 1
  {
    hide CheckedAuthority, AuthorityStands, Reconstruct, MaySign, GovernanceSignerAt, Locate, DecidedBy;
    hide M.Blank, Readable, M.CompanyIs;
    var c := CompanyNow(b).value;
    var tx := ResolutionTx(w, r, c.company, notarisation, key, |b|);
    var b' := b + [[tx]];
    LifecycleAndVerifierAgree(w, b, r.authority, r.kind);
    AuthorityIsPermanent(w, b, b', r.authority, r.kind);
    AppendedIsLocated(b, tx);
    GovernanceSignerAfter(b, tx, key);
    CompanyAfter(b, tx, c.company);
  }

  lemma CompanyAfter(b: Blocks, tx: Tx, company: Id)
    requires |b| > 0 && !IsIrena(tx) && CompanyNow(b).Ok?
    ensures M.CompanyIs(b + [[tx]], |b|, company) == (CompanyNow(b).value.company == company)
  {
    hide Fold;
    OtherRecordsChangeNothing(b, tx);
  }

  /**
   What finalising writes, the verifier accepts for ever, on one exact condition: that no
   declaration is left in front of the amendment's body once it is normalised, or else that the
   text with it and the text without it digest alike. A declarative resolution always verifies.
   */
  lemma ResolutionRoundTrip(w: World, r: ResolutionState, b: Blocks, key: PublicKey,
      notarisation: Notarisation, works: bool, later: Blocks)
    requires |b| > 0 && FinalizeResolution(w, r, b, key, notarisation, works).0.Ok?
    requires FinalizeResolution(w, r, b, key, notarisation, works).1 <= later
    ensures var filed := FinalizeResolution(w, r, b, key, notarisation, works).0.value;
      Filed(w, filed, later) && (ResolutionVerifies(w, later, filed.finalized.value.0) <==> Settled(w, r.kind))
  {
    hide FinalizeResolution, Filed, ResolutionVerifies, KeepsDigest, Settled;
    NormalKeepsDigest(w, r.kind);
    FinalizedIsFiled(w, r, b, key, notarisation, works);
    var (res, b') := FinalizeResolution(w, r, b, key, notarisation, works);
    FiledStays(w, res.value, b', later);
    FiledVerifies(w, res.value, later);
    KindIsKept(w, r, b, key, notarisation, works);
  }

  lemma KindIsKept(w: World, r: ResolutionState, b: Blocks, key: PublicKey, notarisation: Notarisation, works: bool)
    requires |b| > 0 && FinalizeResolution(w, r, b, key, notarisation, works).0.Ok?
    ensures var filed := FinalizeResolution(w, r, b, key, notarisation, works).0.value;
      filed.kind == r.kind && filed.authority == r.authority && filed.status == Finalized
  {
    hide CheckedAuthority, Reconstruct, MaySign, Locate, M.Blank, Readable;
  }
}
