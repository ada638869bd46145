/**
 What a resolution rests on: a vote at a meeting, or one person's signed decision. The
 lifecycle checks it before it writes anything and the verifier checks it again from the
 ledger; they are shown to agree, and to read the same approval.
 */
module Approvals {
  import opened Bytes
  import opened Ordering
  import opened Evaluation
  import opened Parts
  import opened Records
  import opened Text
  import opened Ledger
  import V = Vote
  import D = Decision
  import M = Meeting

  datatype ResolutionStatus = Draft | Finalized | Executed

  datatype ResolutionError =
    | InvalidTransition(from: ResolutionStatus)
    | NoSuchTransaction(txId: TxId)
    | MeetingUnverified(meetingTx: TxId)
    | NoSuchVoteItem(meetingTx: TxId, itemNumber: nat)
    | WrongVote(expectedTx: TxId, foundTx: TxId)
    | VoteUnverified(voteTx: TxId)
    | VoteRejected(voteTx: TxId)
    | DecisionUnverified(decisionTx: TxId)
    | WrongChannel(expectedChannel: Id, foundChannel: Id)
    | ChannelGone(channel: Id)
    | OutOfScope(channel: Id, target: Target)
    | ProposalMismatch(approvedDigest: Digest, carriedDigest: Digest)
    | CompanyMismatch
    | InvalidRecord
    | LedgerFailed(ledger: LedgerError)
    | NothingToExecute
    | AlreadyExecuted(executionTx: TxId, height: nat)
    | StaleBase(target: Target, approvedTx: TxId, currentTx: TxId)
    | SelfPromotion
    | NotAppendedRecord

  // ---------------------------------------------------------------- what was approved

  /** What the deciders approved: by whom, of what, and the records they had before them. */
  datatype Approval = Approval(
    channel: Id, actor: Option<Id>, company: Id, proposalDigest: Digest, height: nat,
    sharesTx: TxId, channelsTx: TxId, identitiesTx: TxId, authorisationTx: TxId, throughTx: TxId)
  {
    /** `base_of`: the record of the target's part that was in force when they decided. */
    function BaseOf(target: Target): TxId {
      match target
      case TargetShares => sharesTx
      case TargetChannels => channelsTx
      case TargetPersons => identitiesTx
      case TargetAuthorisation => authorisationTx
    }
  }

  /** `approved_digest`. */
  function ApprovedDigest(w: World, kind: ResolutionKind): Digest {
    match kind
    case Declarative(documentDigest) => documentDigest
    case Amendment(_, body) => w.textDigest(Normalise(body))
  }

  function VoteApproval(c: Company, channel: Id, s: VoteSnapshot, voteTx: TxId): Approval {
    Approval(channel, None, s.company, s.proposalDigest, s.height, s.sharesTx, s.channelsTx, s.identitiesTx,
        c.authorisation.txId, voteTx)
  }

  function DecisionApproval(c: Company, channel: Id, s: DecisionSnapshot, decisionTx: TxId): Approval {
    Approval(channel, Some(s.actor), s.company, s.proposalDigest, s.height, s.sharesTx, s.channelsTx, s.identitiesTx,
        c.authorisation.txId, decisionTx)
  }

  /** The line of the record for an item number: the first one. */
  function LineFor(lines: seq<FinalItem>, number: nat): (r: Option<FinalItem>)
    ensures r.Some? ==> r.value in lines && r.value.item.number == number
    ensures r.None? <==> forall line :: line in lines ==> line.item.number != number
  {
    if lines == [] then None
    else if lines[0].item.number == number then Some(lines[0])
    else
      assert lines == [lines[0]] + lines[1..];
      LineFor(lines[1..], number)
  }

  /** The line of a vote item of a final record. */
  function VoteLine(lines: seq<FinalItem>, number: nat): Option<FinalItem> {
    match LineFor(lines, number)
    case None => None
    case Some(line) => if line.item.body.VoteItem? then Some(line) else None
  }

  function MeetingLines(b: Blocks, meetingTx: TxId): seq<FinalItem> {
    match Locate(b, meetingTx)
    case None => []
    case Some(e) => if M.HoldsFinal(e) then e.tx.body.payload.meeting.record.items else []
  }

  function VoteOn(b: Blocks, voteTx: TxId): Option<VoteRecord> {
    match Locate(b, voteTx)
    case None => None
    case Some(e) => if V.HoldsVote(e) then Some(e.tx.body.payload.vote) else None
  }

  function DecisionOn(b: Blocks, decisionTx: TxId): Option<DecisionRecord> {
    match Locate(b, decisionTx)
    case None => None
    case Some(e) => if D.HoldsDecision(e) then Some(e.tx.body.payload.decision) else None
  }

  // ---------------------------------------------------------------- the lifecycle's check

  /** What a collective authority amounts to, in the order the lifecycle asks. */
  ghost function CheckedVote(w: World, b: Blocks, channel: Id, meetingTx: TxId, itemNumber: nat,
      voteTx: TxId): Result<Approval, ResolutionError>
    requires |b| > 0
  {
    if Locate(b, meetingTx).None? then Err(NoSuchTransaction(meetingTx))
    else if !M.MeetingVerifies(w, b, meetingTx) then Err(MeetingUnverified(meetingTx))
    else match VoteLine(MeetingLines(b, meetingTx), itemNumber)
      case None => Err(NoSuchVoteItem(meetingTx, itemNumber))
      case Some(line) =>
        if line.voteTx.None? then Err(NoSuchVoteItem(meetingTx, itemNumber))
        else if line.voteTx != Some(voteTx) then Err(WrongVote(line.voteTx.value, voteTx))
        else if Locate(b, voteTx).None? then Err(NoSuchTransaction(voteTx))
        else if !V.VoteVerifies(w, b, voteTx) || VoteOn(b, voteTx).None? then Err(VoteUnverified(voteTx))
        else
          var vote := VoteOn(b, voteTx).value;
          if vote.evaluation.outcome != Accepted then Err(VoteRejected(voteTx))
          else if vote.snapshot.channel != channel then Err(WrongChannel(channel, vote.snapshot.channel))
          else match Reconstruct(b, vote.snapshot.height)
            case Err(e) => Err(LedgerFailed(e))
            case Ok(c) => Ok(VoteApproval(c, channel, vote.snapshot, voteTx))
  }

  /** What an individual authority amounts to. */
  ghost function CheckedDecision(w: World, b: Blocks, channel: Id, decisionTx: TxId): Result<Approval, ResolutionError>
    requires |b| > 0
  {
    if Locate(b, decisionTx).None? then Err(NoSuchTransaction(decisionTx))
    else if !D.DecisionVerifies(w, b, decisionTx) || DecisionOn(b, decisionTx).None?
      then Err(DecisionUnverified(decisionTx))
    else
      var s := DecisionOn(b, decisionTx).value.snapshot;
      if s.channel != channel then Err(WrongChannel(channel, s.channel))
      else match Reconstruct(b, s.height)
        case Err(e) => Err(LedgerFailed(e))
        case Ok(c) => Ok(DecisionApproval(c, channel, s, decisionTx))
  }

  ghost function CheckedSource(w: World, b: Blocks, authority: Authority): Result<Approval, ResolutionError>
    requires |b| > 0
  {
    match authority
    case ByVote(channel, meetingTx, itemNumber, voteTx) => CheckedVote(w, b, channel, meetingTx, itemNumber, voteTx)
    case ByDecision(channel, decisionTx) => CheckedDecision(w, b, channel, decisionTx)
  }

  /** The first reason, if any, why a kind is outside the scope its channel had at the approval's height. */
  function ScopeError(b: Blocks, approval: Approval, kind: ResolutionKind): Option<ResolutionError>
    requires |b| > 0
  {
    match kind
    case Declarative(_) => None
    case Amendment(target, _) =>
      match Reconstruct(b, approval.height)
      case Err(e) => Some(LedgerFailed(e))
      case Ok(frozen) =>
        match ChannelAt(frozen.channels.value, approval.channel)
        case None => Some(ChannelGone(approval.channel))
        case Some(channel) =>
          if channel.MayAmend(target.Kind()) then None else Some(OutOfScope(approval.channel, target))
  }

  /** `check_authority`. */
  ghost function CheckedAuthority(w: World, b: Blocks, authority: Authority,
      kind: ResolutionKind): Result<Approval, ResolutionError>
    requires |b| > 0
  {
    match CheckedSource(w, b, authority)
    case Err(e) => Err(e)
    case Ok(approval) =>
      match ScopeError(b, approval, kind)
      case Some(e) => Err(e)
      case None =>
        if ApprovedDigest(w, kind) != approval.proposalDigest
        then Err(ProposalMismatch(approval.proposalDigest, ApprovedDigest(w, kind))) else Ok(approval)
  }

  // ---------------------------------------------------------------- the verifier's view

  /** What the authority's own record says was decided, through which channel, and when. */
  datatype Decided = Decided(approval: Approval, channel: Id, height: nat)

  /** The approval the verifier reads off the records an authority names. */
  function DecidedBy(b: Blocks, authority: Authority): Option<Decided>
    requires |b| > 0
  {
    match authority
    case ByVote(channel, meetingTx, _, voteTx) =>
      if VoteOn(b, voteTx).None? || Locate(b, meetingTx).None? then None else
      var s := VoteOn(b, voteTx).value.snapshot;
      (match Reconstruct(b, s.height)
       case Err(_) => None
       case Ok(c) => Some(Decided(VoteApproval(c, channel, s, voteTx), s.channel, Locate(b, meetingTx).value.height)))
    case ByDecision(channel, decisionTx) =>
      if DecisionOn(b, decisionTx).None? then None else
      var s := DecisionOn(b, decisionTx).value.snapshot;
      (match Reconstruct(b, s.height)
       case Err(_) => None
       case Ok(c) =>
         Some(Decided(DecisionApproval(c, channel, s, decisionTx), s.channel, Locate(b, decisionTx).value.height)))
  }

  ghost predicate MeetingStands(w: World, b: Blocks, authority: Authority) {
    authority.ByVote? ==> M.MeetingVerifies(w, b, authority.meetingTx)
  }

  predicate ItemStands(b: Blocks, authority: Authority) {
    authority.ByVote? ==> VoteLine(MeetingLines(b, authority.meetingTx), authority.itemNumber).Some?
  }

  predicate AnswerStands(b: Blocks, authority: Authority) {
    authority.ByVote? ==>
      ItemStands(b, authority) &&
      VoteLine(MeetingLines(b, authority.meetingTx), authority.itemNumber).value.voteTx == Some(authority.voteTx)
  }

  ghost predicate VoteStands(w: World, b: Blocks, authority: Authority) {
    authority.ByVote? ==> V.VoteVerifies(w, b, authority.voteTx)
  }

  predicate VotePassed(b: Blocks, authority: Authority) {
    authority.ByVote? ==>
        VoteOn(b, authority.voteTx).Some? && VoteOn(b, authority.voteTx).value.evaluation.outcome == Accepted
  }

  ghost predicate DecisionStands(w: World, b: Blocks, authority: Authority) {
    authority.ByDecision? ==> D.DecisionVerifies(w, b, authority.decisionTx)
  }

  /** Everything the verifier asks of the authority itself: source, channel, scope and proposal. */
  ghost predicate AuthorityStands(w: World, b: Blocks, authority: Authority, kind: ResolutionKind)
    requires |b| > 0
  {
    && MeetingStands(w, b, authority) && AnswerStands(b, authority) && VoteStands(w, b, authority)
    && VotePassed(b, authority) && DecisionStands(w, b, authority)
    && DecidedBy(b, authority).Some?
    && var decided := DecidedBy(b, authority).value;
       && decided.channel == decided.approval.channel
       && ScopeError(b, decided.approval, kind).None?
       && ApprovedDigest(w, kind) == decided.approval.proposalDigest
  }

  lemma VerifiedVoteRead(w: World, b: Blocks, voteTx: TxId)
    requires V.VoteVerifies(w, b, voteTx)
    ensures VoteOn(b, voteTx).Some?
  {
    hide V.VoteVerifies, Locate;
    M.VerifiedIsLocated(w, b, voteTx);
  }

  lemma VerifiedDecisionRead(w: World, b: Blocks, decisionTx: TxId)
    requires D.DecisionVerifies(w, b, decisionTx)
    ensures DecisionOn(b, decisionTx).Some?
  {
    var holds := D.DecisionChecks(w, b, Locate(b, decisionTx).value);
    assert holds(D.Decodes);
  }

  lemma VerifiedMeetingRead(w: World, b: Blocks, meetingTx: TxId)
    requires M.MeetingVerifies(w, b, meetingTx)
    ensures Locate(b, meetingTx).Some?
  {
    hide M.MeetingEntryVerifies;
  }

  /**
   Two checks, one authority: the lifecycle accepts an authority exactly when the verifier does,
   and both take the same approval from it.
   */
  lemma LifecycleAndVerifierAgree(w: World, b: Blocks, authority: Authority, kind: ResolutionKind)
    requires |b| > 0
    ensures CheckedAuthority(w, b, authority, kind).Ok? <==> AuthorityStands(w, b, authority, kind)
    ensures CheckedAuthority(w, b, authority, kind).Ok? ==>
      DecidedBy(b, authority).Some?
          && CheckedAuthority(w, b, authority, kind).value == DecidedBy(b, authority).value.approval
  {
    hide V.VoteVerifies, D.DecisionVerifies, M.MeetingVerifies, Locate, Reconstruct, ScopeError, VoteLine;
    hide MeetingLines, ApprovedDigest, VoteOn, DecisionOn;
    if authority.ByVote? {
      if V.VoteVerifies(w, b, authority.voteTx) {
        VerifiedVoteRead(w, b, authority.voteTx);
        M.VerifiedIsLocated(w, b, authority.voteTx);
      }
      if M.MeetingVerifies(w, b, authority.meetingTx) { VerifiedMeetingRead(w, b, authority.meetingTx); }
    } else {
      if D.DecisionVerifies(w, b, authority.decisionTx) {
        VerifiedDecisionRead(w, b, authority.decisionTx);
        DecisionIsLocated(b, authority.decisionTx);
      }
    }
  }

  lemma DecisionIsLocated(b: Blocks, decisionTx: TxId)
    requires DecisionOn(b, decisionTx).Some?
    ensures Locate(b, decisionTx).Some?
  {
    hide Locate;
  }

  /** The records an approval pins are those in force at the height it was decided at. */
  predicate PinsTheCompany(b: Blocks, approval: Approval)
    requires |b| > 0
  {
    Reconstruct(b, approval.height).Ok? &&
    forall target: Target :: approval.BaseOf(target) == Reconstruct(b, approval.height).value.ProviderOf(target.Kind())
  }

  lemma VotePins(w: World, b: Blocks, channel: Id, voteTx: TxId)
    requires |b| > 0 && V.VoteVerifies(w, b, voteTx) && VoteOn(b, voteTx).Some?
    ensures var s := VoteOn(b, voteTx).value.snapshot;
      Reconstruct(b, s.height).Ok?
          && PinsTheCompany(b, VoteApproval(Reconstruct(b, s.height).value, channel, s, voteTx))
  {
    hide Reconstruct, V.PinnedRules;
    var holds := V.VoteChecks(w, b, Locate(b, voteTx).value);
    assert holds(V.RecordsResolve);
  }

  lemma DecisionPins(w: World, b: Blocks, channel: Id, decisionTx: TxId)
    requires |b| > 0 && D.DecisionVerifies(w, b, decisionTx) && DecisionOn(b, decisionTx).Some?
    ensures var s := DecisionOn(b, decisionTx).value.snapshot;
      Reconstruct(b, s.height).Ok?
          && PinsTheCompany(b, DecisionApproval(Reconstruct(b, s.height).value, channel, s, decisionTx))
  {
    hide Reconstruct, D.PinnedActor;
    var holds := D.DecisionChecks(w, b, Locate(b, decisionTx).value);
    assert holds(D.RecordsResolve);
  }

  /** The base an approval names, for any part, is the record that provided it when they decided. */
  lemma ApprovedBaseWasInForce(w: World, b: Blocks, authority: Authority, kind: ResolutionKind)
    requires |b| > 0 && AuthorityStands(w, b, authority, kind)
    ensures DecidedBy(b, authority).Some? && PinsTheCompany(b, DecidedBy(b, authority).value.approval)
  {
    hide Reconstruct, Locate, V.VoteVerifies, D.DecisionVerifies, M.MeetingVerifies, ScopeError, AnswerStands;
    hide PinsTheCompany, VoteOn, DecisionOn;
    match authority {
      case ByVote(channel, meetingTx, itemNumber, voteTx) => VotePins(w, b, channel, voteTx);
      case ByDecision(channel, decisionTx) => DecisionPins(w, b, channel, decisionTx);
    }
  }

  // ---------------------------------------------------------------- permanence

  /** A record that verifies froze a height below its own. */
  lemma VoteFrozeThePast(w: World, b: Blocks, voteTx: TxId)
    requires V.VoteVerifies(w, b, voteTx) && VoteOn(b, voteTx).Some?
    ensures VoteOn(b, voteTx).value.snapshot.height < |b|
  {
    hide V.VoteCheckHolds;
    var e := Locate(b, voteTx).value;
    LocateStays(b, b, voteTx);
    SnapshotPrecedes(w, b, e);
    var holds := V.VoteChecks(w, b, e);
    assert holds(V.SnapshotPrecedesRecord);
  }

  lemma SnapshotPrecedes(w: World, b: Blocks, e: Entry)
    ensures V.VoteCheckHolds(w, b, e, V.SnapshotPrecedesRecord) ==>
      V.HoldsVote(e) && e.tx.body.payload.vote.snapshot.height < e.height
  {
  }

  lemma DecisionFrozeThePast(w: World, b: Blocks, decisionTx: TxId)
    requires D.DecisionVerifies(w, b, decisionTx) && DecisionOn(b, decisionTx).Some?
    ensures DecisionOn(b, decisionTx).value.snapshot.height < |b|
  {
    var e := Locate(b, decisionTx).value;
    LocateStays(b, b, decisionTx);
    var holds := D.DecisionChecks(w, b, e);
    assert holds(D.SnapshotPrecedesRecord);
  }

  lemma ScopeStays(b: Blocks, b': Blocks, approval: Approval, kind: ResolutionKind)
    requires b <= b' && approval.height < |b|
    ensures ScopeError(b', approval, kind) == ScopeError(b, approval, kind)
  {
    PastIsFixed(b, b', approval.height);
  }

  /** An authority that stands keeps standing, and means the same approval for ever. */
  lemma AuthorityIsPermanent(w: World, b: Blocks, b': Blocks, authority: Authority, kind: ResolutionKind)
    requires |b| > 0 && b <= b' && AuthorityStands(w, b, authority, kind)
    ensures AuthorityStands(w, b', authority, kind) && DecidedBy(b', authority) == DecidedBy(b, authority)
    ensures DecidedBy(b, authority).value.approval.height < |b| && DecidedBy(b, authority).value.height < |b|
  {
    hide V.VoteVerifies, D.DecisionVerifies, M.MeetingVerifies, Locate, Reconstruct, ScopeError, VoteLine;
    hide ApprovedDigest, MeetingLines;
    match authority {
      case ByVote(channel, meetingTx, itemNumber, voteTx) =>
        VoteFrozeThePast(w, b, voteTx);
        V.VoteVerdictIsPermanent(w, b, b', voteTx);
        M.MeetingVerdictIsPermanent(w, b, b', meetingTx);
        LocateStays(b, b', meetingTx);
        MeetingLinesStay(b, b', meetingTx);
        PastIsFixed(b, b', VoteOn(b, voteTx).value.snapshot.height);
      case ByDecision(channel, decisionTx) =>
        DecisionFrozeThePast(w, b, decisionTx);
        LocateStays(b, b', decisionTx);
        D.DecisionVerdictIsPermanent(w, b, b', decisionTx);
        PastIsFixed(b, b', DecisionOn(b, decisionTx).value.snapshot.height);
    }
    ScopeStays(b, b', DecidedBy(b, authority).value.approval, kind);
  }

  /** The vote a verifying meeting names for an item was filed below the meeting. */
  lemma NamedVoteIsBelow(w: World, b: Blocks, b': Blocks, authority: Authority)
    requires authority.ByVote? && b <= b' && MeetingStands(w, b', authority) && AnswerStands(b', authority)
    requires Locate(b', authority.meetingTx).Some? && Locate(b', authority.meetingTx).value.height < |b|
    ensures Locate(b, authority.meetingTx).Some? && Locate(b, authority.voteTx).Some?
  {
    hide Locate, M.MeetingEntryVerifies, M.LinesVerify, M.LinesBelong, M.Blank, M.ValidAgenda, M.AgendaOf;
    var e := Locate(b', authority.meetingTx).value;
    LocatedBelow(b, b', authority.meetingTx);
    M.VerifiedNames(w, b', e);
    var record := e.tx.body.payload.meeting.record;
    var convened := M.ConveningOf(b', record.meetingId).value.tx.body.payload.meeting;
    M.BelongingAreBelow(w, b, b', e.tx.body.payload.company, convened.metadata.channel, record.openedAt, e.height,
      record.items);
    var line := VoteLine(MeetingLines(b', authority.meetingTx), authority.itemNumber).value;
    var i :| 0 <= i < |record.items| && record.items[i] == line;
    assert M.VoteLocated(b, record.items[i]);
  }

  /** An authority that stands on an extension stood already, if it was decided below what is there. */
  lemma AuthorityStoodBelow(w: World, b: Blocks, b': Blocks, authority: Authority, kind: ResolutionKind)
    requires |b| > 0 && b <= b' && AuthorityStands(w, b', authority, kind)
    requires DecidedBy(b', authority).value.height < |b|
    ensures AuthorityStands(w, b, authority, kind)
  {
    hide V.VoteVerifies, D.DecisionVerifies, M.MeetingVerifies, Locate, Reconstruct, ScopeError, VoteLine;
    hide ApprovedDigest, MeetingLines;
    match authority {
      case ByVote(channel, meetingTx, itemNumber, voteTx) =>
        NamedVoteIsBelow(w, b, b', authority);
        M.MeetingVerdictIsPermanent(w, b, b', meetingTx);
        V.VoteVerdictIsPermanent(w, b, b', voteTx);
        VoteFrozeThePast(w, b, voteTx);
        MeetingLinesStay(b, b', meetingTx);
        PastIsFixed(b, b', VoteOn(b, voteTx).value.snapshot.height);
      case ByDecision(channel, decisionTx) =>
        DecisionIsLocated(b', decisionTx);
        LocatedBelow(b, b', decisionTx);
        D.DecisionVerdictIsPermanent(w, b, b', decisionTx);
        DecisionFrozeThePast(w, b, decisionTx);
        PastIsFixed(b, b', DecisionOn(b, decisionTx).value.snapshot.height);
    }
    ScopeStays(b, b', DecidedBy(b', authority).value.approval, kind);
  }

  lemma MeetingLinesStay(b: Blocks, b': Blocks, meetingTx: TxId)
    requires b <= b' && Locate(b, meetingTx).Some?
    ensures MeetingLines(b', meetingTx) == MeetingLines(b, meetingTx)
  {
    LocateStays(b, b', meetingTx);
  }
}
