/** The resolution as a process: an object that checks its authority, files itself, and executes. */
module Process {
  import opened Ordering
  import opened Evaluation
  import opened Parts
  import opened Records
  import opened Ledger
  import opened Resolve
  import opened Demotion
  import opened Approvals
  import opened Resolution
  import opened Executions
  import V = Vote
  import D = Decision
  import M = Meeting

  /** The collective half of `check_authority`. */
  method CheckVote(w: World, b: Blocks, channel: Id, meetingTx: TxId, itemNumber: nat,
      voteTx: TxId) returns (r: Result<Approval, ResolutionError>)
    requires |b| > 0
    ensures r == CheckedVote(w, b, channel, meetingTx, itemNumber, voteTx)
  {
    hide M.MeetingVerifies, V.VoteVerifies, M.ReportIsValid, IsValid, Locate, Reconstruct, VoteLine;
    hide MeetingLines, VoteOn;
    var meeting := M.VerifyMeeting(w, b, meetingTx);
    if meeting.None? { return Err(NoSuchTransaction(meetingTx)); }
    if !M.ReportIsValid(meeting.value) { return Err(MeetingUnverified(meetingTx)); }
    var line := VoteLine(MeetingLines(b, meetingTx), itemNumber);
    if line.None? || line.value.voteTx.None? { return Err(NoSuchVoteItem(meetingTx, itemNumber)); }
    if line.value.voteTx != Some(voteTx) { return Err(WrongVote(line.value.voteTx.value, voteTx)); }
    var verification := V.VerifyVote(w, b, voteTx);
    if verification.None? { return Err(NoSuchTransaction(voteTx)); }
    if !IsValid(verification.value) { return Err(VoteUnverified(voteTx)); }
    VerifiedVoteRead(w, b, voteTx);
    var vote := VoteOn(b, voteTx).value;
    if vote.evaluation.outcome != Accepted { return Err(VoteRejected(voteTx)); }
    if vote.snapshot.channel != channel { return Err(WrongChannel(channel, vote.snapshot.channel)); }
    var company := ReconstructAt(b, vote.snapshot.height);
    if company.Err? { return Err(LedgerFailed(company.error)); }
    r := Ok(VoteApproval(company.value, channel, vote.snapshot, voteTx));
  }

  /** The individual half of `check_authority`. */
  method CheckDecision(w: World, b: Blocks, channel: Id, decisionTx: TxId)
    returns (r: Result<Approval, ResolutionError>)
    requires |b| > 0
    ensures r == CheckedDecision(w, b, channel, decisionTx)
  {
    hide D.DecisionVerifies, IsValid, Locate, Reconstruct, DecisionOn;
    var verification := D.VerifyDecision(w, b, decisionTx);
    if verification.None? { return Err(NoSuchTransaction(decisionTx)); }
    if !IsValid(verification.value) { return Err(DecisionUnverified(decisionTx)); }
    VerifiedDecisionRead(w, b, decisionTx);
    var s := DecisionOn(b, decisionTx).value.snapshot;
    if s.channel != channel { return Err(WrongChannel(channel, s.channel)); }
    var company := ReconstructAt(b, s.height);
    if company.Err? { return Err(LedgerFailed(company.error)); }
    r := Ok(DecisionApproval(company.value, channel, s, decisionTx));
  }

  /** The rule for a single person's amendment, as `execute` applies it. */
  method CheckDemotion(w: World, c: Company, approval: Approval, target: Target,
      body: string) returns (r: Option<ResolutionError>)
    ensures r == DemotionError(w, c, approval, target, body)
  {
    hide VerdictHolds, Readable;
    if approval.actor.None? || target == TargetShares { return None; }
    if !Readable(w, Amendment(target, body)) { return Some(InvalidRecord); }
    ReadableReads(w, target, body);
    var holds := Verdict(approval.actor.value, c, w.read(target.Kind(), body).value);
    r := if holds then None else Some(SelfPromotion);
  }

  lemma ReadableReads(w: World, target: Target, body: string)
    requires Readable(w, Amendment(target, body))
    ensures w.read(target.Kind(), body).Some?
  {
  }

  /** `ResolutionV1`. */
  class ResolutionProcess {
    var status: ResolutionStatus
    var company: Id
    var title: string
    var authority: Authority
    var kind: ResolutionKind
    var finalized: Option<(TxId, nat)>
    var executed: Option<Executed>

    function State(): ResolutionState
      reads this
    {
      ResolutionState(status, company, title, authority, kind, finalized, executed)
    }

    ghost predicate Valid()
      reads this
    {
      Formed(State())
    }

    constructor Draft(title: string, authority: Authority, kind: ResolutionKind)
      ensures Valid() && State() == DraftResolution(title, authority, kind)
    {
      status, company, this.title, this.authority, this.kind := ResolutionStatus.Draft, "", title, authority, kind;
      finalized, executed := None, None;
    }

    /** `check_authority`: everything re-derived from the ledger. */
    method CheckAuthority(w: World, b: Blocks) returns (r: Result<Approval, ResolutionError>)
      requires |b| > 0
      ensures r == CheckedAuthority(w, b, authority, kind)
    {
      hide CheckedVote, CheckedDecision, ScopeError, ApprovedDigest;
      match authority {
        case ByVote(channel, meetingTx, itemNumber, voteTx) =>
          r := CheckVote(w, b, channel, meetingTx, itemNumber, voteTx);
        case ByDecision(channel, decisionTx) => r := CheckDecision(w, b, channel, decisionTx);
      }
      if r.Err? { return; }
      var approval := r.value;
      var outside := ScopeError(b, approval, kind);
      if outside.Some? { return Err(outside.value); }
      var carried := ApprovedDigest(w, kind);
      if carried != approval.proposalDigest { return Err(ProposalMismatch(approval.proposalDigest, carried)); }
    }

    method Finalize(w: World, store: Store, key: PublicKey,
        notarisation: Notarisation) returns (r: Result<TxId, ResolutionError>)
      requires Valid() && store.Valid()
      modifies this`status, this`company, this`finalized, store
      ensures Valid() && store.Valid()
      ensures var (result, blocks) :=
        FinalizeResolution(w, old(State()), old(store.blocks), key, notarisation, Says(old(store.answers)));
        && store.blocks == blocks
        && match result
           case Ok(next) => State() == next && r == Ok(next.finalized.value.0)
           case Err(e) => State() == old(State()) && r == Err(e)
    {
      hide CheckedAuthority, Reconstruct, MaySign, M.Blank, Readable, Recorded;
      if status != ResolutionStatus.Draft { return Err(InvalidTransition(status)); }
      var approval := CheckAuthority(w, store.blocks);
      if approval.Err? { return Err(approval.error); }
      var now := ReconstructAt(store.blocks, |store.blocks| - 1);
      if now.Err? { return Err(LedgerFailed(now.error)); }
      if !MaySign(now.value, GovernanceFamily, key) {
        return Err(LedgerFailed(UnauthorisedSigner(GovernanceFamily, key)));
      }
      if approval.value.company != now.value.company { return Err(CompanyMismatch); }
      if M.Blank(title) || !Readable(w, Recorded(kind)) { return Err(InvalidRecord); }
      var appended := store.Append(ResolutionTx(w, State(), now.value.company, notarisation, key, |store.blocks|));
      if appended.Refused? { return Err(NotAppendedRecord); }
      company := now.value.company;
      finalized := Some((appended.txId, appended.height));
      status := ResolutionStatus.Finalized;
      r := Ok(appended.txId);
    }

    /** Everything `execute` refuses before it publishes. */
    method CheckExecution(w: World, b: Blocks, key: PublicKey) returns (r: Result<Approval, ResolutionError>)
      requires Valid() && |b| > 0
      ensures r == CheckedExecution(w, State(), b, key)
    {
      hide CheckedAuthority, Reconstruct, MaySign, FoundExecution, DemotionError;
      if status != ResolutionStatus.Finalized { return Err(InvalidTransition(status)); }
      if kind.Declarative? { return Err(NothingToExecute); }
      var found := FindExecution(b, finalized.value.0);
      if found.Some? { return Err(AlreadyExecuted(found.value.tx.id, found.value.height)); }
      var approval := CheckAuthority(w, b);
      if approval.Err? { return Err(approval.error); }
      var now := ReconstructAt(b, |b| - 1);
      if now.Err? { return Err(LedgerFailed(now.error)); }
      if !MaySign(now.value, GovernanceFamily, key) {
        return Err(LedgerFailed(UnauthorisedSigner(GovernanceFamily, key)));
      }
      var approved, current := approval.value.BaseOf(kind.target), now.value.ProviderOf(kind.target.Kind());
      if current != approved { return Err(StaleBase(kind.target, approved, current)); }
      var promotion := CheckDemotion(w, now.value, approval.value, kind.target, kind.body);
      if promotion.Some? { return Err(promotion.value); }
      r := approval;
    }

    /** `execute`: the checks, the amendment, the link. A failed second append leaves the amendment published. */
    method Execute(w: World, store: Store, key: PublicKey,
        notarisation: Notarisation) returns (r: Result<Executed, ResolutionError>)
      requires Valid() && store.Valid()
      modifies this`status, this`executed, store
      ensures Valid() && store.Valid()
      ensures var x := ExecuteResolution(w, old(State()), old(store.blocks), key, notarisation, old(store.answers));
        && State() == x.resolution && store.blocks == x.blocks && store.answers == x.answers
        && if x.error.Some? then r == Err(x.error.value) else executed.Some? && r == Ok(executed.value)
    {
      hide CheckedExecution, PublishOn, ApprovedDigest, Locate;
      var approval := CheckExecution(w, store.blocks, key);
      CheckedIsAmendment(w, State(), store.blocks, key);
      if approval.Err? { return Err(approval.error); }
      var base := approval.value.BaseOf(kind.target);
      var amendment := Publish(w, store, key, kind.target.Kind(), kind.body, Some(base), notarisation);
      if amendment.Err? { return Err(LedgerFailed(amendment.error)); }
      var link := LinkOf(State(), w, approval.value, amendment.value.txId);
      var appended := store.Append(ExecutionTx(w, company, notarisation, link, key, |store.blocks|));
      if appended.Refused? { return Err(NotAppendedRecord); }
      executed := Some(Resolution.Executed(amendment.value.txId, amendment.value.height, appended.txId, appended.height,
          base));
      status := ResolutionStatus.Executed;
      r := Ok(executed.value);
    }
  }

  lemma CheckedIsAmendment(w: World, r: ResolutionState, b: Blocks, key: PublicKey)
    requires |b| > 0 && Formed(r)
    ensures CheckedExecution(w, r, b, key).Ok? ==> r.kind.Amendment? && r.finalized.Some?
  {
    hide CheckedAuthority, Reconstruct, MaySign, FoundExecution, DemotionError;
  }
}
