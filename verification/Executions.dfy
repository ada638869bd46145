/**
 Execution: the approved amendment published, the link to its resolution recorded, and both verified
 from the ledger alone.
 */
module Executions {
  import opened Ordering
  import opened Parts
  import opened Records
  import opened Text
  import opened Ledger
  import opened Resolve
  import opened Demotion
  import opened Approvals
  import opened Resolution
  import M = Meeting

  // ---------------------------------------------------------------- looking for an execution

  predicate HoldsExecution(e: Entry) { e.tx.body.ns == ExecutionNs && e.tx.body.payload.ExecutionPayload? }

  function ExecutionOf(e: Entry): Execution
    requires HoldsExecution(e)
  {
    e.tx.body.payload.execution.execution
  }

  function Executes(resolutionTx: TxId): Entry -> bool {
    (e: Entry) => HoldsExecution(e) && ExecutionOf(e).resolutionTx == resolutionTx
  }

  /** The first execution of a resolution, in chain order. */
  function FoundExecution(b: Blocks, resolutionTx: TxId): (r: Option<Entry>)
    ensures r.Some? ==>
      HoldsExecution(r.value) && ExecutionOf(r.value).resolutionTx == resolutionTx && r.value in Entries(b)
  {
    First(Executes(resolutionTx), Entries(b))
  }

  lemma FirstSnoc(p: Entry -> bool, es: seq<Entry>, e: Entry)
    ensures First(p, es + [e]) == if First(p, es).Some? then First(p, es) else if p(e) then Some(e) else None
  {
    assert (es + [e])[..|es|] == es;
  }

  /** `find_execution`: block by block, transaction by transaction, the first that matches. */
  method FindExecution(b: Blocks, resolutionTx: TxId) returns (r: Option<Entry>)
    ensures r == FoundExecution(b, resolutionTx)
  {
    hide First, Entries, Executes;
    var p := Executes(resolutionTx);
    NoEntries(b, p);
    for h := 0 to |b|
      invariant First(p, Entries(b[..h])).None?
    {
      var entries := BlockEntries(h, b[h]);
      BlockAdded(b, h);
      assert Entries(b[..h]) + entries[..0] == Entries(b[..h]);
      for i := 0 to |entries|
        invariant First(p, Entries(b[..h]) + entries[..i]).None?
      {
        FirstSnoc(p, Entries(b[..h]) + entries[..i], entries[i]);
        assert Entries(b[..h]) + entries[..i + 1] == Entries(b[..h]) + entries[..i] + [entries[i]];
        if p(entries[i]) {
          assert Entries(b[..h]) + entries[..i + 1] <= Entries(b[..h + 1]);
          EntriesGrow(b[..h + 1], b);
          FirstStays(p, Entries(b[..h]) + entries[..i + 1], Entries(b));
          return Some(entries[i]);
        }
      }
      assert entries[..|entries|] == entries;
    }
    assert b[..|b|] == b;
    r := None;
  }

  lemma NoEntries(b: Blocks, p: Entry -> bool)
    ensures First(p, Entries(b[..0])).None?
  {
  }

  lemma FoundStays(b: Blocks, b': Blocks, resolutionTx: TxId)
    requires b <= b' && FoundExecution(b, resolutionTx).Some?
    ensures FoundExecution(b', resolutionTx) == FoundExecution(b, resolutionTx)
  {
    EntriesGrow(b, b');
    FirstStays(Executes(resolutionTx), Entries(b), Entries(b'));
  }

  // ---------------------------------------------------------------- executing

  function ExecutionTx(w: World, company: Id, notarisation: Notarisation, execution: Execution, key: PublicKey,
      height: nat): Tx {
    Sealed(w, ExecutionNs, ExecutionPayload(ExecutionRecord(company, notarisation, execution)), key, height)
  }

  /** A single person's amendment of anything but the register must pass its rule against the company as it is. */
  ghost function DemotionError(w: World, c: Company, approval: Approval, target: Target,
      body: string): Option<ResolutionError> {
    if approval.actor.None? || target == TargetShares then None
    else if !Readable(w, Amendment(target, body)) then Some(InvalidRecord)
    else if VerdictHolds(approval.actor.value, c, w.read(target.Kind(), body).value) then None
    else Some(SelfPromotion)
  }

  /** Everything `execute` refuses before it publishes, in its order; otherwise the approval it goes on. */
  ghost function CheckedExecution(w: World, r: ResolutionState, b: Blocks,
      key: PublicKey): Result<Approval, ResolutionError>
    requires |b| > 0 && Formed(r)
  {
    if r.status != Finalized then Err(InvalidTransition(r.status))
    else match r.kind
      case Declarative(_) => Err(NothingToExecute)
      case Amendment(target, body) =>
        var found := FoundExecution(b, r.finalized.value.0);
        if found.Some? then Err(AlreadyExecuted(found.value.tx.id, found.value.height))
        else match CheckedAuthority(w, b, r.authority, r.kind)
          case Err(e) => Err(e)
          case Ok(approval) =>
            match CompanyNow(b)
            case Err(e) => Err(LedgerFailed(e))
            case Ok(c) =>
              if !MaySign(c, GovernanceFamily, key) then Err(LedgerFailed(UnauthorisedSigner(GovernanceFamily, key)))
              else if c.ProviderOf(target.Kind()) != approval.BaseOf(target)
              then Err(StaleBase(target, approval.BaseOf(target), c.ProviderOf(target.Kind())))
              else match DemotionError(w, c, approval, target, body)
                case Some(e) => Err(e)
                case None => Ok(approval)
  }

  /** How an attempt ends: the error, the resolution, the ledger, the disk, and the amendment if one was published. */
  datatype Executing = Executing(
    error: Option<ResolutionError>, resolution: ResolutionState, blocks: Blocks, answers: seq<bool>,
        published: Option<RecordRef>)

  function LinkOf(r: ResolutionState, w: World, approval: Approval, amendmentTx: TxId): Execution
    requires r.finalized.Some? && r.kind.Amendment?
  {
    Execution(r.finalized.value.0, amendmentTx, r.kind.target, approval.BaseOf(r.kind.target),
        ApprovedDigest(w, r.kind))
  }

  /** Publish the amendment, then record the link. The second append may fail and leave the amendment published. */
  function PublishAndLink(w: World, r: ResolutionState, b: Blocks, key: PublicKey, notarisation: Notarisation,
      answers: seq<bool>, approval: Approval): (x: Executing)
    requires |b| > 0 && r.finalized.Some? && r.kind.Amendment?
    ensures b <= x.blocks && Formed(x.resolution)
    ensures x.published.None? ==> x.blocks == b && x.error.Some?
  {
    hide Refusal, Reconstruct, Compose, ApprovedDigest;
    var base := approval.BaseOf(r.kind.target);
    var (result, b') :=
      PublishOn(w, b, Says(answers), key, r.kind.target.Kind(), r.kind.body, Some(base), notarisation);
    match result
    case Err(e) => Executing(Some(LedgerFailed(e)), r, b', if e.NotAppended? then After(answers) else answers, None)
    case Ok(amendment) =>
      var tx := ExecutionTx(w, r.company, notarisation, LinkOf(r, w, approval, amendment.txId), key, |b'|);
      var left := After(answers);
      if Says(left) && Locate(b', tx.id).None?
      then Executing(None, r.(status := ResolutionStatus.Executed,
                              executed := Some(Resolution.Executed(amendment.txId, amendment.height, tx.id, |b'|,
                                                                   base))),
                     b' + [[tx]], After(left), Some(amendment))
      else Executing(Some(NotAppendedRecord), r, b', After(left), Some(amendment))
  }

  /** `execute`. */
  ghost function ExecuteResolution(w: World, r: ResolutionState, b: Blocks, key: PublicKey,
      notarisation: Notarisation, answers: seq<bool>): (x: Executing)
    requires |b| > 0 && Formed(r)
    ensures b <= x.blocks && Formed(x.resolution)
    ensures x.published.None? ==> x.blocks == b && x.error.Some?
  {
    match CheckedExecution(w, r, b, key)
    case Err(e) => Executing(Some(e), r, b, answers, None)
    case Ok(approval) => PublishAndLink(w, r, b, key, notarisation, answers, approval)
  }

  // ---------------------------------------------------------------- verification

  datatype ExecutionCheck =
    | Decodes | ResolutionVerifies | ResolutionAuthorisesThis | AmendmentExists | AmendmentMatchesResolution
    | AmendmentReplacedApprovedBase | SelfDemotionHolds | AmendmentApplied | HeightsOrdered | SignerAuthorised
    | ExecutedOnce

  /** The resolution's own record, if it authorises an amendment of this target. */
  ghost function ResolutionFor(w: World, b: Blocks, x: Execution): (r: Option<Entry>)
    ensures r.Some? ==> Locate(b, x.resolutionTx) == r && HoldsResolution(w, r.value) && AmendsTarget(r.value, x.target)
  {
    match Locate(b, x.resolutionTx)
    case None => None
    case Some(e) =>
      if HoldsResolution(w, e) && AmendsTarget(e, x.target) then Some(e) else None
  }

  predicate AmendsTarget(e: Entry, target: Target) {
    && e.tx.body.payload.ResolutionPayload? && e.tx.body.payload.resolution.kind.Amendment?
    && e.tx.body.payload.resolution.kind.target == target
  }

  predicate AmendsPart(e: Entry, kind: RecordKind, company: Id) {
    && e.tx.body.payload.CompanyPayload? && e.tx.body.payload.record.body.Kind() == kind
    && e.tx.body.payload.record.company == company
  }

  /** The amendment's own record, if it is of the right kind and company. */
  function AmendmentFor(b: Blocks, x: Execution, company: Id): (r: Option<Entry>)
    ensures r.Some? ==> Locate(b, x.amendmentTx) == r && AmendsPart(r.value, x.target.Kind(), company)
  {
    match Locate(b, x.amendmentTx)
    case None => None
    case Some(e) =>
      if AmendsPart(e, x.target.Kind(), company) then Some(e) else None
  }

  /** The published text holds the body, and the digests agree all the way to what was approved. */
  ghost predicate BodyMatches(w: World, text: string, body: string, x: Execution, approval: Approval) {
    Contains(text, body) && w.textDigest(Normalise(body)) == x.bodyDigest && x.bodyDigest == approval.proposalDigest
  }

  predicate BaseReplaced(record: Record, x: Execution, approval: Approval) {
    record.supersedes == Some(approval.BaseOf(x.target)) && x.replacedTx == approval.BaseOf(x.target)
  }

  /** What one person decided alone only ever gave up: judged against the company just before the amendment. */
  ghost predicate DemotionStands(b: Blocks, amendment: Entry, approval: Approval)
    requires |b| > 0 && amendment.tx.body.payload.CompanyPayload?
  {
    approval.actor.Some? ==>
      amendment.height > 0 && Reconstruct(b, amendment.height - 1).Ok? &&
      VerdictHolds(approval.actor.value, Reconstruct(b, amendment.height - 1).value,
          amendment.tx.body.payload.record.body)
  }

  /** The amendment is in the company's history at the execution's height. */
  predicate Applied(b: Blocks, height: nat, x: Execution)
    requires |b| > 0
  {
    && Reconstruct(b, height).Ok?
    && exists r :: r in Reconstruct(b, height).value.HistoryOf(x.target.Kind()) && r.txId == x.amendmentTx
  }

  predicate OnlyExecution(b: Blocks, txId: TxId, x: Execution) {
    FoundExecution(b, x.resolutionTx).Some? && FoundExecution(b, x.resolutionTx).value.tx.id == txId
  }

  /** What each check of the verifier means. */
  ghost predicate ExecutionCheckHolds(w: World, b: Blocks, e: Entry, check: ExecutionCheck) {
    b != [] && HoldsExecution(e) &&
    var x := ExecutionOf(e);
    match check
    case Decodes => true
    case ResolutionVerifies => Resolution.ResolutionVerifies(w, b, x.resolutionTx)
    case ResolutionAuthorisesThis => ResolutionFor(w, b, x).Some?
    case SignerAuthorised => GovernanceSignerAt(b, e.height, e.tx.body.signer)
    case AmendmentApplied => Applied(b, e.height, x)
    case ExecutedOnce => OnlyExecution(b, e.tx.id, x)
    case _ => ResolutionFor(w, b, x).Some? && LinkCheckHolds(w, b, e, x, ResolutionFor(w, b, x).value, check)
  }

  /** The checks that compare the amendment with the resolution behind it. */
  ghost predicate LinkCheckHolds(w: World, b: Blocks, e: Entry, x: Execution, resolution: Entry, check: ExecutionCheck)
    requires b != [] && HoldsResolution(w, resolution) && resolution.tx.body.payload.resolution.kind.Amendment?
  {
    var record := resolution.tx.body.payload.resolution;
    AmendmentFor(b, x, record.company).Some? && DecidedBy(b, record.authority).Some? &&
    var amendment, approval := AmendmentFor(b, x, record.company).value, DecidedBy(b, record.authority).value.approval;
    match check
    case AmendmentMatchesResolution => BodyMatches(w, amendment.tx.body.payload.text, record.kind.body, x, approval)
    case AmendmentReplacedApprovedBase => BaseReplaced(amendment.tx.body.payload.record, x, approval)
    case SelfDemotionHolds => DemotionStands(b, amendment, approval)
    case HeightsOrdered => resolution.height < amendment.height <= e.height
    case _ => true
  }

  ghost function ExecutionChecks(w: World, b: Blocks, e: Entry): ExecutionCheck -> bool {
    (check: ExecutionCheck) => ExecutionCheckHolds(w, b, e, check)
  }

  ghost predicate ExecutionEntryVerifies(w: World, b: Blocks, e: Entry) {
    forall check :: ExecutionChecks(w, b, e)(check)
  }

  /** The execution a transaction records passes every check. */
  ghost predicate ExecutionVerifies(w: World, b: Blocks, txId: TxId) {
    Locate(b, txId).Some? && ExecutionEntryVerifies(w, b, Locate(b, txId).value)
  }

  /** All the checks on the link between the resolution, the amendment and the execution. */
  ghost predicate LinkIsSound(w: World, b: Blocks, e: Entry, x: Execution, resolution: Entry)
    requires b != [] && HoldsResolution(w, resolution) && resolution.tx.body.payload.resolution.kind.Amendment?
  {
    var record := resolution.tx.body.payload.resolution;
    AmendmentFor(b, x, record.company).Some? && DecidedBy(b, record.authority).Some? &&
    var amendment, approval := AmendmentFor(b, x, record.company).value, DecidedBy(b, record.authority).value.approval;
    && BodyMatches(w, amendment.tx.body.payload.text, record.kind.body, x, approval)
    && BaseReplaced(amendment.tx.body.payload.record, x, approval)
    && DemotionStands(b, amendment, approval)
    && resolution.height < amendment.height <= e.height
  }

  /** The checks of an execution, gathered. */
  ghost predicate ExecutionIsSound(w: World, b: Blocks, e: Entry) {
    b != [] && HoldsExecution(e) &&
    var x := ExecutionOf(e);
    && Resolution.ResolutionVerifies(w, b, x.resolutionTx) && ResolutionFor(w, b, x).Some?
    && LinkIsSound(w, b, e, x, ResolutionFor(w, b, x).value)
    && Applied(b, e.height, x) && GovernanceSignerAt(b, e.height, e.tx.body.signer) && OnlyExecution(b, e.tx.id, x)
  }

  lemma LinkGathered(w: World, b: Blocks, e: Entry, x: Execution, resolution: Entry)
    requires b != [] && HoldsResolution(w, resolution) && resolution.tx.body.payload.resolution.kind.Amendment?
    ensures LinkIsSound(w, b, e, x, resolution) <==>
      forall check: ExecutionCheck :: LinkCheckHolds(w, b, e, x, resolution, check)
  {
    hide BodyMatches, BaseReplaced, DemotionStands, DecidedBy, Readable, M.Blank, AmendmentFor;
    if forall check: ExecutionCheck :: LinkCheckHolds(w, b, e, x, resolution, check) {
      assert LinkCheckHolds(w, b, e, x, resolution, AmendmentMatchesResolution);
      assert LinkCheckHolds(w, b, e, x, resolution, AmendmentReplacedApprovedBase);
      assert LinkCheckHolds(w, b, e, x, resolution, SelfDemotionHolds);
      assert LinkCheckHolds(w, b, e, x, resolution, ExecutionCheck.HeightsOrdered);
    }
  }

  /** What each check of an execution record means. */
  lemma OuterMeanings(w: World, b: Blocks, e: Entry, x: Execution)
    requires b != [] && HoldsExecution(e) && x == ExecutionOf(e)
    ensures var holds := ExecutionChecks(w, b, e);
      && holds(ExecutionCheck.Decodes)
      && holds(ResolutionVerifies) == Resolution.ResolutionVerifies(w, b, x.resolutionTx)
      && holds(ResolutionAuthorisesThis) == ResolutionFor(w, b, x).Some?
      && holds(AmendmentApplied) == Applied(b, e.height, x)
      && holds(ExecutionCheck.SignerAuthorised) == GovernanceSignerAt(b, e.height, e.tx.body.signer)
      && holds(ExecutedOnce) == OnlyExecution(b, e.tx.id, x)
  {
    hide Resolution.ResolutionVerifies, ResolutionFor, Applied, GovernanceSignerAt, OnlyExecution;
  }

  lemma InnerMeanings(w: World, b: Blocks, e: Entry, x: Execution, resolution: Entry)
    requires b != [] && HoldsExecution(e) && x == ExecutionOf(e) && ResolutionFor(w, b, x) == Some(resolution)
    ensures var holds := ExecutionChecks(w, b, e);
      forall check: ExecutionCheck ::
        check in {AmendmentExists, AmendmentMatchesResolution, AmendmentReplacedApprovedBase, SelfDemotionHolds,
            ExecutionCheck.HeightsOrdered}
        ==> holds(check) == LinkCheckHolds(w, b, e, x, resolution, check)
  {
    hide Resolution.ResolutionVerifies, ResolutionFor, Applied, GovernanceSignerAt, OnlyExecution, LinkCheckHolds;
  }

  lemma DecodesFirst(w: World, b: Blocks, e: Entry)
    ensures ExecutionChecks(w, b, e)(ExecutionCheck.Decodes) == (b != [] && HoldsExecution(e))
  {
    hide ResolutionFor;
  }

  lemma ExecutionGathered(w: World, b: Blocks, e: Entry)
    ensures ExecutionEntryVerifies(w, b, e) <==> ExecutionIsSound(w, b, e)
  {
    hide ExecutionChecks, Resolution.ResolutionVerifies, ResolutionFor, Applied, GovernanceSignerAt;
    hide OnlyExecution, LinkCheckHolds, LinkIsSound;
    var holds := ExecutionChecks(w, b, e);
    DecodesFirst(w, b, e);
    assert ExecutionEntryVerifies(w, b, e) ==> holds(ExecutionCheck.Decodes);
    if b != [] && HoldsExecution(e) {
      var x := ExecutionOf(e);
      OuterMeanings(w, b, e, x);
      if ResolutionFor(w, b, x).Some? {
        var resolution := ResolutionFor(w, b, x).value;
        InnerMeanings(w, b, e, x, resolution);
        LinkGathered(w, b, e, x, resolution);
        if ExecutionEntryVerifies(w, b, e) { AllChecksSound(w, b, e, x, resolution); }
      }
      if ExecutionEntryVerifies(w, b, e) { assert holds(ResolutionAuthorisesThis); }
      if ExecutionIsSound(w, b, e) {
        forall check: ExecutionCheck ensures holds(check) {
          match check case Decodes => case ResolutionVerifies => case ResolutionAuthorisesThis =>
          case AmendmentExists => case AmendmentMatchesResolution => case AmendmentReplacedApprovedBase =>
          case SelfDemotionHolds => case AmendmentApplied => case HeightsOrdered => case SignerAuthorised =>
          case ExecutedOnce =>
        }
      }
    }
  }

  lemma LinkNeedsOnly(w: World, b: Blocks, e: Entry, x: Execution, resolution: Entry)
    requires b != [] && HoldsResolution(w, resolution) && resolution.tx.body.payload.resolution.kind.Amendment?
    requires LinkCheckHolds(w, b, e, x, resolution, AmendmentExists)
    ensures forall check: ExecutionCheck ::
      check !in {AmendmentMatchesResolution, AmendmentReplacedApprovedBase, SelfDemotionHolds,
          ExecutionCheck.HeightsOrdered}
      ==> LinkCheckHolds(w, b, e, x, resolution, check)
  {
    hide BodyMatches, BaseReplaced, DemotionStands, DecidedBy, Readable, M.Blank, AmendmentFor;
  }

  lemma AllChecksSound(w: World, b: Blocks, e: Entry, x: Execution, resolution: Entry)
    requires b != [] && HoldsExecution(e) && x == ExecutionOf(e) && ResolutionFor(w, b, x) == Some(resolution)
    requires ExecutionEntryVerifies(w, b, e)
    ensures ExecutionIsSound(w, b, e)
  {
    hide ExecutionChecks, Resolution.ResolutionVerifies, ResolutionFor, Applied, GovernanceSignerAt;
    hide OnlyExecution, LinkCheckHolds, LinkIsSound;
    var holds := ExecutionChecks(w, b, e);
    OuterMeanings(w, b, e, x);
    InnerMeanings(w, b, e, x, resolution);
    assert holds(ResolutionVerifies) && holds(AmendmentApplied) && holds(ExecutionCheck.SignerAuthorised)
      && holds(ExecutedOnce);
    assert holds(AmendmentExists) && holds(AmendmentMatchesResolution) && holds(AmendmentReplacedApprovedBase);
    assert holds(SelfDemotionHolds) && holds(ExecutionCheck.HeightsOrdered);
    LinkNeedsOnly(w, b, e, x, resolution);
    LinkGathered(w, b, e, x, resolution);
  }

  type Report = seq<Check<ExecutionCheck>>

  /** What a report of an execution comes to: it is exact, and decides. */
  ghost predicate SettlesExecution(w: World, b: Blocks, e: Entry, report: Report) {
    Exact(ExecutionChecks(w, b, e), report) && report != [] && (IsValid(report) <==> ExecutionEntryVerifies(w, b, e))
  }

  /**
   `verify_execution`. An error is a record that is not there, or a ledger that does not
   reconstruct where the resolution stands; otherwise the report, which is valid only if the
   resolution's own report is, is valid exactly when every check holds.
   */
  method VerifyExecution(w: World, b: Blocks, txId: TxId) returns (r: Result<Report, ResolutionError>)
    requires |b| > 0
    ensures r.Err? ==> !ExecutionVerifies(w, b, txId)
    ensures r.Ok? ==> Locate(b, txId).Some? && SettlesExecution(w, b, Locate(b, txId).value, r.value)
    ensures r.Ok? ==> (IsValid(r.value) <==> ExecutionVerifies(w, b, txId))
  {
    hide Locate, ExecutionEntryVerifies, IsValid, ExecutionChecks, Exact;
    var located := Locate(b, txId);
    if located.None? { return Err(NoSuchTransaction(txId)); }
    r := VerifyExecutionAt(w, b, located.value);
  }

  method VerifyExecutionAt(w: World, b: Blocks, e: Entry) returns (r: Result<Report, ResolutionError>)
    requires |b| > 0
    ensures r.Err? ==> !ExecutionEntryVerifies(w, b, e)
    ensures r.Ok? ==> SettlesExecution(w, b, e, r.value)
  {
    hide ExecutionChecks, IsValid, Exact, Reported, ResolutionFor, Resolution.ResolutionVerifies, Locate;
    hide Applied, OnlyExecution, Settles;
    ghost var holds := ExecutionChecks(w, b, e);
    NothingReported(holds);
    DecodesFirst(w, b, e);
    var report: Report := Push(holds, [], ExecutionCheck.Decodes, HoldsExecution(e));
    if !HoldsExecution(e) {
      ReportDecides(holds, report);
      return Ok(report);
    }
    var x := ExecutionOf(e);
    OuterMeanings(w, b, e, x);
    var located := Locate(b, x.resolutionTx);
    if located.None? {
      UnlocatedResolutionFails(w, b, x.resolutionTx);
      report := Push(holds, report, ResolutionVerifies, false);
      ReportDecides(holds, report);
      return Ok(report);
    }
    var resolution := VerifyEntry(w, b, located.value);
    LocatedResolutionMeans(w, b, x, located.value);
    if resolution.Err? {
      assert !holds(ResolutionVerifies);
      return Err(resolution.error);
    }
    SettlesMeans(w, b, located.value, resolution.value);
    report := Push(holds, report, ResolutionVerifies, IsValid(resolution.value));
    if !IsValid(resolution.value) {
      ReportDecides(holds, report);
      return Ok(report);
    }
    report := Push(holds, report, ResolutionAuthorisesThis, AmendsTarget(located.value, x.target));
    if !AmendsTarget(located.value, x.target) {
      ReportDecides(holds, report);
      return Ok(report);
    }
    report := VerifyLink(w, b, e, located.value, report);
    r := Ok(report);
  }

  lemma UnlocatedResolutionFails(w: World, b: Blocks, txId: TxId)
    requires Locate(b, txId).None?
    ensures !Resolution.ResolutionVerifies(w, b, txId)
  {
    hide ResolutionEntryVerifies;
  }

  lemma SettlesMeans(w: World, b: Blocks, e: Entry, report: Resolution.Report)
    requires Settles(w, b, e, report)
    ensures IsValid(report) <==> ResolutionEntryVerifies(w, b, e)
  {
    hide ResolutionEntryVerifies, IsValid, Exact;
  }

  lemma LocatedResolutionMeans(w: World, b: Blocks, x: Execution, e: Entry)
    requires b != [] && Locate(b, x.resolutionTx) == Some(e)
    ensures Resolution.ResolutionVerifies(w, b, x.resolutionTx) == ResolutionEntryVerifies(w, b, e)
    ensures ResolutionEntryVerifies(w, b, e) ==>
      HoldsResolution(w, e) && (ResolutionFor(w, b, x) == if AmendsTarget(e, x.target) then Some(e) else None)
  {
    hide ResolutionCheckHolds, HoldsResolution, Locate;
    if ResolutionEntryVerifies(w, b, e) {
      var holds := ResolutionChecks(w, b, e);
      assert holds(ResolutionCheck.Decodes);
      DecodesAlone(w, b, e);
    }
  }

  lemma LinkMeanings(w: World, b: Blocks, e: Entry, x: Execution, resolution: Entry, amendment: Entry,
      approval: Approval)
    requires b != [] && HoldsExecution(e) && x == ExecutionOf(e) && ResolutionFor(w, b, x) == Some(resolution)
    requires AmendmentFor(b, x, resolution.tx.body.payload.resolution.company) == Some(amendment)
    requires DecidedBy(b, resolution.tx.body.payload.resolution.authority).Some?
    requires DecidedBy(b, resolution.tx.body.payload.resolution.authority).value.approval == approval
    ensures var holds := ExecutionChecks(w, b, e);
      && holds(AmendmentExists)
      && holds(AmendmentMatchesResolution)
           == BodyMatches(w, amendment.tx.body.payload.text, resolution.tx.body.payload.resolution.kind.body, x,
               approval)
      && holds(AmendmentReplacedApprovedBase) == BaseReplaced(amendment.tx.body.payload.record, x, approval)
      && holds(SelfDemotionHolds) == DemotionStands(b, amendment, approval)
      && holds(ExecutionCheck.HeightsOrdered) == (resolution.height < amendment.height <= e.height)
  {
    hide ExecutionChecks, BodyMatches, BaseReplaced, DemotionStands, DecidedBy, Readable, M.Blank, AmendmentFor;
    hide ResolutionFor;
    InnerMeanings(w, b, e, x, resolution);
  }

  lemma NoAmendmentNoLink(w: World, b: Blocks, e: Entry, x: Execution, resolution: Entry)
    requires b != [] && HoldsExecution(e) && x == ExecutionOf(e) && ResolutionFor(w, b, x) == Some(resolution)
    requires AmendmentFor(b, x, resolution.tx.body.payload.resolution.company).None?
    ensures !ExecutionChecks(w, b, e)(AmendmentExists)
  {
    hide ExecutionChecks, DecidedBy, Readable, M.Blank, AmendmentFor, ResolutionFor;
    InnerMeanings(w, b, e, x, resolution);
  }

  lemma VerifiedResolutionDecides(w: World, b: Blocks, e: Entry)
    requires ResolutionEntryVerifies(w, b, e)
    ensures b != [] && HoldsResolution(w, e) && DecidedBy(b, e.tx.body.payload.resolution.authority).Some?
  {
    hide MeetingStands, AnswerStands, VoteStands, DecisionStands, DecidedBy, ScopeError, CompanyStands;
    hide GovernanceSignerAt, Readable, M.Blank, ResolutionEntryVerifies;
    ChecksGathered(w, b, e);
  }

  /** `published_body` and the two digest comparisons. */
  method BodyIsApproved(w: World, text: string, body: string, x: Execution, approval: Approval) returns (ok: bool)
    ensures ok == BodyMatches(w, text, body, x, approval)
  {
    hide Normalise;
    var published := false;
    for i := 0 to |text| + 1
      invariant published <==> exists j :: 0 <= j < i && HoldsAt(text, body, j)
    {
      if i + |body| <= |text| && text[i..i + |body|] == body {
        assert HoldsAt(text, body, i);
        published := true;
      }
    }
    ok := published && w.textDigest(Normalise(body)) == x.bodyDigest && x.bodyDigest == approval.proposalDigest;
  }

  /** The self-demotion check, against the company just before the amendment. */
  method DemotionIsSound(b: Blocks, amendment: Entry, approval: Approval) returns (ok: bool)
    requires |b| > 0 && amendment.tx.body.payload.CompanyPayload?
    ensures ok == DemotionStands(b, amendment, approval)
  {
    hide VerdictHolds, Reconstruct;
    if approval.actor.None? { return true; }
    if amendment.height == 0 { return false; }
    var before := ReconstructAt(b, amendment.height - 1);
    if before.Err? { return false; }
    ok := Verdict(approval.actor.value, before.value, amendment.tx.body.payload.record.body);
  }

  method AmendmentTookEffect(b: Blocks, height: nat, x: Execution) returns (ok: bool)
    requires |b| > 0
    ensures ok == Applied(b, height, x)
  {
    hide Reconstruct, HistoryIn;
    var company := ReconstructAt(b, height);
    if company.Err? { return false; }
    var history := company.value.HistoryOf(x.target.Kind());
    ok := exists r :: r in history && r.txId == x.amendmentTx;
  }

  method IsOnlyExecution(b: Blocks, txId: TxId, x: Execution) returns (ok: bool)
    ensures ok == OnlyExecution(b, txId, x)
  {
    var first := FindExecution(b, x.resolutionTx);
    ok := first.Some? && first.value.tx.id == txId;
  }

  /** The amendment and everything that ties it to the resolution. */
  method VerifyLink(w: World, b: Blocks, e: Entry, resolution: Entry, started: Report) returns (report: Report)
    requires |b| > 0 && HoldsExecution(e) && ResolutionFor(w, b, ExecutionOf(e)) == Some(resolution)
    requires ResolutionEntryVerifies(w, b, resolution)
    requires Exact(ExecutionChecks(w, b, e), started)
    requires ExecutionCheck.Decodes in Reported(started) && ResolutionVerifies in Reported(started)
    requires ResolutionAuthorisesThis in Reported(started)
    ensures SettlesExecution(w, b, e, report)
  {
    hide ExecutionChecks, IsValid, Exact, Reported, ResolutionFor, AmendmentFor, DecidedBy, Applied;
    hide OnlyExecution, BodyMatches, BaseReplaced, DemotionStands;
    hide ResolutionEntryVerifies, GovernanceSignerAt, Readable, M.Blank, Resolution.ResolutionVerifies;
    ghost var holds := ExecutionChecks(w, b, e);
    var x := ExecutionOf(e);
    OuterMeanings(w, b, e, x);
    VerifiedResolutionDecides(w, b, resolution);
    var record := resolution.tx.body.payload.resolution;
    var found := AmendmentFor(b, x, record.company);
    if found.None? {
      NoAmendmentNoLink(w, b, e, x, resolution);
      report := Push(holds, started, AmendmentExists, false);
      ReportDecides(holds, report);
      return;
    }
    var amendment, approval := found.value, DecidedBy(b, record.authority).value.approval;
    LinkMeanings(w, b, e, x, resolution, amendment, approval);
    var matches := BodyIsApproved(w, amendment.tx.body.payload.text, record.kind.body, x, approval);
    var demotes := DemotionIsSound(b, amendment, approval);
    var applied := AmendmentTookEffect(b, e.height, x);
    var once := IsOnlyExecution(b, e.tx.id, x);
    report := ReportLink(holds, started, matches, BaseReplaced(amendment.tx.body.payload.record, x, approval),
      demotes, applied,
      resolution.height < amendment.height <= e.height, GovernanceSignerAt(b, e.height, e.tx.body.signer), once);
    ReportDecides(holds, report);
  }

  /** The checks from the amendment on, in the order they are reported. */
  method ReportLink(ghost holds: ExecutionCheck -> bool, started: Report, matches: bool, replaced: bool, demotes: bool,
      applied: bool, ordered: bool, authorised: bool, once: bool) returns (report: Report)
    requires Exact(holds, started) && ExecutionCheck.Decodes in Reported(started)
    requires ResolutionVerifies in Reported(started)
    requires ResolutionAuthorisesThis in Reported(started) && holds(AmendmentExists)
    requires matches == holds(AmendmentMatchesResolution) && replaced == holds(AmendmentReplacedApprovedBase)
    requires demotes == holds(SelfDemotionHolds) && applied == holds(AmendmentApplied)
    requires ordered == holds(ExecutionCheck.HeightsOrdered)
    requires authorised == holds(ExecutionCheck.SignerAuthorised) && once == holds(ExecutedOnce)
    ensures Exact(holds, report) && report != [] && forall check :: check in Reported(report)
  {
    hide IsValid, Exact, Reported;
    report := Push(holds, started, AmendmentExists, true);
    report := Push(holds, report, AmendmentMatchesResolution, matches);
    report := Push(holds, report, AmendmentReplacedApprovedBase, replaced);
    report := Push(holds, report, SelfDemotionHolds, demotes);
    report := Push(holds, report, AmendmentApplied, applied);
    report := Push(holds, report, ExecutionCheck.HeightsOrdered, ordered);
    report := Push(holds, report, ExecutionCheck.SignerAuthorised, authorised);
    report := Push(holds, report, ExecutedOnce, once);
    forall check: ExecutionCheck ensures check in Reported(report) {
      match check case Decodes => case ResolutionVerifies => case ResolutionAuthorisesThis =>
      case AmendmentExists => case AmendmentMatchesResolution => case AmendmentReplacedApprovedBase =>
      case SelfDemotionHolds => case AmendmentApplied => case HeightsOrdered => case SignerAuthorised =>
      case ExecutedOnce =>
    }
  }
}
