/**
 What execution guarantees over whole runs: a record that verifies on one exact condition, one
 amendment for one resolution however often it is tried, one successor for each approved base,
 and no gain for a person amending on their own signature.
 */
module Outcomes {
  import opened Ordering
  import opened Parts
  import opened Records
  import opened Text
  import opened Ledger
  import opened History
  import opened Resolve
  import opened Demotion
  import opened Approvals
  import opened Resolution
  import opened Executions
  import M = Meeting

  // ---------------------------------------------------------------- verdicts are permanent

  lemma DemotionStandsStays(b: Blocks, b': Blocks, amendment: Entry, approval: Approval)
    requires b <= b' && |b| > 0 && amendment.height < |b| && amendment.tx.body.payload.CompanyPayload?
    ensures DemotionStands(b', amendment, approval) == DemotionStands(b, amendment, approval)
  {
    hide VerdictHolds, Reconstruct;
    if amendment.height > 0 { PastIsFixed(b, b', amendment.height - 1); }
  }

  lemma AppliedStays(b: Blocks, b': Blocks, height: nat, x: Execution)
    requires b <= b' && height < |b|
    ensures Applied(b', height, x) == Applied(b, height, x)
  {
    hide Reconstruct, HistoryIn;
    PastIsFixed(b, b', height);
  }

  /** With the amendment in place and the decision read the same, the link is sound on both ledgers or on neither. */
  lemma LinkStays(w: World, b: Blocks, b': Blocks, e: Entry, x: Execution, resolution: Entry)
    requires b <= b' && b != [] && e.height < |b| && HoldsResolution(w, resolution)
    requires resolution.tx.body.payload.resolution.kind.Amendment?
    requires Locate(b, x.amendmentTx).Some? && Locate(b', x.amendmentTx) == Locate(b, x.amendmentTx)
    requires var authority := resolution.tx.body.payload.resolution.authority;
      DecidedBy(b', authority) == DecidedBy(b, authority)
    ensures LinkIsSound(w, b', e, x, resolution) <==> LinkIsSound(w, b, e, x, resolution)
  {
    hide BodyMatches, BaseReplaced, DemotionStands, DecidedBy, Readable, M.Blank, Locate;
    var record := resolution.tx.body.payload.resolution;
    LocateStays(b, b', x.amendmentTx);
    if AmendmentFor(b, x, record.company).Some? && DecidedBy(b, record.authority).Some? {
      DemotionStandsStays(b, b', AmendmentFor(b, x, record.company).value,
          DecidedBy(b, record.authority).value.approval);
    }
  }

  lemma DecisionOfVerified(w: World, b: Blocks, b': Blocks, txId: TxId)
    requires b <= b' && Resolution.ResolutionVerifies(w, b, txId)
    ensures Locate(b, txId).Some? && HoldsResolution(w, Locate(b, txId).value)
    ensures var authority := Locate(b, txId).value.tx.body.payload.resolution.authority;
      b != [] && DecidedBy(b, authority).Some? && DecidedBy(b', authority) == DecidedBy(b, authority)
  {
    hide AuthorityStands, CompanyStands, GovernanceSignerAt, Readable, M.Blank, Locate, DecidedBy;
    hide ResolutionEntryVerifies;
    var e := Locate(b, txId).value;
    ChecksGathered(w, b, e);
    var record := e.tx.body.payload.resolution;
    AuthorityIsPermanent(w, b, b', record.authority, record.kind);
    StandingDecides(w, b, record.authority, record.kind);
  }

  lemma StandingDecides(w: World, b: Blocks, authority: Authority, kind: ResolutionKind)
    requires |b| > 0 && AuthorityStands(w, b, authority, kind)
    ensures DecidedBy(b, authority).Some?
  {
    hide MeetingStands, AnswerStands, VoteStands, DecisionStands, DecidedBy, ScopeError;
  }

  /** Given the resolution and the amendment in place, everything asked of an execution comes out the same. */
  lemma ExecutionSoundnessStays(w: World, b: Blocks, b': Blocks, e: Entry, x: Execution)
    requires b <= b' && b != [] && e.height < |b| && e in Entries(b) && HoldsExecution(e) && x == ExecutionOf(e)
    requires Locate(b, x.resolutionTx).Some? && Locate(b, x.amendmentTx).Some?
    ensures ExecutionIsSound(w, b', e) <==> ExecutionIsSound(w, b, e)
  {
    hide Resolution.ResolutionVerifies, LinkIsSound, Applied, GovernanceSignerAt, Locate, DecidedBy, Readable, M.Blank;
    hide Entries, First;
    ResolutionVerdictIsPermanent(w, b, b', x.resolutionTx);
    LocateStays(b, b', x.amendmentTx);
    if Resolution.ResolutionVerifies(w, b, x.resolutionTx) {
      DecisionOfVerified(w, b, b', x.resolutionTx);
      var resolution := ResolutionFor(w, b, x);
      if resolution.Some? { LinkStays(w, b, b', e, x, resolution.value); }
    }
    AppliedStays(b, b', e.height, x);
    GovernanceSignerStays(b, b', e.height, e.tx.body.signer);
    assert Executes(x.resolutionTx)(e);
    FoundStays(b, b', x.resolutionTx);
  }

  /** What a sound execution names is on the ledger below it. */
  lemma SoundNames(w: World, b: Blocks, e: Entry)
    requires ExecutionIsSound(w, b, e)
    ensures var x := ExecutionOf(e);
      && Locate(b, x.resolutionTx).Some? && Locate(b, x.resolutionTx).value.height <= e.height
      && Locate(b, x.amendmentTx).Some? && Locate(b, x.amendmentTx).value.height <= e.height
  {
    hide Resolution.ResolutionVerifies, Applied, GovernanceSignerAt, Locate, DecidedBy, Readable, M.Blank;
    hide BodyMatches, BaseReplaced, DemotionStands, OnlyExecution;
  }

  /** Everything an execution names lies below it, so nothing appended later has a say in the verdict. */
  lemma ExecutionEntryStays(w: World, b: Blocks, b': Blocks, e: Entry)
    requires b <= b' && b != [] && e.height < |b| && e in Entries(b)
    ensures ExecutionEntryVerifies(w, b', e) <==> ExecutionEntryVerifies(w, b, e)
  {
    hide ExecutionEntryVerifies, Resolution.ResolutionVerifies, LinkIsSound, Applied, GovernanceSignerAt, Locate;
    hide Entries, OnlyExecution;
    ExecutionGathered(w, b, e);
    ExecutionGathered(w, b', e);
    if ExecutionIsSound(w, b, e) {
      SoundNames(w, b, e);
      ExecutionSoundnessStays(w, b, b', e, ExecutionOf(e));
    } else if ExecutionIsSound(w, b', e) {
      SoundNames(w, b', e);
      LocatedBelow(b, b', ExecutionOf(e).resolutionTx);
      LocatedBelow(b, b', ExecutionOf(e).amendmentTx);
      ExecutionSoundnessStays(w, b, b', e, ExecutionOf(e));
    }
  }

  /** The verdict on an execution, once it is on the ledger, never changes, whatever is appended. */
  lemma ExecutionVerdictIsPermanent(w: World, b: Blocks, b': Blocks, txId: TxId)
    requires b <= b' && Locate(b, txId).Some?
    ensures ExecutionVerifies(w, b', txId) <==> ExecutionVerifies(w, b, txId)
    ensures Locate(b', txId) == Locate(b, txId)
  {
    hide ExecutionEntryVerifies, First;
    LocateStays(b, b', txId);
    ExecutionEntryStays(w, b, b', Locate(b, txId).value);
  }

  // ---------------------------------------------------------------- the execution round trip

  /** Reading a body and reading it normalised give the same document, if the body reads at all. */
  predicate ReadsThrough(w: World, target: Target, body: string) {
    w.read(target.Kind(), body).Some? ==> w.read(target.Kind(), Normalise(body)) == w.read(target.Kind(), body)
  }

  /** What a successful attempt knew and did, unpacked. */
  lemma ExecutedFacts(w: World, r: ResolutionState, b: Blocks, key: PublicKey, notarisation: Notarisation,
      answers: seq<bool>)
    requires |b| > 0 && Formed(r) && ExecuteResolution(w, r, b, key, notarisation, answers).published.Some?
    ensures r.status == Finalized && r.kind.Amendment? && r.finalized.Some?
    ensures CheckedExecution(w, r, b, key).Ok?
    ensures CheckedAuthority(w, b, r.authority, r.kind) == CheckedExecution(w, r, b, key)
    ensures FoundExecution(b, r.finalized.value.0).None? && CompanyNow(b).Ok?
    ensures var approval := CheckedExecution(w, r, b, key).value;
      && CompanyNow(b).value.ProviderOf(r.kind.target.Kind()) == approval.BaseOf(r.kind.target)
      && DemotionError(w, CompanyNow(b).value, approval, r.kind.target, r.kind.body).None?
      && MaySign(CompanyNow(b).value, GovernanceFamily, key)
      && PublishOn(w, b, Says(answers), key, r.kind.target.Kind(), r.kind.body, Some(approval.BaseOf(r.kind.target)),
           notarisation).0
         == Ok(ExecuteResolution(w, r, b, key, notarisation, answers).published.value)
  {
    hide CheckedAuthority, Reconstruct, MaySign, FoundExecution, DemotionError, PublishOn, ApprovedDigest, Locate;
  }

  /** The ledger right after the amendment. */
  function AfterPublishing(w: World, r: ResolutionState, b: Blocks, key: PublicKey, notarisation: Notarisation,
      answers: seq<bool>, approval: Approval): Blocks
    requires |b| > 0 && r.kind.Amendment?
  {
    PublishOn(w, b, Says(answers), key, r.kind.target.Kind(), r.kind.body, Some(approval.BaseOf(r.kind.target)),
        notarisation).1
  }

  /** The amendment as it sits on the ledger: its record, its place, and its body embedded in its text. */
  lemma PublishedIsThere(w: World, b: Blocks, works: bool, key: PublicKey, kind: RecordKind, body: string,
      supersedes: Option<TxId>, notarisation: Notarisation)
    requires |b| > 0 && PublishOn(w, b, works, key, kind, body, supersedes, notarisation).0.Ok?
    ensures var (res, b') := PublishOn(w, b, works, key, kind, body, supersedes, notarisation); var r := res.value;
      && |b'| == |b| + 1 && b <= b' && r.height == |b| && Locate(b, r.txId).None?
      && Locate(b', r.txId).Some? && var e := Locate(b', r.txId).value;
         && e.height == |b| && e.tx.id == r.txId && e.tx.body.payload.CompanyPayload?
              && e.tx.body.payload.record == r.record
         && Contains(e.tx.body.payload.text, Normalise(body))
         && b' == b + [[e.tx]] && IsIrena(e.tx)
  {
    hide Reconstruct, MaySign, LockedOutBy, Normalise, Contains, Locate;
    var c, element := CompanyNow(b).value, Normalise(body);
    var tx := AmendmentTx(w, c, key, kind, element, supersedes, notarisation, |b|);
    RefusalKinds(w, c, key, kind, element, supersedes, notarisation);
    AppendedIsLocated(b, tx);
    Embedded(w.envelope(kind, c.company, supersedes, notarisation), element, "\n</irena-record>");
  }

  lemma ExecutedShape(w: World, r: ResolutionState, b: Blocks, key: PublicKey, notarisation: Notarisation,
      answers: seq<bool>)
    requires |b| > 0 && Formed(r) && ExecuteResolution(w, r, b, key, notarisation, answers).error.None?
    ensures var x := ExecuteResolution(w, r, b, key, notarisation, answers);
      && x.published.Some? && r.kind.Amendment? && r.finalized.Some? && CheckedExecution(w, r, b, key).Ok?
      && var approval := CheckedExecution(w, r, b, key).value;
         var b1 := AfterPublishing(w, r, b, key, notarisation, answers, approval);
         var tx := ExecutionTx(w, r.company, notarisation, LinkOf(r, w, approval, x.published.value.txId), key, |b1|);
         && x.blocks == b1 + [[tx]] && Locate(b1, tx.id).None?
         && x.resolution.executed.Some? && x.resolution.executed.value.executionTx == tx.id
  {
    hide CheckedAuthority, Reconstruct, MaySign, FoundExecution, DemotionError, PublishOn, ApprovedDigest, Locate;
  }

  /** The verdict the verifier reaches on the published body is the one the lifecycle reached on the body offered. */
  lemma SameVerdict(w: World, c: Company, approval: Approval, target: Target, body: string, published: RecordBody)
    requires DemotionError(w, c, approval, target, body).None? && ReadsThrough(w, target, body)
    requires w.read(target.Kind(), Normalise(body)) == Some(published) && published.Kind() == target.Kind()
    ensures approval.actor.Some? ==> VerdictHolds(approval.actor.value, c, published)
  {
    hide KeepsToSeats, LeavesOthersAlone, GainsNoFamily, Normalise;
  }

  lemma FiledCompany(w: World, r: ResolutionState, b: Blocks)
    requires Filed(w, r, b) && CompanyNow(b).Ok?
    ensures CompanyNow(b).value.company == r.company
  {
    hide AuthorityStands, GovernanceSignerAt, HoldsResolution, DecidedBy, Locate, Reconstruct;
    CompanyIsFixed(b, r.finalized.value.1, |b| - 1);
  }

  /** The amendment as the verifier will find it. */
  lemma AmendmentIsFound(w: World, r: ResolutionState, b: Blocks, key: PublicKey, notarisation: Notarisation,
      answers: seq<bool>, tx: Tx)
    requires |b| > 0 && Formed(r) && Filed(w, r, b)
    requires ExecuteResolution(w, r, b, key, notarisation, answers).published.Some?
    ensures var approval := CheckedExecution(w, r, b, key).value;
      var ref := ExecuteResolution(w, r, b, key, notarisation, answers).published.value;
      var b2 := AfterPublishing(w, r, b, key, notarisation, answers, approval) + [[tx]];
      var link := LinkOf(r, w, approval, ref.txId);
      && AmendmentFor(b2, link, r.company).Some?
      && var amendment := AmendmentFor(b2, link, r.company).value;
         && amendment.height == |b| && amendment.tx.body.payload.record == ref.record
         && Contains(amendment.tx.body.payload.text, Normalise(r.kind.body))
         && BaseReplaced(ref.record, link, approval)
         && (ReadsThrough(w, r.kind.target, r.kind.body) ==> DemotionStands(b2, amendment, approval))
  {
    hide Reconstruct, PublishOn, CheckedExecution, ExecuteResolution, Filed, Contains, Normalise, VerdictHolds;
    hide MaySign, ApprovedDigest, DemotionError, Replaced, ReadsThrough, Locate;
    ExecutedFacts(w, r, b, key, notarisation, answers);
    var approval := CheckedExecution(w, r, b, key).value;
    var kind, base := r.kind.target.Kind(), approval.BaseOf(r.kind.target);
    PublishedIsThere(w, b, Says(answers), key, kind, r.kind.body, Some(base), notarisation);
    PublishedTakesEffect(w, b, Says(answers), key, kind, r.kind.body, Some(base), notarisation);
    FiledCompany(w, r, b);
    var b1 := AfterPublishing(w, r, b, key, notarisation, answers, approval);
    var ref := ExecuteResolution(w, r, b, key, notarisation, answers).published.value;
    LocateStays(b1, b1 + [[tx]], ref.txId);
    PastIsFixed(b, b1 + [[tx]], |b| - 1);
    if ReadsThrough(w, r.kind.target, r.kind.body) {
      SameVerdict(w, CompanyNow(b).value, approval, r.kind.target, r.kind.body, ref.record.body);
    }
  }

  /** A published amendment is in the history of its part. */
  lemma PublishedIsInHistory(w: World, b: Blocks, works: bool, key: PublicKey, kind: RecordKind, body: string,
      supersedes: Option<TxId>, notarisation: Notarisation)
    requires |b| > 0 && PublishOn(w, b, works, key, kind, body, supersedes, notarisation).0.Ok?
    ensures var (res, b') := PublishOn(w, b, works, key, kind, body, supersedes, notarisation);
      |b'| == |b| + 1 && CompanyNow(b').Ok? && res.value in CompanyNow(b').value.HistoryOf(kind)
  {
    hide Reconstruct, PublishOn, HistoryIn, MaySign, Normalise, LockedOutBy, Locate, Contains;
    var (res, b') := PublishOn(w, b, works, key, kind, body, supersedes, notarisation);
    PublishedIsThere(w, b, works, key, kind, body, supersedes, notarisation);
    PublishedTakesEffect(w, b, works, key, kind, body, supersedes, notarisation);
    var c := CompanyNow(b').value;
    assert res.value in c.applied by { assert c.applied[|c.applied| - 1] == res.value; }
    HistoryIsApplied(c.applied, kind);
  }

  lemma StillApplied(b: Blocks, tx: Tx, x: Execution, r: RecordRef)
    requires |b| > 0 && !IsIrena(tx) && CompanyNow(b).Ok?
    requires r in CompanyNow(b).value.HistoryOf(x.target.Kind()) && r.txId == x.amendmentTx
    ensures Applied(b + [[tx]], |b|, x)
  {
    hide Fold, HistoryIn;
    OtherRecordsChangeNothing(b, tx);
  }

  /** The published amendment is in the company's history from its own block on. */
  lemma AmendmentIsApplied(w: World, r: ResolutionState, b: Blocks, key: PublicKey, notarisation: Notarisation,
      answers: seq<bool>, tx: Tx)
    requires |b| > 0 && Formed(r)
    requires ExecuteResolution(w, r, b, key, notarisation, answers).published.Some? && !IsIrena(tx)
    ensures var approval := CheckedExecution(w, r, b, key).value;
      var ref := ExecuteResolution(w, r, b, key, notarisation, answers).published.value;
      var b1 := AfterPublishing(w, r, b, key, notarisation, answers, approval);
      && CompanyNow(b1).Ok? && |b1| == |b| + 1
      && Applied(b1 + [[tx]], |b1|, LinkOf(r, w, approval, ref.txId))
      && GovernanceSignerAt(b1 + [[tx]], |b1|, key) == MaySign(CompanyNow(b1).value, GovernanceFamily, key)
  {
    hide Reconstruct, PublishOn, CheckedExecution, ExecuteResolution, MaySign, ApprovedDigest, HistoryIn;
    hide IsIrena, Applied, DemotionError;
    ExecutedFacts(w, r, b, key, notarisation, answers);
    var approval := CheckedExecution(w, r, b, key).value;
    var kind, base := r.kind.target.Kind(), approval.BaseOf(r.kind.target);
    PublishedIsInHistory(w, b, Says(answers), key, kind, r.kind.body, Some(base), notarisation);
    var b1 := AfterPublishing(w, r, b, key, notarisation, answers, approval);
    var ref := ExecuteResolution(w, r, b, key, notarisation, answers).published.value;
    StillApplied(b1, tx, LinkOf(r, w, approval, ref.txId), ref);
    GovernanceSignerAfter(b1, tx, key);
  }

  /** The record written is the first execution of the resolution, and it is found. */
  lemma LinkIsFirst(b: Blocks, amendment: Tx, tx: Tx, resolutionTx: TxId)
    requires FoundExecution(b, resolutionTx).None? && IsIrena(amendment)
    requires tx.body.ns == ExecutionNs && tx.body.payload.ExecutionPayload?
    requires tx.body.payload.execution.execution.resolutionTx == resolutionTx
    ensures FoundExecution(b + [[amendment]] + [[tx]], resolutionTx) == Some(Entry(|b| + 1, 0, tx))
  {
    hide Entries, First;
    var p := Executes(resolutionTx);
    OneMoreBlock(b, amendment);
    OneMoreBlock(b + [[amendment]], tx);
    FirstSnoc(p, Entries(b), Entry(|b|, 0, amendment));
    FirstSnoc(p, Entries(b + [[amendment]]), Entry(|b| + 1, 0, tx));
  }

  lemma ResolutionIsFound(w: World, r: ResolutionState, b: Blocks, x: Execution)
    requires Filed(w, r, b) && r.kind.Amendment? && x.resolutionTx == r.finalized.value.0 && x.target == r.kind.target
    ensures ResolutionFor(w, b, x) == Locate(b, r.finalized.value.0) && ResolutionFor(w, b, x).Some?
    ensures var record := ResolutionFor(w, b, x).value.tx.body.payload.resolution;
      record.company == r.company && record.authority == r.authority && record.kind == Recorded(r.kind)
      && ResolutionFor(w, b, x).value.height == r.finalized.value.1 < |b|
  {
    hide AuthorityStands, CompanyStands, GovernanceSignerAt, Readable, M.Blank, Locate, DecidedBy, DecidedBefore;
  }

  /**
   Whether the body, put in the place of its part in the company as it is, leaves the key its
   right to sign governance records: asked of the identities or of the authorisation it carries.
   A register or a channel set has no say in who signs.
   */
  predicate LeavesTheKey(w: World, c: Company, target: Target, body: string, key: PublicKey) {
    var read := w.read(target.Kind(), Normalise(body));
    match target
    case TargetPersons =>
      && read.Some? && read.value.PersonsBody?
      && SignerOf(read.value.newPersons, c.authorisation.value, GovernanceFamily, key).Some?
    case TargetAuthorisation =>
      && read.Some? && read.value.AuthorisationBody?
      && SignerOf(c.persons.value, read.value.newAuthorisation, GovernanceFamily, key).Some?
    case TargetShares => true
    case TargetChannels => true
  }

  /** The condition an executed resolution verifies on, asked of its body and of the company before the call. */
  predicate Survives(w: World, c: Company, kind: ResolutionKind, key: PublicKey)
    requires kind.Amendment?
  {
    Settled(w, kind) && LeavesTheKey(w, c, kind.target, kind.body, key)
  }

  /** What the amended company answers about a key is known before the amendment. */
  lemma KeyIsForeseen(w: World, b: Blocks, works: bool, key: PublicKey, target: Target, body: string,
      supersedes: Option<TxId>, notarisation: Notarisation)
    requires |b| > 0 && PublishOn(w, b, works, key, target.Kind(), body, supersedes, notarisation).0.Ok?
    requires CompanyNow(b).Ok? && MaySign(CompanyNow(b).value, GovernanceFamily, key)
    ensures var b' := PublishOn(w, b, works, key, target.Kind(), body, supersedes, notarisation).1;
      && |b'| > 0 && CompanyNow(b').Ok?
      && (MaySign(CompanyNow(b').value, GovernanceFamily, key)
          <==> LeavesTheKey(w, CompanyNow(b).value, target, body, key))
  {
    hide Reconstruct, PublishOn, SignerOf, Normalise, Locate;
    PublishedIsThere(w, b, works, key, target.Kind(), body, supersedes, notarisation);
    PublishedTakesEffect(w, b, works, key, target.Kind(), body, supersedes, notarisation);
  }

  lemma BodySurvives(w: World, kind: ResolutionKind, text: string, x: Execution, approval: Approval)
    requires kind.Amendment? && Contains(text, Normalise(kind.body))
    requires x.bodyDigest == ApprovedDigest(w, kind) == approval.proposalDigest
    ensures BodyMatches(w, text, Normalise(kind.body), x, approval) == KeepsDigest(w, kind)
  {
    hide Contains, Normalise;
  }

  lemma CheckedApproval(w: World, r: ResolutionState, b: Blocks, key: PublicKey)
    requires |b| > 0 && Formed(r) && CheckedExecution(w, r, b, key).Ok?
    ensures DecidedBy(b, r.authority).Some?
    ensures CheckedExecution(w, r, b, key).value == DecidedBy(b, r.authority).value.approval
    ensures ApprovedDigest(w, r.kind) == CheckedExecution(w, r, b, key).value.proposalDigest
  {
    hide CheckedSource, Reconstruct, MaySign, FoundExecution, DemotionError, ApprovedDigest, DecidedBy;
    hide ScopeError, AuthorityStands;
    LifecycleAndVerifierAgree(w, b, r.authority, r.kind);
  }

  /** Every link check of the record a successful attempt writes, at once. */
  lemma ExecutedLink(w: World, r: ResolutionState, b: Blocks, key: PublicKey, notarisation: Notarisation,
      answers: seq<bool>, tx: Tx)
    requires |b| > 0 && Formed(r) && Filed(w, r, b)
    requires ExecuteResolution(w, r, b, key, notarisation, answers).published.Some?
    requires r.kind.Amendment? && ReadsThrough(w, r.kind.target, r.kind.body)
    ensures var approval := CheckedExecution(w, r, b, key).value;
      var link := LinkOf(r, w, approval, ExecuteResolution(w, r, b, key, notarisation, answers).published.value.txId);
      var b2 := AfterPublishing(w, r, b, key, notarisation, answers, approval) + [[tx]];
      && ResolutionFor(w, b2, link).Some?
      && LinkIsSound(w, b2, Entry(|b| + 1, 0, tx), link, ResolutionFor(w, b2, link).value) == KeepsDigest(w, r.kind)
  {
    hide Reconstruct, PublishOn, CheckedExecution, ExecuteResolution, Filed, Contains, Normalise, MaySign;
    hide ApprovedDigest, DemotionError;
    hide AmendmentFor, DecidedBy, ResolutionFor, BaseReplaced, DemotionStands, BodyMatches, KeepsDigest;
    hide ReadsThrough, Locate, Readable, M.Blank;
    ExecutedFacts(w, r, b, key, notarisation, answers);
    CheckedApproval(w, r, b, key);
    AmendmentIsFound(w, r, b, key, notarisation, answers, tx);
    var approval := CheckedExecution(w, r, b, key).value;
    PublishedIsThere(w, b, Says(answers), key, r.kind.target.Kind(), r.kind.body, Some(approval.BaseOf(r.kind.target)),
        notarisation);
    var b2 := AfterPublishing(w, r, b, key, notarisation, answers, approval) + [[tx]];
    var link := LinkOf(r, w, approval, ExecuteResolution(w, r, b, key, notarisation, answers).published.value.txId);
    FiledStays(w, r, b, b2);
    ResolutionIsFound(w, r, b, link);
    ResolutionIsFound(w, r, b2, link);
    BodySurvives(w, r.kind, AmendmentFor(b2, link, r.company).value.tx.body.payload.text, link, approval);
  }

  /** Where a successful attempt leaves its record. */
  lemma ExecutedPlace(w: World, r: ResolutionState, b: Blocks, key: PublicKey, notarisation: Notarisation,
      answers: seq<bool>)
    requires |b| > 0 && Formed(r) && ExecuteResolution(w, r, b, key, notarisation, answers).error.None?
    ensures var x := ExecuteResolution(w, r, b, key, notarisation, answers);
      && x.published.Some? && r.kind.Amendment? && r.finalized.Some? && CheckedExecution(w, r, b, key).Ok?
      && var approval := CheckedExecution(w, r, b, key).value;
         var b1 := AfterPublishing(w, r, b, key, notarisation, answers, approval);
         var tx := ExecutionTx(w, r.company, notarisation, LinkOf(r, w, approval, x.published.value.txId), key, |b1|);
         && |b1| == |b| + 1 && b <= b1 && x.blocks == b1 + [[tx]]
         && x.resolution.executed.Some? && x.resolution.executed.value.executionTx == tx.id
         && Locate(x.blocks, tx.id) == Some(Entry(|b1|, 0, tx))
  {
    hide Reconstruct, PublishOn, CheckedExecution, ExecuteResolution, ApprovedDigest, Locate, Normalise;
    hide Contains, DemotionError;
    ExecutedShape(w, r, b, key, notarisation, answers);
    ExecutedFacts(w, r, b, key, notarisation, answers);
    var x, approval := ExecuteResolution(w, r, b, key, notarisation, answers), CheckedExecution(w, r, b, key).value;
    var b1 := AfterPublishing(w, r, b, key, notarisation, answers, approval);
    PublishedIsThere(w, b, Says(answers), key, r.kind.target.Kind(), r.kind.body, Some(approval.BaseOf(r.kind.target)),
        notarisation);
    AppendedIsLocated(b1,
        ExecutionTx(w, r.company, notarisation, LinkOf(r, w, approval, x.published.value.txId), key, |b1|));
  }

  /** The record written is the only execution of its resolution. */
  lemma ExecutedOnlyOnce(w: World, r: ResolutionState, b: Blocks, key: PublicKey, notarisation: Notarisation,
      answers: seq<bool>, tx: Tx, link: Execution)
    requires |b| > 0 && Formed(r) && ExecuteResolution(w, r, b, key, notarisation, answers).published.Some?
    requires HoldsExecution(Entry(0, 0, tx)) && ExecutionOf(Entry(0, 0, tx)) == link
    requires r.finalized.Some? && link.resolutionTx == r.finalized.value.0
    ensures r.kind.Amendment? && CheckedExecution(w, r, b, key).Ok?
    ensures OnlyExecution(AfterPublishing(w, r, b, key, notarisation, answers, CheckedExecution(w, r, b, key).value) +
      [[tx]], tx.id, link)
  {
    hide Reconstruct, PublishOn, CheckedExecution, ExecuteResolution, FoundExecution, Locate, Normalise;
    hide Contains, DemotionError, IsIrena;
    ExecutedFacts(w, r, b, key, notarisation, answers);
    var approval := CheckedExecution(w, r, b, key).value;
    PublishedIsThere(w, b, Says(answers), key, r.kind.target.Kind(), r.kind.body, Some(approval.BaseOf(r.kind.target)),
        notarisation);
    var b1 := AfterPublishing(w, r, b, key, notarisation, answers, approval);
    var amendment := Locate(b1, ExecuteResolution(w, r, b, key, notarisation, answers).published.value.txId).value.tx;
    LinkIsFirst(b, amendment, tx, r.finalized.value.0);
  }

  /** The record a successful attempt writes, judged on the ledger it leaves. */
  lemma ExecutedVerifiesNow(w: World, r: ResolutionState, b: Blocks, key: PublicKey, notarisation: Notarisation,
      answers: seq<bool>)
    requires |b| > 0 && Formed(r) && Filed(w, r, b)
    requires ExecuteResolution(w, r, b, key, notarisation, answers).error.None?
    requires r.kind.Amendment? && ReadsThrough(w, r.kind.target, r.kind.body) && CheckedExecution(w, r, b, key).Ok?
    ensures var x := ExecuteResolution(w, r, b, key, notarisation, answers);
      var b1 := AfterPublishing(w, r, b, key, notarisation, answers, CheckedExecution(w, r, b, key).value);
      && |b1| > 0 && x.resolution.executed.Some?
      && (ExecutionVerifies(w, x.blocks, x.resolution.executed.value.executionTx) <==>
          KeepsDigest(w, r.kind) && CompanyNow(b1).Ok? && MaySign(CompanyNow(b1).value, GovernanceFamily, key))
      && (GovernanceSignerAt(x.blocks, |b1|, key) ==>
           CompanyNow(b1).Ok? && MaySign(CompanyNow(b1).value, GovernanceFamily, key))
  {
    hide Reconstruct, AfterPublishing, CheckedExecution, ExecuteResolution, MaySign, ApprovedDigest, Filed;
    hide LinkIsSound, Applied, ResolutionFor, Resolution.ResolutionVerifies;
    hide ExecutionEntryVerifies, OnlyExecution, GovernanceSignerAt, KeepsDigest, ReadsThrough, Locate;
    ExecutedPlace(w, r, b, key, notarisation, answers);
    var x := ExecuteResolution(w, r, b, key, notarisation, answers);
    var approval := CheckedExecution(w, r, b, key).value;
    var b1 := AfterPublishing(w, r, b, key, notarisation, answers, approval);
    var link := LinkOf(r, w, approval, x.published.value.txId);
    var tx := ExecutionTx(w, r.company, notarisation, link, key, |b1|);
    FiledStays(w, r, b, x.blocks);
    FiledVerifies(w, r, x.blocks);
    ExecutedLink(w, r, b, key, notarisation, answers, tx);
    AmendmentIsApplied(w, r, b, key, notarisation, answers, tx);
    ExecutedOnlyOnce(w, r, b, key, notarisation, answers, tx, link);
    ExecutionGathered(w, x.blocks, Entry(|b1|, 0, tx));
  }

  /** The same verdict on every extension. */
  lemma ExecutedVerifiesLater(w: World, r: ResolutionState, b: Blocks, key: PublicKey, notarisation: Notarisation,
      answers: seq<bool>, later: Blocks)
    requires |b| > 0 && Formed(r) && Filed(w, r, b)
    requires ExecuteResolution(w, r, b, key, notarisation, answers).error.None?
    requires r.kind.Amendment? && ReadsThrough(w, r.kind.target, r.kind.body) && CheckedExecution(w, r, b, key).Ok?
    requires ExecuteResolution(w, r, b, key, notarisation, answers).blocks <= later
    ensures var x := ExecuteResolution(w, r, b, key, notarisation, answers);
      var b1 := AfterPublishing(w, r, b, key, notarisation, answers, CheckedExecution(w, r, b, key).value);
      && |b1| > 0 && x.resolution.executed.Some?
      && (ExecutionVerifies(w, later, x.resolution.executed.value.executionTx) <==>
          KeepsDigest(w, r.kind) && CompanyNow(b1).Ok? && MaySign(CompanyNow(b1).value, GovernanceFamily, key))
  {
    hide ExecuteResolution, Filed, CheckedExecution, AfterPublishing, ReadsThrough, Reconstruct, MaySign;
    hide KeepsDigest, ExecutionEntryVerifies, Locate, GovernanceSignerAt, CompanyNow, ApprovedDigest;
    ExecutedPlace(w, r, b, key, notarisation, answers);
    ExecutedVerifiesNow(w, r, b, key, notarisation, answers);
    var x := ExecuteResolution(w, r, b, key, notarisation, answers);
    var b1 := AfterPublishing(w, r, b, key, notarisation, answers, CheckedExecution(w, r, b, key).value);
    ExecutionVerdictIsPermanent(w, x.blocks, later, x.resolution.executed.value.executionTx);
  }

  /**
   The execution round trip, with its exact condition. A resolution filed on the ledger, whatever
   blocks came after it, and an attempt to execute it that succeeds: the record it writes passes
   every check, on its ledger and on every extension, if and only if no declaration is left in
   front of the body (or the digest does not notice it) and the body, in the company as it was
   before the call, leaves the executing key its right to sign governance records. The lifecycle
   asks the company before its own amendment for that right; the verifier asks the one after.
   */
  lemma ExecutionRoundTrip(w: World, r: ResolutionState, b: Blocks, key: PublicKey, notarisation: Notarisation,
      answers: seq<bool>, later: Blocks)
    requires |b| > 0 && Formed(r) && Filed(w, r, b)
    requires ExecuteResolution(w, r, b, key, notarisation, answers).error.None?
    requires r.kind.Amendment? && ReadsThrough(w, r.kind.target, r.kind.body)
    requires ExecuteResolution(w, r, b, key, notarisation, answers).blocks <= later
    ensures var x := ExecuteResolution(w, r, b, key, notarisation, answers);
      && CompanyNow(b).Ok? && x.resolution.executed.Some?
      && (ExecutionVerifies(w, later, x.resolution.executed.value.executionTx) <==>
          Survives(w, CompanyNow(b).value, r.kind, key))
  {
    hide ExecuteResolution, Filed, CheckedExecution, ReadsThrough, Reconstruct, MaySign, Normalise;
    hide KeepsDigest, ExecutionVerifies, Locate, ApprovedDigest, PublishOn, LeavesTheKey, Settled;
    hide DemotionError, FoundExecution;
    ExecutedPlace(w, r, b, key, notarisation, answers);
    ExecutedFacts(w, r, b, key, notarisation, answers);
    ExecutedVerifiesLater(w, r, b, key, notarisation, answers, later);
    NormalKeepsDigest(w, r.kind);
    var approval := CheckedExecution(w, r, b, key).value;
    KeyIsForeseen(w, b, Says(answers), key, r.kind.target, r.kind.body, Some(approval.BaseOf(r.kind.target)),
        notarisation);
  }

  lemma NormalIsPlain(w: World, target: Target, body: string)
    requires Normalise(body) == body
    ensures Settled(w, Amendment(target, body)) && ReadsThrough(w, target, body)
  {
    hide Normalise, Declared;
    NormaliseTwice(body);
  }

  /** For a body that is already normal, the one condition left is the key. */
  lemma NormalBodyRoundTrip(w: World, r: ResolutionState, b: Blocks, key: PublicKey, notarisation: Notarisation,
      answers: seq<bool>, later: Blocks)
    requires |b| > 0 && Formed(r) && Filed(w, r, b)
    requires ExecuteResolution(w, r, b, key, notarisation, answers).error.None?
    requires r.kind.Amendment? && Normalise(r.kind.body) == r.kind.body
    requires ExecuteResolution(w, r, b, key, notarisation, answers).blocks <= later
    ensures var x := ExecuteResolution(w, r, b, key, notarisation, answers);
      && CompanyNow(b).Ok? && x.resolution.executed.Some?
      && (ExecutionVerifies(w, later, x.resolution.executed.value.executionTx) <==>
          LeavesTheKey(w, CompanyNow(b).value, r.kind.target, r.kind.body, key))
  {
    hide ExecuteResolution, Filed, ReadsThrough, Reconstruct, LeavesTheKey, Settled, ExecutionVerifies, Normalise;
    NormalIsPlain(w, r.kind.target, r.kind.body);
    ExecutionRoundTrip(w, r, b, key, notarisation, answers, later);
  }
}
