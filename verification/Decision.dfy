/** The individual decision: one signature over a frozen snapshot, and its verification from the ledger alone. */
module Decision {
  import opened Bytes
  import opened Ordering
  import opened Parts
  import opened Records
  import opened Ledger
  import opened Resolve

  datatype DecisionStatus = Draft | Frozen | Signed | Finalized

  datatype DecisionError =
    | InvalidTransition(from: DecisionStatus)
    | LedgerFailed(ledger: LedgerError)
    | ChannelFailed(resolve: ResolveError)
    | NotIndividual(channel: Id)
    | NoKey(channel: Id, actor: Id)
    | WrongKey(actor: Id)
    | BadSignature
    | ChannelsMoved
    | DecisionNotAppended

  /** The whole state of a decision. */
  datatype DecisionState = DecisionState(
    status: DecisionStatus, subject: string, proposalDigest: Digest,
    snapshot: Option<DecisionSnapshot>, signature: Option<Signature>, finalized: Option<(TxId, nat)>)

  function DraftDecision(subject: string, proposalDigest: Digest): DecisionState {
    DecisionState(Draft, subject, proposalDigest, None, None, None)
  }

  predicate Formed(d: DecisionState) {
    && (d.status != Draft ==> d.snapshot.Some?)
    && (d.status in {Signed, Finalized} ==> d.signature.Some?)
    && (d.status == Finalized <==> d.finalized.Some?)
  }

  // ---------------------------------------------------------------- transitions

  /** What freezing pins. */
  function SnapshotOf(c: Company, at: nat, channel: Id, actor: Id, key: PublicKey, subject: string,
      proposalDigest: Digest): DecisionSnapshot {
    DecisionSnapshot(c.company, subject, proposalDigest, at, c.genesisTx, c.shares.txId, c.channels.txId,
        c.persons.txId, channel, actor, key)
  }

  /** `freeze`. */
  function FreezeDecision(d: DecisionState, b: Blocks, at: nat, channel: Id): Result<DecisionState, DecisionError>
    requires |b| > 0
  {
    if d.status != Draft then Err(InvalidTransition(d.status)) else
    match Reconstruct(b, at)
    case Err(e) => Err(LedgerFailed(e))
    case Ok(c) =>
      match ResolveChannel(c, channel)
      case Err(e) => Err(ChannelFailed(e))
      case Ok(resolved) =>
        match resolved.SoleActor()
        case None => Err(NotIndividual(channel))
        case Some(actor) =>
          match actor.key
          case None => Err(NoKey(channel, actor.id))
          case Some(key) =>
            Ok(d.(status := Frozen, snapshot :=
                Some(SnapshotOf(c, at, channel, actor.id, key, d.subject, d.proposalDigest))))
  }

  /** `sign`: only with the frozen key. */
  function SignDecision(w: World, d: DecisionState, key: PublicKey): Result<DecisionState, DecisionError>
    requires Formed(d)
  {
    if d.status != Frozen then Err(InvalidTransition(d.status))
    else if key != d.snapshot.value.key then Err(WrongKey(d.snapshot.value.actor))
    else Ok(d.(status := Signed, signature := Some(w.sign(key, DecisionStatement(d.snapshot.value)))))
  }

  const RECORD_VERSION: nat := 1

  /** `FinalDecisionRecordV1::assemble`. */
  function FinalRecord(w: World, snapshot: DecisionSnapshot, signature: Signature): DecisionRecord {
    DecisionRecord(RECORD_VERSION, w.decisionId(snapshot), snapshot, signature)
  }

  /** The transaction `finalize` writes. */
  function DecisionTx(w: World, d: DecisionState, key: PublicKey, height: nat): Tx
    requires d.snapshot.Some? && d.signature.Some?
  {
    Sealed(w, DecisionNs, DecisionPayload(FinalRecord(w, d.snapshot.value, d.signature.value)), key, height)
  }

  predicate SignatureVerifiesOn(w: World, s: DecisionSnapshot, signature: Signature) {
    w.verifies(s.key, DecisionStatement(s), signature)
  }

  /** `finalize`: the signature, the signer of the record, the channel set, then the ledger. */
  function FinalizeDecision(w: World, d: DecisionState, b: Blocks, key: PublicKey,
      works: bool): (r: (Result<DecisionState, DecisionError>, Blocks))
    requires |b| > 0 && Formed(d)
    ensures b <= r.1
  {
    if d.status != Signed then (Err(InvalidTransition(d.status)), b)
    else if !SignatureVerifiesOn(w, d.snapshot.value, d.signature.value) then (Err(BadSignature), b)
    else match CompanyNow(b)
      case Err(e) => (Err(LedgerFailed(e)), b)
      case Ok(now) =>
        if !MaySign(now, GovernanceFamily, key) then (Err(LedgerFailed(UnauthorisedSigner(GovernanceFamily, key))), b)
        else match Reconstruct(b, d.snapshot.value.height)
          case Err(e) => (Err(LedgerFailed(e)), b)
          case Ok(c) =>
            if c.channels.txId != d.snapshot.value.channelsTx || c.company != d.snapshot.value.company
              then (Err(ChannelsMoved), b)
            else
              var tx := DecisionTx(w, d, key, |b|);
              if works && Locate(b, tx.id).None?
              then (Ok(d.(status := Finalized, finalized := Some((tx.id, |b|)))), b + [[tx]])
              else (Err(DecisionNotAppended), b)
  }

  // ---------------------------------------------------------------- verification

  datatype DecisionCheck =
    | Decodes | DecisionIdDerives | SnapshotPrecedesRecord | RecordsResolve | SignerAuthorised
    | ChannelIsIndividual | ActorResolves | SignatureVerifies

  predicate HoldsDecision(e: Entry) {
    e.tx.body.ns == DecisionNs && e.tx.body.payload.DecisionPayload?
        && e.tx.body.payload.decision.version == RECORD_VERSION
  }

  predicate PinsHold(c: Company, s: DecisionSnapshot) {
    && c.company == s.company && c.genesisTx == s.genesisTx && c.shares.txId == s.sharesTx
    && c.channels.txId == s.channelsTx && c.persons.txId == s.identitiesTx
  }

  predicate DecisionRecordsResolve(b: Blocks, s: DecisionSnapshot)
    requires |b| > 0
  {
    Reconstruct(b, s.height).Ok? && PinsHold(Reconstruct(b, s.height).value, s)
  }

  /** The sole actor of the pinned channel, if it resolves and is individual. */
  function PinnedActor(b: Blocks, s: DecisionSnapshot): Option<Actor>
    requires |b| > 0
  {
    match Reconstruct(b, s.height)
    case Err(_) => None
    case Ok(c) =>
      match ResolveChannel(c, s.channel)
      case Err(_) => None
      case Ok(resolved) => resolved.SoleActor()
  }

  predicate IsFrozenActor(actor: Actor, s: DecisionSnapshot) { actor.id == s.actor && actor.key == Some(s.key) }

  /** What each check of the verifier means. */
  predicate DecisionCheckHolds(w: World, b: Blocks, e: Entry, check: DecisionCheck) {
    b != [] && HoldsDecision(e) &&
    var record := e.tx.body.payload.decision;
    var s := record.snapshot;
    match check
    case Decodes => true
    case DecisionIdDerives => w.decisionId(s) == record.decisionId
    case SnapshotPrecedesRecord => s.height < e.height
    case RecordsResolve => DecisionRecordsResolve(b, s)
    case SignerAuthorised => GovernanceSignerAt(b, e.height, e.tx.body.signer)
    case ChannelIsIndividual => PinnedActor(b, s).Some?
    case ActorResolves => PinnedActor(b, s).Some? && IsFrozenActor(PinnedActor(b, s).value, s)
    case SignatureVerifies => SignatureVerifiesOn(w, s, record.signature)
  }

  ghost function DecisionChecks(w: World, b: Blocks, e: Entry): DecisionCheck -> bool {
    (check: DecisionCheck) => DecisionCheckHolds(w, b, e, check)
  }

  ghost predicate DecisionEntryVerifies(w: World, b: Blocks, e: Entry) {
    forall check :: DecisionChecks(w, b, e)(check)
  }

  /** The record a transaction carries passes every check. */
  ghost predicate DecisionVerifies(w: World, b: Blocks, txId: TxId) {
    Locate(b, txId).Some? && DecisionEntryVerifies(w, b, Locate(b, txId).value)
  }

  /** `verify_decision`: valid exactly when all eight checks hold. */
  method VerifyDecision(w: World, b: Blocks, txId: TxId) returns (r: Option<seq<Check<DecisionCheck>>>)
    requires |b| > 0
    ensures r.None? <==> Locate(b, txId).None?
    ensures r.Some? ==> Exact(DecisionChecks(w, b, Locate(b, txId).value), r.value)
    ensures r.Some? ==> (IsValid(r.value) <==> DecisionVerifies(w, b, txId))
  {
    hide DecisionRecordsResolve, PinnedActor, GovernanceSignerAt, Locate, IsValid, Exact, Reported;
    var located := Locate(b, txId);
    if located.None? { return None; }
    var e := located.value;
    ghost var holds := DecisionChecks(w, b, e);
    NothingReported(holds);
    var report: seq<Check<DecisionCheck>> := Push(holds, [], Decodes, HoldsDecision(e));
    if HoldsDecision(e) { report := VerifyHeldDecision(w, b, e, report); }
    ReportDecides(holds, report);
    r := Some(report);
  }

  method PinsResolve(b: Blocks, s: DecisionSnapshot) returns (ok: bool)
    requires |b| > 0
    ensures ok == DecisionRecordsResolve(b, s)
  {
    var company := ReconstructAt(b, s.height);
    ok := company.Ok? && PinsHold(company.value, s);
  }

  lemma DecisionCheckMeanings(w: World, b: Blocks, e: Entry)
    requires b != [] && HoldsDecision(e)
    ensures var record, holds := e.tx.body.payload.decision, DecisionChecks(w, b, e);
      var s := record.snapshot;
      var actor := PinnedActor(b, s);
      && holds(DecisionIdDerives) == (w.decisionId(s) == record.decisionId)
      && holds(SnapshotPrecedesRecord) == (s.height < e.height)
      && holds(RecordsResolve) == DecisionRecordsResolve(b, s)
      && holds(SignerAuthorised) == GovernanceSignerAt(b, e.height, e.tx.body.signer)
      && holds(ChannelIsIndividual) == actor.Some?
      && holds(ActorResolves) == (actor.Some? && IsFrozenActor(actor.value, s))
      && holds(SignatureVerifies) == SignatureVerifiesOn(w, s, record.signature)
  {
    hide DecisionRecordsResolve, PinnedActor, GovernanceSignerAt;
  }

  /** The checks on a transaction that does hold a decision record. */
  method VerifyHeldDecision(w: World, b: Blocks, e: Entry,
      decoded: seq<Check<DecisionCheck>>) returns (report: seq<Check<DecisionCheck>>)
    requires |b| > 0 && HoldsDecision(e) && Exact(DecisionChecks(w, b, e), decoded) && Decodes in Reported(decoded)
    ensures Exact(DecisionChecks(w, b, e), report) && report != []
    ensures (forall check :: check in Reported(report)) || !IsValid(report)
  {
    hide DecisionRecordsResolve, PinnedActor, GovernanceSignerAt, IsValid, Exact, Reported, DecisionCheckHolds;
    hide DecisionChecks;
    DecisionCheckMeanings(w, b, e);
    ghost var holds := DecisionChecks(w, b, e);
    var record := e.tx.body.payload.decision;
    var s := record.snapshot;
    report := Push(holds, decoded, DecisionIdDerives, w.decisionId(s) == record.decisionId);
    report := Push(holds, report, SnapshotPrecedesRecord, s.height < e.height);
    var resolves := PinsResolve(b, s);
    report := Push(holds, report, RecordsResolve, resolves);
    if !resolves { return; }
    report := Push(holds, report, SignerAuthorised, GovernanceSignerAt(b, e.height, e.tx.body.signer));
    var actor := PinnedActor(b, s);
    report := Push(holds, report, ChannelIsIndividual, actor.Some?);
    if actor.Some? { report := Push(holds, report, ActorResolves, IsFrozenActor(actor.value, s)); }
    report := Push(holds, report, SignatureVerifies, SignatureVerifiesOn(w, s, record.signature));
    if actor.None? { return; }
    forall check: DecisionCheck ensures check in Reported(report) {
      match check case Decodes => case DecisionIdDerives => case SnapshotPrecedesRecord =>
      case RecordsResolve => case SignerAuthorised => case ChannelIsIndividual => case ActorResolves =>
      case SignatureVerifies =>
    }
  }

  // ---------------------------------------------------------------- verdicts are permanent

  lemma PinnedInputsStay(b: Blocks, b': Blocks, s: DecisionSnapshot)
    requires b <= b' && s.height < |b|
    ensures DecisionRecordsResolve(b', s) == DecisionRecordsResolve(b, s)
    ensures PinnedActor(b', s) == PinnedActor(b, s)
  {
    PastIsFixed(b, b', s.height);
  }

  lemma DecisionEntryStays(w: World, b: Blocks, b': Blocks, e: Entry)
    requires b <= b' && |b| > 0 && e.height < |b|
    ensures DecisionEntryVerifies(w, b', e) <==> DecisionEntryVerifies(w, b, e)
  {
    hide DecisionRecordsResolve, PinnedActor, GovernanceSignerAt;
    var before, after := DecisionChecks(w, b, e), DecisionChecks(w, b', e);
    assert before(SnapshotPrecedesRecord) == after(SnapshotPrecedesRecord);
    if before(SnapshotPrecedesRecord) {
      PinnedInputsStay(b, b', e.tx.body.payload.decision.snapshot);
      GovernanceSignerStays(b, b', e.height, e.tx.body.signer);
      forall check ensures after(check) == before(check) { }
    }
  }

  /** The verdict on a decision, once it is on the ledger, never changes, whatever is appended. */
  lemma DecisionVerdictIsPermanent(w: World, b: Blocks, b': Blocks, txId: TxId)
    requires b <= b' && Locate(b, txId).Some?
    ensures DecisionVerifies(w, b', txId) <==> DecisionVerifies(w, b, txId)
    ensures Locate(b', txId) == Locate(b, txId)
  {
    hide DecisionEntryVerifies;
    LocateStays(b, b', txId);
    DecisionEntryStays(w, b, b', Locate(b, txId).value);
  }

  // ---------------------------------------------------------------- what the lifecycle writes, the verifier accepts

  /** The snapshot is what freezing at its height, on this ledger, would pin. */
  predicate Refreezes(b: Blocks, s: DecisionSnapshot) {
    s.height < |b| && Reconstruct(b, s.height).Ok? && PinnedActor(b, s).Some? && PinnedActor(b, s).value.key.Some? &&
    var actor := PinnedActor(b, s).value;
    s == SnapshotOf(Reconstruct(b, s.height).value, s.height, s.channel, actor.id, actor.key.value, s.subject,
        s.proposalDigest)
  }

  lemma RefreezesStays(b: Blocks, b': Blocks, s: DecisionSnapshot)
    requires b <= b' && Refreezes(b, s)
    ensures Refreezes(b', s)
  {
    PastIsFixed(b, b', s.height);
  }

  lemma FrozenRefreezes(d: DecisionState, b: Blocks, at: nat, channel: Id)
    requires at < |b| && FreezeDecision(d, b, at, channel).Ok?
    ensures Refreezes(b, FreezeDecision(d, b, at, channel).value.snapshot.value)
  {
    hide Reconstruct, ResolveChannel;
  }

  lemma PinnedOrNot(b: Blocks, s: DecisionSnapshot)
    requires s.height < |b|
    ensures Refreezes(b, s) <==>
      DecisionRecordsResolve(b, s) && PinnedActor(b, s).Some? && IsFrozenActor(PinnedActor(b, s).value, s)
  {
    hide Reconstruct, ResolveChannel;
  }

  /** Given inputs from below the record, only what was pinned can still be wrong. */
  lemma FinalizedChecks(w: World, d: DecisionState, b: Blocks, key: PublicKey, works: bool)
    requires |b| > 0 && Formed(d) && FinalizeDecision(w, d, b, key, works).0.Ok?
    requires d.snapshot.value.height < |b|
    ensures var tx, s := DecisionTx(w, d, key, |b|), d.snapshot.value;
      var holds := DecisionChecks(w, b + [[tx]], Entry(|b|, 0, tx));
      && (forall check: DecisionCheck :: check !in {RecordsResolve, ChannelIsIndividual, ActorResolves} ==>
           holds(check))
      && holds(RecordsResolve) == DecisionRecordsResolve(b, s)
      && holds(ChannelIsIndividual) == PinnedActor(b, s).Some?
      && holds(ActorResolves) == (PinnedActor(b, s).Some? && IsFrozenActor(PinnedActor(b, s).value, s))
  {
    hide Reconstruct, ResolveChannel, MaySign, Locate;
    var tx, s := DecisionTx(w, d, key, |b|), d.snapshot.value;
    GovernanceSignerAfter(b, tx, key);
    PinnedInputsStay(b, b + [[tx]], s);
  }

  /** The snapshot is what some draft was frozen to on that ledger, through that channel. */
  predicate FrozenOn(b: Blocks, draft: DecisionState, channel: Id, s: DecisionSnapshot) {
    && b != [] && FreezeDecision(draft, b, s.height, channel).Ok?
    && FreezeDecision(draft, b, s.height, channel).value.snapshot == Some(s)
  }

  /** A snapshot frozen at a height not above the head is what every extension holds there. */
  lemma FrozenBelowRefreezes(b: Blocks, b': Blocks, draft: DecisionState, channel: Id, s: DecisionSnapshot)
    requires b <= b' && FrozenOn(b, draft, channel, s) && s.height < |b|
    ensures Refreezes(b', s)
  {
    hide FreezeDecision, Refreezes;
    FrozenRefreezes(draft, b, s.height, channel);
    RefreezesStays(b, b', s);
  }

  /**
   A finalised decision verifies exactly when its snapshot is what the ledger holds at its
   height. Only a decision frozen above the head can miss the condition.
   */
  lemma FinalizedDecisionVerifies(w: World, d: DecisionState, b: Blocks, key: PublicKey, works: bool)
    requires |b| > 0 && Formed(d) && FinalizeDecision(w, d, b, key, works).0.Ok?
    ensures var (r, b') := FinalizeDecision(w, d, b, key, works); var tx := DecisionTx(w, d, key, |b|);
      && r.value.finalized == Some((tx.id, |b|)) && b' == b + [[tx]]
      && Locate(b', tx.id) == Some(Entry(|b|, 0, tx))
      && (DecisionVerifies(w, b', tx.id) <==> Refreezes(b, d.snapshot.value))
      && forall earlier: Blocks, draft: DecisionState, channel: Id ::
           earlier <= b && FrozenOn(earlier, draft, channel, d.snapshot.value) && d.snapshot.value.height < |earlier|
           ==> DecisionVerifies(w, b', tx.id)
  {
    hide Reconstruct, MaySign, DecisionRecordsResolve, PinnedActor, Locate, Refreezes, GovernanceSignerAt, FrozenOn;
    var tx := DecisionTx(w, d, key, |b|);
    var b', s := b + [[tx]], d.snapshot.value;
    AppendedIsLocated(b, tx);
    var holds := DecisionChecks(w, b', Entry(|b|, 0, tx));
    assert holds(SnapshotPrecedesRecord) == (s.height < |b|);
    if s.height < |b| {
      FinalizedChecks(w, d, b, key, works);
      PinnedOrNot(b, s);
    } else {
      NotRefrozen(b, s);
    }
    forall earlier: Blocks, draft: DecisionState, channel: Id | earlier <= b && FrozenOn(earlier, draft, channel, s)
      && s.height < |earlier|
      ensures Refreezes(b, s)
    {
      FrozenBelowRefreezes(earlier, b, draft, channel, s);
    }
  }

  lemma NotRefrozen(b: Blocks, s: DecisionSnapshot)
    ensures Refreezes(b, s) ==> s.height < |b|
  {
  }

  // ---------------------------------------------------------------- runs

  datatype DecisionEvent =
    | LedgerGrows(more: Blocks)
    | Signing(key: PublicKey)
    | Finalising(key: PublicKey, works: bool)

  function KeptDecision(d: DecisionState,
      r: Result<DecisionState, DecisionError>): DecisionState { if r.Ok? then r.value else d }

  /** One event; a refused operation leaves the decision as it was. */
  function DecisionNext(w: World, d: DecisionState, b: Blocks, event: DecisionEvent): (r: (DecisionState, Blocks))
    requires |b| > 0 && Formed(d)
    ensures b <= r.1 && Formed(r.0)
  {
    match event
    case LedgerGrows(more) => (d, b + more)
    case Signing(key) => (KeptDecision(d, SignDecision(w, d, key)), b)
    case Finalising(key, works) => var (r, b') := FinalizeDecision(w, d, b, key, works); (KeptDecision(d, r), b')
  }

  function DecisionRun(w: World, d: DecisionState, b: Blocks, events: seq<DecisionEvent>): (r: (DecisionState, Blocks))
    requires |b| > 0 && Formed(d)
    ensures b <= r.1 && Formed(r.0)
    decreases |events|
  {
    if events == [] then (d, b) else
      var (d', b') := DecisionNext(w, d, b, events[0]);
      DecisionRun(w, d', b', events[1..])
  }

  ghost predicate DecisionInvariant(w: World, d: DecisionState, b: Blocks) {
    && |b| > 0 && Formed(d) && d.status != Draft && Refreezes(b, d.snapshot.value)
    && (d.status == Finalized ==> DecisionFiled(w, d, b))
  }

  /** The decision's final record is on the ledger, where the decision says it is, and verifies. */
  ghost predicate DecisionFiled(w: World, d: DecisionState, b: Blocks)
    requires Formed(d) && d.status == Finalized
  {
    var (txId, height) := d.finalized.value;
    && Locate(b, txId).Some? && Locate(b, txId).value.height == height && DecisionVerifies(w, b, txId)
    && Locate(b, txId).value.tx.body.payload == DecisionPayload(FinalRecord(w, d.snapshot.value, d.signature.value))
  }

  lemma DecisionInvariantGrows(w: World, d: DecisionState, b: Blocks, b': Blocks)
    requires b <= b' && DecisionInvariant(w, d, b)
    ensures DecisionInvariant(w, d, b')
  {
    hide DecisionVerifies, Locate, Refreezes;
    RefreezesStays(b, b', d.snapshot.value);
    if d.status == Finalized { DecisionVerdictIsPermanent(w, b, b', d.finalized.value.0); }
  }

  lemma DecisionStepKeeps(w: World, d: DecisionState, b: Blocks, event: DecisionEvent)
    requires DecisionInvariant(w, d, b)
    ensures var (d', b') := DecisionNext(w, d, b, event); DecisionInvariant(w, d', b') && d'.snapshot == d.snapshot
  {
    hide DecisionVerifies, Locate, Refreezes, Reconstruct, MaySign, FinalRecord;
    match event {
      case LedgerGrows(more) => DecisionInvariantGrows(w, d, b, b + more);
      case Signing(key) =>
      case Finalising(key, works) =>
        if FinalizeDecision(w, d, b, key, works).0.Ok? {
          FinalizedDecisionVerifies(w, d, b, key, works);
          RefreezesStays(b, b + [[DecisionTx(w, d, key, |b|)]], d.snapshot.value);
        }
    }
  }

  lemma {:induction false} DecisionRunKeeps(w: World, d: DecisionState, b: Blocks, events: seq<DecisionEvent>)
    requires DecisionInvariant(w, d, b)
    ensures var (d', b') := DecisionRun(w, d, b, events); DecisionInvariant(w, d', b') && d'.snapshot == d.snapshot
    decreases |events|
  {
    hide DecisionNext, Refreezes, DecisionFiled;
    if events == [] {
    } else {
      var (d', b') := DecisionNext(w, d, b, events[0]);
      DecisionStepKeeps(w, d, b, events[0]);
      DecisionRunKeeps(w, d', b', events[1..]);
    }
  }

  /** A decision once signed carries a signature that verifies. */
  predicate WellSigned(w: World, d: DecisionState) {
    d.status in {Signed, Finalized} ==>
      d.snapshot.Some? && d.signature.Some? && SignatureVerifiesOn(w, d.snapshot.value, d.signature.value)
  }

  lemma {:induction false} RunKeepsWellSigned(w: World, d: DecisionState, b: Blocks, events: seq<DecisionEvent>)
    requires |b| > 0 && Signs(w) && Formed(d) && WellSigned(w, d)
    ensures WellSigned(w, DecisionRun(w, d, b, events).0)
    decreases |events|
  {
    hide Reconstruct, MaySign, Locate, FinalRecord;
    if events == [] {
    } else {
      var (d', b') := DecisionNext(w, d, b, events[0]);
      RunKeepsWellSigned(w, d', b', events[1..]);
    }
  }

  /**
   With a signature scheme that works, no run from a decision not yet signed ever reaches one
   whose finalising is refused for its signature, whoever tried to sign it in between.
   */
  lemma SignedIsWellSigned(w: World, d: DecisionState, b: Blocks, events: seq<DecisionEvent>, key: PublicKey,
      works: bool)
    requires |b| > 0 && Signs(w) && Formed(d) && d.status in {Draft, Frozen}
    ensures var (d', b') := DecisionRun(w, d, b, events); FinalizeDecision(w, d', b', key, works).0 != Err(BadSignature)
  {
    hide DecisionRun, Reconstruct, MaySign, Locate, FinalRecord;
    RunKeepsWellSigned(w, d, b, events);
  }

  /**
   What the lifecycle writes, the verifier accepts for ever: a decision frozen at a height not
   above the head, any attempts to sign and finalise with any blocks between them, and once it is
   finalised its record passes all eight checks on the ledger it is on and on every extension.
   */
  lemma DecisionRoundTrip(w: World, subject: string, proposalDigest: Digest, b: Blocks, at: nat,
      channel: Id, events: seq<DecisionEvent>, later: Blocks)
    requires at < |b| && FreezeDecision(DraftDecision(subject, proposalDigest), b, at, channel).Ok?
    requires var frozen := FreezeDecision(DraftDecision(subject, proposalDigest), b, at, channel).value;
      var (d, b') := DecisionRun(w, frozen, b, events);
      d.status == Finalized && b' <= later
    ensures var frozen := FreezeDecision(DraftDecision(subject, proposalDigest), b, at, channel).value;
      var (d, b') := DecisionRun(w, frozen, b, events);
      && DecisionVerifies(w, later, d.finalized.value.0)
      && Locate(later, d.finalized.value.0).value.tx.body.payload
         == DecisionPayload(FinalRecord(w, frozen.snapshot.value, d.signature.value))
  {
    hide Refreezes, DecisionVerifies, Reconstruct, ResolveChannel, Locate, DecisionRun, FinalRecord;
    var draft := DraftDecision(subject, proposalDigest);
    var frozen := FreezeDecision(draft, b, at, channel).value;
    FrozenRefreezes(draft, b, at, channel);
    DecisionRunKeeps(w, frozen, b, events);
    var (d, b') := DecisionRun(w, frozen, b, events);
    DecisionInvariantGrows(w, d, b', later);
  }

  // ---------------------------------------------------------------- the decision as an object

  /** `DecisionV1`: each operation moves the fields as its transition says, and a refusal moves nothing. */
  class Decision {
    var status: DecisionStatus
    var subject: string
    var proposalDigest: Digest
    var snapshot: Option<DecisionSnapshot>
    var signature: Option<Signature>
    var finalized: Option<(TxId, nat)>

    function State(): DecisionState
      reads this
    {
      DecisionState(status, subject, proposalDigest, snapshot, signature, finalized)
    }

    ghost predicate Valid()
      reads this
    {
      Formed(State())
    }

    constructor Draft(subject: string, proposalDigest: Digest)
      ensures Valid() && State() == DraftDecision(subject, proposalDigest)
    {
      status, this.subject, this.proposalDigest := DecisionStatus.Draft, subject, proposalDigest;
      snapshot, signature, finalized := None, None, None;
    }

    method Freeze(store: Store, at: nat, channel: Id) returns (r: Result<DecisionSnapshot, DecisionError>)
      requires Valid() && store.Valid()
      modifies this`status, this`snapshot
      ensures Valid()
      ensures match FreezeDecision(old(State()), store.blocks, at, channel)
        case Ok(next) => State() == next && r == Ok(next.snapshot.value)
        case Err(e) => State() == old(State()) && r == Err(e)
    {
      hide Reconstruct, ResolveChannel;
      if status != DecisionStatus.Draft { return Err(InvalidTransition(status)); }
      var company := ReconstructAt(store.blocks, at);
      if company.Err? { return Err(LedgerFailed(company.error)); }
      var c := company.value;
      var resolved := ResolveChannel(c, channel);
      if resolved.Err? { return Err(ChannelFailed(resolved.error)); }
      var actor := resolved.value.SoleActor();
      if actor.None? { return Err(NotIndividual(channel)); }
      if actor.value.key.None? { return Err(NoKey(channel, actor.value.id)); }
      snapshot := Some(DecisionSnapshot(c.company, subject, proposalDigest, at, c.genesisTx, c.shares.txId,
          c.channels.txId, c.persons.txId, channel, actor.value.id, actor.value.key.value));
      status := Frozen;
      r := Ok(snapshot.value);
    }

    method Sign(w: World, key: PublicKey) returns (r: Result<Signature, DecisionError>)
      requires Valid()
      modifies this`status, this`signature
      ensures Valid()
      ensures match SignDecision(w, old(State()), key)
        case Ok(next) => State() == next && r == Ok(next.signature.value)
        case Err(e) => State() == old(State()) && r == Err(e)
    {
      if status != Frozen { return Err(InvalidTransition(status)); }
      if key != snapshot.value.key { return Err(WrongKey(snapshot.value.actor)); }
      signature := Some(w.sign(key, DecisionStatement(snapshot.value)));
      status := Signed;
      r := Ok(signature.value);
    }

    method Finalize(w: World, store: Store, key: PublicKey) returns (r: Result<(TxId, nat), DecisionError>)
      requires Valid() && store.Valid()
      modifies this`status, this`finalized, store
      ensures Valid() && store.Valid()
      ensures var (result, blocks) :=
        FinalizeDecision(w, old(State()), old(store.blocks), key, Says(old(store.answers)));
        && store.blocks == blocks
        && match result
           case Ok(next) => State() == next && r == Ok(next.finalized.value)
           case Err(e) => State() == old(State()) && r == Err(e)
      ensures store.answers == if r.Ok? || r.error.DecisionNotAppended? then After(old(store.answers))
        else old(store.answers)
    {
      hide Reconstruct, MaySign, FinalRecord;
      if status != Signed { return Err(InvalidTransition(status)); }
      var s := snapshot.value;
      if !SignatureVerifiesOn(w, s, signature.value) { return Err(BadSignature); }
      var now := ReconstructAt(store.blocks, |store.blocks| - 1);
      if now.Err? { return Err(LedgerFailed(now.error)); }
      if !MaySign(now.value, GovernanceFamily, key) {
        return Err(LedgerFailed(UnauthorisedSigner(GovernanceFamily, key)));
      }
      var company := ReconstructAt(store.blocks, s.height);
      if company.Err? { return Err(LedgerFailed(company.error)); }
      if company.value.channels.txId != s.channelsTx || company.value.company != s.company {
        return Err(ChannelsMoved);
      }
      var appended := store.Append(DecisionTx(w, State(), key, |store.blocks|));
      if appended.Refused? { return Err(DecisionNotAppended); }
      finalized := Some((appended.txId, appended.height));
      status := Finalized;
      r := Ok(finalized.value);
    }
  }
}
