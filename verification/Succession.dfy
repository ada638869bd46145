/**
 What executions amount to over whole runs: one amendment for one resolution however often and
 from wherever it is tried, one successor for each approved base, and no gain for a person
 amending on their own signature.
 */
module Succession {
  import opened Ordering
  import opened Parts
  import opened Records
  import opened Text
  import opened Ledger
  import opened History
  import opened Resolve
  import opened Demotion
  import opened Approvals
  import opened Resolution
  import opened Executions
  import opened Outcomes

  // ---------------------------------------------------------------- at most one amendment

  /** The provider of a part is a transaction of the ledger. */
  lemma ProviderIsThere(b: Blocks, kind: RecordKind)
    requires |b| > 0 && CompanyNow(b).Ok? && kind != GenesisKind
    ensures Locate(b, CompanyNow(b).value.ProviderOf(kind)).Some?
  {
    hide Fold, RefOf, HistoryIn, Provided, PartInForce, Linear;
    var es := Entries(b[..|b|]);
    assert b[..|b|] == b;
    FoldProvides(es, kind);
    var c := Fold(es).value.value;
    var h := c.HistoryOf(kind);
    LinearIsThere(h, kind);
    HistoryIsApplied(c.applied, kind);
    assert h[|h| - 1] in h;
    var e := AppliedEntry(es, h[|h| - 1]);
    RefsOfOneTx(e, e);
  }

  lemma LinearIsThere(h: seq<RecordRef>, kind: RecordKind)
    requires Linear(h, kind)
    ensures |h| > 0
  {
  }

  /** After an amendment, its base provides the part on no later ledger. */
  lemma BaseIsGone(w: World, b: Blocks, works: bool, key: PublicKey, kind: RecordKind, body: string, base: TxId,
      notarisation: Notarisation, later: Blocks)
    requires |b| > 0 && PublishOn(w, b, works, key, kind, body, Some(base), notarisation).0.Ok?
    requires PublishOn(w, b, works, key, kind, body, Some(base), notarisation).1 <= later && IdsCommit(later)
    ensures CompanyNow(later).Ok? ==> CompanyNow(later).value.ProviderOf(kind) != base
  {
    hide Reconstruct, PublishOn, MaySign, Normalise, LockedOutBy, Locate, Contains, IdsCommit, Replaced;
    var (res, b1) := PublishOn(w, b, works, key, kind, body, Some(base), notarisation);
    PublishedIsThere(w, b, works, key, kind, body, Some(base), notarisation);
    PublishedTakesEffect(w, b, works, key, kind, body, Some(base), notarisation);
    ProviderIsThere(b, kind);
    PastIsFixed(b, later, |b| - 1);
    PastIsFixed(b1, later, |b|);
    if CompanyNow(later).Ok? { ReplacedForGood(later, |b| - 1, |b|, |later| - 1, kind); }
  }

  /**
   What is amended is what was approved: between the height the deciders decided at and the
   amendment, the part never changed. Every company in between, and the one amended, holds the
   very part in force when they decided.
   */
  lemma AmendsWhatWasApproved(w: World, r: ResolutionState, b: Blocks, key: PublicKey, notarisation: Notarisation,
      answers: seq<bool>, mid: nat)
    requires |b| > 0 && Formed(r)
    requires ExecuteResolution(w, r, b, key, notarisation, answers).published.Some? && IdsCommit(b)
    requires DecidedBy(b, r.authority).Some? && DecidedBy(b, r.authority).value.approval.height <= mid < |b|
    ensures r.kind.Amendment? && Reconstruct(b, mid).Ok? && CompanyNow(b).Ok?
    ensures PartInForce(Reconstruct(b, mid).value, r.kind.target.Kind())
      == PartInForce(CompanyNow(b).value, r.kind.target.Kind())
  {
    hide Reconstruct, PublishOn, CheckedExecution, ExecuteResolution, IdsCommit, DecidedBy, AuthorityStands;
    hide HistoryIn, PartInForce, Provided;
    PublishingGoesOn(w, r, b, key, notarisation, answers);
    GoesOnOnlyOnBase(w, r, b, key);
    ApprovedBaseWasInForce(w, b, r.authority, r.kind);
    var at, kind := DecidedBy(b, r.authority).value.approval.height, r.kind.target.Kind();
    NoAba(b, at, mid, |b| - 1, kind);
    NoAba(b, at, |b| - 1, |b| - 1, kind);
  }

  /** Two copies of one proposal: the same authority for the same amendment. */
  predicate SameProposal(r: ResolutionState, q: ResolutionState) { r.authority == q.authority && r.kind == q.kind }

  lemma GoesOnOnlyOnBase(w: World, r: ResolutionState, b: Blocks, key: PublicKey)
    requires |b| > 0 && Formed(r) && CheckedExecution(w, r, b, key).Ok?
    ensures r.kind.Amendment? && CompanyNow(b).Ok?
    ensures CompanyNow(b).value.ProviderOf(r.kind.target.Kind())
      == CheckedExecution(w, r, b, key).value.BaseOf(r.kind.target)
    ensures DecidedBy(b, r.authority).Some?
    ensures CheckedExecution(w, r, b, key).value == DecidedBy(b, r.authority).value.approval
    ensures AuthorityStands(w, b, r.authority, r.kind)
  {
    hide CheckedSource, Reconstruct, MaySign, FoundExecution, DemotionError, ApprovedDigest, DecidedBy;
    hide ScopeError, AuthorityStands;
    LifecycleAndVerifierAgree(w, b, r.authority, r.kind);
  }

  lemma PublishingGoesOn(w: World, r: ResolutionState, b: Blocks, key: PublicKey, notarisation: Notarisation,
      answers: seq<bool>)
    requires |b| > 0 && Formed(r) && ExecuteResolution(w, r, b, key, notarisation, answers).published.Some?
    ensures CheckedExecution(w, r, b, key).Ok? && r.kind.Amendment?
    ensures var base := CheckedExecution(w, r, b, key).value.BaseOf(r.kind.target);
      PublishOn(w, b, Says(answers), key, r.kind.target.Kind(), r.kind.body, Some(base), notarisation).0.Ok?
      && PublishOn(w, b, Says(answers), key, r.kind.target.Kind(), r.kind.body, Some(base), notarisation).1
         <= ExecuteResolution(w, r, b, key, notarisation, answers).blocks
  {
    hide CheckedAuthority, Reconstruct, MaySign, FoundExecution, DemotionError, PublishOn, ApprovedDigest, Locate;
  }

  /**
   Once an attempt has published, no attempt on the same proposal publishes again: not by the
   same copy of the resolution, nor by any other, nor after a failure between the two appends.
   */
  lemma NeverAgain(w: World, r: ResolutionState, b: Blocks, key: PublicKey, notarisation: Notarisation,
      answers: seq<bool>,
    q: ResolutionState, later: Blocks, otherKey: PublicKey, other: Notarisation, otherAnswers: seq<bool>)
    requires |b| > 0 && Formed(r) && Formed(q) && SameProposal(r, q)
    requires ExecuteResolution(w, r, b, key, notarisation, answers).published.Some?
    requires ExecuteResolution(w, r, b, key, notarisation, answers).blocks <= later && IdsCommit(later)
    ensures ExecuteResolution(w, q, later, otherKey, other, otherAnswers).published.None?
  {
    hide CheckedExecution, Reconstruct, PublishOn, IdsCommit, DecidedBy, AuthorityStands;
    PublishingGoesOn(w, r, b, key, notarisation, answers);
    GoesOnOnlyOnBase(w, r, b, key);
    AuthorityIsPermanent(w, b, later, r.authority, r.kind);
    var base := CheckedExecution(w, r, b, key).value.BaseOf(r.kind.target);
    BaseIsGone(w, b, Says(answers), key, r.kind.target.Kind(), r.kind.body, base, notarisation, later);
    if CheckedExecution(w, q, later, otherKey).Ok? { GoesOnOnlyOnBase(w, q, later, otherKey); }
    assert CheckedExecution(w, q, later, otherKey).Err?;
  }

  /** And the refusal is the stale base, for ever, whenever nothing earlier refuses. */
  lemma RetryIsStale(w: World, r: ResolutionState, b: Blocks, key: PublicKey, notarisation: Notarisation,
      answers: seq<bool>,
    q: ResolutionState, later: Blocks, otherKey: PublicKey, other: Notarisation, otherAnswers: seq<bool>)
    requires |b| > 0 && Formed(r) && Formed(q) && SameProposal(r, q) && q.status == Finalized
    requires ExecuteResolution(w, r, b, key, notarisation, answers).published.Some?
    requires ExecuteResolution(w, r, b, key, notarisation, answers).blocks <= later && IdsCommit(later)
    requires FoundExecution(later, q.finalized.value.0).None? && CompanyNow(later).Ok?
    requires MaySign(CompanyNow(later).value, GovernanceFamily, otherKey)
    ensures r.kind.Amendment? && CheckedExecution(w, r, b, key).Ok?
    ensures ExecuteResolution(w, q, later, otherKey, other, otherAnswers).error ==
      Some(StaleBase(r.kind.target, CheckedExecution(w, r, b, key).value.BaseOf(r.kind.target),
          CompanyNow(later).value.ProviderOf(r.kind.target.Kind())))
  {
    hide Reconstruct, PublishOn, IdsCommit, DecidedBy, AuthorityStands, CheckedAuthority, FoundExecution;
    hide DemotionError, ApprovedDigest, MaySign;
    PublishingGoesOn(w, r, b, key, notarisation, answers);
    GoesOnOnlyOnBase(w, r, b, key);
    AuthorityIsPermanent(w, b, later, r.authority, r.kind);
    LifecycleAndVerifierAgree(w, later, r.authority, r.kind);
    var base := CheckedExecution(w, r, b, key).value.BaseOf(r.kind.target);
    BaseIsGone(w, b, Says(answers), key, r.kind.target.Kind(), r.kind.body, base, notarisation, later);
  }

  /** One attempt: what the ledger gained meanwhile, by whom, under what notarisation, and what the disk says. */
  datatype Try = Try(more: Blocks, resolution: ResolutionState, key: PublicKey, notarisation: Notarisation,
      answers: seq<bool>)

  ghost function AttemptAt(w: World, b: Blocks, t: Try): (x: Executing)
    requires |b| > 0 && Formed(t.resolution)
    ensures b <= x.blocks
  {
    ExecuteResolution(w, t.resolution, b + t.more, t.key, t.notarisation, t.answers)
  }

  predicate AllFormedTries(tries: seq<Try>) { forall i :: 0 <= i < |tries| ==> Formed(tries[i].resolution) }

  ghost predicate AllOf(r: ResolutionState, tries: seq<Try>) {
    forall i :: 0 <= i < |tries| ==> SameProposal(r, tries[i].resolution)
  }

  /** Any interleaving of attempts: the ledger they leave and every amendment they published. */
  ghost function Tries(w: World, b: Blocks, tries: seq<Try>): (res: (Blocks, seq<RecordRef>))
    requires |b| > 0 && AllFormedTries(tries)
    ensures b <= res.0
    decreases |tries|
  {
    if tries == [] then (b, []) else
      var x := AttemptAt(w, b, tries[0]);
      var rest := Tries(w, x.blocks, tries[1..]);
      (rest.0, (if x.published.Some? then [x.published.value] else []) + rest.1)
  }

  lemma {:induction false} NothingMore(w: World, t: Try, b: Blocks, later: Blocks, tries: seq<Try>)
    requires |b| > 0 && Formed(t.resolution) && AllFormedTries(tries) && AllOf(t.resolution, tries)
    requires AttemptAt(w, b, t).published.Some? && AttemptAt(w, b, t).blocks <= later
    requires IdsCommit(Tries(w, later, tries).0)
    ensures Tries(w, later, tries).1 == []
    decreases |tries|
  {
    hide ExecuteResolution, IdsCommit;
    if tries == [] {
    } else {
      var x := AttemptAt(w, later, tries[0]);
      IdsCommitBelow(later + tries[0].more, Tries(w, later, tries).0);
      NeverAgain(w, t.resolution, b + t.more, t.key, t.notarisation, t.answers,
                 tries[0].resolution, later + tries[0].more, tries[0].key, tries[0].notarisation, tries[0].answers);
      NothingMore(w, t, b, x.blocks, tries[1..]);
    }
  }

  /**
   At most once: over any interleaving of attempts on one proposal, by any copies of the
   resolution, with any failures and anything else on the ledger between them, at most one
   amendment is ever published.
   */
  lemma {:induction false} AtMostOneAmendment(w: World, r: ResolutionState, b: Blocks, tries: seq<Try>)
    requires |b| > 0 && AllFormedTries(tries) && AllOf(r, tries) && IdsCommit(Tries(w, b, tries).0)
    ensures |Tries(w, b, tries).1| <= 1
    decreases |tries|
  {
    hide ExecuteResolution, IdsCommit;
    if tries == [] {
    } else {
      var x := AttemptAt(w, b, tries[0]);
      AtMostOneAmendment(w, r, x.blocks, tries[1..]);
      if x.published.Some? { NothingMore(w, tries[0], b, x.blocks, tries[1..]); }
    }
  }

  // ---------------------------------------------------------------- one successor for each base

  lemma VerifiedLink(w: World, b: Blocks, e: Entry)
    requires ExecutionEntryVerifies(w, b, e)
    ensures b != [] && HoldsExecution(e) && Applied(b, e.height, ExecutionOf(e))
    ensures OnlyExecution(b, e.tx.id, ExecutionOf(e))
    ensures var x := ExecutionOf(e);
      && Locate(b, x.amendmentTx).Some? && Locate(b, x.amendmentTx).value.tx.body.payload.CompanyPayload?
      && Locate(b, x.amendmentTx).value.tx.body.payload.record.supersedes == Some(x.replacedTx)
  {
    hide ExecutionEntryVerifies, Resolution.ResolutionVerifies, ResolutionFor, Applied, GovernanceSignerAt;
    hide OnlyExecution, DecidedBy, DemotionStands, BodyMatches, Locate;
    ExecutionGathered(w, b, e);
  }

  /** The amendment an execution names, as the company applied it: it superseded what the execution says it replaced. */
  lemma AppliedAmendment(b: Blocks, at: nat, x: Execution) returns (r: RecordRef)
    requires b != [] && at < |b| && Applied(b, at, x) && IdsCommit(b)
    requires Locate(b, x.amendmentTx).Some? && Locate(b, x.amendmentTx).value.tx.body.payload.CompanyPayload?
    requires Locate(b, x.amendmentTx).value.tx.body.payload.record.supersedes == Some(x.replacedTx)
    ensures Reconstruct(b, at).Ok? && r in Reconstruct(b, at).value.HistoryOf(x.target.Kind())
    ensures r.txId == x.amendmentTx && r.record.supersedes == Some(x.replacedTx)
  {
    hide Fold, HistoryIn, Locate, Entries;
    r :| r in Reconstruct(b, at).value.HistoryOf(x.target.Kind()) && r.txId == x.amendmentTx;
    var es := Entries(b[..at + 1]);
    EntriesGrow(b[..at + 1], b);
    HistoryIsApplied(Fold(es).value.value.applied, x.target.Kind());
    var f := AppliedEntry(es, r);
    RefsOfOneTx(f, f);
    var e := Locate(b, x.amendmentTx).value;
    assert f in Entries(b) && e in Entries(b);
    assert f.tx == e.tx;
  }

  lemma SupersededOnce(b: Blocks, at: nat, later: nat, kind: RecordKind, r: RecordRef, s: RecordRef)
    requires at <= later < |b| && IdsCommit(b) && kind != GenesisKind
    requires Reconstruct(b, at).Ok? && Reconstruct(b, later).Ok?
    requires r in Reconstruct(b, at).value.HistoryOf(kind) && s in Reconstruct(b, later).value.HistoryOf(kind)
    requires r.record.supersedes.Some? && r.record.supersedes == s.record.supersedes
    ensures r == s
  {
    hide Reconstruct, HistoryIn, Provided, PartInForce, IdsCommit, Linear, SameIdSameRecord;
    HistoriesNest(b, at, at, later, kind);
    ReconstructedHistory(b, later, kind);
    var g, h := Reconstruct(b, at).value.HistoryOf(kind), Reconstruct(b, later).value.HistoryOf(kind);
    var i :| 0 <= i < |g| && g[i] == r;
    var j :| 0 <= j < |h| && h[j] == s;
    assert h[i] == r;
    OneSuccessor(h, kind, i, j);
  }

  /** Executions that verify and replaced one record of one part name one amendment. */
  lemma SingleSuccessor(w: World, b: Blocks, first: TxId, second: TxId)
    requires ExecutionVerifies(w, b, first) && ExecutionVerifies(w, b, second) && IdsCommit(b)
    ensures HoldsExecution(Locate(b, first).value) && HoldsExecution(Locate(b, second).value)
    ensures var x, y := ExecutionOf(Locate(b, first).value), ExecutionOf(Locate(b, second).value);
      x.target == y.target && x.replacedTx == y.replacedTx ==> x.amendmentTx == y.amendmentTx
  {
    hide ExecutionEntryVerifies, Applied, OnlyExecution, Locate, IdsCommit, Reconstruct, HistoryIn;
    LocateStays(b, b, first);
    LocateStays(b, b, second);
    var e, f := Locate(b, first).value, Locate(b, second).value;
    VerifiedLink(w, b, e);
    VerifiedLink(w, b, f);
    var x, y := ExecutionOf(e), ExecutionOf(f);
    var r := AppliedAmendment(b, e.height, x);
    var s := AppliedAmendment(b, f.height, y);
    if x.target == y.target && x.replacedTx == y.replacedTx {
      if e.height <= f.height {
        SupersededOnce(b, e.height, f.height, x.target.Kind(), r, s);
      } else {
        SupersededOnce(b, f.height, e.height, x.target.Kind(), s, r);
      }
    }
  }

  /** At most one execution of a resolution verifies. */
  lemma OneExecutionEach(w: World, b: Blocks, first: TxId, second: TxId)
    requires ExecutionVerifies(w, b, first) && ExecutionVerifies(w, b, second)
    ensures HoldsExecution(Locate(b, first).value) && HoldsExecution(Locate(b, second).value)
    ensures ExecutionOf(Locate(b, first).value).resolutionTx == ExecutionOf(Locate(b, second).value).resolutionTx ==>
      first == second
  {
    hide ExecutionEntryVerifies, Applied, Locate, FoundExecution;
    VerifiedLink(w, b, Locate(b, first).value);
    VerifiedLink(w, b, Locate(b, second).value);
    LocateStays(b, b, first);
    LocateStays(b, b, second);
  }

  // ---------------------------------------------------------------- no gain on one's own signature

  /** No transaction of these blocks is a company record. */
  predicate NoCompanyRecords(more: Blocks) {
    forall h, i :: 0 <= h < |more| && 0 <= i < |more[h]| ==> !IsIrena(more[h][i])
  }

  lemma {:induction false} FoldSkips(es: seq<Entry>, tail: seq<Entry>)
    requires forall i :: 0 <= i < |tail| ==> !IsIrena(tail[i].tx)
    ensures Fold(es + tail) == Fold(es)
  {
    hide Fold, IsIrena, RefOf;
    if tail == [] {
      assert es + tail == es;
    } else {
      var n := |tail| - 1;
      FoldSkips(es, tail[..n]);
      FoldStep(es + tail[..n], tail[n]);
      assert es + tail == es + tail[..n] + [tail[n]];
    }
  }

  lemma {:induction false} OthersLeaveTheCompany(b: Blocks, more: Blocks)
    requires |b| > 0 && NoCompanyRecords(more)
    ensures Fold(Entries(b + more)) == Fold(Entries(b))
  {
    hide Fold, IsIrena, Entries;
    if more == [] {
      assert b + more == b;
    } else {
      var n := |more| - 1;
      OthersLeaveTheCompany(b, more[..n]);
      var sofar, last := b + more[..n], BlockEntries(|b| + n, more[n]);
      assert (b + more)[..|b| + n] == sofar && (b + more)[..|b| + n + 1] == b + more;
      BlockAdded(b + more, |b| + n);
      FoldSkips(Entries(sofar), last);
    }
  }

  lemma CompanyAfterOthers(b: Blocks, more: Blocks)
    requires |b| > 0 && NoCompanyRecords(more) && CompanyNow(b).Ok?
    ensures CompanyNow(b + more) == Ok(CompanyNow(b).value.(at := |b + more| - 1))
  {
    hide Fold, Entries;
    OthersLeaveTheCompany(b, more);
    assert b[..|b|] == b && (b + more)[..|b + more|] == b + more;
  }

  /** What happens in a run: blocks of other records, or an attempt to execute a resolution. */
  datatype Move = Others(more: Blocks) | Act(resolution: ResolutionState, key: PublicKey, notarisation: Notarisation,
      answers: seq<bool>)

  ghost function Moved(w: World, b: Blocks, move: Move): (b': Blocks)
    requires |b| > 0 && (move.Act? ==> Formed(move.resolution))
    ensures b <= b'
  {
    match move
    case Others(more) => b + more
    case Act(r, key, notarisation, answers) => ExecuteResolution(w, r, b, key, notarisation, answers).blocks
  }

  /**
   The moves the claim is about: other records, and resolutions resting on one person's own
   decisions that amend anything but the register.
   */
  ghost predicate OnOwnSignature(w: World, b: Blocks, signer: Id, move: Move)
    requires |b| > 0
  {
    match move
    case Others(more) => NoCompanyRecords(more)
    case Act(r, _, _, _) =>
      && Formed(r) && (DecidedBy(b, r.authority).Some? ==>
           DecidedBy(b, r.authority).value.approval.actor == Some(signer))
      && (r.kind.Amendment? ==> r.kind.target != TargetShares && ReadsThrough(w, r.kind.target, r.kind.body))
  }

  ghost predicate AllOnOwnSignature(w: World, b: Blocks, signer: Id, moves: seq<Move>)
    requires |b| > 0
    decreases |moves|
  {
    moves == [] || (OnOwnSignature(w, b, signer, moves[0])
        && AllOnOwnSignature(w, Moved(w, b, moves[0]), signer, moves[1..]))
  }

  ghost function AfterMoves(w: World, b: Blocks, signer: Id, moves: seq<Move>): (b': Blocks)
    requires |b| > 0 && AllOnOwnSignature(w, b, signer, moves)
    ensures b <= b'
    decreases |moves|
  {
    if moves == [] then b else AfterMoves(w, Moved(w, b, moves[0]), signer, moves[1..])
  }

  /** What an amendment published on one person's signature leaves them. */
  lemma PublishedGainsNothing(w: World, r: ResolutionState, b: Blocks, key: PublicKey, notarisation: Notarisation,
      answers: seq<bool>, signer: Id)
    requires |b| > 0 && OnOwnSignature(w, b, signer, Act(r, key, notarisation, answers)) && CompanyNow(b).Ok?
    requires ExecuteResolution(w, r, b, key, notarisation, answers).published.Some? && r.kind.Amendment?
    ensures var b1 := AfterPublishing(w, r, b, key, notarisation, answers, CheckedExecution(w, r, b, key).value);
      |b1| > 0 && CompanyNow(b1).Ok? && GainedNothing(signer, CompanyNow(b).value, CompanyNow(b1).value)
  {
    hide Reconstruct, PublishOn, CheckedExecution, ExecuteResolution, MaySign, Normalise, DemotionError;
    hide VerdictHolds, GainedNothing, DecidedBy, ReadsThrough, ApprovedDigest, Locate, Contains;
    ExecutedFacts(w, r, b, key, notarisation, answers);
    CheckedApproval(w, r, b, key);
    var approval := CheckedExecution(w, r, b, key).value;
    var kind, base := r.kind.target.Kind(), approval.BaseOf(r.kind.target);
    PublishedIsThere(w, b, Says(answers), key, kind, r.kind.body, Some(base), notarisation);
    PublishedTakesEffect(w, b, Says(answers), key, kind, r.kind.body, Some(base), notarisation);
    var c, ref := CompanyNow(b).value, ExecuteResolution(w, r, b, key, notarisation, answers).published.value;
    SameVerdict(w, c, approval, r.kind.target, r.kind.body, ref.record.body);
    DemotedGainsNothing(signer, c, ref);
    var d := Replaced(c, ref);
    NothingHappened(signer, d, d.(applied := c.applied + [ref], at := |b|));
    GainedNothingChains(signer, c, d, d.(applied := c.applied + [ref], at := |b|));
  }

  lemma LinkedOrNot(w: World, r: ResolutionState, b: Blocks, key: PublicKey, notarisation: Notarisation,
      answers: seq<bool>)
    requires |b| > 0 && Formed(r) && ExecuteResolution(w, r, b, key, notarisation, answers).published.Some?
    ensures r.kind.Amendment? && CheckedExecution(w, r, b, key).Ok?
    ensures var x := ExecuteResolution(w, r, b, key, notarisation, answers);
      var b1 := AfterPublishing(w, r, b, key, notarisation, answers, CheckedExecution(w, r, b, key).value);
      x.blocks == b1 || exists tx :: x.blocks == b1 + [[tx]] && !IsIrena(tx)
  {
    hide CheckedAuthority, Reconstruct, MaySign, FoundExecution, DemotionError, PublishOn, ApprovedDigest, Locate;
  }

  /** One move gains the signer nothing. */
  lemma MoveGainsNothing(w: World, b: Blocks, signer: Id, move: Move)
    requires |b| > 0 && OnOwnSignature(w, b, signer, move) && CompanyNow(b).Ok?
    ensures CompanyNow(Moved(w, b, move)).Ok?
    ensures GainedNothing(signer, CompanyNow(b).value, CompanyNow(Moved(w, b, move)).value)
  {
    hide Reconstruct, ExecuteResolution, CheckedExecution, AfterPublishing, GainedNothing, DecidedBy;
    hide ReadsThrough, IsIrena;
    var c := CompanyNow(b).value;
    match move {
      case Others(more) =>
        CompanyAfterOthers(b, more);
        NothingHappened(signer, c, c.(at := |b + more| - 1));
      case Act(r, key, notarisation, answers) =>
        var x := ExecuteResolution(w, r, b, key, notarisation, answers);
        if x.published.None? {
          NothingHappened(signer, c, c);
        } else {
          LinkedOrNot(w, r, b, key, notarisation, answers);
          PublishedGainsNothing(w, r, b, key, notarisation, answers, signer);
          var b1 := AfterPublishing(w, r, b, key, notarisation, answers, CheckedExecution(w, r, b, key).value);
          if x.blocks != b1 {
            var tx :| x.blocks == b1 + [[tx]] && !IsIrena(tx);
            OtherRecordsChangeNothing(b1, tx);
            var d := CompanyNow(b1).value;
            NothingHappened(signer, d, d.(at := |b1|));
            GainedNothingChains(signer, c, d, d.(at := |b1|));
          }
        }
    }
  }

  /**
   Non-escalation over runs: however many amendments a person pushes through on their own
   decisions, with anything but company records between them, in the end they hold no seat they
   did not hold on the same channel, sign no family they did not sign, and everybody else is who
   they were, with every key of theirs still found to be theirs.
   */
  lemma {:induction false} NonEscalation(w: World, b: Blocks, signer: Id, moves: seq<Move>)
    requires |b| > 0 && CompanyNow(b).Ok? && AllOnOwnSignature(w, b, signer, moves)
    ensures CompanyNow(AfterMoves(w, b, signer, moves)).Ok?
    ensures GainedNothing(signer, CompanyNow(b).value, CompanyNow(AfterMoves(w, b, signer, moves)).value)
    decreases |moves|
  {
    hide Reconstruct, GainedNothing, NoCompanyRecords, DecidedBy, ReadsThrough, ExecuteResolution;
    var c := CompanyNow(b).value;
    if moves == [] {
      NothingHappened(signer, c, c);
    } else {
      MoveGainsNothing(w, b, signer, moves[0]);
      var b1 := Moved(w, b, moves[0]);
      NonEscalation(w, b1, signer, moves[1..]);
      GainedNothingChains(signer, c, CompanyNow(b1).value, CompanyNow(AfterMoves(w, b1, signer, moves[1..])).value);
    }
  }
}
