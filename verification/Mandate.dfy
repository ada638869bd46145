/**
 What stands behind a resolution and behind what it puts in force: who decided, that they were
 allowed to decide it, and that what is in force afterwards is what they decided.
 */
module Mandate {
  import opened Bytes
  import opened Ordering
  import opened Evaluation
  import opened Parts
  import opened Records
  import opened Text
  import opened Ledger
  import opened Resolve
  import opened Admission
  import opened Approvals
  import opened Resolution
  import opened Executions
  import E = Evidence
  import H = History
  import V = Vote
  import D = Decision
  import M = Meeting
  import O = Outcomes

  // ---------------------------------------------------------------- scope

  /** The part of the company a target is. */
  function PartOf(target: Target): RecordKind {
    match target
    case TargetShares => SharesKind
    case TargetChannels => ChannelsKind
    case TargetPersons => PersonsKind
    case TargetAuthorisation => AuthorisationKind
  }

  predicate ScopedTo(c: Company, id: Id, target: Target, channel: Channel) {
    E.Lists(c, id, channel) && channel.scope.Some? && PartOf(target) in channel.scope.value
  }

  /** The company at that height lists a channel of that id, with a scope, and the scope names the part. */
  ghost predicate InScope(b: Blocks, at: nat, id: Id, target: Target)
    requires |b| > 0
  {
    Reconstruct(b, at).Ok? && exists channel :: ScopedTo(Reconstruct(b, at).value, id, target, channel)
  }

  /** A proposal that amends nothing may be decided through any channel; an amendment within scope only. */
  ghost predicate MayDecide(b: Blocks, at: nat, id: Id, kind: ResolutionKind)
    requires |b| > 0
  {
    kind.Amendment? ==> InScope(b, at, id, kind.target)
  }

  lemma ScopeIsExact(b: Blocks, approval: Approval, kind: ResolutionKind)
    requires |b| > 0
    ensures ScopeError(b, approval, kind).None? <==> MayDecide(b, approval.height, approval.channel, kind)
  {
    hide Reconstruct;
    if kind.Amendment? && Reconstruct(b, approval.height).Ok? {
      var c := Reconstruct(b, approval.height).value;
      if channel :| ScopedTo(c, approval.channel, kind.target, channel) {
        ListedChannelFound(c.channels.value, channel);
      }
      if ScopeError(b, approval, kind).None? {
        assert ScopedTo(c, approval.channel, kind.target, ChannelAt(c.channels.value, approval.channel).value);
      }
    }
  }

  // ---------------------------------------------------------------- mandates

  /** The digest deciders have to have had before them. */
  function DigestOf(w: World, kind: ResolutionKind): Digest {
    match kind
    case Declarative(document) => document
    case Amendment(_, body) => w.textDigest(Normalise(body))
  }

  predicate AnswersItem(line: FinalItem, number: nat, voteTx: TxId) {
    line.item.number == number && line.item.body.VoteItem? && line.voteTx == Some(voteTx)
  }

  /** The meeting's record has the vote against that item. */
  ghost predicate ItemAnswered(b: Blocks, meetingTx: TxId, number: nat, voteTx: TxId) {
    && Locate(b, meetingTx).Some? && M.HoldsFinal(Locate(b, meetingTx).value)
    && exists line :: line in Locate(b, meetingTx).value.tx.body.payload.meeting.record.items
         && AnswersItem(line, number, voteTx)
  }

  /** A vote that verifies, through that channel, on that digest, passed. */
  ghost predicate Passed(w: World, b: Blocks, id: Id, voteTx: TxId, kind: ResolutionKind) {
    |b| > 0 && V.VoteVerifies(w, b, voteTx) && Locate(b, voteTx).Some? && V.HoldsVote(Locate(b, voteTx).value) &&
    var vote := Locate(b, voteTx).value.tx.body.payload.vote;
    && vote.snapshot.channel == id && vote.snapshot.proposalDigest == DigestOf(w, kind)
    && vote.evaluation.outcome == Accepted && MayDecide(b, vote.snapshot.height, id, kind)
  }

  ghost predicate DecidedAlone(w: World, b: Blocks, id: Id, decisionTx: TxId, kind: ResolutionKind) {
    |b| > 0 && D.DecisionVerifies(w, b, decisionTx) && Locate(b, decisionTx).Some?
    && D.HoldsDecision(Locate(b, decisionTx).value) &&
    var s := Locate(b, decisionTx).value.tx.body.payload.decision.snapshot;
    s.channel == id && s.proposalDigest == DigestOf(w, kind) && MayDecide(b, s.height, id, kind)
  }

  /**
   What it takes to resolve something: a passed vote that a verifying meeting has against the item
   named, or a decision that verifies; through the channel named, on the digest of this very
   proposal, and for an amendment within what the channel's scope listed when they decided.
   */
  ghost predicate Mandated(w: World, b: Blocks, authority: Authority, kind: ResolutionKind) {
    match authority
    case ByVote(id, meetingTx, number, voteTx) =>
      M.MeetingVerifies(w, b, meetingTx) && ItemAnswered(b, meetingTx, number, voteTx) && Passed(w, b, id, voteTx, kind)
    case ByDecision(id, decisionTx) => DecidedAlone(w, b, id, decisionTx, kind)
  }

  /** In a verifying meeting an item number is on one line only. */
  lemma OneLineAnItem(w: World, b: Blocks, meetingTx: TxId, x: FinalItem, y: FinalItem)
    requires M.MeetingVerifies(w, b, meetingTx)
    requires Locate(b, meetingTx).Some? && M.HoldsFinal(Locate(b, meetingTx).value)
    requires var items := Locate(b, meetingTx).value.tx.body.payload.meeting.record.items; x in items && y in items
    requires x.item.number == y.item.number
    ensures x == y
  {
    hide M.MeetingVerifies, Locate, M.Blank, E.TellsTheTruth;
    E.VerifiedMeetingTellsTheTruth(w, b, meetingTx);
    var items := Locate(b, meetingTx).value.tx.body.payload.meeting.record.items;
    var i :| 0 <= i < |items| && items[i] == x;
    var j :| 0 <= j < |items| && items[j] == y;
  }

  lemma AnswerIsTheLine(w: World, b: Blocks, authority: Authority)
    requires authority.ByVote? && M.MeetingVerifies(w, b, authority.meetingTx)
    ensures AnswerStands(b, authority) <==> ItemAnswered(b, authority.meetingTx, authority.itemNumber, authority.voteTx)
  {
    hide M.MeetingVerifies, Locate, M.Blank;
    var (meetingTx, number, voteTx) := (authority.meetingTx, authority.itemNumber, authority.voteTx);
    E.VerifiedMeetingTellsTheTruth(w, b, meetingTx);
    var items := Locate(b, meetingTx).value.tx.body.payload.meeting.record.items;
    assert MeetingLines(b, meetingTx) == items;
    if AnswerStands(b, authority) { assert AnswersItem(VoteLine(items, number).value, number, voteTx); }
    if line :| line in items && AnswersItem(line, number, voteTx) {
      OneLineAnItem(w, b, meetingTx, line, LineFor(items, number).value);
    }
  }

  lemma MandateByVote(w: World, b: Blocks, authority: Authority, kind: ResolutionKind)
    requires |b| > 0 && authority.ByVote?
    ensures AuthorityStands(w, b, authority, kind) <==> Mandated(w, b, authority, kind)
  {
    hide M.MeetingVerifies, V.VoteVerifies, Locate, Reconstruct, ScopeError, AnswerStands, ItemAnswered, MayDecide,
        V.HoldsVote;
    var (id, voteTx) := (authority.channel, authority.voteTx);
    if M.MeetingVerifies(w, b, authority.meetingTx) {
      AnswerIsTheLine(w, b, authority);
      if V.VoteVerifies(w, b, voteTx) {
        StandingSourceDecides(w, b, authority);
        M.VerifiedIsLocated(w, b, voteTx);
        ScopeIsExact(b, DecidedBy(b, authority).value.approval, kind);
      }
    }
  }

  lemma MandateByDecision(w: World, b: Blocks, authority: Authority, kind: ResolutionKind)
    requires |b| > 0 && authority.ByDecision?
    ensures AuthorityStands(w, b, authority, kind) <==> Mandated(w, b, authority, kind)
  {
    hide D.DecisionVerifies, Locate, Reconstruct, ScopeError, MayDecide, D.HoldsDecision;
    var decisionTx := authority.decisionTx;
    if D.DecisionVerifies(w, b, decisionTx) {
      StandingSourceDecides(w, b, authority);
      VerifiedDecisionRead(w, b, decisionTx);
      DecisionIsLocated(b, decisionTx);
      ScopeIsExact(b, DecidedBy(b, authority).value.approval, kind);
    }
  }

  /** The lifecycle and the verifier accept an authority exactly when there is a mandate. */
  lemma AuthorityIsMandate(w: World, b: Blocks, authority: Authority, kind: ResolutionKind)
    requires |b| > 0
    ensures AuthorityStands(w, b, authority, kind) <==> Mandated(w, b, authority, kind)
    ensures CheckedAuthority(w, b, authority, kind).Ok? <==> Mandated(w, b, authority, kind)
  {
    hide AuthorityStands, Mandated, CheckedAuthority;
    if authority.ByVote? { MandateByVote(w, b, authority, kind); } else { MandateByDecision(w, b, authority, kind); }
    LifecycleAndVerifierAgree(w, b, authority, kind);
  }

  /** The height an authority was decided at, off the record it names. */
  function DecidedAt(b: Blocks, authority: Authority): Option<nat> {
    match authority
    case ByVote(_, _, _, voteTx) =>
      var e := Locate(b, voteTx);
      if e.Some? && e.value.tx.body.payload.VotePayload? then Some(e.value.tx.body.payload.vote.snapshot.height)
        else None
    case ByDecision(_, decisionTx) =>
      var e := Locate(b, decisionTx);
      if e.Some? && e.value.tx.body.payload.DecisionPayload?
      then Some(e.value.tx.body.payload.decision.snapshot.height) else None
  }

  /** When they decided, the channel named had a scope with that part in it. */
  ghost predicate WithinScope(b: Blocks, authority: Authority, target: Target)
    requires |b| > 0
  {
    DecidedAt(b, authority).Some? && InScope(b, DecidedAt(b, authority).value, authority.channel, target)
  }

  lemma MandateIsWithinScope(w: World, b: Blocks, authority: Authority, kind: ResolutionKind)
    requires |b| > 0 && kind.Amendment? && Mandated(w, b, authority, kind)
    ensures WithinScope(b, authority, kind.target)
  {
    hide Locate, V.VoteVerifies, D.DecisionVerifies, M.MeetingVerifies, InScope, ItemAnswered;
  }

  /**
   Beyond its scope a channel resolves nothing: a proposal to amend a part the channel's scope did
   not list when they decided, or through a channel without a scope, is neither filed nor published.
   */
  lemma OutOfScopeNeverHappens(w: World, r: ResolutionState, b: Blocks, key: PublicKey, notarisation: Notarisation,
      works: bool, answers: seq<bool>)
    requires |b| > 0 && Formed(r) && r.kind.Amendment? && !WithinScope(b, r.authority, r.kind.target)
    ensures FinalizeResolution(w, r, b, key, notarisation, works).0.Err?
    ensures FinalizeResolution(w, r, b, key, notarisation, works).1 == b
    ensures ExecuteResolution(w, r, b, key, notarisation, answers).published.None?
    ensures ExecuteResolution(w, r, b, key, notarisation, answers).blocks == b
  {
    hide CheckedAuthority, Mandated, WithinScope, Reconstruct, MaySign, Locate, FoundExecution, DemotionError;
    hide PublishOn, ApprovedDigest, M.Blank, Readable;
    AuthorityIsMandate(w, b, r.authority, r.kind);
    if Mandated(w, b, r.authority, r.kind) { MandateIsWithinScope(w, b, r.authority, r.kind); }
  }

  // ---------------------------------------------------------------- resolutions

  /** A vote a verifying meeting answers an item with was frozen before the meeting's record. */
  lemma VotedEarlier(w: World, b: Blocks, meetingTx: TxId, number: nat, voteTx: TxId)
    requires M.MeetingVerifies(w, b, meetingTx) && ItemAnswered(b, meetingTx, number, voteTx)
    ensures Locate(b, meetingTx).Some? && Locate(b, voteTx).Some?
    ensures Locate(b, voteTx).value.tx.body.payload.VotePayload?
    ensures Locate(b, voteTx).value.tx.body.payload.vote.snapshot.height < Locate(b, meetingTx).value.height
  {
    hide V.VoteVerifies, M.MeetingVerifies, Locate, M.Blank;
    E.VerifiedMeetingTellsTheTruth(w, b, meetingTx);
    var e := Locate(b, meetingTx).value;
    var items := e.tx.body.payload.meeting.record.items;
    var line :| line in items && AnswersItem(line, number, voteTx);
    var i :| 0 <= i < |items| && items[i] == line;
    assert E.TellsTheTruth(w, b, e.tx.body.payload.company, e.tx.body.payload.meeting.record, e.height, items[i]);
  }

  lemma DecidedEarlier(w: World, b: Blocks, authority: Authority, kind: ResolutionKind)
    requires b != [] && Mandated(w, b, authority, kind)
    ensures DecidedAt(b, authority).Some? && DecidedBy(b, authority).Some?
    ensures DecidedAt(b, authority).value < DecidedBy(b, authority).value.height
  {
    hide V.VoteVerifies, D.DecisionVerifies, M.MeetingVerifies, Locate, MayDecide, Reconstruct, M.Blank, ItemAnswered;
    AuthorityIsMandate(w, b, authority, kind);
    match authority {
      case ByVote(id, meetingTx, number, voteTx) => VotedEarlier(w, b, meetingTx, number, voteTx);
      case ByDecision(id, decisionTx) => E.VerifiedDecisionIsSigned(w, b, decisionTx);
    }
  }

  /**
   A resolution that verifies has a mandate for what it carries, of the company it names and
   decided before it, and was signed by somebody that company lists for governance.
   */
  lemma VerifiedResolutionIsMandated(w: World, b: Blocks, txId: TxId)
    requires Resolution.ResolutionVerifies(w, b, txId)
    ensures Locate(b, txId).Some? && HoldsResolution(w, Locate(b, txId).value)
    ensures var e := Locate(b, txId).value; var record := e.tx.body.payload.resolution;
      && b != [] && Mandated(w, b, record.authority, record.kind) && DecidedAt(b, record.authority).Some?
      && DecidedAt(b, record.authority).value < e.height && Reconstruct(b, e.height).Ok?
      && var now := Reconstruct(b, e.height).value;
         && now.company == record.company
         && ListedSigner(now.persons.value, now.authorisation.value, GovernanceFamily, e.tx.body.signer)
  {
    hide ResolutionEntryVerifies, AuthorityStands, Mandated, Reconstruct, ListedSigner, Readable, M.Blank, Locate;
    hide GovernanceSignerAt, DecidedBy;
    var e := Locate(b, txId).value;
    ChecksGathered(w, b, e);
    var record := e.tx.body.payload.resolution;
    AuthorityIsMandate(w, b, record.authority, record.kind);
    DecidedEarlier(w, b, record.authority, record.kind);
    E.SignerIsListed(b, e.height, e.tx.body.signer);
  }

  // ---------------------------------------------------------------- executions

  ghost predicate StandsAt(text: string, body: string, i: int) {
    0 <= i && i + |body| <= |text| && forall k :: 0 <= k < |body| ==> text[i + k] == body[k]
  }

  /** The approved body, character for character, is a stretch of the published text. */
  ghost predicate CarriedIn(text: string, body: string) {
    exists i :: StandsAt(text, body, i)
  }

  lemma ContainedIsCarried(text: string, body: string)
    ensures Contains(text, body) <==> CarriedIn(text, body)
  {
    if i :| HoldsAt(text, body, i) {
      var part := text[i..i + |body|];
      assert forall k :: 0 <= k < |body| ==> part[k] == text[i + k];
      assert StandsAt(text, body, i);
    }
    if i :| StandsAt(text, body, i) {
      assert text[i..i + |body|] == body;
      assert HoldsAt(text, body, i);
    }
  }

  /** What a link ties together: an execution, the resolution it names and the amendment it names. */
  ghost predicate Ties(w: World, b: Blocks, x: Execution, e: Entry, resolution: Entry, amendment: Entry) {
    && Locate(b, x.resolutionTx) == Some(resolution) && Locate(b, x.amendmentTx) == Some(amendment)
    && resolution.height < amendment.height <= e.height
    && resolution.tx.body.payload.ResolutionPayload? && amendment.tx.body.payload.CompanyPayload?
    && resolution.tx.body.payload.resolution.kind.Amendment?
    && var record, amended := resolution.tx.body.payload.resolution, amendment.tx.body.payload.record;
       && record.kind.target == x.target && amended.company == record.company
       && amended.body.Kind() == PartOf(x.target) && amended.supersedes == Some(x.replacedTx)
       && CarriedIn(amendment.tx.body.payload.text, record.kind.body)
       && x.bodyDigest == w.textDigest(Normalise(record.kind.body))
  }

  /**
   An execution that verifies ties a resolution that verifies to an amendment published after it
   whose text carries the resolution's body character for character, of the part it was about,
   replacing the record it names.
   */
  lemma VerifiedExecutionTies(w: World, b: Blocks, txId: TxId)
    requires ExecutionVerifies(w, b, txId)
    ensures b != [] && Locate(b, txId).Some? && HoldsExecution(Locate(b, txId).value)
    ensures var e := Locate(b, txId).value; var x := ExecutionOf(e);
      && Resolution.ResolutionVerifies(w, b, x.resolutionTx)
      && Locate(b, x.resolutionTx).Some? && Locate(b, x.amendmentTx).Some?
      && Ties(w, b, x, e, Locate(b, x.resolutionTx).value, Locate(b, x.amendmentTx).value)
  {
    hide ExecutionEntryVerifies, Resolution.ResolutionVerifies, Applied, GovernanceSignerAt, Locate, DecidedBy;
    hide Readable, M.Blank, Contains, CarriedIn, DemotionStands, OnlyExecution, Normalise;
    var e := Locate(b, txId).value;
    ExecutionGathered(w, b, e);
    var x := ExecutionOf(e);
    var resolution := ResolutionFor(w, b, x).value;
    var record := resolution.tx.body.payload.resolution;
    var amendment := AmendmentFor(b, x, record.company).value;
    ContainedIsCarried(amendment.tx.body.payload.text, record.kind.body);
  }

  /** A company payload whose text says one thing: whatever in it reads as such a document reads as its record. */
  ghost predicate ReadsOneWay(w: World, payload: Payload) {
    payload.CompanyPayload? && forall part ::
      CarriedIn(payload.text, part) && w.read(payload.record.body.Kind(), part).Some? ==>
        w.read(payload.record.body.Kind(), part) == Some(payload.record.body)
  }

  /** That part of the company is what the text reads as, provided by that record. */
  predicate IsInForce(w: World, c: Company, target: Target, body: string, txId: TxId) {
    match target
    case TargetShares => c.shares.txId == txId && w.read(SharesKind, body) == Some(SharesBody(c.shares.value))
    case TargetChannels => c.channels.txId == txId && w.read(ChannelsKind, body) == Some(ChannelsBody(c.channels.value))
    case TargetPersons => c.persons.txId == txId && w.read(PersonsKind, body) == Some(PersonsBody(c.persons.value))
    case TargetAuthorisation =>
      c.authorisation.txId == txId && w.read(AuthorisationKind, body) == Some(AuthorisationBody(c.authorisation.value))
  }

  lemma ForceIsPart(w: World, c: Company, target: Target, body: string, published: RecordBody, txId: TxId)
    requires published.Kind() == PartOf(target) && w.read(PartOf(target), body) == Some(published)
    requires InForceAs(c, published, txId)
    ensures IsInForce(w, c, target, body, txId)
  {
  }

  lemma RefIsIrena(e: Entry)
    ensures RefOf(e).Some? ==> IsIrena(e.tx)
  {
  }

  /** The amendment an execution names is among the company's records, where the ledger first has it. */
  lemma AmendmentIsApplied(w: World, b: Blocks, e: Entry, x: Execution)
    requires b != [] && Applied(b, e.height, x) && IdsCommit(b) && Locate(b, x.amendmentTx).Some?
    requires Locate(b, x.amendmentTx).value.height <= e.height
    ensures var a := Locate(b, x.amendmentTx).value;
      && Reconstruct(b, e.height).Ok? && InCompanySpace(a.tx)
      && a.height < |b| && a.index < |b[a.height]| && b[a.height][a.index] == a.tx
  {
    hide Fold, Entries, InCompanySpace, RefOf, IsIrena, Locate, HistoryIn;
    var c := Reconstruct(b, e.height).value;
    var a := Locate(b, x.amendmentTx).value;
    var r :| r in c.HistoryOf(x.target.Kind()) && r.txId == x.amendmentTx;
    H.HistoryIsApplied(c.applied, x.target.Kind());
    var cut := b[..H.End(b, e.height) + 1];
    var f := H.AppliedEntry(Entries(cut), r);
    EntriesGrow(cut, b);
    H.RefsOfOneTx(f, f);
    RefIsIrena(f);
    ReadsInPlace(f);
    var k :| 0 <= k < |Entries(b)| && Entries(b)[k] == a;
    PlaceOfEntry(b, k);
  }

  /** Right after the amendment the part of the company is what the resolution's own body reads as. */
  predicate PutInForce(w: World, b: Blocks, x: Execution, resolution: Entry, amendment: Entry) {
    && resolution.tx.body.payload.ResolutionPayload? && resolution.tx.body.payload.resolution.kind.Amendment?
    && amendment.height < |b| && amendment.index < |b[amendment.height]|
    && CompanyBefore(b, amendment.height, amendment.index + 1).Some?
    && IsInForce(w, CompanyBefore(b, amendment.height, amendment.index + 1).value, x.target,
                 resolution.tx.body.payload.resolution.kind.body, x.amendmentTx)
  }

  /** In a text that reads one way the body it carries reads as the record. */
  lemma TiedBodyReads(w: World, b: Blocks, x: Execution, e: Entry, resolution: Entry, amendment: Entry)
    requires Ties(w, b, x, e, resolution, amendment) && HoldsResolution(w, resolution)
    requires ReadsOneWay(w, amendment.tx.body.payload)
    ensures resolution.tx.body.payload.ResolutionPayload? && resolution.tx.body.payload.resolution.kind.Amendment?
    ensures amendment.tx.body.payload.CompanyPayload? && amendment.height <= e.height
    ensures var body, record := resolution.tx.body.payload.resolution.kind.body, amendment.tx.body.payload.record;
      record.body.Kind() == PartOf(x.target) && w.read(PartOf(x.target), body) == Some(record.body)
  {
    hide Locate, CarriedIn, Normalise, M.Blank;
  }

  lemma VerifiedIsApplied(w: World, b: Blocks, e: Entry)
    requires ExecutionEntryVerifies(w, b, e)
    ensures b != [] && HoldsExecution(e) && Applied(b, e.height, ExecutionOf(e))
  {
    hide ExecutionEntryVerifies, Resolution.ResolutionVerifies, LinkIsSound, Applied, GovernanceSignerAt;
    hide ResolutionFor, OnlyExecution;
    ExecutionGathered(w, b, e);
  }

  lemma TiedIsInForce(w: World, b: Blocks, x: Execution, e: Entry, resolution: Entry, a: Entry)
    requires b != [] && IdsCommit(b) && Applied(b, e.height, x) && Locate(b, x.amendmentTx) == Some(a)
    requires Ties(w, b, x, e, resolution, a) && HoldsResolution(w, resolution) && ReadsOneWay(w, a.tx.body.payload)
    ensures PutInForce(w, b, x, resolution, a)
  {
    hide Locate, ReadsOneWay, Reconstruct, InCompanySpace, InForceAs, IsInForce, Applied, CompanyBefore, Ties;
    hide HoldsResolution, IdsCommit;
    TiedBodyReads(w, b, x, e, resolution, a);
    AmendmentIsApplied(w, b, e, x);
    RecordTakesForce(b, e.height, a.height, a.index);
    ForceIsPart(w, CompanyBefore(b, a.height, a.index + 1).value, x.target,
      resolution.tx.body.payload.resolution.kind.body, a.tx.body.payload.record.body, x.amendmentTx);
  }

  /**
   What is in force is what was approved. When an execution verifies, and the text of the amendment
   it names reads one way, then right after that amendment the part of the company it was about is
   what the resolution's own body reads as, and the amendment provides it.
   */
  lemma ApprovedIsInForce(w: World, b: Blocks, txId: TxId)
    requires ExecutionVerifies(w, b, txId) && IdsCommit(b)
    requires Locate(b, txId).Some? && HoldsExecution(Locate(b, txId).value)
    requires var x := ExecutionOf(Locate(b, txId).value);
      Locate(b, x.amendmentTx).Some? && ReadsOneWay(w, Locate(b, x.amendmentTx).value.tx.body.payload)
    ensures var x := ExecutionOf(Locate(b, txId).value);
      && Locate(b, x.resolutionTx).Some?
      && PutInForce(w, b, x, Locate(b, x.resolutionTx).value, Locate(b, x.amendmentTx).value)
  {
    hide Resolution.ResolutionVerifies, Locate, M.Blank, ReadsOneWay, Reconstruct, PutInForce, Mandated;
    hide ExecutionEntryVerifies, Applied, Ties, Readable, ListedSigner;
    VerifiedExecutionTies(w, b, txId);
    var e := Locate(b, txId).value;
    var x := ExecutionOf(e);
    VerifiedIsApplied(w, b, e);
    VerifiedResolutionIsMandated(w, b, x.resolutionTx);
    TiedIsInForce(w, b, x, e, Locate(b, x.resolutionTx).value, Locate(b, x.amendmentTx).value);
  }

  lemma ReplacedIsInForce(w: World, c: Company, d: Company, ref: RecordRef, target: Target, body: string)
    requires d == Replaced(c, ref).(applied := d.applied, at := d.at)
    requires w.read(target.Kind(), body) == Some(ref.record.body) && ref.record.body.Kind() == target.Kind()
    ensures IsInForce(w, d, target, body, ref.txId)
  {
  }

  lemma ForceIgnoresHeight(w: World, c: Company, at: nat, target: Target, body: string, txId: TxId)
    ensures IsInForce(w, c.(at := at), target, body, txId) == IsInForce(w, c, target, body, txId)
  {
  }

  /** After the amendment the link, if it is recorded, leaves the company as it is. */
  lemma LinkChangesNothing(w: World, r: ResolutionState, b: Blocks, key: PublicKey, notarisation: Notarisation,
      answers: seq<bool>, approval: Approval)
    requires |b| > 0 && Formed(r) && ExecuteResolution(w, r, b, key, notarisation, answers).published.Some?
    requires r.kind.Amendment? && CheckedExecution(w, r, b, key) == Ok(approval)
    requires var b1 := O.AfterPublishing(w, r, b, key, notarisation, answers, approval); |b1| > 0 && CompanyNow(b1).Ok?
    ensures var b2 := ExecuteResolution(w, r, b, key, notarisation, answers).blocks;
      && |b2| > 0
      && CompanyNow(b2) ==
           Ok(CompanyNow(O.AfterPublishing(w, r, b, key, notarisation, answers, approval)).value.(at := |b2| - 1))
  {
    hide PublishOn, CheckedExecution, MaySign, ApprovedDigest, DemotionError, Normalise, Locate, Fold;
    var b1 := O.AfterPublishing(w, r, b, key, notarisation, answers, approval);
    var b2 := ExecuteResolution(w, r, b, key, notarisation, answers).blocks;
    if b2 != b1 { OtherRecordsChangeNothing(b1, b2[|b1|][0]); }
  }

  lemma AmendedIsInForce(w: World, b: Blocks, works: bool, key: PublicKey, target: Target, body: string,
      supersedes: Option<TxId>, notarisation: Notarisation)
    requires |b| > 0 && PublishOn(w, b, works, key, target.Kind(), body, supersedes, notarisation).0.Ok?
    ensures var (r, b1) := PublishOn(w, b, works, key, target.Kind(), body, supersedes, notarisation);
      |b1| > 0 && CompanyNow(b1).Ok? && IsInForce(w, CompanyNow(b1).value, target, Normalise(body), r.value.txId)
  {
    hide Reconstruct, PublishOn, Normalise, IsInForce, MaySign, Locate, Replaced;
    O.PublishedIsThere(w, b, works, key, target.Kind(), body, supersedes, notarisation);
    PublishedTakesEffect(w, b, works, key, target.Kind(), body, supersedes, notarisation);
    var (r, b1) := PublishOn(w, b, works, key, target.Kind(), body, supersedes, notarisation);
    ReplacedIsInForce(w, CompanyNow(b).value, CompanyNow(b1).value, r.value, target, Normalise(body));
  }

  /** What was published was within the scope of those who decided it. */
  lemma PublishedWasInScope(w: World, r: ResolutionState, b: Blocks, key: PublicKey, notarisation: Notarisation,
      answers: seq<bool>)
    requires |b| > 0 && Formed(r) && ExecuteResolution(w, r, b, key, notarisation, answers).published.Some?
    ensures r.kind.Amendment? && Mandated(w, b, r.authority, r.kind) && WithinScope(b, r.authority, r.kind.target)
  {
    hide *;
    O.ExecutedFacts(w, r, b, key, notarisation, answers);
    AuthorityIsMandate(w, b, r.authority, r.kind);
    MandateIsWithinScope(w, b, r.authority, r.kind);
  }

  /**
   What executing publishes is in force at once: after an attempt that published, whether or not the
   link was recorded, the part is what the approved body, normalised, reads as.
   */
  lemma PublishedIsInForce(w: World, r: ResolutionState, b: Blocks, key: PublicKey, notarisation: Notarisation,
      answers: seq<bool>)
    requires |b| > 0 && Formed(r) && ExecuteResolution(w, r, b, key, notarisation, answers).published.Some?
    ensures var x := ExecuteResolution(w, r, b, key, notarisation, answers);
      && r.kind.Amendment? && |x.blocks| > 0 && CompanyNow(x.blocks).Ok?
      && IsInForce(w, CompanyNow(x.blocks).value, r.kind.target, Normalise(r.kind.body), x.published.value.txId)
  {
    hide Reconstruct, PublishOn, CheckedExecution, CheckedAuthority, MaySign, ApprovedDigest, DemotionError, Normalise;
    hide FoundExecution, IsInForce, Locate, ExecuteResolution, CompanyNow;
    O.ExecutedFacts(w, r, b, key, notarisation, answers);
    var approval := CheckedExecution(w, r, b, key).value;
    var target, base := r.kind.target, approval.BaseOf(r.kind.target);
    AmendedIsInForce(w, b, Says(answers), key, target, r.kind.body, Some(base), notarisation);
    LinkChangesNothing(w, r, b, key, notarisation, answers, approval);
    var b1 := O.AfterPublishing(w, r, b, key, notarisation, answers, approval);
    ForceIgnoresHeight(w, CompanyNow(b1).value, |ExecuteResolution(w, r, b, key, notarisation, answers).blocks| - 1,
      target, Normalise(r.kind.body), ExecuteResolution(w, r, b, key, notarisation, answers).published.value.txId);
  }
}
