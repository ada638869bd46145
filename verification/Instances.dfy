/**
 One small firm, on a ledger one block long, and what can be done to it: a concrete input for
 each condition the theorems carry, on which the condition fails and the promise with it.
 */
module Instances {
  import opened Bytes
  import opened Ordering
  import opened Bornite
  import opened Evaluation
  import opened Parts
  import opened Records
  import opened Text
  import opened Ledger
  import opened Resolve
  import A = Approvals
  import C = Counting
  import V = Vote
  import D = Decision
  import M = Meeting
  import MR = MeetingRuns
  import MC = MeetingClosing
  import O = Outcomes
  import R = Resolution
  import X = Executions

  // ---------------------------------------------------------------- the firm

  const KEY: PublicKey := PublicKey(ZERO)

  const FIRM: Id := "firm"

  const NOTED: Notarisation := Notarisation("notary")

  /** Ada holds both shares and every right to sign. */
  function Holders(): (r: Register)
    ensures r == [Holding("ada", None, 2)]
  {
    var hs := [Holding("ada", None, 2)];
    assert Amount(hs[..0]) == 0;
    hs
  }

  function People(): (r: Identities)
    ensures r == [Person("ada", None, None, Some(KEY))]
  {
    [Person("ada", None, None, Some(KEY))]
  }

  function Signers(): (r: Authorisation)
    ensures r == [Signer("ada", CompanyFamily), Signer("ada", GovernanceFamily)]
  {
    var ss := [Signer("ada", CompanyFamily), Signer("ada", GovernanceFamily)];
    assert ss[0].family == CompanyFamily;
    ss
  }

  /** Plain majority of the votes cast, nobody excluded, no quorum. */
  function Majority(weight: WeightRule): Rules {
    Rules(weight, false, NoQuorum, SimpleMajority(VotesCast), ExcludeAbstentions, RejectTie)
  }

  const HEADS := Channel("heads", ShareRegister, Collective(Majority(EqualWeights)), None)

  const OWNER := Channel("owner", ShareRegister, Individual, Some({AuthorisationKind}))

  const SHARES := Channel("shares", ShareRegister, Collective(Majority(ElectorateWeights)), None)

  function Channels(): (r: ChannelSet)
    ensures r == [HEADS, OWNER, SHARES]
  {
    var cs := [HEADS, OWNER, SHARES];
    assert ChannelIds(cs) == ["heads", "owner", "shares"];
    cs
  }

  const CHARTER := Record(FIRM, None, NOTED, Genesis(Identity("firm"), Holders(), Channels(), People(), Signers()))

  /**
   A toy world. Ids number the blocks, a text digests to its length, every signature verifies, and
   any text at all reads as an authorisation under which Ada keeps only the right to amend.
   */
  function Toy(): World {
    World((_: seq<Byte>) => ZERO, (body: TxBody) => IdAt(body.nonce), (_: VoteSnapshot) => ZERO,
          (_: DecisionSnapshot) => ZERO, (_: SignedBallot) => ZERO, (text: string) => Le(|text|, 32),
          (_: PublicKey, _: Statement, _: Signature) => true, (_: PublicKey, _: Statement) => ZERO,
          (kind: RecordKind, _: string) => if kind == AuthorisationKind then Some(AuthorisationBody(AmendingOnly()))
              else None,
          (_: RecordKind, _: Id, _: Option<TxId>, _: Notarisation) => "")
  }

  function IdAt(height: nat): TxId { TxId(Le(height, 32)) }

  function AmendingOnly(): (r: Authorisation)
    ensures r == [Signer("ada", CompanyFamily)]
  {
    var ss := [Signer("ada", CompanyFamily)];
    assert ss[0].family == CompanyFamily;
    ss
  }

  function Founding(): Tx { Sealed(Toy(), CompanyNs, CompanyPayload(CHARTER, ""), KEY, 0) }

  /** The ledger: the founding block and nothing else. */
  function Founded(): Blocks { [[Founding()]] }

  /** The firm, as reconstructed at any height. */
  function Firm(at: nat): Company {
    var r := RecordRef(0, 0, IdAt(0), KEY, CHARTER);
    Company(FIRM, at, IdAt(0), 0, From(r, Identity("firm")), From(r, Holders()), From(r, Channels()),
            From(r, People()), From(r, Signers()), [r])
  }

  /** Ada's key signs for her under any authorisation that lists her. */
  lemma AdaSigns(rows: Authorisation, family: Family)
    ensures SignerOf(People(), rows, family, KEY).Some? <==> Signer("ada", family) in rows
    ensures Signer("ada", CompanyFamily) in rows ==> !LockedOutBy(People(), rows)
  {
    AllowsIsMembership(rows, "ada", family);
    ListedPersonFound(People(), People()[0]);
    assert HolderOf(People(), KEY) == Some(People()[0]);
  }

  /** Anything reads, and ids number the blocks. */
  lemma ToyReads(text: string)
    ensures Toy().read(AuthorisationKind, text) == Some(AuthorisationBody(AmendingOnly()))
  {
  }

  lemma ToyNumbers(ns: Namespace, payload: Payload, height: nat)
    ensures Sealed(Toy(), ns, payload, KEY, height) == Tx(IdAt(height), TxBody(ns, payload, KEY, height))
  {
    hide IdAt;
  }

  lemma CharterFounds()
    ensures IsIrena(Founding()) && RefOf(Entry(0, 0, Founding())).Some?
    ensures Found(RefOf(Entry(0, 0, Founding())).value) == Ok(Firm(0))
  {
    hide SignerOf, LockedOutBy, Toy, IdAt;
    AdaSigns(Signers(), CompanyFamily);
    ToyNumbers(CompanyNs, CompanyPayload(CHARTER, ""), 0);
  }

  lemma FoundedFolds()
    ensures Fold(Entries(Founded())) == Ok(Some(Firm(0)))
  {
    hide Firm, Founding, Found, RefOf, IsIrena;
    CharterFounds();
    OneMoreBlock([], Founding());
    FoldStep([], Entry(0, 0, Founding()));
    assert [] + Founded() == Founded() && Entries([]) == [];
  }

  lemma FirmSigns(at: nat)
    ensures MaySign(Firm(at), GovernanceFamily, KEY) && MaySign(Firm(at), CompanyFamily, KEY)
  {
    hide SignerOf, IdAt;
    AdaSigns(Signers(), CompanyFamily);
    AdaSigns(Signers(), GovernanceFamily);
  }

  lemma FirmIsFounded(at: nat)
    ensures Reconstruct(Founded(), at) == Ok(Firm(at)) && CompanyNow(Founded()) == Ok(Firm(0))
    ensures MaySign(Firm(at), GovernanceFamily, KEY) && MaySign(Firm(at), CompanyFamily, KEY)
  {
    hide Firm, Founding, Fold, Entries, MaySign;
    FirmSigns(at);
    FoundedFolds();
    FirmMoves(0, at);
    FirmMoves(0, 0);
    assert Founded()[..1] == Founded();
  }

  lemma FirmMoves(at: nat, later: nat)
    ensures Firm(at).(at := later) == Firm(later)
  {
  }

  lemma FoundedIsOne()
    ensures |Founded()| == 1 && Firm(0).company == FIRM && Firm(1).company == FIRM
  {
  }

  /** Every channel of the firm resolves to Ada, with her two shares. */
  lemma ResolvesToAda(at: nat, channel: Channel)
    requires channel in {HEADS, OWNER, SHARES}
    ensures ResolveChannel(Firm(at), channel.id) == Ok(Resolved(channel, [Actor("ada", 2, Some(KEY))]))
  {
    ListedChannelFound(Channels(), channel);
    ActorsAlwaysDerive(ShareRegister, Holders(), People());
    ListedPersonFound(People(), People()[0]);
    assert ActorsOf(ShareRegister, Holders(), People()).value == [Actor("ada", 2, Some(KEY))];
  }

  // ---------------------------------------------------------------- ledgers numbered by height

  /** Few blocks, every transaction's id the number of its block. */
  ghost predicate Serial(b: Blocks) {
    0 < |b| < 100 && forall e :: e in Entries(b) ==> e.tx.id == IdAt(e.height) && e.height < |b|
  }

  /** The next block's transaction is new, and the company is as it was. */
  lemma NextBlock(b: Blocks, tx: Tx, at: nat)
    requires Serial(b) && |b| < 90 && tx.id == IdAt(|b|) && !IsIrena(tx) && CompanyNow(b) == Ok(Firm(at))
    ensures Locate(b, tx.id).None? && Serial(b + [[tx]]) && CompanyNow(b + [[tx]]) == Ok(Firm(|b|))
  {
    hide Entries, First, Fold, Firm, Serial;
    SerialGrows(b, tx);
    OtherRecordsChangeNothing(b, tx);
    FirmMoves(at, |b|);
  }

  lemma SerialGrows(b: Blocks, tx: Tx)
    requires Serial(b) && |b| < 90 && tx.id == IdAt(|b|)
    ensures Locate(b, tx.id).None? && Serial(b + [[tx]])
  {
    hide Entries, First;
    SerialIsNew(b);
    OneMoreBlock(b, tx);
  }

  lemma SerialIsNew(b: Blocks)
    requires Serial(b)
    ensures Locate(b, IdAt(|b|)).None?
  {
    hide Entries, First, Le;
    FirstByte(|b|);
    forall e | e in Entries(b) ensures e.tx.id != IdAt(|b|) { FirstByte(e.height); }
  }

  lemma FirstByte(n: nat)
    requires n < 256
    ensures Le(n, 32)[0] == n
  {
  }

  lemma FoundedIsSerial()
    ensures Serial(Founded())
  {
    OneMoreBlock([], Founding());
    assert [] + Founded() == Founded();
  }

  // ---------------------------------------------------------------- a decision frozen ahead of the ledger

  /** Ada's decision on a proposal, frozen at a height; and the same signed. */
  function FrozenDecision(at: nat, proposal: Digest): (d: D.DecisionState)
    ensures D.Formed(d) && d.snapshot.Some? && d.snapshot.value.height == at
  {
    D.DecisionState(D.Frozen, "", proposal,
      Some(D.SnapshotOf(Firm(at), at, OWNER.id, "ada", KEY, "", proposal)), None, None)
  }

  function SignedDecision(at: nat, proposal: Digest): (d: D.DecisionState)
    ensures D.Formed(d) && d.snapshot.Some? && d.signature.Some? && d.snapshot.value.height == at
  {
    FrozenDecision(at, proposal).(status := D.Signed, signature := Some(ZERO))
  }

  lemma SignedByAda(at: nat, proposal: Digest)
    ensures D.FreezeDecision(D.DraftDecision("", proposal), Founded(), at, OWNER.id) == Ok(FrozenDecision(at, proposal))
    ensures D.SignDecision(Toy(), FrozenDecision(at, proposal), KEY) == Ok(SignedDecision(at, proposal))
  {
    hide Reconstruct, ResolveChannel, Firm;
    FirmIsFounded(at);
    ResolvesToAda(at, OWNER);
  }

  function Filing(at: nat, proposal: Digest): Tx { D.DecisionTx(Toy(), SignedDecision(at, proposal), KEY, 1) }

  lemma SignedPins(at: nat, proposal: Digest)
    ensures var d, s := SignedDecision(at, proposal), SignedDecision(at, proposal).snapshot.value;
      && d.status == D.Signed && D.SignatureVerifiesOn(Toy(), s, d.signature.value)
      && s.channelsTx == Firm(at).channels.txId && s.company == Firm(at).company
  {
  }

  lemma FilingIsNumbered(at: nat, proposal: Digest)
    ensures Filing(at, proposal).id == IdAt(1) && !IsIrena(Filing(at, proposal))
  {
    hide Toy, SignedDecision, IdAt;
    ToyNumbers(DecisionNs, Filing(at, proposal).body.payload, 1);
  }

  lemma FilingIsNew(at: nat, proposal: Digest)
    ensures var b := Founded() + [[Filing(at, proposal)]]; CompanyNow(b) == Ok(Firm(1)) && Serial(b)
    ensures Locate(Founded(), Filing(at, proposal).id).None?
  {
    hide *;
    FirmIsFounded(0);
    FoundedIsOne();
    FoundedIsSerial();
    FilingIsNumbered(at, proposal);
    NextBlock(Founded(), Filing(at, proposal), 0);
  }

  lemma FiledByAda(at: nat, proposal: Digest)
    ensures D.FinalizeDecision(Toy(), SignedDecision(at, proposal), Founded(), KEY, true).0.Ok?
    ensures D.FinalizeDecision(Toy(), SignedDecision(at, proposal), Founded(), KEY, true).1
         == Founded() + [[Filing(at, proposal)]]
  {
    hide Reconstruct, MaySign, Locate, Founded, Firm, SignedDecision, Toy, D.SignatureVerifiesOn, D.DecisionTx;
    FirmIsFounded(0);
    FirmIsFounded(at);
    FoundedIsOne();
    SignedPins(at, proposal);
    FilingIsNew(at, proposal);
  }

  /** A decision frozen at height one and filed in block one does not verify. */
  lemma FiledUnverified(d: D.DecisionState, later: Blocks)
    requires D.Formed(d) && d.snapshot.Some? && d.snapshot.value.height == 1
    requires D.FinalizeDecision(Toy(), d, Founded(), KEY, true).0.Ok?
    requires D.FinalizeDecision(Toy(), d, Founded(), KEY, true).1 <= later
    ensures d.signature.Some? && !D.DecisionVerifies(Toy(), later, D.DecisionTx(Toy(), d, KEY, 1).id)
  {
    hide D.FinalizeDecision, D.DecisionVerifies, D.DecisionTx, D.Refreezes, D.FrozenOn, Locate, Toy;
    FinalizedIsSigned(d);
    D.FinalizedDecisionVerifies(Toy(), d, Founded(), KEY, true);
    D.NotRefrozen(Founded(), d.snapshot.value);
    D.DecisionVerdictIsPermanent(Toy(), Founded() + [[D.DecisionTx(Toy(), d, KEY, 1)]], later,
        D.DecisionTx(Toy(), d, KEY, 1).id);
  }

  lemma FinalizedIsSigned(d: D.DecisionState)
    requires D.Formed(d) && D.FinalizeDecision(Toy(), d, Founded(), KEY, true).0.Ok?
    ensures d.snapshot.Some? && d.signature.Some?
  {
  }

  /**
   Frozen at height one of a ledger one block long: clamping lets it freeze and be signed and
   filed, and then its own record sits at the height it claims to have seen. It never verifies.
   */
  lemma DecisionFrozenAhead(later: Blocks)
    requires Founded() + [[Filing(1, ZERO)]] <= later
    ensures D.FreezeDecision(D.DraftDecision("", ZERO), Founded(), 1, OWNER.id) == Ok(FrozenDecision(1, ZERO))
    ensures D.SignDecision(Toy(), FrozenDecision(1, ZERO), KEY) == Ok(SignedDecision(1, ZERO))
    ensures D.FinalizeDecision(Toy(), SignedDecision(1, ZERO), Founded(), KEY, true).0.Ok?
    ensures !D.DecisionVerifies(Toy(), later, Filing(1, ZERO).id)
  {
    hide D.FreezeDecision, D.FinalizeDecision, D.SignDecision, D.DecisionVerifies, D.DecisionTx, D.Formed;
    hide Toy, Firm, Founded, SignedDecision;
    SignedByAda(1, ZERO);
    FiledByAda(1, ZERO);
    FiledUnverified(SignedDecision(1, ZERO), later);
  }

  // ---------------------------------------------------------------- a vote frozen ahead of the ledger

  /** The vote weighted by shares, frozen at height one. */
  function FrozenVote(): (v: V.VoteState)
    ensures V.Formed(v) && v.snapshot.Some? && v.snapshot.value.height == 1 && v.ballots == []
    ensures v.status == V.Frozen
  {
    V.VoteState(V.Frozen, FIRM, "", ZERO,
      Some(V.SnapshotOf(Firm(1), 1, SHARES.id, [Actor("ada", 2, Some(KEY))], "", ZERO)), [], None, None)
  }

  lemma FrozenAhead()
    ensures V.FreezeVote(V.DraftVote("", ZERO), Founded(), 1, SHARES.id) == Ok(FrozenVote())
  {
    hide Reconstruct, ResolveChannel, Firm;
    FirmIsFounded(1);
    FoundedIsOne();
    ResolvesToAda(1, SHARES);
  }

  lemma SharesSuitTheirRules()
    ensures var voters := C.VotersOf([Actor("ada", 2, Some(KEY))]);
      && Issues(Majority(ElectorateWeights), voters) == {} && Units(Majority(ElectorateWeights), voters) == 2
  {
    var rules, voters := Majority(ElectorateWeights), C.VotersOf([Actor("ada", 2, Some(KEY))]);
    assert voters == [Voter("ada", 2, false)] && voters[..0] == [];
    assert Total(ByWeight, rules, [], voters[..0], Everyone) == 0;
  }

  /** Reconstruction clamps, so the count of no ballots finds the channel it was frozen through. */
  lemma CountsAhead()
    ensures V.EvaluateNow(Founded(), FrozenVote().snapshot.value, []).Ok?
  {
    hide Reconstruct, ResolveChannel, Firm, V.EvaluateFrozen, FrozenVote;
    FirmIsFounded(1);
    FoundedIsOne();
    ResolvesToAda(1, SHARES);
    FrozenVotePins();
    CountsNobody(FrozenVote().snapshot.value);
  }

  lemma FrozenVotePins()
    ensures var s := FrozenVote().snapshot.value;
      && s.channel == SHARES.id && s.channelsTx == Firm(1).channels.txId && s.company == Firm(1).company
      && s.electorate == V.FrozenElectorate([Actor("ada", 2, Some(KEY))])
  {
    hide V.FrozenElectorate;
  }

  lemma CountsNobody(s: VoteSnapshot)
    requires s.electorate == V.FrozenElectorate([Actor("ada", 2, Some(KEY))])
    ensures V.EvaluateFrozen(Majority(ElectorateWeights), s, []).Ok?
  {
    hide V.EvaluateFrozen, Issues, Units, Count, Toy, V.FrozenElectorate;
    SharesSuitTheirRules();
    var actors := [Actor("ada", 2, Some(KEY))];
    assert ActorIds(actors) == ["ada"];
    C.FrozenCount(Toy(), Majority(ElectorateWeights), actors, s, []);
  }

  /** The vote counted: opened and closed, and nobody voted. */
  function CountedVote(): (v: V.VoteState)
    ensures V.Formed(v) && v.snapshot == FrozenVote().snapshot && v.status == V.Evaluated && v.ballots == []
  {
    CountsAhead();
    FrozenVote().(status := V.Evaluated,
      evaluation := Some(V.SummaryOf(V.EvaluateNow(Founded(), FrozenVote().snapshot.value, []).value)))
  }

  function VoteFiling(): Tx { V.VoteTx(Toy(), CountedVote(), KEY, 1) }

  lemma VoteFilingIsNew()
    ensures Locate(Founded(), VoteFiling().id).None?
  {
    hide Firm, Locate, V.EvaluateNow, V.Commitment, CountedVote;
    FoundedIsSerial();
    FoundedIsOne();
    SerialGrows(Founded(), VoteFiling());
  }

  lemma VoteFiles()
    ensures var (r, b) := V.FinalizeVote(Toy(), CountedVote(), Founded(), KEY, true);
      r.Ok? && b == Founded() + [[VoteFiling()]]
  {
    hide Reconstruct, MaySign, Locate, V.EvaluateNow, V.FinalRecord, FrozenVote, Firm, Toy, Founded, V.SummaryOf;
    FoundedIsOne();
    CountsAhead();
    FirmIsFounded(0);
    VoteFilingIsNew();
  }

  /** The same for a vote: frozen ahead it opens, closes, counts and files, and never verifies. */
  lemma VoteFrozenAhead(later: Blocks)
    requires Founded() + [[VoteFiling()]] <= later
    ensures V.FreezeVote(V.DraftVote("", ZERO), Founded(), 1, SHARES.id) == Ok(FrozenVote())
    ensures var open := FrozenVote().(status := V.VoteStatus.Open);
      && V.OpenVote(FrozenVote()) == Ok(open)
      && V.CloseVote(open) == Ok(open.(status := V.Closed))
      && V.CountVote(open.(status := V.Closed), Founded()) == Ok(CountedVote())
    ensures V.FinalizeVote(Toy(), CountedVote(), Founded(), KEY, true).0.Ok?
    ensures !V.VoteVerifies(Toy(), later, VoteFiling().id)
  {
    hide V.FreezeVote, V.EvaluateNow, V.FinalizeVote, V.VoteVerifies, V.Refreezes, V.FrozenOn, Locate, V.VoteTx;
    hide Toy, Founded, Firm, FrozenVote, V.SummaryOf;
    FrozenAhead();
    CountsAhead();
    VoteFiles();
    FoundedIsOne();
    V.FinalizedVoteVerifies(Toy(), CountedVote(), Founded(), KEY, true);
    V.NotRefrozen(Founded(), CountedVote().snapshot.value);
    V.VoteVerdictIsPermanent(Toy(), Founded() + [[VoteFiling()]], later, VoteFiling().id);
  }

  // ---------------------------------------------------------------- a resolution on Ada's decision

  /** An amendment of the authorisation with this text. */
  function Asking(body: string): ResolutionKind { Amendment(TargetAuthorisation, body) }

  /** What Ada decides when she approves it: the digest of its normal form. */
  function Proposal(body: string): Digest { A.ApprovedDigest(Toy(), Asking(body)) }

  /** The ledger once her decision on it is filed. */
  function Decided(body: string): (b: Blocks)
    ensures |b| == 2
  {
    Founded() + [[Filing(0, Proposal(body))]]
  }

  function Resolving(body: string): (r: R.ResolutionState)
    ensures r.status == A.Draft && r.kind == Asking(body) && r.title == "resolved"
  {
    R.DraftResolution("resolved", Authority.ByDecision(OWNER.id, Filing(0, Proposal(body)).id), Asking(body))
  }

  function Approved(body: string): A.Approval {
    A.DecisionApproval(Firm(0), OWNER.id, SignedDecision(0, Proposal(body)).snapshot.value,
        Filing(0, Proposal(body)).id)
  }

  lemma DecisionHolds(proposal: Digest)
    ensures var tx := Filing(0, proposal); var b := Founded() + [[tx]];
      && D.DecisionVerifies(Toy(), b, tx.id) && Locate(b, tx.id) == Some(Entry(1, 0, tx))
      && CompanyNow(b) == Ok(Firm(1)) && Reconstruct(b, 0) == Ok(Firm(0)) && Serial(b)
  {
    hide D.FreezeDecision, D.FinalizeDecision, D.DecisionVerifies, D.SignDecision, D.Refreezes, D.FrozenOn, Locate;
    hide Toy, Firm, Reconstruct;
    SignedByAda(0, proposal);
    FilingIsNew(0, proposal);
    FiledByAda(0, proposal);
    FirmIsFounded(0);
    PastIsFixed(Founded(), Founded() + [[Filing(0, proposal)]], 0);
    D.FrozenRefreezes(D.DraftDecision("", proposal), Founded(), 0, OWNER.id);
    D.FinalizedDecisionVerifies(Toy(), SignedDecision(0, proposal), Founded(), KEY, true);
  }

  lemma FilingCarries(proposal: Digest)
    ensures var e := Entry(1, 0, Filing(0, proposal));
      && D.HoldsDecision(e) && e.tx.body.payload.decision.snapshot == SignedDecision(0, proposal).snapshot.value
      && e.tx.body.payload.decision.snapshot.channel == OWNER.id && !IsIrena(e.tx) && e.tx.id == IdAt(1)
  {
    hide Firm;
  }

  lemma SourceHolds(proposal: Digest)
    ensures var tx := Filing(0, proposal);
      A.CheckedDecision(Toy(), Founded() + [[tx]], OWNER.id, tx.id)
      == Ok(A.DecisionApproval(Firm(0), OWNER.id, SignedDecision(0, proposal).snapshot.value, tx.id))
  {
    hide D.DecisionVerifies, Locate, Reconstruct, Firm, Toy, Founded, Filing, SignedDecision, D.HoldsDecision;
    FilingCarries(proposal);
    DecisionHolds(proposal);
  }

  /** The lifecycle accepts the decision as authority for the amendment, and reads off it what was decided. */
  lemma AuthorityHolds(body: string)
    ensures A.CheckedAuthority(Toy(), Decided(body), Resolving(body).authority, Asking(body)) == Ok(Approved(body))
  {
    hide A.CheckedDecision, Reconstruct, Firm, Toy, Founded, Filing, A.ApprovedDigest, A.ScopeError;
    DecisionHolds(Proposal(body));
    SourceHolds(Proposal(body));
    ScopeAllows(Decided(body), Approved(body), body);
  }

  lemma ScopeAllows(b: Blocks, approval: A.Approval, body: string)
    requires |b| > 0 && Reconstruct(b, 0) == Ok(Firm(0)) && approval.height == 0 && approval.channel == OWNER.id
    ensures A.ScopeError(b, approval, Asking(body)).None?
  {
    hide Reconstruct;
    ListedChannelFound(Channels(), OWNER);
  }

  function ResolvingTx(body: string): Tx { R.ResolutionTx(Toy(), Resolving(body), FIRM, NOTED, KEY, 2) }

  /** The ledger once the resolution is filed, and the resolution then. */
  function Held(body: string): (b: Blocks)
    ensures |b| == 3 && Decided(body) <= b
  {
    Decided(body) + [[ResolvingTx(body)]]
  }

  function Finalised(body: string): (r: R.ResolutionState)
    ensures R.Formed(r) && r.kind == Asking(body) && r.finalized == Some((IdAt(2), 2))
  {
    Resolving(body).(status := A.Finalized, company := FIRM, finalized := Some((IdAt(2), 2)))
  }

  lemma ReadsAnything(body: string)
    ensures R.Readable(Toy(), R.Recorded(Asking(body))) && R.Readable(Toy(), Asking(body))
    ensures Toy().read(AuthorisationKind, body) == Some(AuthorisationBody(AmendingOnly()))
    ensures Toy().read(AuthorisationKind, Normalise(body)) == Some(AuthorisationBody(AmendingOnly()))
    ensures !M.Blank("resolved")
  {
    hide Normalise, Toy;
    ToyReads(body);
    ToyReads(Normalise(body));
    TrimmedIsFixed("resolved");
  }

  lemma ResolvingIsNew(body: string)
    ensures ResolvingTx(body).id == IdAt(2) && !IsIrena(ResolvingTx(body)) && ResolvingTx(body).body.ns == ResolutionNs
    ensures Locate(Decided(body), ResolvingTx(body).id).None?
    ensures Serial(Held(body)) && CompanyNow(Held(body)) == Ok(Firm(2))
  {
    hide Locate, Reconstruct, Filing, Firm, R.RecordOf, Entries;
    DecisionHolds(Proposal(body));
    NextBlock(Decided(body), ResolvingTx(body), 1);
  }

  lemma SameFirm(body: string)
    ensures Approved(body).company == Firm(1).company == FIRM
    ensures Finalised(body) == Resolving(body).(status := A.Finalized, company := FIRM, finalized := Some((IdAt(2), 2)))
    ensures Decided(body) == Founded() + [[Filing(0, Proposal(body))]]
  {
    hide Filing, Proposal;
  }

  lemma ResolutionFiles(body: string)
    ensures R.FinalizeResolution(Toy(), Resolving(body), Decided(body), KEY, NOTED, true)
      == (Ok(Finalised(body)), Held(body))
  {
    hide A.CheckedAuthority, Reconstruct, Locate, MaySign, R.Readable, M.Blank, Toy, Filing, Founded, Proposal;
    hide Firm, Approved, Decided, Resolving, Asking, R.Recorded;
    SameFirm(body);
    AuthorityHolds(body);
    DecisionHolds(Proposal(body));
    FirmIsFounded(1);
    ReadsAnything(body);
    ResolvingIsNew(body);
  }

  /**
   A body that is a declaration, a processing instruction whose target begins with `xml`, and an
   element: approved, read and filed without complaint, and no verifier ever accepts the record.
   */
  lemma StyledResolution(later: Blocks)
    requires Held(STYLED) <= later
    ensures R.FinalizeResolution(Toy(), Resolving(STYLED), Decided(STYLED), KEY, NOTED, true)
      == (Ok(Finalised(STYLED)), Held(STYLED))
    ensures !R.ResolutionVerifies(Toy(), later, IdAt(2))
  {
    hide R.FinalizeResolution, R.ResolutionVerifies, R.Filed, Held, Decided, Normalise, Resolving;
    ResolutionFiles(STYLED);
    R.ResolutionRoundTrip(Toy(), Resolving(STYLED), Decided(STYLED), KEY, NOTED, true, later);
    StyledIsUnsettled();
  }

  lemma StyledIsUnsettled()
    ensures !R.Settled(Toy(), Asking(STYLED)) && Resolving(STYLED).kind == Asking(STYLED)
  {
    hide Normalise, Le, Declared, Filing;
    StackedDeclarations();
    NormaliseTwice(STYLED);
    FirstByte(|STYLE_ONLY|);
    FirstByte(|"<a/>"|);
  }

  // ---------------------------------------------------------------- giving up the right to sign

  /** The plainest body there is. */
  const PLAIN := "<a/>"

  lemma PlainIsNormal()
    ensures Normalise(PLAIN) == PLAIN
  {
    TrimmedIsFixed(PLAIN);
  }

  lemma OtherIsNoExecution(b: Blocks, tx: Tx, resolutionTx: TxId)
    requires X.FoundExecution(b, resolutionTx).None? && tx.body.ns != ExecutionNs
    ensures X.FoundExecution(b + [[tx]], resolutionTx).None?
  {
    hide Entries, First;
    OneMoreBlock(b, tx);
    X.FirstSnoc(X.Executes(resolutionTx), Entries(b), Entry(|b|, 0, tx));
  }

  lemma NotYetExecuted(body: string)
    ensures X.FoundExecution(Held(body), IdAt(2)).None?
  {
    hide Filing, Founding, Proposal, X.FoundExecution, R.RecordOf, Toy;
    FilingCarries(Proposal(body));
    ResolvingIsNew(body);
    FoundingIsNone();
    OtherIsNoExecution(Founded(), Filing(0, Proposal(body)), IdAt(2));
    OtherIsNoExecution(Decided(body), ResolvingTx(body), IdAt(2));
  }

  lemma FoundingIsNone()
    ensures X.FoundExecution(Founded(), IdAt(2)).None?
  {
    assert X.FoundExecution([], IdAt(2)).None?;
    OtherIsNoExecution([], Founding(), IdAt(2));
    assert [] + Founded() == Founded();
  }

  lemma AuthorityStillHolds(body: string)
    ensures A.CheckedAuthority(Toy(), Held(body), Resolving(body).authority, Asking(body)) == Ok(Approved(body))
  {
    hide A.CheckedAuthority, A.AuthorityStands, A.DecidedBy, Toy, Held, Decided, Resolving, Approved, Asking;
    AuthorityHolds(body);
    A.LifecycleAndVerifierAgree(Toy(), Decided(body), Resolving(body).authority, Asking(body));
    A.AuthorityIsPermanent(Toy(), Decided(body), Held(body), Resolving(body).authority, Asking(body));
    A.LifecycleAndVerifierAgree(Toy(), Held(body), Resolving(body).authority, Asking(body));
  }

  lemma ApprovedByAda(body: string)
    ensures Approved(body).actor == Some("ada") && Approved(body).BaseOf(TargetAuthorisation) == IdAt(0)
  {
    hide Proposal, Filing, IdAt;
  }

  lemma PartsOfFirm(at: nat)
    ensures Firm(at).company == FIRM && Firm(at).persons.value == People() && Firm(at).authorisation.value == Signers()
    ensures Firm(at).authorisation.txId == IdAt(0)
  {
    hide IdAt;
  }

  lemma FewerFamilies()
    ensures FamiliesOf(AmendingOnly(), "ada") <= FamiliesOf(Signers(), "ada")
  {
  }

  lemma GivesUpOnly(body: string)
    ensures X.DemotionError(Toy(), Firm(2), Approved(body), TargetAuthorisation, body).None?
    ensures Firm(2).ProviderOf(AuthorisationKind) == Approved(body).BaseOf(TargetAuthorisation) == IdAt(0)
  {
    hide Firm, Approved, Toy, FamiliesOf, IdAt, Normalise;
    ApprovedByAda(body);
    PartsOfFirm(2);
    FewerFamilies();
    ReadsAnything(body);
  }

  lemma ExecutionIsChecked(body: string)
    ensures X.CheckedExecution(Toy(), Finalised(body), Held(body), KEY) == Ok(Approved(body))
  {
    hide A.CheckedAuthority, X.FoundExecution, X.DemotionError, Reconstruct, MaySign, Toy, Held, Firm, Approved;
    hide Finalised, Resolving, IdAt, Serial, Locate, ResolvingTx;
    FinalisedReads(body);
    NotYetExecuted(body);
    AuthorityStillHolds(body);
    ResolvingIsNew(body);
    FirmIsFounded(2);
    GivesUpOnly(body);
  }

  lemma FinalisedReads(body: string)
    ensures Finalised(body).status == A.Finalized && Finalised(body).authority == Resolving(body).authority
  {
    hide Filing, Proposal;
  }

  lemma ComposesAda(element: string)
    ensures var payload := Compose(Toy(), AuthorisationKind, FIRM, Some(IdAt(0)), NOTED, element);
      && payload.Some? && payload.value.CompanyPayload?
      && payload.value.record.body == AuthorisationBody(AmendingOnly())
  {
    hide IdAt, RecordText, Toy;
    ToyReads(element);
  }

  /** A signer's rewriting of the rights, on top of the one in force, is not refused while somebody may still amend. */
  lemma RightsMayChange(w: World, c: Company, key: PublicKey, element: string, rows: Authorisation,
      notarisation: Notarisation)
    requires MaySign(c, CompanyFamily, key) && !LockedOutBy(c.persons.value, rows)
    requires var payload := Compose(w, AuthorisationKind, c.company, Some(c.authorisation.txId), notarisation, element);
      payload.Some? && payload.value.CompanyPayload? && payload.value.record.body == AuthorisationBody(rows)
    ensures Refusal(w, c, key, AuthorisationKind, element, Some(c.authorisation.txId), notarisation).None?
  {
    hide MaySign, LockedOutBy, Compose;
  }

  lemma NothingRefused(body: string)
    ensures Refusal(Toy(), Firm(2), KEY, AuthorisationKind, Normalise(body), Some(IdAt(0)), NOTED).None?
  {
    hide *;
    PartsOfFirm(2);
    FirmIsFounded(2);
    ComposesAda(Normalise(body));
    AdaKeepsAmending();
    RightsMayChange(Toy(), Firm(2), KEY, Normalise(body), AmendingOnly(), NOTED);
  }

  lemma AdaKeepsAmending()
    ensures !LockedOutBy(People(), AmendingOnly())
  {
    hide LockedOutBy, People, SignerOf;
    AdaSigns(AmendingOnly(), CompanyFamily);
  }

  /** The amendment under which Ada keeps only the right to amend is published without a word. */
  lemma AmendmentPublishes(body: string)
    ensures PublishOn(Toy(), Held(body), true, KEY, AuthorisationKind, body, Some(IdAt(0)), NOTED).0.Ok?
    ensures var b := PublishOn(Toy(), Held(body), true, KEY, AuthorisationKind, body, Some(IdAt(0)), NOTED).1;
      |b| == 4 && Serial(b)
  {
    hide Reconstruct, Refusal, Locate, Normalise, Held, Serial, Firm, IdAt, Compose, Toy;
    ResolvingIsNew(body);
    NothingRefused(body);
    RefusalKinds(Toy(), Firm(2), KEY, AuthorisationKind, Normalise(body), Some(IdAt(0)), NOTED);
    var tx := AmendmentTx(Toy(), Firm(2), KEY, AuthorisationKind, Normalise(body), Some(IdAt(0)), NOTED, 3);
    ToyNumbers(tx.body.ns, tx.body.payload, 3);
    SerialGrows(Held(body), tx);
  }

  lemma ExecutionSucceeds(body: string)
    ensures X.ExecuteResolution(Toy(), Finalised(body), Held(body), KEY, NOTED, []).error.None?
  {
    hide X.CheckedExecution, PublishOn, Toy, Held, Firm, Resolving, Serial, Locate, A.ApprovedDigest;
    ExecutionIsChecked(body);
    AmendmentPublishes(body);
    GivesUpOnly(body);
    var approval, r := Approved(body), Finalised(body);
    var (res, b) := PublishOn(Toy(), Held(body), true, KEY, AuthorisationKind, body, Some(IdAt(0)), NOTED);
    var tx := X.ExecutionTx(Toy(), FIRM, NOTED, X.LinkOf(r, Toy(), approval, res.value.txId), KEY, 4);
    LinkIsNumbered(r, approval, res.value.txId);
    SerialGrows(b, tx);
  }

  lemma LinkIsNumbered(r: R.ResolutionState, approval: A.Approval, amendmentTx: TxId)
    requires r.finalized.Some? && r.kind.Amendment?
    ensures X.ExecutionTx(Toy(), FIRM, NOTED, X.LinkOf(r, Toy(), approval, amendmentTx), KEY, 4).id == IdAt(4)
  {
  }

  /**
   Ada decides alone to keep only the right to amend. Everything is allowed and everything is
   written, and the record that says so never verifies: its signer no longer signs for governance.
   */
  lemma RightGivenUp(later: Blocks)
    requires X.ExecuteResolution(Toy(), Finalised(PLAIN), Held(PLAIN), KEY, NOTED, []).blocks <= later
    ensures R.FinalizeResolution(Toy(), Resolving(PLAIN), Decided(PLAIN), KEY, NOTED, true)
      == (Ok(Finalised(PLAIN)), Held(PLAIN))
    ensures var x := X.ExecuteResolution(Toy(), Finalised(PLAIN), Held(PLAIN), KEY, NOTED, []);
      && x.error.None? && x.resolution.executed.Some?
      && !X.ExecutionVerifies(Toy(), later, x.resolution.executed.value.executionTx)
  {
    hide X.ExecuteResolution, R.FinalizeResolution, R.Filed, X.ExecutionVerifies, Reconstruct, Toy, Held, Firm;
    hide Decided, Resolving, O.LeavesTheKey, Normalise;
    ResolutionFiles(PLAIN);
    R.FinalizedIsFiled(Toy(), Resolving(PLAIN), Decided(PLAIN), KEY, NOTED, true);
    ExecutionSucceeds(PLAIN);
    PlainIsNormal();
    O.NormalBodyRoundTrip(Toy(), Finalised(PLAIN), Held(PLAIN), KEY, NOTED, [], later);
    ResolvingIsNew(PLAIN);
    KeyIsLost(PLAIN);
  }

  lemma KeyIsLost(body: string)
    ensures !O.LeavesTheKey(Toy(), Firm(2), TargetAuthorisation, body, KEY)
  {
    hide SignerOf, Normalise;
    ReadsAnything(body);
    AdaSigns(AmendingOnly(), GovernanceFamily);
  }

  // ---------------------------------------------------------------- a meeting that can never be closed

  const ASSEMBLY := MeetingMetadata(HEADS.id, "assembly", "", None)

  const BUDGET := AgendaItem(1, "budget", VoteItem(ZERO))

  function ConveningTx(): Tx { M.MeetingTx(Toy(), FIRM, MeetingBody.Convened(ASSEMBLY, [BUDGET]), KEY, 1) }

  /** The ledger once the assembly is convened. */
  function Convened(): (b: Blocks)
    ensures |b| == 2 && Founded() <= b
  {
    Founded() + [[ConveningTx()]]
  }

  /** The assembly with its one item, and then convened. */
  function Called(): (m: M.MeetingState)
    ensures M.Formed(m)
  {
    M.DraftMeeting(ASSEMBLY).(items := [BUDGET])
  }

  function Summoned(): (m: M.MeetingState)
    ensures M.Formed(m)
  {
    Called().(status := M.MeetingStatus.Convened, company := FIRM, convened := Some((IdAt(1), 1)))
  }

  lemma AgendaIsValid()
    ensures M.ValidAgenda([BUDGET]) && !M.Blank("budget") && !M.Blank("assembly")
  {
    TrimmedIsFixed("budget");
    TrimmedIsFixed("assembly");
    assert M.AgendaEntry([BUDGET], 0);
  }

  lemma ConveningIsNumbered()
    ensures ConveningTx().id == IdAt(1) && !IsIrena(ConveningTx())
  {
  }

  lemma ConveningIsNew()
    ensures Locate(Founded(), ConveningTx().id).None? && CompanyNow(Convened()) == Ok(Firm(1))
  {
    hide Reconstruct, Firm, Locate, Serial, Founded, ConveningTx;
    ConveningIsNumbered();
    FoundedIsOne();
    FirmIsFounded(0);
    FoundedIsSerial();
    NextBlock(Founded(), ConveningTx(), 0);
  }

  lemma ConvenedByAda()
    ensures M.AddItem(M.DraftMeeting(ASSEMBLY), "budget", VoteItem(ZERO)) == Ok(Called())
    ensures M.ConveneMeeting(Toy(), Called(), Founded(), KEY, true) == (Ok(Summoned()), Convened())
    ensures CompanyNow(Convened()) == Ok(Firm(1))
  {
    hide Reconstruct, MaySign, Locate, M.Blank, M.ValidAgenda, Firm, Founded, Toy;
    AgendaIsValid();
    FirmIsFounded(0);
    FoundedIsOne();
    ConveningIsNumbered();
    ConveningIsNew();
    assert [] + [BUDGET] == [BUDGET];
  }

  /** The rules give everybody one vote; the register gives Ada two. */
  lemma HeadsContradictShares(b: Blocks, at: nat)
    requires |b| > 0 && Reconstruct(b, at) == Ok(Firm(at))
    ensures V.RulesAt(b, at, HEADS.id) == Some((Majority(EqualWeights), [Actor("ada", 2, Some(KEY))]))
    ensures ContradictoryWeight("ada", 2) in C.Contradictions(b, at, HEADS.id)
    ensures !MC.Countable(b, at, HEADS.id)
  {
    hide Reconstruct, ResolveChannel, Firm;
    ResolvesToAda(at, HEADS);
    var voters := C.VotersOf([Actor("ada", 2, Some(KEY))]);
    assert voters[0] == Voter("ada", 2, false);
    assert ContradictoryWeight("ada", 2) in VoterIssues(Majority(EqualWeights), voters[0]);
  }

  lemma OneItemOpens(b: Blocks, item: AgendaItem, at: nat, channel: Id)
    requires |b| > 0 && item.body.VoteItem? && M.OpenedVote(item, b, at, channel).Ok?
    ensures M.OpenVotes([item], b, at, channel) == Ok([(item.number, M.OpenedVote(item, b, at, channel).value)])
  {
    hide M.OpenedVote;
    assert [item][..0] == [];
    assert M.OpenVotes([], b, at, channel) == Ok([]);
    var v := M.OpenedVote(item, b, at, channel).value;
    assert M.OneMoreVote([], item, b, at, channel) == Ok([] + [(item.number, v)]);
    assert [] + [(item.number, v)] == [(item.number, v)];
  }

  lemma BudgetOpens(b: Blocks)
    requires |b| > 0 && Reconstruct(b, 1) == Ok(Firm(1))
    ensures M.OpenedVote(BUDGET, b, 1, HEADS.id).Ok?
  {
    hide Reconstruct, ResolveChannel, Firm, M.Subject;
    ResolvesToAda(1, HEADS);
  }

  lemma OpensNevertheless()
    ensures var open := M.OpenMeeting(Summoned(), Convened());
      && open.Ok? && M.Formed(open.value) && open.value.status == M.MeetingStatus.Open
      && |open.value.votes| == 1 && open.value.openedAt == Some(1) && open.value.metadata == ASSEMBLY
  {
    hide Reconstruct, Firm, Convened, M.OpenVotes, M.OpenedVote, V.Formed;
    ConveningIsNew();
    BudgetOpens(Convened());
    OneItemOpens(Convened(), BUDGET, 1, HEADS.id);
  }

  const CALLING := MR.MeetingEvent.AddingItem("budget", VoteItem(ZERO))

  const SUMMONING := MR.MeetingEvent.Convening(KEY, true)

  const OPENING := MR.MeetingEvent.Opening

  lemma RunsOn(w: World, m: M.MeetingState, b: Blocks, event: MR.MeetingEvent, rest: seq<MR.MeetingEvent>)
    requires |b| > 0 && M.Formed(m)
    ensures var (m', b') := MR.MeetingNext(w, m, b, event);
      MR.MeetingRun(w, m, b, [event] + rest) == MR.MeetingRun(w, m', b', rest)
  {
    hide MR.MeetingNext;
    assert ([event] + rest)[1..] == rest;
  }

  lemma SittingOpens(rest: seq<MR.MeetingEvent>)
    ensures M.OpenMeeting(Summoned(), Convened()).Ok? && M.Formed(M.OpenMeeting(Summoned(), Convened()).value)
    ensures MR.MeetingRun(Toy(), M.DraftMeeting(ASSEMBLY), Founded(), [CALLING] + ([SUMMONING] + ([OPENING] + rest)))
         == MR.MeetingRun(Toy(), M.OpenMeeting(Summoned(), Convened()).value, Convened(), rest)
  {
    hide M.AddItem, M.ConveneMeeting, M.OpenMeeting, MR.MeetingRun, Toy, Founded, Convened, Called, Summoned;
    FoundedIsOne();
    ConvenedByAda();
    OpensNevertheless();
    RunsOn(Toy(), M.DraftMeeting(ASSEMBLY), Founded(), CALLING, [SUMMONING] + ([OPENING] + rest));
    RunsOn(Toy(), Called(), Founded(), SUMMONING, [OPENING] + rest);
    RunsOn(Toy(), Summoned(), Convened(), OPENING, rest);
  }

  /**
   An assembly through a channel whose rules contradict its register: it is convened and it opens,
   closing it fails at the count of its first vote, and whatever is done afterwards it stays open.
   */
  lemma AssemblyNeverCloses(events: seq<MR.MeetingEvent>)
    ensures var open := M.OpenMeeting(Summoned(), Convened());
      && open.Ok? && M.Formed(open.value) && M.CloseMeeting(open.value, Convened()).0.Some?
      && MR.MeetingRun(Toy(), M.DraftMeeting(ASSEMBLY), Founded(), [CALLING, SUMMONING, OPENING])
           == (open.value, Convened())
      && MR.MeetingRun(Toy(), open.value, Convened(), events).0.status == M.MeetingStatus.Open
  {
    hide M.OpenMeeting, M.CloseMeeting, MR.MeetingRun, MR.MeetingInvariant, Toy, Founded, Convened, Summoned,
        Reconstruct;
    hide Firm;
    FoundedIsOne();
    OpensNevertheless();
    SittingOpens([]);
    assert [CALLING] + ([SUMMONING] + ([OPENING] + [])) == [CALLING, SUMMONING, OPENING];
    var open := M.OpenMeeting(Summoned(), Convened()).value;
    NothingMore(open);
    DraftKeepsInvariant();
    MR.MeetingRunKeeps(Toy(), M.DraftMeeting(ASSEMBLY), Founded(), [CALLING, SUMMONING, OPENING]);
    ConveningIsNew();
    HeadsContradictShares(Convened(), 1);
    MC.CloseDecides(Toy(), open, Convened());
    MC.StuckForEver(Toy(), open, Convened(), events);
  }

  lemma NothingMore(m: M.MeetingState)
    requires M.Formed(m)
    ensures MR.MeetingRun(Toy(), m, Convened(), []) == (m, Convened())
  {
  }

  lemma DraftKeepsInvariant()
    ensures MR.MeetingInvariant(Toy(), M.DraftMeeting(ASSEMBLY), Founded())
  {
    hide Toy;
    FoundedIsOne();
  }
}
