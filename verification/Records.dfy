/**
 Every record Irena puts on the ledger, the transactions that carry them, and the ledger itself
 as an append-only sequence of blocks. Payloads are already parsed; where the text matters (an
 amendment's body) the text is carried beside the parse.

 Hashing, signing and document reading are the fields of a `World`: arbitrary functions, so
 every statement holds whatever they are.
 */
module Records {
  import opened Bytes
  import opened Ordering
  import opened Bornite
  import opened Evaluation
  import opened Parts

  type Signature = Digest

  // ---------------------------------------------------------------- company records

  datatype Identity = Identity(text: string)

  datatype Notarisation = Notarisation(text: string)

  datatype RecordBody =
    | Genesis(identity: Identity, shares: Register, channels: ChannelSet, persons: Identities,
        authorisation: Authorisation)
    | IdentityBody(newIdentity: Identity)
    | SharesBody(newShares: Register)
    | ChannelsBody(newChannels: ChannelSet)
    | PersonsBody(newPersons: Identities)
    | AuthorisationBody(newAuthorisation: Authorisation)
  {
    function Kind(): RecordKind {
      match this
      case Genesis(_, _, _, _, _) => GenesisKind
      case IdentityBody(_) => IdentityKind
      case SharesBody(_) => SharesKind
      case ChannelsBody(_) => ChannelsKind
      case PersonsBody(_) => PersonsKind
      case AuthorisationBody(_) => AuthorisationKind
    }
  }

  datatype Record = Record(company: Id, supersedes: Option<TxId>, notarisation: Notarisation, body: RecordBody)

  // ---------------------------------------------------------------- votes

  datatype ElectorateEntry = ElectorateEntry(id: Id, weight: nat, excluded: bool, key: Option<PublicKey>)

  datatype VoteSnapshot = VoteSnapshot(
    company: Id, subject: string, proposalDigest: Digest, height: nat, genesisTx: TxId,
    sharesTx: TxId, channelsTx: TxId, identitiesTx: TxId, channel: Id, electorate: seq<ElectorateEntry>)

  datatype BallotBody = BallotBody(voteId: Digest, voter: Id, choice: Choice)

  datatype SignedBallot = SignedBallot(body: BallotBody, signature: Signature)

  /** The numeric content of an evaluation, as the chain stores it; the rules are pinned, not echoed. */
  datatype Summary = Summary(
    outcome: Outcome, reason: Reason,
    voterCount: nat, excludedCount: nat, effectiveVoterCount: nat, totalWeight: nat, effectiveWeight: nat,
    ballotCount: nat, participatingWeight: nat, nonParticipantCount: nat, nonParticipantWeight: nat,
    tally: Tally, quorumRequired: Option<nat>, quorumMet: bool,
    denominatorWeight: nat, numerator: nat, denominator: nat, abstentionsAffected: bool,
    comparison: Comparison, thresholdMet: bool)

  datatype VoteRecord = VoteRecord(
    version: nat, voteId: Digest, snapshot: VoteSnapshot, commitment: Digest, ballots: seq<SignedBallot>,
        evaluation: Summary)

  // ---------------------------------------------------------------- individual decisions

  datatype DecisionSnapshot = DecisionSnapshot(
    company: Id, subject: string, proposalDigest: Digest, height: nat, genesisTx: TxId,
    sharesTx: TxId, channelsTx: TxId, identitiesTx: TxId, channel: Id, actor: Id, key: PublicKey)

  datatype DecisionRecord = DecisionRecord(version: nat, decisionId: Digest, snapshot: DecisionSnapshot,
      signature: Signature)

  // ---------------------------------------------------------------- meetings

  datatype MeetingMetadata = MeetingMetadata(channel: Id, title: string, scheduledAt: string, notice: Option<Digest>)

  datatype AgendaBody = Informational(documentDigest: Digest) | VoteItem(proposalDigest: Digest)

  datatype AgendaItem = AgendaItem(number: nat, title: string, body: AgendaBody)

  datatype FinalItem = FinalItem(item: AgendaItem, voteTx: Option<TxId>, outcome: Option<Outcome>)

  datatype FinalMeeting = FinalMeeting(meetingId: TxId, metadata: MeetingMetadata, openedAt: nat, items: seq<FinalItem>)

  datatype MeetingBody = Convened(metadata: MeetingMetadata, agenda: seq<AgendaItem>) | Final(record: FinalMeeting)

  // ---------------------------------------------------------------- resolutions

  datatype Target = TargetShares | TargetChannels | TargetPersons | TargetAuthorisation {
    /** `AmendmentTargetV1::record_kind`. */
    function Kind(): RecordKind {
      match this
      case TargetShares => SharesKind
      case TargetChannels => ChannelsKind
      case TargetPersons => PersonsKind
      case TargetAuthorisation => AuthorisationKind
    }
  }

  datatype ResolutionKind = Declarative(documentDigest: Digest) | Amendment(target: Target, body: string)

  datatype Authority =
    | ByVote(channel: Id, meetingTx: TxId, itemNumber: nat, voteTx: TxId)
    | ByDecision(channel: Id, decisionTx: TxId)

  datatype ResolutionRecord = ResolutionRecord(
    company: Id, notarisation: Notarisation, title: string, authority: Authority, kind: ResolutionKind)

  datatype Execution = Execution(resolutionTx: TxId, amendmentTx: TxId, target: Target, replacedTx: TxId,
      bodyDigest: Digest)

  datatype ExecutionRecord = ExecutionRecord(company: Id, notarisation: Notarisation, execution: Execution)

  // ---------------------------------------------------------------- transactions and blocks

  datatype Namespace =
    | CompanyNs | SharesNs | ChannelsNs | PersonsNs | AuthorisationNs
    | VoteNs | DecisionNs | MeetingNs | ResolutionNs | ExecutionNs
    | OtherNs(text: string)

  /** `RecordKindV1::namespace`: genesis and identity records share one. */
  function NamespaceOf(kind: RecordKind): Namespace {
    match kind
    case GenesisKind => CompanyNs
    case IdentityKind => CompanyNs
    case SharesKind => SharesNs
    case ChannelsKind => ChannelsNs
    case PersonsKind => PersonsNs
    case AuthorisationKind => AuthorisationNs
  }

  datatype Payload =
    | CompanyPayload(record: Record, text: string)
    | VotePayload(vote: VoteRecord)
    | DecisionPayload(decision: DecisionRecord)
    | MeetingPayload(company: Id, meeting: MeetingBody)
    | ResolutionPayload(resolution: ResolutionRecord)
    | ExecutionPayload(execution: ExecutionRecord)
    | UnreadablePayload(bytes: string)

  /** What a transaction id and its signature cover. */
  datatype TxBody = TxBody(ns: Namespace, payload: Payload, signer: PublicKey, nonce: nat)

  datatype Tx = Tx(id: TxId, body: TxBody)

  type Block = seq<Tx>

  /** A ledger: block `h` is at height `h`. */
  type Blocks = seq<Block>

  /** What a key holder signs outside a transaction. */
  datatype Statement = BallotStatement(ballot: BallotBody) | DecisionStatement(snapshot: DecisionSnapshot)

  /** The functions the protocol is built on, each of them arbitrary. */
  datatype World = World(
    hash: Hash,
    txId: TxBody -> TxId,
    voteId: VoteSnapshot -> Digest,
    decisionId: DecisionSnapshot -> Digest,
    ballotDigest: SignedBallot -> Digest,
    textDigest: string -> Digest,
    verifies: (PublicKey, Statement, Signature) -> bool,
    sign: (PublicKey, Statement) -> Signature,
    read: (RecordKind, string) -> Option<RecordBody>,
    envelope: (RecordKind, Id, Option<TxId>, Notarisation) -> string)

  /** A signature made with a key's secret verifies under the key. */
  ghost predicate Signs(w: World) {
    forall key, statement :: w.verifies(key, statement, w.sign(key, statement))
  }

  /** `sign_transaction`: the id is derived from everything the transaction carries. */
  function Sealed(w: World, ns: Namespace, payload: Payload, signer: PublicKey, nonce: nat): Tx {
    var body := TxBody(ns, payload, signer, nonce);
    Tx(w.txId(body), body)
  }

  // ---------------------------------------------------------------- reading the ledger

  datatype Entry = Entry(height: nat, index: nat, tx: Tx)

  function BlockEntries(height: nat, txs: Block): (es: seq<Entry>)
    ensures |es| == |txs|
  {
    seq(|txs|, i requires 0 <= i < |txs| => Entry(height, i, txs[i]))
  }

  /** Every transaction in chain order, with its place. */
  function Entries(b: Blocks): seq<Entry> {
    if b == [] then [] else
      var n := |b| - 1;
      Entries(b[..n]) + BlockEntries(n, b[n])
  }

  lemma {:induction false} EntriesOfPrefix(b: Blocks, n: nat)
    requires n <= |b|
    ensures Entries(b[..n]) <= Entries(b)
  {
    if n < |b| {
      EntriesOfPrefix(b[..|b| - 1], n);
      assert b[..|b| - 1][..n] == b[..n];
    } else {
      assert b[..n] == b;
    }
  }

  lemma EntriesGrow(b: Blocks, b': Blocks)
    requires b <= b'
    ensures Entries(b) <= Entries(b')
  {
    EntriesOfPrefix(b', |b|);
    assert b'[..|b|] == b;
  }

  lemma {:induction false} EntryHeights(b: Blocks)
    ensures forall i :: 0 <= i < |Entries(b)| ==> Entries(b)[i].height < |b|
  {
    if b == [] {
    } else {
      EntryHeights(b[..|b| - 1]);
    }
  }

  lemma OneMoreBlock(b: Blocks, tx: Tx)
    ensures Entries(b + [[tx]]) == Entries(b) + [Entry(|b|, 0, tx)]
  {
    assert (b + [[tx]])[..|b|] == b;
    assert BlockEntries(|b|, [tx]) == [Entry(|b|, 0, tx)];
  }

  /** The first entry, in chain order, that satisfies `p`. */
  function First(p: Entry -> bool, es: seq<Entry>): (r: Option<Entry>)
    ensures r.Some? ==> p(r.value) && r.value in es
    ensures r.None? <==> forall e :: e in es ==> !p(e)
  {
    if es == [] then None else
      var n := |es| - 1;
      assert es == es[..n] + [es[n]];
      var earlier := First(p, es[..n]);
      if earlier.Some? then earlier else if p(es[n]) then Some(es[n]) else None
  }

  /** What has been found stays found, at the same place, whatever is appended. */
  lemma {:induction false} FirstStays(p: Entry -> bool, es: seq<Entry>, es': seq<Entry>)
    requires es <= es' && First(p, es).Some?
    ensures First(p, es') == First(p, es)
  {
    if |es| < |es'| {
      FirstStays(p, es, es'[..|es'| - 1]);
    } else {
      assert es == es';
    }
  }

  function HasId(id: TxId): Entry -> bool { (e: Entry) => e.tx.id == id }

  /** `get_transaction`: where a transaction is. */
  function Locate(b: Blocks, id: TxId): (r: Option<Entry>)
    ensures r.Some? ==> r.value.tx.id == id && r.value in Entries(b)
    ensures r.None? <==> forall e :: e in Entries(b) ==> e.tx.id != id
  {
    First(HasId(id), Entries(b))
  }

  lemma LocateStays(b: Blocks, b': Blocks, id: TxId)
    requires b <= b' && Locate(b, id).Some?
    ensures Locate(b', id) == Locate(b, id)
    ensures Locate(b, id).value.height < |b|
  {
    EntriesGrow(b, b');
    FirstStays(HasId(id), Entries(b), Entries(b'));
    EntryHeights(b);
  }

  lemma {:induction false} EntriesBelow(b: Blocks, n: nat, e: Entry)
    requires n <= |b| && e in Entries(b) && e.height < n
    ensures e in Entries(b[..n])
  {
    var m := |b| - 1;
    if n == |b| {
      assert b[..n] == b;
    } else {
      assert b[..m][..n] == b[..n];
      EntriesBelow(b[..m], n, e);
    }
  }

  /** What is found below a height was there already when the ledger was that high. */
  lemma LocatedBelow(b: Blocks, b': Blocks, id: TxId)
    requires b <= b' && Locate(b', id).Some? && Locate(b', id).value.height < |b|
    ensures Locate(b, id) == Locate(b', id)
  {
    hide Entries, First;
    assert b'[..|b|] == b;
    EntriesBelow(b', |b|, Locate(b', id).value);
    LocateStays(b, b', id);
  }

  /** A transaction appended in its own block is found there, if its id is new. */
  lemma AppendedIsLocated(b: Blocks, tx: Tx)
    requires Locate(b, tx.id).None?
    ensures Locate(b + [[tx]], tx.id) == Some(Entry(|b|, 0, tx))
  {
    OneMoreBlock(b, tx);
    var es := Entries(b) + [Entry(|b|, 0, tx)];
    assert es[..|es| - 1] == Entries(b);
  }

  /** Equal ids are equal transactions: no two contents on this ledger share an id. */
  ghost predicate IdsCommit(b: Blocks) {
    forall e, f :: e in Entries(b) && f in Entries(b) && e.tx.id == f.tx.id ==> e.tx == f.tx
  }

  lemma IdsCommitBelow(b: Blocks, b': Blocks)
    requires b <= b' && IdsCommit(b')
    ensures IdsCommit(b)
  {
    EntriesGrow(b, b');
  }

  // ---------------------------------------------------------------- the store

  /** A record was appended, or the store refused it. */
  datatype Appended = Appended(txId: TxId, height: nat) | Refused

  /**
   The local chain: an append-only sequence of blocks. An append is refused when the
   transaction is already committed, or when the store itself fails: `answers` holds what the
   disk will say to the appends to come, and stands for every failure a caller can see.
   */
  class Store {
    var blocks: Blocks
    var answers: seq<bool>

    ghost predicate Valid()
      reads this
    {
      |blocks| > 0
    }

    constructor (genesis: Block, script: seq<bool>)
      ensures Valid() && blocks == [genesis] && answers == script
    {
      blocks, answers := [genesis], script;
    }

    /** `append_block` of one transaction in its own block. */
    method Append(tx: Tx) returns (r: Appended)
      requires Valid()
      modifies this
      ensures Valid() && old(blocks) <= blocks
      ensures r == if Says(old(answers)) && Locate(old(blocks), tx.id).None? then Appended(tx.id, |old(blocks)|)
        else Refused
      ensures blocks == if r.Refused? then old(blocks) else old(blocks) + [[tx]]
      ensures answers == After(old(answers))
    {
      var works := Says(answers);
      answers := After(answers);
      if works && Locate(blocks, tx.id).None? {
        r := Appended(tx.id, |blocks|);
        blocks := blocks + [[tx]];
      } else {
        r := Refused;
      }
    }
  }

  /** What the disk says to the next append, and to the ones after it. */
  predicate Says(answers: seq<bool>) { answers == [] || answers[0] }

  function After(answers: seq<bool>): seq<bool> { if answers == [] then [] else answers[1..] }
}
