/**
 When each operation succeeds, exactly, told from the ledger and the company on it; and the order
 in which every lifecycle moves.
 */
module Conditions {
  import opened Ordering
  import opened Parts
  import opened Records
  import opened Text
  import opened Ledger
  import opened Resolve
  import opened Admission
  import opened Evidence
  import V = Vote
  import D = Decision
  import M = Meeting
  import MR = MeetingRuns
  import A = Approvals
  import R = Resolution
  import X = Executions
  import N = Mandate
  import Demotion

  // ---------------------------------------------------------------- what every append needs

  /** The store takes a transaction whose id it does not hold, if the disk works. */
  predicate Takes(b: Blocks, works: bool, id: TxId) { works && forall e :: e in Entries(b) ==> e.tx.id != id }

  /** Somebody holding the key is listed, in the company at the head, to sign records of that family. */
  predicate MaySignAtHead(b: Blocks, family: Family, key: PublicKey) {
    |b| > 0 && Reconstruct(b, |b| - 1).Ok? &&
    ListedSigner(Reconstruct(b, |b| - 1).value.persons.value, Reconstruct(b, |b| - 1).value.authorisation.value, family,
        key)
  }

  lemma HeadSigner(b: Blocks, family: Family, key: PublicKey)
    requires |b| > 0
    ensures MaySignAtHead(b, family, key) <==> CompanyNow(b).Ok? && MaySign(CompanyNow(b).value, family, key)
  {
    hide Reconstruct, SignerOf, ListedSigner;
    if CompanyNow(b).Ok? {
      var c := CompanyNow(b).value;
      SignersAreListed(c.persons.value, c.authorisation.value, family, key);
    }
  }

  // ---------------------------------------------------------------- publishing

  /** The body reads as what it is published as. */
  predicate ReadsAs(w: World, kind: RecordKind, text: string) {
    w.read(kind, text).Some? && w.read(kind, text).value.Kind() == kind
  }

  /** The record publishing would write. */
  function Published(w: World, b: Blocks, key: PublicKey, kind: RecordKind, body: string, supersedes: Option<TxId>,
      notarisation: Notarisation): Tx
    requires |b| > 0 && Reconstruct(b, |b| - 1).Ok? && ReadsAs(w, kind, Normalise(body))
  {
    hide Normalise, Reconstruct, RecordText;
    AmendmentTx(w, Reconstruct(b, |b| - 1).value, key, kind, Normalise(body), supersedes, notarisation, |b|)
  }

  lemma LocatedOrNot(b: Blocks, id: TxId)
    ensures Locate(b, id).None? <==> forall e :: e in Entries(b) ==> e.tx.id != id
  {
    hide Entries;
  }

  lemma LeftOpen(c: Company, body: RecordBody)
    requires !LockedOutBy(c.persons.value, c.authorisation.value)
    ensures match body
      case PersonsBody(persons) => LockedOutBy(persons, c.authorisation.value) == !StaysOpen(c, body)
      case AuthorisationBody(rows) => LockedOutBy(c.persons.value, rows) == !StaysOpen(c, body)
      case _ => StaysOpen(c, body)
  {
    hide LockedOutBy, SomebodyAmends;
    OpenIsNotLocked(c.persons.value, c.authorisation.value);
    match body {
      case PersonsBody(persons) => OpenIsNotLocked(persons, c.authorisation.value);
      case AuthorisationBody(rows) => OpenIsNotLocked(c.persons.value, rows);
      case _ =>
    }
  }

  lemma RefusedFor(w: World, c: Company, key: PublicKey, kind: RecordKind, element: string, supersedes: Option<TxId>,
      notarisation: Notarisation)
    requires ReadsAs(w, kind, element) && !LockedOutBy(c.persons.value, c.authorisation.value)
    ensures var read := w.read(kind, element).value;
      Refusal(w, c, key, kind, element, supersedes, notarisation).None? <==>
        kind != GenesisKind && MaySign(c, CompanyFamily, key) && supersedes == Some(InForceFor(c, read))
            && StaysOpen(c, read)
  {
    hide MaySign, LockedOutBy, SomebodyAmends, RecordText;
    LeftOpen(c, w.read(kind, element).value);
  }

  /**
   Publishing succeeds if and only if it is an amendment, signed by a company signer of the company
   at the head, that reads as its kind, supersedes the record in force and leaves somebody able to
   amend; and the store takes it.
   */
  lemma PublishSucceeds(w: World, b: Blocks, works: bool, key: PublicKey, kind: RecordKind, body: string,
      supersedes: Option<TxId>, notarisation: Notarisation)
    requires |b| > 0
    ensures PublishOn(w, b, works, key, kind, body, supersedes, notarisation).0.Ok? <==>
      && kind != GenesisKind && MaySignAtHead(b, CompanyFamily, key) && ReadsAs(w, kind, Normalise(body))
      && var c, read := Reconstruct(b, |b| - 1).value, w.read(kind, Normalise(body)).value;
         && supersedes == Some(InForceFor(c, read)) && StaysOpen(c, read)
         && Takes(b, works, Published(w, b, key, kind, body, supersedes, notarisation).id)
  {
    hide Reconstruct, MaySign, LockedOutBy, SomebodyAmends, ListedSigner, Normalise, Locate, RecordText, Entries;
    HeadSigner(b, CompanyFamily, key);
    if CompanyNow(b).Ok? && ReadsAs(w, kind, Normalise(body)) {
      var c := CompanyNow(b).value;
      NowIsOpen(b);
      LeftOpen(c, w.read(kind, Normalise(body)).value);
      RefusedFor(w, c, key, kind, Normalise(body), supersedes, notarisation);
      LocatedOrNot(b, Published(w, b, key, kind, body, supersedes, notarisation).id);
    }
  }

  // ---------------------------------------------------------------- finalising votes and decisions

  /** The company at the snapshot's height has the channel set and the name that were pinned. */
  predicate ChannelsAsPinned(b: Blocks, at: nat, company: Id, channelsTx: TxId) {
    |b| > 0 && Reconstruct(b, at).Ok?
    && Reconstruct(b, at).value.company == company && Reconstruct(b, at).value.channels.txId == channelsTx
  }

  /** No count goes through on a channel set other than the one pinned. */
  lemma CountedAsPinned(b: Blocks, s: VoteSnapshot, ballots: seq<SignedBallot>)
    requires |b| > 0 && V.EvaluateNow(b, s, ballots).Ok?
    ensures ChannelsAsPinned(b, s.height, s.company, s.channelsTx)
    ensures exists channel ::
      && DecidesTogether(b, s, Reconstruct(b, s.height).value, channel)
      && V.EvaluateNow(b, s, ballots) == V.EvaluateFrozen(channel.mode.rules, s, ballots)
  {
    hide Reconstruct, ResolveChannel, V.EvaluateFrozen, Lists;
    ResolvedIsListed(Reconstruct(b, s.height).value, s.channel);
    var channel := ResolveChannel(Reconstruct(b, s.height).value, s.channel).value.channel;
    assert DecidesTogether(b, s, Reconstruct(b, s.height).value, channel);
  }

  /**
   A decision is finalised if and only if it is signed, the signature verifies, the signer is listed
   and nothing moved.
   */
  lemma DecisionFinalises(w: World, d: D.DecisionState, b: Blocks, key: PublicKey, works: bool)
    requires |b| > 0 && D.Formed(d)
    ensures D.FinalizeDecision(w, d, b, key, works).0.Ok? <==>
      && d.status == D.Signed
      && var s := d.snapshot.value;
         && w.verifies(s.key, DecisionStatement(s), d.signature.value) && MaySignAtHead(b, GovernanceFamily, key)
         && ChannelsAsPinned(b, s.height, s.company, s.channelsTx)
         && Takes(b, works, D.DecisionTx(w, d, key, |b|).id)
  {
    hide Reconstruct, MaySign, Locate, ListedSigner, Entries, D.FinalRecord;
    HeadSigner(b, GovernanceFamily, key);
    if d.status == D.Signed { LocatedOrNot(b, D.DecisionTx(w, d, key, |b|).id); }
  }

  /** The stored result is what counting the ballots held says on this ledger. */
  predicate ResultStands(b: Blocks, v: V.VoteState) {
    |b| > 0 && V.Formed(v) && (v.status in {V.Evaluated, V.Finalized} ==>
      V.EvaluateNow(b, v.snapshot.value, v.ballots).Ok?
      && v.evaluation == Some(V.SummaryOf(V.EvaluateNow(b, v.snapshot.value, v.ballots).value)))
  }

  lemma HeightBelow(b: Blocks, s: VoteSnapshot)
    ensures V.Refreezes(b, s) ==> s.height < |b|
  {
  }

  lemma ResultStandsStays(w: World, b: Blocks, b': Blocks, v: V.VoteState)
    requires b <= b' && V.VoteInvariant(w, v, b) && ResultStands(b, v)
    ensures ResultStands(b', v)
  {
    hide V.EvaluateNow, V.BallotsSound, V.VoteFiled, V.SummaryOf;
    HeightBelow(b, v.snapshot.value);
    V.PinnedInputsStay(b, b', v.snapshot.value);
  }

  lemma ResultStandsStep(w: World, v: V.VoteState, b: Blocks, event: V.VoteEvent)
    requires V.VoteInvariant(w, v, b) && ResultStands(b, v)
    ensures var (v', b') := V.VoteNext(w, v, b, event); ResultStands(b', v')
  {
    hide V.EvaluateNow, V.BallotRefusal, V.SummaryOf, V.Refreezes, V.VoteFiled, MaySign, Reconstruct, Locate,
        V.FinalRecord;
    hide Insert, V.SignedVoters, V.AllBallotsVerify;
    var (v', b') := V.VoteNext(w, v, b, event);
    ResultStandsStays(w, b, b', v);
  }

  /** Over any run from a frozen vote the stored result stands, so recounting never finds a mismatch. */
  lemma {:induction false} RunResultStands(w: World, v: V.VoteState, b: Blocks, events: seq<V.VoteEvent>)
    requires V.VoteInvariant(w, v, b) && ResultStands(b, v)
    ensures var (v', b') := V.VoteRun(w, v, b, events); V.VoteInvariant(w, v', b') && ResultStands(b', v')
    decreases |events|
  {
    hide V.VoteNext, V.VoteInvariant, ResultStands, V.Formed;
    V.VoteInvariantIsFormed(w, v, b);
    if events == [] {
    } else {
      var (v', b') := V.VoteNext(w, v, b, events[0]);
      V.VoteStepKeeps(w, v, b, events[0]);
      ResultStandsStep(w, v, b, events[0]);
      RunResultStands(w, v', b', events[1..]);
    }
  }

  /**
   A counted vote, as any run leaves it, is finalised if and only if the signer is listed for
   governance at the head and the store takes the record: nothing else can stop it.
   */
  lemma VoteFinalises(w: World, v: V.VoteState, b: Blocks, key: PublicKey, works: bool)
    requires V.VoteInvariant(w, v, b) && ResultStands(b, v)
    ensures V.FinalizeVote(w, v, b, key, works).0.Ok? <==>
      v.status == V.Evaluated && MaySignAtHead(b, GovernanceFamily, key) && Takes(b, works, V.VoteTx(w, v, key, |b|).id)
  {
    hide Reconstruct, MaySign, Locate, ListedSigner, Entries, V.FinalRecord, V.EvaluateNow, V.SummaryOf, V.Refreezes;
    hide V.BallotsSound, V.VoteFiled;
    V.VoteInvariantIsFormed(w, v, b);
    HeadSigner(b, GovernanceFamily, key);
    if v.status == V.Evaluated { LocatedOrNot(b, V.VoteTx(w, v, key, |b|).id); }
  }

  // ---------------------------------------------------------------- meetings

  /** A meeting is convened if and only if it is a draft with an agenda and a title, by a governance signer. */
  lemma MeetingConvenes(w: World, m: M.MeetingState, b: Blocks, key: PublicKey, works: bool)
    requires |b| > 0
    ensures M.ConveneMeeting(w, m, b, key, works).0.Ok? <==>
      && m.status == M.MeetingStatus.Draft && M.ValidAgenda(m.items) && !M.Blank(m.metadata.title)
      && MaySignAtHead(b, GovernanceFamily, key)
      && Takes(b, works, M.MeetingTx(w, Reconstruct(b, |b| - 1).value.company,
                                     MeetingBody.Convened(m.metadata, m.items), key, |b|).id)
  {
    hide Reconstruct, MaySign, Locate, ListedSigner, Entries, M.ValidAgenda, M.Blank;
    HeadSigner(b, GovernanceFamily, key);
    if CompanyNow(b).Ok? {
      var company := CompanyNow(b).value.company;
      LocatedOrNot(b, M.MeetingTx(w, company, MeetingBody.Convened(m.metadata, m.items), key, |b|).id);
    }
  }

  /** A vote an open ballot may still join: it is genuine for that vote, and its voter is not in yet. */
  ghost predicate MayJoin(w: World, b: Blocks, v: V.VoteState, ballot: SignedBallot) {
    && v.status == V.VoteStatus.Open && v.snapshot.Some? && !HasVoted(v, ballot.body.voter)
    && exists c, channel ::
         DecidesTogether(b, v.snapshot.value, c, channel) && Genuine(w, c, channel, v.snapshot.value, ballot)
  }

  /** One ballot more in one of the votes, and nothing else. */
  predicate Joined(votes: seq<M.Numbered>, later: seq<M.Numbered>, k: nat, ballot: SignedBallot) {
    && |later| == |votes| && k < |votes| && later[k].0 == votes[k].0
    && later[k].1 == votes[k].1.(ballots := later[k].1.ballots)
    && multiset(later[k].1.ballots) == multiset(votes[k].1.ballots) + multiset{ballot}
    && forall j :: 0 <= j < |votes| && j != k ==> later[j] == votes[j]
  }

  /** The vote at that place is the one held on the item: on its subject and proposal, where and when the meeting is. */
  predicate HeldOn(m: M.MeetingState, item: AgendaItem, k: nat) {
    && k < |m.votes| && m.votes[k].0 == item.number && m.votes[k].1.snapshot.Some? && m.openedAt.Some?
    && MR.SnapshotFits(MR.SittingOf(m), item, m.votes[k].1.snapshot.value)
  }

  lemma JoiningDecides(w: World, v: V.VoteState, b: Blocks, ballot: SignedBallot)
    requires V.VoteInvariant(w, v, b)
    ensures V.Formed(v)
    ensures V.CastVote(w, v, ballot).Ok? <==> MayJoin(w, b, v, ballot)
    ensures var r := V.CastVote(w, v, ballot); r.Ok? ==>
      && r.value == v.(ballots := r.value.ballots)
      && multiset(r.value.ballots) == multiset(v.ballots) + multiset{ballot}
  {
    hide V.BallotRefusal, V.Refreezes, V.VoteFiled, Genuine, DecidesTogether, HasVoted, V.PinnedRules, Insert, ActFor;
    hide V.FrozenElectorate, V.BallotsSound;
    V.VoteInvariantIsFormed(w, v, b);
    if v.status == V.VoteStatus.Open {
      RefrozenElectorate(b, v.snapshot.value);
      var c, channel, actors := PinnedChannel(b, v.snapshot.value);
      CastDecides(w, v, b, c, channel, ballot);
      if c', channel' :|
        DecidesTogether(b, v.snapshot.value, c', channel') && Genuine(w, c', channel', v.snapshot.value, ballot)
      {
        CastDecides(w, v, b, c', channel', ballot);
      }
    }
  }

  /** What becomes of a ballot cast on an item. */
  ghost predicate Answered(w: World, m: M.MeetingState, b: Blocks, i: nat, ballot: SignedBallot)
    requires M.Formed(m) && i < |m.items|
  {
    var r := M.CastInMeeting(w, m, m.items[i].number, ballot);
    match m.items[i].body
    case Informational(_) => r == Err(M.NotAVoteItem(m.items[i].number))
    case VoteItem(_) =>
      exists k: nat :: HeldOn(m, m.items[i], k) && (r.Ok? <==> MayJoin(w, b, m.votes[k].1, ballot))
        && (r.Ok? ==> r.value == m.(votes := r.value.votes) && Joined(m.votes, r.value.votes, k, ballot))
  }

  lemma CastOnItem(w: World, m: M.MeetingState, i: nat, ballot: SignedBallot)
    requires M.Formed(m) && m.status == M.MeetingStatus.Open && i < |m.items|
    ensures M.CastInMeeting(w, m, m.items[i].number, ballot) == match M.VoteIndex(m.votes, m.items[i].number)
      case None => Err(M.NotAVoteItem(m.items[i].number))
      case Some(k) =>
        match V.CastVote(w, m.votes[k].1, ballot)
        case Err(e) => Err(M.VoteFailed(m.items[i].number, e))
        case Ok(next) => Ok(m.(votes := m.votes[k := (m.items[i].number, next)]))
  {
    hide M.VoteIndex, V.CastVote, V.Formed;
    assert m.items[i] in m.items;
  }

  lemma OneJoins(votes: seq<M.Numbered>, k: nat, v: V.VoteState, ballot: SignedBallot)
    requires k < |votes| && v == votes[k].1.(ballots := v.ballots)
    requires multiset(v.ballots) == multiset(votes[k].1.ballots) + multiset{ballot}
    ensures Joined(votes, votes[k := (votes[k].0, v)], k, ballot)
  {
  }

  lemma AgendaStands(w: World, m: M.MeetingState, b: Blocks)
    requires MR.MeetingInvariant(w, m, b) && m.status == M.MeetingStatus.Open
    ensures M.ValidAgenda(m.items) && m.openedAt.Some? && MR.AllStand(w, b, MR.SittingOf(m), m.items, m.votes)
    ensures M.Formed(m)
  {
    hide MR.AllStand, M.ValidAgenda, M.AllFormed, Locate;
  }

  /**
   A ballot in an open meeting, as any run leaves it: on an item that asks for a vote it is taken if
   and only if the vote on that very item may still be joined by it; then that vote has it besides,
   and every other is as it was. Any other item takes none.
   */
  lemma MeetingCastDecides(w: World, m: M.MeetingState, b: Blocks, i: nat, ballot: SignedBallot)
    requires MR.MeetingInvariant(w, m, b) && m.status == M.MeetingStatus.Open && i < |m.items|
    ensures M.Formed(m) && Answered(w, m, b, i, ballot)
  {
    hide MayJoin, V.VoteInvariant, V.CastVote, MR.SnapshotFits, MR.MeetingInvariant, M.VoteIndex, M.CastInMeeting;
    hide MR.AllStand, Joined, M.ValidAgenda, M.Formed, V.Formed;
    var number := m.items[i].number;
    AgendaStands(w, m, b);
    MR.VoteOfItem(w, b, MR.SittingOf(m), m.items, m.votes, i);
    CastOnItem(w, m, i, ballot);
    if m.items[i].body.VoteItem? {
      var k := M.VoteIndex(m.votes, number).value;
      JoiningDecides(w, m.votes[k].1, b, ballot);
      assert HeldOn(m, m.items[i], k);
      if V.CastVote(w, m.votes[k].1, ballot).Ok? {
        OneJoins(m.votes, k, V.CastVote(w, m.votes[k].1, ballot).value, ballot);
      }
    }
  }

  // ---------------------------------------------------------------- resolutions

  /** The company whose decision an authority is, off the record it names. */
  function DecidedFor(b: Blocks, authority: Authority): Option<Id> {
    match authority
    case ByVote(_, _, _, voteTx) =>
      var e := Locate(b, voteTx);
      if e.Some? && e.value.tx.body.payload.VotePayload? then Some(e.value.tx.body.payload.vote.snapshot.company)
        else None
    case ByDecision(_, decisionTx) =>
      var e := Locate(b, decisionTx);
      if e.Some? && e.value.tx.body.payload.DecisionPayload?
      then Some(e.value.tx.body.payload.decision.snapshot.company) else None
  }

  /** Who decided alone, off the record an authority names. */
  function DecidedByWhom(b: Blocks, authority: Authority): Option<Id> {
    match authority
    case ByVote(_, _, _, _) => None
    case ByDecision(_, decisionTx) =>
      var e := Locate(b, decisionTx);
      if e.Some? && e.value.tx.body.payload.DecisionPayload?
      then Some(e.value.tx.body.payload.decision.snapshot.actor) else None
  }

  lemma VoteIsFor(w: World, b: Blocks, channel: Id, meetingTx: TxId, itemNumber: nat, voteTx: TxId)
    requires |b| > 0 && A.CheckedVote(w, b, channel, meetingTx, itemNumber, voteTx).Ok?
    ensures var approval := A.CheckedVote(w, b, channel, meetingTx, itemNumber, voteTx).value;
      var authority := ByVote(channel, meetingTx, itemNumber, voteTx);
      && DecidedFor(b, authority) == Some(approval.company) && N.DecidedAt(b, authority) == Some(approval.height)
      && approval.actor.None?
  {
    hide V.VoteVerifies, M.MeetingVerifies, Locate, Reconstruct, A.VoteLine, A.MeetingLines;
  }

  lemma DecisionIsFor(w: World, b: Blocks, channel: Id, decisionTx: TxId)
    requires |b| > 0 && A.CheckedDecision(w, b, channel, decisionTx).Ok?
    ensures var approval := A.CheckedDecision(w, b, channel, decisionTx).value;
      var authority := ByDecision(channel, decisionTx);
      && DecidedFor(b, authority) == Some(approval.company) && N.DecidedAt(b, authority) == Some(approval.height)
      && DecidedByWhom(b, authority) == approval.actor && approval.actor.Some?
  {
    hide D.DecisionVerifies, Locate, Reconstruct;
  }

  lemma ApprovedFor(w: World, b: Blocks, authority: Authority, kind: ResolutionKind)
    requires |b| > 0 && A.CheckedAuthority(w, b, authority, kind).Ok?
    ensures DecidedFor(b, authority) == Some(A.CheckedAuthority(w, b, authority, kind).value.company)
    ensures N.DecidedAt(b, authority) == Some(A.CheckedAuthority(w, b, authority, kind).value.height)
    ensures A.CheckedAuthority(w, b, authority, kind).value.actor.Some? <==> authority.ByDecision?
  {
    hide A.CheckedVote, A.CheckedDecision, A.ScopeError, A.ApprovedDigest, Locate, DecidedFor, N.DecidedAt;
    match authority {
      case ByVote(channel, meetingTx, itemNumber, voteTx) => VoteIsFor(w, b, channel, meetingTx, itemNumber, voteTx);
      case ByDecision(channel, decisionTx) => DecisionIsFor(w, b, channel, decisionTx);
    }
  }

  /**
   A resolution is filed if and only if it is a draft with a title and a readable body, it has a
   mandate from the company at the head, and the signer is listed there for governance.
   */
  lemma ResolutionFinalises(w: World, r: R.ResolutionState, b: Blocks, key: PublicKey, notarisation: Notarisation,
      works: bool)
    requires |b| > 0
    ensures R.FinalizeResolution(w, r, b, key, notarisation, works).0.Ok? <==>
      && r.status == A.ResolutionStatus.Draft && N.Mandated(w, b, r.authority, r.kind)
      && MaySignAtHead(b, GovernanceFamily, key)
      && DecidedFor(b, r.authority) == Some(Reconstruct(b, |b| - 1).value.company)
      && !M.Blank(r.title)
      && (r.kind.Amendment? ==> ReadsAs(w, N.PartOf(r.kind.target), Normalise(r.kind.body)))
      && Takes(b, works, R.ResolutionTx(w, r, Reconstruct(b, |b| - 1).value.company, notarisation, key, |b|).id)
  {
    hide Reconstruct, MaySign, Locate, ListedSigner, Entries, M.Blank, A.CheckedAuthority, N.Mandated, Normalise;
    hide DecidedFor, N.DecidedAt, R.RecordOf;
    HeadSigner(b, GovernanceFamily, key);
    N.AuthorityIsMandate(w, b, r.authority, r.kind);
    if A.CheckedAuthority(w, b, r.authority, r.kind).Ok? { ApprovedFor(w, b, r.authority, r.kind); }
    if CompanyNow(b).Ok? {
      LocatedOrNot(b, R.ResolutionTx(w, r, CompanyNow(b).value.company, notarisation, key, |b|).id);
    }
  }

  /** No transaction of the ledger is an execution of the resolution. */
  predicate NotExecuted(b: Blocks, resolutionTx: TxId) {
    forall e :: e in Entries(b) && e.tx.body.ns == ExecutionNs && e.tx.body.payload.ExecutionPayload? ==>
      e.tx.body.payload.execution.execution.resolutionTx != resolutionTx
  }

  function Provider(c: Company, target: Target): TxId {
    match target
    case TargetShares => c.shares.txId
    case TargetChannels => c.channels.txId
    case TargetPersons => c.persons.txId
    case TargetAuthorisation => c.authorisation.txId
  }

  /** The record that provides the part now is the one that provided it when they decided. */
  predicate BaseStands(b: Blocks, authority: Authority, target: Target)
    requires |b| > 0
  {
    && N.DecidedAt(b, authority).Some? && Reconstruct(b, N.DecidedAt(b, authority).value).Ok?
    && Reconstruct(b, |b| - 1).Ok?
    && Provider(Reconstruct(b, |b| - 1).value, target)
         == Provider(Reconstruct(b, N.DecidedAt(b, authority).value).value, target)
  }

  /** What the company would be with the body in its place. */
  function Amended(c: Company, body: RecordBody): Company {
    match body
    case ChannelsBody(v) => c.(channels := c.channels.(value := v))
    case PersonsBody(v) => c.(persons := c.persons.(value := v))
    case AuthorisationBody(v) => c.(authorisation := c.authorisation.(value := v))
    case _ => c
  }

  lemma EverybodyStays(signer: Id, c: Company)
    ensures forall p :: p in c.persons.value ==> Demotion.StillHolds(c.persons.value, p)
  {
    hide Demotion.StillHolds;
    forall p | p in c.persons.value ensures Demotion.StillHolds(c.persons.value, p) {
      Demotion.ListedStillHolds(c.persons.value, p);
    }
  }

  lemma SeatsDecide(signer: Id, c: Company, v: ChannelSet)
    ensures Demotion.KeepsToSeats(signer, c.channels.value, v, c.shares.value, c.persons.value)
      <==> Demotion.GainedNothing(signer, c, Amended(c, ChannelsBody(v)))
  {
    hide Demotion.Seats, FamiliesOf, Demotion.StillHolds, ChannelAt;
    EverybodyStays(signer, c);
    var d := Amended(c, ChannelsBody(v));
    assert Demotion.SeatsIn(d, signer) == Demotion.Seats(v, signer, c.shares.value, c.persons.value);
  }

  lemma FamiliesDecide(signer: Id, c: Company, v: Authorisation)
    ensures Demotion.GainsNoFamily(signer, c.authorisation.value, v)
      <==> Demotion.GainedNothing(signer, c, Amended(c, AuthorisationBody(v)))
  {
    hide Demotion.Seats, FamiliesOf, Demotion.StillHolds, ChannelAt;
    EverybodyStays(signer, c);
    var d := Amended(c, AuthorisationBody(v));
    assert Demotion.SeatsIn(d, signer) == Demotion.SeatsIn(c, signer);
  }

  lemma ListedOrNot(persons: Identities, p: Person)
    ensures p in persons <==> PersonAt(persons, p.id) == Some(p)
  {
    if p in persons { ListedPersonFound(persons, p); }
  }

  lemma OthersDecide(signer: Id, c: Company, v: Identities)
    ensures Demotion.LeavesOthersAlone(signer, c.persons.value, v)
      <==> Demotion.GainedNothing(signer, c, Amended(c, PersonsBody(v)))
  {
    hide Demotion.Seats, FamiliesOf, Demotion.StillHolds, ChannelAt, PersonAt;
    var d := Amended(c, PersonsBody(v));
    Demotion.SeatsIgnoreIdentities(c.channels.value, signer, c.shares.value, c.persons.value, v);
    assert Demotion.SeatsIn(d, signer) == Demotion.SeatsIn(c, signer);
    forall p | p in c.persons.value && p.id != signer
      ensures PersonAt(v, p.id) == Some(p) <==> p in d.persons.value && Demotion.StillHolds(d.persons.value, p)
    {
      ListedOrNot(v, p);
      if p in v { Demotion.ListedStillHolds(v, p); }
    }
  }

  /** The rule for one person's amendment asks exactly that they gain nothing by it. */
  lemma RuleIsGainingNothing(signer: Id, c: Company, body: RecordBody)
    requires body.Kind() in {ChannelsKind, PersonsKind, AuthorisationKind}
    ensures Demotion.VerdictHolds(signer, c, body) <==> Demotion.GainedNothing(signer, c, Amended(c, body))
  {
    match body {
      case ChannelsBody(v) => SeatsDecide(signer, c, v);
      case PersonsBody(v) => OthersDecide(signer, c, v);
      case AuthorisationBody(v) => FamiliesDecide(signer, c, v);
      case _ =>
    }
  }

  lemma ApprovedByWhom(w: World, b: Blocks, authority: Authority, kind: ResolutionKind)
    requires |b| > 0 && A.CheckedAuthority(w, b, authority, kind).Ok?
    ensures DecidedByWhom(b, authority) == A.CheckedAuthority(w, b, authority, kind).value.actor
  {
    hide A.CheckedVote, A.CheckedDecision, A.ScopeError, A.ApprovedDigest, Locate;
    match authority {
      case ByVote(channel, meetingTx, itemNumber, voteTx) => VoteIsFor(w, b, channel, meetingTx, itemNumber, voteTx);
      case ByDecision(channel, decisionTx) => DecisionIsFor(w, b, channel, decisionTx);
    }
  }

  lemma ApprovedBase(w: World, b: Blocks, authority: Authority, kind: ResolutionKind, target: Target)
    requires |b| > 0 && A.CheckedAuthority(w, b, authority, kind).Ok?
    ensures N.DecidedAt(b, authority).Some? && Reconstruct(b, N.DecidedAt(b, authority).value).Ok?
    ensures A.CheckedAuthority(w, b, authority, kind).value.BaseOf(target)
      == Provider(Reconstruct(b, N.DecidedAt(b, authority).value).value, target)
  {
    hide A.AuthorityStands, A.CheckedAuthority, A.DecidedBy, Reconstruct, N.DecidedAt;
    A.LifecycleAndVerifierAgree(w, b, authority, kind);
    A.ApprovedBaseWasInForce(w, b, authority, kind);
    ApprovedFor(w, b, authority, kind);
    var approval := A.CheckedAuthority(w, b, authority, kind).value;
    assert approval.BaseOf(target) == Reconstruct(b, approval.height).value.ProviderOf(target.Kind());
  }

  /** One person deciding alone, of anything but the register: it has to read, and to gain them nothing. */
  ghost predicate OnlyGivesUp(w: World, b: Blocks, authority: Authority, target: Target, body: string)
    requires |b| > 0 && Reconstruct(b, |b| - 1).Ok?
  {
    authority.ByDecision? && target != TargetShares ==>
      && DecidedByWhom(b, authority).Some? && ReadsAs(w, N.PartOf(target), body)
      && var c := Reconstruct(b, |b| - 1).value;
         Demotion.GainedNothing(DecidedByWhom(b, authority).value, c, Amended(c, w.read(N.PartOf(target), body).value))
  }

  lemma DemotionAsked(w: World, b: Blocks, authority: Authority, kind: ResolutionKind, target: Target, body: string)
    requires |b| > 0 && A.CheckedAuthority(w, b, authority, kind).Ok? && Reconstruct(b, |b| - 1).Ok?
    ensures var c, approval := Reconstruct(b, |b| - 1).value, A.CheckedAuthority(w, b, authority, kind).value;
      X.DemotionError(w, c, approval, target, body).None? <==> OnlyGivesUp(w, b, authority, target, body)
  {
    hide A.CheckedAuthority, Reconstruct, DecidedByWhom, Demotion.VerdictHolds, Demotion.GainedNothing, Amended;
    hide DecidedFor, N.DecidedAt;
    ApprovedByWhom(w, b, authority, kind);
    ApprovedFor(w, b, authority, kind);
    var approval := A.CheckedAuthority(w, b, authority, kind).value;
    if approval.actor.Some? && target != TargetShares && ReadsAs(w, N.PartOf(target), body) {
      RuleIsGainingNothing(approval.actor.value, Reconstruct(b, |b| - 1).value, w.read(N.PartOf(target), body).value);
    }
  }

  lemma NoExecutionFound(b: Blocks, resolutionTx: TxId)
    ensures X.FoundExecution(b, resolutionTx).None? <==> NotExecuted(b, resolutionTx)
  {
    hide Entries;
    var p := X.Executes(resolutionTx);
    assert X.FoundExecution(b, resolutionTx) == First(p, Entries(b));
  }

  /** Everything asked before publishing, gathered. */
  lemma CheckedMeans(w: World, r: R.ResolutionState, b: Blocks, key: PublicKey)
    requires |b| > 0 && R.Formed(r)
    ensures X.CheckedExecution(w, r, b, key).Ok? <==>
      && r.status == A.ResolutionStatus.Finalized && r.kind.Amendment?
      && X.FoundExecution(b, r.finalized.value.0).None? && A.CheckedAuthority(w, b, r.authority, r.kind).Ok?
      && CompanyNow(b).Ok? && MaySign(CompanyNow(b).value, GovernanceFamily, key)
      && var c, approval := CompanyNow(b).value, A.CheckedAuthority(w, b, r.authority, r.kind).value;
         && Provider(c, r.kind.target) == approval.BaseOf(r.kind.target)
         && X.DemotionError(w, c, approval, r.kind.target, r.kind.body).None?
  {
    hide A.CheckedAuthority, X.FoundExecution, Reconstruct, MaySign, X.DemotionError;
  }

  lemma BaseAsked(w: World, b: Blocks, authority: Authority, kind: ResolutionKind, target: Target)
    requires |b| > 0 && A.CheckedAuthority(w, b, authority, kind).Ok? && CompanyNow(b).Ok?
    ensures BaseStands(b, authority, target) <==>
      Provider(CompanyNow(b).value, target) == A.CheckedAuthority(w, b, authority, kind).value.BaseOf(target)
  {
    hide A.CheckedAuthority, Reconstruct, N.DecidedAt;
    ApprovedBase(w, b, authority, kind, target);
  }

  /**
   Execution goes ahead if and only if the resolution is finalised and amends something, nothing on
   the ledger executes it already, its mandate stands, the signer is listed for governance at the
   head, the part is provided by the record it was when they decided, and one person's decision
   gains them nothing.
   */
  lemma ExecutionIsChecked(w: World, r: R.ResolutionState, b: Blocks, key: PublicKey)
    requires |b| > 0 && R.Formed(r)
    ensures X.CheckedExecution(w, r, b, key).Ok? <==>
      && r.status == A.ResolutionStatus.Finalized && r.kind.Amendment? && NotExecuted(b, r.finalized.value.0)
      && N.Mandated(w, b, r.authority, r.kind) && MaySignAtHead(b, GovernanceFamily, key)
      && BaseStands(b, r.authority, r.kind.target)
      && OnlyGivesUp(w, b, r.authority, r.kind.target, r.kind.body)
  {
    hide X.CheckedExecution, N.Mandated, NotExecuted, MaySignAtHead, BaseStands, OnlyGivesUp, A.CheckedAuthority;
    hide X.FoundExecution, X.DemotionError, Reconstruct, MaySign;
    CheckedMeans(w, r, b, key);
    HeadSigner(b, GovernanceFamily, key);
    N.AuthorityIsMandate(w, b, r.authority, r.kind);
    if r.status == A.ResolutionStatus.Finalized && r.kind.Amendment? {
      NoExecutionFound(b, r.finalized.value.0);
      if A.CheckedAuthority(w, b, r.authority, r.kind).Ok? && CompanyNow(b).Ok? {
        BaseAsked(w, b, r.authority, r.kind, r.kind.target);
        DemotionAsked(w, b, r.authority, r.kind, r.kind.target, r.kind.body);
      }
    }
  }

  lemma CheckedBase(w: World, r: R.ResolutionState, b: Blocks, key: PublicKey)
    requires |b| > 0 && R.Formed(r) && X.CheckedExecution(w, r, b, key).Ok?
    ensures r.kind.Amendment? && Reconstruct(b, |b| - 1).Ok?
    ensures X.CheckedExecution(w, r, b, key).value.BaseOf(r.kind.target)
      == Provider(Reconstruct(b, |b| - 1).value, r.kind.target)
  {
    hide A.CheckedAuthority, X.FoundExecution, X.DemotionError, Reconstruct, MaySign;
  }

  /**
   And it publishes if and only if, besides, the normalised body reads as its part, the key is a
   company signer's, somebody can still amend afterwards, and the store takes the record.
   */
  lemma ExecutionPublishes(w: World, r: R.ResolutionState, b: Blocks, key: PublicKey, notarisation: Notarisation,
      answers: seq<bool>)
    requires |b| > 0 && R.Formed(r)
    ensures X.ExecuteResolution(w, r, b, key, notarisation, answers).published.Some? <==>
      && X.CheckedExecution(w, r, b, key).Ok? && r.kind.Amendment? && MaySignAtHead(b, CompanyFamily, key)
      && var kind, text, c := N.PartOf(r.kind.target), Normalise(r.kind.body), Reconstruct(b, |b| - 1).value;
         && ReadsAs(w, kind, text) && StaysOpen(c, w.read(kind, text).value)
         && Takes(b, Says(answers),
              Published(w, b, key, kind, r.kind.body, Some(Provider(c, r.kind.target)), notarisation).id)
  {
    hide X.CheckedExecution, Reconstruct, Normalise, ListedSigner, SomebodyAmends, PublishOn, Published, Entries,
        StaysOpen;
    if X.CheckedExecution(w, r, b, key).Ok? {
      CheckedBase(w, r, b, key);
      var base := X.CheckedExecution(w, r, b, key).value.BaseOf(r.kind.target);
      PublishSucceeds(w, b, Says(answers), key, N.PartOf(r.kind.target), r.kind.body, Some(base), notarisation);
    }
  }
}
