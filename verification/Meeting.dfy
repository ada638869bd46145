/**
 The meeting: an agenda convened on the ledger, a vote for each item that asks for one, and a final
 record naming them.
 */
module Meeting {
  import opened Bytes
  import opened Ordering
  import opened Parts
  import opened Records
  import opened Text
  import opened Ledger
  import opened Resolve
  import V = Vote

  datatype MeetingStatus = Draft | Convened | Open | Closed | Finalized

  datatype MeetingError =
    | InvalidTransition(from: MeetingStatus)
    | InvalidAgenda
    | InvalidMetadata
    | LedgerFailed(ledger: LedgerError)
    | NoSuchItem(number: nat)
    | NotAVoteItem(number: nat)
    | VoteFailed(number: nat, vote: V.VoteError)
    | MeetingNotAppended

  /** A vote of the meeting, with the number of its agenda item. Votes are owned values, as the meeting owns them. */
  type Numbered = (nat, V.VoteState)

  /** The whole state of a meeting. */
  datatype MeetingState = MeetingState(
    status: MeetingStatus, company: Id, metadata: MeetingMetadata, items: seq<AgendaItem>, votes: seq<Numbered>,
    convened: Option<(TxId, nat)>, openedAt: Option<nat>, finalized: Option<(TxId, nat)>)

  function DraftMeeting(metadata: MeetingMetadata): MeetingState {
    MeetingState(Draft, "", metadata, [], [], None, None, None)
  }

  predicate AllFormed(votes: seq<Numbered>) {
    forall k :: 0 <= k < |votes| ==> V.Formed(votes[k].1)
  }

  predicate Formed(m: MeetingState) {
    && AllFormed(m.votes)
    && (m.status != Draft ==> m.convened.Some?)
    && (m.status in {Open, Closed, Finalized} ==> m.openedAt.Some?)
    && (m.status == Finalized ==> m.finalized.Some?)
  }

  // ---------------------------------------------------------------- agendas

  predicate Blank(text: string) { Trim(text) == "" }

  predicate AgendaEntry(items: seq<AgendaItem>, i: nat)
    requires i < |items|
  {
    items[i].number == i + 1 <= U32_MAX && !Blank(items[i].title)
  }

  /** `AgendaV1::new`: at least one item, numbered from one in order, each with a title. */
  predicate ValidAgenda(items: seq<AgendaItem>) {
    items != [] && forall i :: 0 <= i < |items| ==> AgendaEntry(items, i)
  }

  function Decimal(n: nat): string {
    if n < 10 then [DIGITS[n]] else Decimal(n / 10) + [DIGITS[n % 10]]
  }

  const DIGITS := "0123456789"

  /** The subject of the vote on an item. */
  function Subject(item: AgendaItem): string { "item " + Decimal(item.number) + ": " + item.title }

  function VoteItems(items: seq<AgendaItem>): seq<AgendaItem> {
    if items == [] then [] else
      var n := |items| - 1;
      VoteItems(items[..n]) + if items[n].body.VoteItem? then [items[n]] else []
  }

  lemma {:induction false} VoteItemsListed(items: seq<AgendaItem>)
    ensures forall x :: x in VoteItems(items) <==> x in items && x.body.VoteItem?
  {
    if items == [] {
    } else {
      var n := |items| - 1;
      VoteItemsListed(items[..n]);
      assert items == items[..n] + [items[n]];
    }
  }

  // ---------------------------------------------------------------- transitions

  /** `add_item`. */
  function AddItem(m: MeetingState, title: string, body: AgendaBody): Result<MeetingState, MeetingError> {
    if m.status != Draft then Err(InvalidTransition(m.status))
    else if Blank(title) || |m.items| + 1 > U32_MAX then Err(InvalidAgenda)
    else Ok(m.(items := m.items + [AgendaItem(|m.items| + 1, title, body)]))
  }

  function MeetingTx(w: World, company: Id, body: MeetingBody, key: PublicKey, height: nat): Tx {
    Sealed(w, MeetingNs, MeetingPayload(company, body), key, height)
  }

  /** `convene`. */
  function ConveneMeeting(w: World, m: MeetingState, b: Blocks, key: PublicKey,
      works: bool): (r: (Result<MeetingState, MeetingError>, Blocks))
    requires |b| > 0
    ensures b <= r.1
  {
    if m.status != Draft then (Err(InvalidTransition(m.status)), b)
    else if !ValidAgenda(m.items) then (Err(InvalidAgenda), b)
    else match CompanyNow(b)
      case Err(e) => (Err(LedgerFailed(e)), b)
      case Ok(c) =>
        if !MaySign(c, GovernanceFamily, key) then (Err(LedgerFailed(UnauthorisedSigner(GovernanceFamily, key))), b)
        else if Blank(m.metadata.title) then (Err(InvalidMetadata), b)
        else
          var tx := MeetingTx(w, c.company, MeetingBody.Convened(m.metadata, m.items), key, |b|);
          if works && Locate(b, tx.id).None?
          then (Ok(m.(status := MeetingStatus.Convened, company := c.company, convened := Some((tx.id, |b|)))),
            b + [[tx]])
          else (Err(MeetingNotAppended), b)
  }

  /** One vote for each item that asks for one, frozen at one height through the meeting's channel and opened. */
  function OpenVotes(items: seq<AgendaItem>, b: Blocks, at: nat, channel: Id): (r: Result<seq<Numbered>, MeetingError>)
    requires |b| > 0
    ensures r.Ok? ==> AllFormed(r.value)
  {
    if items == [] then Ok([]) else
      var n := |items| - 1;
      match OpenVotes(items[..n], b, at, channel)
      case Err(e) => Err(e)
      case Ok(votes) => OneMoreVote(votes, items[n], b, at, channel)
  }

  function OneMoreVote(votes: seq<Numbered>, item: AgendaItem, b: Blocks, at: nat,
      channel: Id): (r: Result<seq<Numbered>, MeetingError>)
    requires |b| > 0 && AllFormed(votes)
    ensures r.Ok? ==> AllFormed(r.value)
  {
    if item.body.Informational? then Ok(votes) else
    match OpenedVote(item, b, at, channel)
    case Err(e) => Err(e)
    case Ok(v) => Ok(votes + [(item.number, v)])
  }

  /** The vote of an item, drafted, frozen and opened. */
  function OpenedVote(item: AgendaItem, b: Blocks, at: nat, channel: Id): (r: Result<V.VoteState, MeetingError>)
    requires |b| > 0 && item.body.VoteItem?
    ensures r.Ok? ==> V.Formed(r.value)
  {
    hide Reconstruct, ResolveChannel, Subject;
    match V.FreezeVote(V.DraftVote(Subject(item), item.body.proposalDigest), b, at, channel)
    case Err(e) => Err(VoteFailed(item.number, e))
    case Ok(frozen) =>
      match V.OpenVote(frozen)
      case Err(e) => Err(VoteFailed(item.number, e))
      case Ok(open) => Ok(open)
  }

  /** `open`: every vote is frozen at the head. */
  function OpenMeeting(m: MeetingState, b: Blocks): Result<MeetingState, MeetingError>
    requires |b| > 0
  {
    if m.status != MeetingStatus.Convened then Err(InvalidTransition(m.status)) else
    match OpenVotes(m.items, b, |b| - 1, m.metadata.channel)
    case Err(e) => Err(e)
    case Ok(votes) => Ok(m.(status := Open, votes := votes, openedAt := Some(|b| - 1)))
  }

  /** Where the first vote on an item is. */
  function VoteIndex(votes: seq<Numbered>, number: nat): (r: Option<nat>)
    ensures r.Some? ==> r.value < |votes| && votes[r.value].0 == number
    ensures r.None? <==> forall k :: 0 <= k < |votes| ==> votes[k].0 != number
  {
    if votes == [] then None else
      var n := |votes| - 1;
      var earlier := VoteIndex(votes[..n], number);
      assert forall k :: 0 <= k < n ==> votes[..n][k] == votes[k];
      if earlier.Some? then earlier else if votes[n].0 == number then Some(n) else None
  }

  /** `cast`. */
  function CastInMeeting(w: World, m: MeetingState, number: nat, ballot: SignedBallot)
    : Result<MeetingState, MeetingError>
    requires Formed(m)
  {
    if m.status != Open then Err(InvalidTransition(m.status))
    else if forall item :: item in m.items ==> item.number != number then Err(NoSuchItem(number))
    else match VoteIndex(m.votes, number)
      case None => Err(NotAVoteItem(number))
      case Some(k) =>
        match V.CastVote(w, m.votes[k].1, ballot)
        case Err(e) => Err(VoteFailed(number, e))
        case Ok(next) => Ok(m.(votes := m.votes[k := (number, next)]))
  }

  datatype Closing = Closing(votes: seq<Numbered>, error: Option<MeetingError>)

  /** Closes and counts the first `n` votes in order. A failure stops there and keeps what was done before it. */
  function CloseVotes(votes: seq<Numbered>, n: nat, b: Blocks): (r: Closing)
    requires |b| > 0 && n <= |votes| && AllFormed(votes)
    ensures |r.votes| == |votes| && AllFormed(r.votes)
    ensures forall k :: n <= k < |votes| ==> r.votes[k] == votes[k]
  {
    if n == 0 then Closing(votes, None) else
      var sofar := CloseVotes(votes, n - 1, b);
      if sofar.error.Some? then sofar else CloseAt(sofar.votes, n - 1, b)
  }

  function CloseAt(votes: seq<Numbered>, k: nat, b: Blocks): (r: Closing)
    requires |b| > 0 && k < |votes| && V.Formed(votes[k].1)
    ensures |r.votes| == |votes| && V.Formed(r.votes[k].1) && r.votes[k].0 == votes[k].0
    ensures forall i :: 0 <= i < |votes| && i != k ==> r.votes[i] == votes[i]
  {
    var (number, v) := votes[k];
    match V.CloseVote(v)
    case Err(e) => Closing(votes, Some(VoteFailed(number, e)))
    case Ok(closed) =>
      match V.CountVote(closed, b)
      case Err(e) => Closing(votes[k := (number, closed)], Some(VoteFailed(number, e)))
      case Ok(counted) => Closing(votes[k := (number, counted)], None)
  }

  /** `close`. */
  function CloseMeeting(m: MeetingState, b: Blocks): (Option<MeetingError>, MeetingState)
    requires |b| > 0 && Formed(m)
  {
    if m.status != Open then (Some(InvalidTransition(m.status)), m) else
    var closing := CloseVotes(m.votes, |m.votes|, b);
    if closing.error.Some? then (closing.error, m.(votes := closing.votes))
    else (None, m.(votes := closing.votes, status := Closed))
  }

  // ---------------------------------------------------------------- finalising

  /**
   How far filing the votes has come: the votes, the ledger, what the disk will say next, and the
   transactions written.
   */
  datatype Filing = Filing(votes: seq<Numbered>, blocks: Blocks, answers: seq<bool>, error: Option<MeetingError>,
      written: seq<Tx>)

  /** Files the first `n` votes in order, passing over those already filed. A failure stops there. */
  function FileVotes(w: World, votes: seq<Numbered>, n: nat, b: Blocks, key: PublicKey, answers: seq<bool>): (r: Filing)
    requires |b| > 0 && n <= |votes| && AllFormed(votes)
    ensures b <= r.blocks && |r.votes| == |votes| && AllFormed(r.votes)
  {
    if n == 0 then Filing(votes, b, answers, None, []) else
      var sofar := FileVotes(w, votes, n - 1, b, key, answers);
      if sofar.error.Some? then sofar else FileAt(w, sofar, n - 1, key)
  }

  function FileAt(w: World, f: Filing, k: nat, key: PublicKey): (r: Filing)
    requires |f.blocks| > 0 && k < |f.votes| && V.Formed(f.votes[k].1)
    ensures f.blocks <= r.blocks && |r.votes| == |f.votes| && V.Formed(r.votes[k].1) && r.votes[k].0 == f.votes[k].0
    ensures forall i :: 0 <= i < |f.votes| && i != k ==> r.votes[i] == f.votes[i]
  {
    var (number, v) := f.votes[k];
    if v.finalized.Some? then f else
    var (result, b') := V.FinalizeVote(w, v, f.blocks, key, Says(f.answers));
    match result
    case Ok(next) =>
      Filing(f.votes[k := (number, next)], b', After(f.answers), None, f.written + [V.VoteTx(w, v, key, |f.blocks|)])
    case Err(e) =>
      f.(error := Some(VoteFailed(number, e)), answers := if e.VoteNotAppended? then After(f.answers) else f.answers)
  }

  /** The line of the final record for one item. */
  function FinalLine(votes: seq<Numbered>, item: AgendaItem): FinalItem {
    match VoteIndex(votes, item.number)
    case None => FinalItem(item, None, None)
    case Some(k) =>
      var v := votes[k].1;
      FinalItem(item, if v.finalized.Some? then Some(v.finalized.value.0) else None,
                if v.evaluation.Some? then Some(v.evaluation.value.outcome) else None)
  }

  function FinalLines(votes: seq<Numbered>, items: seq<AgendaItem>): (r: seq<FinalItem>)
    ensures |r| == |items| && forall i :: 0 <= i < |items| ==> r[i] == FinalLine(votes, items[i])
  {
    seq(|items|, i requires 0 <= i < |items| => FinalLine(votes, items[i]))
  }

  /** `final_record`. */
  function FinalRecord(m: MeetingState): FinalMeeting
    requires m.convened.Some? && m.openedAt.Some?
  {
    FinalMeeting(m.convened.value.0, m.metadata, m.openedAt.value, FinalLines(m.votes, m.items))
  }

  /** The transaction that ends the meeting. */
  function FinalTx(w: World, m: MeetingState, key: PublicKey, height: nat): Tx
    requires m.convened.Some? && m.openedAt.Some?
  {
    MeetingTx(w, m.company, Final(FinalRecord(m)), key, height)
  }

  /** `finalize`: how it ends, the meeting, the ledger, the disk, and the transactions written. */
  datatype Ending = Ending(error: Option<MeetingError>, meeting: MeetingState, blocks: Blocks, answers: seq<bool>,
      written: seq<Tx>)

  function FinalizeMeeting(w: World, m: MeetingState, b: Blocks, key: PublicKey, answers: seq<bool>): (r: Ending)
    requires |b| > 0 && Formed(m)
    ensures b <= r.blocks && Formed(r.meeting)
  {
    if m.status != Closed then Ending(Some(InvalidTransition(m.status)), m, b, answers, []) else
    match CompanyNow(b)
    case Err(e) => Ending(Some(LedgerFailed(e)), m, b, answers, [])
    case Ok(c) =>
      if !MaySign(c, GovernanceFamily, key)
        then Ending(Some(LedgerFailed(UnauthorisedSigner(GovernanceFamily, key))), m, b, answers, [])
      else
        var f := FileVotes(w, m.votes, |m.votes|, b, key, answers);
        var filed := m.(votes := f.votes);
        if f.error.Some? then Ending(f.error, filed, f.blocks, f.answers, f.written)
        else FileMeeting(w, filed, f, key)
  }

  function FileMeeting(w: World, m: MeetingState, f: Filing, key: PublicKey): (r: Ending)
    requires |f.blocks| > 0 && Formed(m) && m.status == Closed
    ensures f.blocks <= r.blocks && Formed(r.meeting)
  {
    if Blank(m.metadata.title) then Ending(Some(InvalidMetadata), m, f.blocks, f.answers, f.written)
    else if !ValidAgenda(m.items) then Ending(Some(InvalidAgenda), m, f.blocks, f.answers, f.written)
    else
      var tx := FinalTx(w, m, key, |f.blocks|);
      if Says(f.answers) && Locate(f.blocks, tx.id).None?
      then Ending(None, m.(status := Finalized, finalized := Some((tx.id, |f.blocks|))), f.blocks + [[tx]],
        After(f.answers), f.written + [tx])
      else Ending(Some(MeetingNotAppended), m, f.blocks, After(f.answers), f.written)
  }

  // ---------------------------------------------------------------- verification

  datatype MeetingCheck =
    | Decodes | ConveningExists | HeightsOrdered | AgendaMatches | MetadataMatches | CompanyReconstructs
    | SignerAuthorised | VotesVerify | VotesBelong | ItemsConsistent

  predicate HoldsMeeting(e: Entry) { e.tx.body.ns == MeetingNs && e.tx.body.payload.MeetingPayload? }

  predicate HoldsFinal(e: Entry) {
    HoldsMeeting(e) && e.tx.body.payload.meeting.Final? && !Blank(e.tx.body.payload.meeting.record.metadata.title)
  }

  predicate HoldsConvening(e: Entry) {
    HoldsMeeting(e) && e.tx.body.payload.meeting.Convened? && ValidAgenda(e.tx.body.payload.meeting.agenda)
  }

  /** The convening record a meeting id names. */
  function ConveningOf(b: Blocks, meetingId: TxId): (r: Option<Entry>)
    ensures r.Some? ==> HoldsConvening(r.value) && Locate(b, meetingId) == r
  {
    match Locate(b, meetingId)
    case None => None
    case Some(e) => if HoldsConvening(e) then Some(e) else None
  }

  function AgendaOf(lines: seq<FinalItem>): (r: seq<AgendaItem>)
    ensures |r| == |lines| && forall i :: 0 <= i < |lines| ==> r[i] == lines[i].item
  {
    seq(|lines|, i requires 0 <= i < |lines| => lines[i].item)
  }

  /** A line that asks for a vote names one, and it verifies. */
  ghost predicate LineVerifies(w: World, b: Blocks, line: FinalItem) {
    line.item.body.VoteItem? ==> line.voteTx.Some? && V.VoteVerifies(w, b, line.voteTx.value)
  }

  /** The vote a line names is the vote its item called for, filed before the meeting, with the outcome stated. */
  predicate LineBelongs(b: Blocks, company: Id, channel: Id, openedAt: nat, height: nat, line: FinalItem) {
    line.item.body.VoteItem? && line.voteTx.Some? && Locate(b, line.voteTx.value).Some?
    && V.HoldsVote(Locate(b, line.voteTx.value).value)
    ==> Answers(Locate(b, line.voteTx.value).value, company, channel, openedAt, height, line)
  }

  predicate Answers(e: Entry, company: Id, channel: Id, openedAt: nat, height: nat, line: FinalItem)
    requires line.item.body.VoteItem? && V.HoldsVote(e)
  {
    var vote := e.tx.body.payload.vote;
    var s := vote.snapshot;
    && s.company == company && s.channel == channel && s.subject == Subject(line.item)
    && s.proposalDigest == line.item.body.proposalDigest && s.height == openedAt
    && e.height < height && line.outcome == Some(vote.evaluation.outcome)
  }

  predicate LineConsistent(line: FinalItem) {
    match line.item.body
    case Informational(_) => line.voteTx.None? && line.outcome.None?
    case VoteItem(_) => line.voteTx.Some?
  }

  ghost predicate LinesVerify(w: World, b: Blocks, lines: seq<FinalItem>) {
    forall i :: 0 <= i < |lines| ==> LineVerifies(w, b, lines[i])
  }

  predicate LinesBelong(b: Blocks, company: Id, channel: Id, openedAt: nat, height: nat, lines: seq<FinalItem>) {
    forall i :: 0 <= i < |lines| ==> LineBelongs(b, company, channel, openedAt, height, lines[i])
  }

  predicate LinesConsistent(lines: seq<FinalItem>) {
    forall i :: 0 <= i < |lines| ==> LineConsistent(lines[i])
  }

  /** The items recorded are the agenda convened. */
  predicate SameAgenda(lines: seq<FinalItem>, agenda: seq<AgendaItem>) { AgendaOf(lines) == agenda }

  /** Both records were signed by governance signers of their time. */
  predicate BothSigners(b: Blocks, convening: Entry, final: Entry)
    requires b != []
  {
    GovernanceSignerAt(b, convening.height, convening.tx.body.signer)
        && GovernanceSignerAt(b, final.height, final.tx.body.signer)
  }

  /** What each check of the verifier means. */
  ghost predicate MeetingCheckHolds(w: World, b: Blocks, e: Entry, check: MeetingCheck) {
    b != [] && HoldsFinal(e) &&
    var company, record := e.tx.body.payload.company, e.tx.body.payload.meeting.record;
    check == Decodes ||
    (ConveningOf(b, record.meetingId).Some?
        && CheckAgainst(w, b, e, company, record, ConveningOf(b, record.meetingId).value, check))
  }

  ghost predicate CheckAgainst(w: World, b: Blocks, e: Entry, company: Id, record: FinalMeeting, convening: Entry,
      check: MeetingCheck)
    requires b != [] && HoldsConvening(convening)
  {
    var convened := convening.tx.body.payload.meeting;
    match check
    case Decodes => true
    case ConveningExists => convening.tx.body.payload.company == company
    case HeightsOrdered => convening.height <= record.openedAt < e.height
    case AgendaMatches => SameAgenda(record.items, convened.agenda)
    case MetadataMatches => convened.metadata == record.metadata
    case CompanyReconstructs => CompanyIs(b, convening.height, company)
    case SignerAuthorised => BothSigners(b, convening, e)
    case VotesVerify => LinesVerify(w, b, record.items)
    case VotesBelong => LinesBelong(b, company, convened.metadata.channel, record.openedAt, e.height, record.items)
    case ItemsConsistent => LinesConsistent(record.items)
  }

  predicate CompanyIs(b: Blocks, at: nat, company: Id)
    requires b != []
  {
    Reconstruct(b, at).Ok? && Reconstruct(b, at).value.company == company
  }

  ghost function MeetingChecks(w: World, b: Blocks, e: Entry): MeetingCheck -> bool {
    (check: MeetingCheck) => MeetingCheckHolds(w, b, e, check)
  }

  ghost predicate MeetingEntryVerifies(w: World, b: Blocks, e: Entry) {
    forall check :: MeetingChecks(w, b, e)(check)
  }

  /** The final record a transaction carries passes every check. */
  ghost predicate MeetingVerifies(w: World, b: Blocks, txId: TxId) {
    Locate(b, txId).Some? && MeetingEntryVerifies(w, b, Locate(b, txId).value)
  }

  /** What verifying a meeting reports: the checks, and whether each referenced vote is valid. */
  datatype MeetingReport = MeetingReport(checks: seq<Check<MeetingCheck>>, votes: seq<bool>)

  predicate AllTrue(votes: seq<bool>) { false !in votes }

  /** `is_valid` of a meeting: no line of its own report failed, nor did the report of any vote it names. */
  predicate ReportIsValid(r: MeetingReport) { IsValid(r.checks) && AllTrue(r.votes) }

  /** `verify_meeting`: valid exactly when all ten checks hold. */
  method VerifyMeeting(w: World, b: Blocks, txId: TxId) returns (r: Option<MeetingReport>)
    requires |b| > 0
    ensures r.None? <==> Locate(b, txId).None?
    ensures r.Some? ==> Exact(MeetingChecks(w, b, Locate(b, txId).value), r.value.checks)
    ensures r.Some? ==> (ReportIsValid(r.value) <==> MeetingVerifies(w, b, txId))
  {
    hide MeetingCheckHolds, Locate, IsValid, Exact, Reported, HoldsFinal;
    var located := Locate(b, txId);
    if located.None? { return None; }
    var e := located.value;
    ghost var holds := MeetingChecks(w, b, e);
    NothingReported(holds);
    DecodesMeans(w, b, e);
    var report: seq<Check<MeetingCheck>> := Push(holds, [], Decodes, HoldsFinal(e));
    var votes: seq<bool> := [];
    if HoldsFinal(e) { report, votes := VerifyHeldMeeting(w, b, e, report); }
    ReportDecides(holds, report);
    r := Some(MeetingReport(report, votes));
  }

  lemma DecodesMeans(w: World, b: Blocks, e: Entry)
    requires b != []
    ensures MeetingChecks(w, b, e)(Decodes) == HoldsFinal(e)
  {
  }

  /** Every referenced vote, verified from the ledger and checked to be the one its item called for. */
  method VerifyLines(w: World, b: Blocks, company: Id, channel: Id, openedAt: nat, height: nat, lines: seq<FinalItem>)
    returns (verified: bool, belong: bool, votes: seq<bool>)
    requires |b| > 0
    ensures verified == LinesVerify(w, b, lines)
    ensures belong == LinesBelong(b, company, channel, openedAt, height, lines)
    ensures verified ==> AllTrue(votes)
  {
    hide V.VoteVerifies, LineBelongs, IsValid, Locate;
    var unverified, foreign := 0, 0;
    votes := [];
    for i := 0 to |lines|
      invariant unverified == 0 <==> forall k :: 0 <= k < i ==> LineVerifies(w, b, lines[k])
      invariant foreign == 0 <==> forall k :: 0 <= k < i ==>
        LineBelongs(b, company, channel, openedAt, height, lines[k])
      invariant unverified == 0 ==> AllTrue(votes)
    {
      var line := lines[i];
      if !LineBelongs(b, company, channel, openedAt, height, line) { foreign := foreign + 1; }
      if line.item.body.VoteItem? {
        if line.voteTx.None? {
          unverified := unverified + 1;
        } else {
          var report := V.VerifyVote(w, b, line.voteTx.value);
          if report.None? {
            UnlocatedFails(w, b, line.voteTx.value);
            unverified := unverified + 1;
          } else {
            if !IsValid(report.value) { unverified := unverified + 1; }
            votes := votes + [IsValid(report.value)];
          }
        }
      }
    }
    verified, belong := unverified == 0, foreign == 0;
  }

  lemma UnlocatedFails(w: World, b: Blocks, txId: TxId)
    requires Locate(b, txId).None?
    ensures !V.VoteVerifies(w, b, txId)
  {
  }

  method CompanyReconstructsAt(b: Blocks, at: nat, company: Id) returns (ok: bool)
    requires |b| > 0
    ensures ok == CompanyIs(b, at, company)
  {
    var found := ReconstructAt(b, at);
    ok := found.Ok? && found.value.company == company;
  }

  lemma NoVotesYet()
    ensures AllTrue([])
  {
  }

  /** What each check means once the convening record has been found. */
  lemma ConvenedMeanings(w: World, b: Blocks, e: Entry, convening: Entry, company: Id, record: FinalMeeting,
      convener: Id, metadata: MeetingMetadata, agenda: seq<AgendaItem>)
    requires b != [] && HoldsFinal(e) && e.tx.body.payload == MeetingPayload(company, Final(record))
    requires convening.tx.body.payload == MeetingPayload(convener, MeetingBody.Convened(metadata, agenda))
    requires ConveningOf(b, record.meetingId) == Some(convening)
    ensures var holds := MeetingChecks(w, b, e);
      && holds(Decodes)
      && holds(ConveningExists) == (convener == company)
      && holds(HeightsOrdered) == (convening.height <= record.openedAt < e.height)
      && holds(AgendaMatches) == SameAgenda(record.items, agenda)
      && holds(MetadataMatches) == (metadata == record.metadata)
      && holds(CompanyReconstructs) == CompanyIs(b, convening.height, company)
      && holds(SignerAuthorised) == BothSigners(b, convening, e)
      && holds(VotesVerify) == LinesVerify(w, b, record.items)
      && holds(VotesBelong) == LinesBelong(b, company, metadata.channel, record.openedAt, e.height, record.items)
      && holds(ItemsConsistent) == LinesConsistent(record.items)
  {
    hide CompanyIs, BothSigners, SameAgenda, LinesVerify, LinesBelong, LinesConsistent, ConveningOf, Blank;
    hide ValidAgenda, Locate;
  }

  lemma NoConvening(w: World, b: Blocks, e: Entry)
    requires b != [] && HoldsFinal(e) && ConveningOf(b, e.tx.body.payload.meeting.record.meetingId).None?
    ensures !MeetingChecks(w, b, e)(ConveningExists)
  {
    hide CheckAgainst, ConveningOf;
  }

  /** The checks on a transaction that does hold a final record. */
  method VerifyHeldMeeting(w: World, b: Blocks, e: Entry, decoded: seq<Check<MeetingCheck>>)
    returns (report: seq<Check<MeetingCheck>>, votes: seq<bool>)
    requires |b| > 0 && HoldsFinal(e) && Exact(MeetingChecks(w, b, e), decoded) && Decodes in Reported(decoded)
    ensures Exact(MeetingChecks(w, b, e), report) && report != []
    ensures (forall check :: check in Reported(report)) || !IsValid(report)
    ensures IsValid(report) ==> AllTrue(votes)
  {
    hide AllTrue, IsValid, Exact, Reported, MeetingChecks, ConveningOf;
    NoVotesYet();
    var found := ConveningOf(b, e.tx.body.payload.meeting.record.meetingId);
    if found.None? {
      NoConvening(w, b, e);
      report := Push(MeetingChecks(w, b, e), decoded, ConveningExists, false);
      votes := [];
    } else {
      report, votes := VerifyConvened(w, b, e, found.value, decoded);
    }
  }

  /** The checks that compare the final record with its convening. */
  method VerifyConvened(w: World, b: Blocks, e: Entry, convening: Entry, decoded: seq<Check<MeetingCheck>>)
    returns (report: seq<Check<MeetingCheck>>, votes: seq<bool>)
    requires |b| > 0 && HoldsFinal(e) && ConveningOf(b, e.tx.body.payload.meeting.record.meetingId) == Some(convening)
    requires Exact(MeetingChecks(w, b, e), decoded) && Decodes in Reported(decoded)
    ensures Exact(MeetingChecks(w, b, e), report) && report != []
    ensures (forall check :: check in Reported(report)) || !IsValid(report)
    ensures IsValid(report) ==> AllTrue(votes)
  {
    hide CompanyIs, BothSigners, LinesVerify, LinesBelong, LinesConsistent, SameAgenda, ConveningOf, AllTrue;
    hide IsValid, Exact, Reported, MeetingChecks, Blank, ValidAgenda;
    NoVotesYet();
    votes := [];
    ghost var holds := MeetingChecks(w, b, e);
    var company, record := e.tx.body.payload.company, e.tx.body.payload.meeting.record;
    var convener, convened := convening.tx.body.payload.company, convening.tx.body.payload.meeting;
    var metadata, agenda := convened.metadata, convened.agenda;
    ConvenedMeanings(w, b, e, convening, company, record, convener, metadata, agenda);
    report := Push(holds, decoded, ConveningExists, convener == company);
    if convener != company { return; }
    var reconstructs := CompanyReconstructsAt(b, convening.height, company);
    var verified, belong;
    verified, belong, votes := VerifyLines(w, b, company, metadata.channel, record.openedAt, e.height, record.items);
    report := ReportConvened(holds, report,
      convening.height <= record.openedAt < e.height, SameAgenda(record.items, agenda), metadata == record.metadata,
      reconstructs, BothSigners(b, convening, e), verified, belong, LinesConsistent(record.items));
  }

  /** The checks from the heights on, in the order they are reported. */
  method ReportConvened(ghost holds: MeetingCheck -> bool, started: seq<Check<MeetingCheck>>, heights: bool,
      agenda: bool, metadata: bool, company: bool, signers: bool, verified: bool, belong: bool, consistent: bool)
      returns (report: seq<Check<MeetingCheck>>)
    requires Exact(holds, started) && Decodes in Reported(started) && ConveningExists in Reported(started)
    requires heights == holds(HeightsOrdered) && agenda == holds(AgendaMatches) && metadata == holds(MetadataMatches)
    requires company == holds(CompanyReconstructs) && signers == holds(SignerAuthorised)
    requires verified == holds(VotesVerify) && belong == holds(VotesBelong) && consistent == holds(ItemsConsistent)
    ensures Exact(holds, report) && report != [] && forall check :: check in Reported(report)
    ensures IsValid(report) ==> verified
  {
    hide IsValid, Exact, Reported;
    report := Push(holds, started, HeightsOrdered, heights);
    report := Push(holds, report, AgendaMatches, agenda);
    report := Push(holds, report, MetadataMatches, metadata);
    report := Push(holds, report, CompanyReconstructs, company);
    report := Push(holds, report, SignerAuthorised, signers);
    report := Push(holds, report, VotesVerify, verified);
    report := Push(holds, report, VotesBelong, belong);
    report := Push(holds, report, ItemsConsistent, consistent);
    forall check: MeetingCheck ensures check in Reported(report) {
      match check case Decodes => case ConveningExists => case HeightsOrdered => case AgendaMatches =>
      case MetadataMatches => case CompanyReconstructs => case SignerAuthorised => case VotesVerify =>
      case VotesBelong => case ItemsConsistent =>
    }
  }

  // ---------------------------------------------------------------- verdicts are permanent

  lemma VerifiedIsLocated(w: World, b: Blocks, txId: TxId)
    requires V.VoteVerifies(w, b, txId)
    ensures Locate(b, txId).Some? && V.HoldsVote(Locate(b, txId).value)
  {
    var holds := V.VoteChecks(w, b, Locate(b, txId).value);
    assert holds(V.Decodes);
  }

  /** A line whose vote is on the ledger is judged the same on every extension. */
  lemma LineStays(w: World, b: Blocks, b': Blocks, company: Id, channel: Id, openedAt: nat, height: nat,
      line: FinalItem)
    requires b <= b'
    requires line.item.body.VoteItem? && line.voteTx.Some? ==> Locate(b, line.voteTx.value).Some?
    ensures LineVerifies(w, b', line) <==> LineVerifies(w, b, line)
    ensures LineBelongs(b', company, channel, openedAt, height, line)
         == LineBelongs(b, company, channel, openedAt, height, line)
  {
    hide V.VoteVerifies, Locate, V.HoldsVote;
    if line.item.body.VoteItem? && line.voteTx.Some? {
      V.VoteVerdictIsPermanent(w, b, b', line.voteTx.value);
    }
  }

  /** The vote a line names, if it names one. */
  function NamedVote(line: FinalItem): Option<TxId> { if line.item.body.VoteItem? then line.voteTx else None }

  predicate VoteLocated(b: Blocks, line: FinalItem) {
    NamedVote(line).Some? ==> Locate(b, NamedVote(line).value).Some?
  }

  /** Every vote a list of lines names is on the ledger. */
  predicate VotesLocated(b: Blocks, lines: seq<FinalItem>) {
    forall i :: 0 <= i < |lines| ==> VoteLocated(b, lines[i])
  }

  lemma LinesStay(w: World, b: Blocks, b': Blocks, company: Id, channel: Id, openedAt: nat, height: nat,
      lines: seq<FinalItem>)
    requires b <= b' && VotesLocated(b, lines)
    ensures LinesVerify(w, b', lines) <==> LinesVerify(w, b, lines)
    ensures LinesBelong(b', company, channel, openedAt, height, lines)
         == LinesBelong(b, company, channel, openedAt, height, lines)
  {
    hide LineVerifies, LineBelongs, Locate;
    forall i | 0 <= i < |lines|
      ensures LineVerifies(w, b', lines[i]) <==> LineVerifies(w, b, lines[i])
      ensures LineBelongs(b', company, channel, openedAt, height, lines[i])
           == LineBelongs(b, company, channel, openedAt, height, lines[i])
    {
      assert VoteLocated(b, lines[i]);
      LineStays(w, b, b', company, channel, openedAt, height, lines[i]);
    }
  }

  lemma VerifiedAreLocated(w: World, b: Blocks, lines: seq<FinalItem>)
    requires LinesVerify(w, b, lines)
    ensures VotesLocated(b, lines)
  {
    hide V.VoteVerifies, Locate, V.HoldsVote;
    forall i | 0 <= i < |lines| ensures VoteLocated(b, lines[i]) {
      assert LineVerifies(w, b, lines[i]);
      if NamedVote(lines[i]).Some? { VerifiedIsLocated(w, b, lines[i].voteTx.value); }
    }
  }

  /** The votes that belong to a meeting were filed below it. */
  lemma BelongingAreBelow(w: World, b: Blocks, b': Blocks, company: Id, channel: Id, openedAt: nat, height: nat,
      lines: seq<FinalItem>)
    requires b <= b' && height < |b|
    requires LinesVerify(w, b', lines) && LinesBelong(b', company, channel, openedAt, height, lines)
    ensures VotesLocated(b, lines)
  {
    hide V.VoteVerifies, Locate, V.HoldsVote, Subject;
    forall i | 0 <= i < |lines| ensures VoteLocated(b, lines[i]) {
      assert LineVerifies(w, b', lines[i]) && LineBelongs(b', company, channel, openedAt, height, lines[i]);
      if NamedVote(lines[i]).Some? {
        VerifiedIsLocated(w, b', lines[i].voteTx.value);
        LocatedBelow(b, b', lines[i].voteTx.value);
      }
    }
  }

  lemma CompanyIsStays(b: Blocks, b': Blocks, at: nat, company: Id)
    requires b <= b' && at < |b|
    ensures CompanyIs(b', at, company) == CompanyIs(b, at, company)
  {
    PastIsFixed(b, b', at);
  }

  /** With the same convening record and the votes in place, every check comes out the same. */
  lemma MeetingChecksStay(w: World, b: Blocks, b': Blocks, e: Entry, convening: Entry)
    requires b != [] && b <= b' && e.height < |b| && HoldsFinal(e) && convening.height < |b|
    requires var record := e.tx.body.payload.meeting.record;
      && ConveningOf(b, record.meetingId) == ConveningOf(b', record.meetingId) == Some(convening)
      && VotesLocated(b, record.items)
    ensures MeetingEntryVerifies(w, b', e) <==> MeetingEntryVerifies(w, b, e)
  {
    hide MeetingCheckHolds, ConveningOf, CompanyIs, GovernanceSignerAt, LinesVerify, LinesBelong, LinesConsistent;
    hide SameAgenda, MeetingChecks, Blank, ValidAgenda, VotesLocated, Locate, AgendaOf;
    var before, after := MeetingChecks(w, b, e), MeetingChecks(w, b', e);
    var company, record := e.tx.body.payload.company, e.tx.body.payload.meeting.record;
    var convener, convened := convening.tx.body.payload.company, convening.tx.body.payload.meeting;
    var metadata, agenda := convened.metadata, convened.agenda;
    ConvenedMeanings(w, b, e, convening, company, record, convener, metadata, agenda);
    ConvenedMeanings(w, b', e, convening, company, record, convener, metadata, agenda);
    GovernanceSignerStays(b, b', convening.height, convening.tx.body.signer);
    GovernanceSignerStays(b, b', e.height, e.tx.body.signer);
    CompanyIsStays(b, b', convening.height, company);
    LinesStay(w, b, b', company, metadata.channel, record.openedAt, e.height, record.items);
    forall check: MeetingCheck ensures after(check) == before(check) {
      match check case Decodes => case ConveningExists => case HeightsOrdered => case AgendaMatches =>
      case MetadataMatches => case CompanyReconstructs => case SignerAuthorised => case VotesVerify =>
      case VotesBelong => case ItemsConsistent =>
    }
  }

  /** What a verifying record names: a convening below it, and votes that verify and belong to it. */
  lemma VerifiedNames(w: World, b: Blocks, e: Entry)
    requires MeetingEntryVerifies(w, b, e)
    ensures b != [] && HoldsFinal(e)
    ensures var record := e.tx.body.payload.meeting.record; var found := ConveningOf(b, record.meetingId);
      && found.Some? && found.value.height < e.height && LinesVerify(w, b, record.items)
      && LinesBelong(b, e.tx.body.payload.company, found.value.tx.body.payload.meeting.metadata.channel,
                     record.openedAt, e.height, record.items)
  {
    hide CompanyIs, BothSigners, LinesVerify, LinesBelong, LinesConsistent, SameAgenda, ConveningOf, Blank;
    hide ValidAgenda, MeetingCheckHolds, Locate, AgendaOf, MeetingChecks;
    var holds := MeetingChecks(w, b, e);
    VerifiesOnALedger(w, b, e);
    if ConveningOf(b, e.tx.body.payload.meeting.record.meetingId).None? { NoConvening(w, b, e); }
    assert holds(ConveningExists);
    var convening := ConveningOf(b, e.tx.body.payload.meeting.record.meetingId).value;
    var convened := convening.tx.body.payload.meeting;
    ConvenedMeanings(w, b, e, convening, e.tx.body.payload.company, e.tx.body.payload.meeting.record,
      convening.tx.body.payload.company, convened.metadata, convened.agenda);
    assert holds(HeightsOrdered) && holds(VotesVerify) && holds(VotesBelong);
  }

  /** Everything a final record names lies below it, so nothing appended later has a say in the verdict. */
  lemma MeetingEntryStays(w: World, b: Blocks, b': Blocks, e: Entry)
    requires b <= b' && b != [] && e.height < |b|
    ensures MeetingEntryVerifies(w, b', e) <==> MeetingEntryVerifies(w, b, e)
  {
    hide MeetingEntryVerifies, LinesVerify, LinesBelong, Locate, Blank, ValidAgenda, AgendaOf, VotesLocated;
    if MeetingEntryVerifies(w, b, e) {
      VerifiedNames(w, b, e);
      var record := e.tx.body.payload.meeting.record;
      LocateStays(b, b', record.meetingId);
      VerifiedAreLocated(w, b, record.items);
      MeetingChecksStay(w, b, b', e, ConveningOf(b, record.meetingId).value);
    } else if MeetingEntryVerifies(w, b', e) {
      VerifiedNames(w, b', e);
      var record := e.tx.body.payload.meeting.record;
      var convening := ConveningOf(b', record.meetingId).value;
      LocatedBelow(b, b', record.meetingId);
      BelongingAreBelow(w, b, b', e.tx.body.payload.company, convening.tx.body.payload.meeting.metadata.channel,
        record.openedAt, e.height, record.items);
      MeetingChecksStay(w, b, b', e, convening);
    }
  }

  /** The verdict on a meeting, once its record is on the ledger, never changes, whatever is appended. */
  lemma MeetingVerdictIsPermanent(w: World, b: Blocks, b': Blocks, txId: TxId)
    requires b <= b' && Locate(b, txId).Some?
    ensures MeetingVerifies(w, b', txId) <==> MeetingVerifies(w, b, txId)
    ensures Locate(b', txId) == Locate(b, txId)
  {
    hide MeetingEntryVerifies;
    LocateStays(b, b', txId);
    MeetingEntryStays(w, b, b', Locate(b, txId).value);
  }

  lemma VerifiesOnALedger(w: World, b: Blocks, e: Entry)
    ensures MeetingEntryVerifies(w, b, e) ==> |b| > 0 && HoldsFinal(e)
  {
    var holds := MeetingChecks(w, b, e);
    if MeetingEntryVerifies(w, b, e) { assert holds(Decodes); }
  }

  // ---------------------------------------------------------------- the meeting as an object

  lemma OpenVotesStep(items: seq<AgendaItem>, i: nat, b: Blocks, at: nat, channel: Id)
    requires |b| > 0 && i < |items| && OpenVotes(items[..i], b, at, channel).Ok?
    ensures OpenVotes(items[..i + 1], b, at, channel)
      == OneMoreVote(OpenVotes(items[..i], b, at, channel).value, items[i], b, at, channel)
  {
    hide OneMoreVote;
    assert items[..i + 1][..i] == items[..i];
  }

  lemma {:induction false} OpeningStops(items: seq<AgendaItem>, i: nat, b: Blocks, at: nat, channel: Id)
    requires |b| > 0 && i <= |items| && OpenVotes(items[..i], b, at, channel).Err?
    ensures OpenVotes(items, b, at, channel) == OpenVotes(items[..i], b, at, channel)
  {
    hide OneMoreVote;
    if i < |items| {
      assert items[..|items| - 1][..i] == items[..i];
      OpeningStops(items[..|items| - 1], i, b, at, channel);
    } else {
      assert items[..i] == items;
    }
  }

  lemma {:induction false} ClosingStops(votes: seq<Numbered>, k: nat, n: nat, b: Blocks)
    requires |b| > 0 && k <= n <= |votes| && AllFormed(votes) && CloseVotes(votes, k, b).error.Some?
    ensures CloseVotes(votes, n, b) == CloseVotes(votes, k, b)
  {
    hide CloseAt;
    if k < n { ClosingStops(votes, k, n - 1, b); }
  }

  lemma {:induction false} FilingStops(w: World, votes: seq<Numbered>, k: nat, n: nat, b: Blocks, key: PublicKey,
      answers: seq<bool>)
    requires |b| > 0 && k <= n <= |votes| && AllFormed(votes) && FileVotes(w, votes, k, b, key, answers).error.Some?
    ensures FileVotes(w, votes, n, b, key, answers) == FileVotes(w, votes, k, b, key, answers)
  {
    hide FileAt;
    if k < n { FilingStops(w, votes, k, n - 1, b, key, answers); }
  }

  /** `MeetingV1`: each operation moves the fields as its transition says. */
  class Meeting {
    var status: MeetingStatus
    var company: Id
    var metadata: MeetingMetadata
    var items: seq<AgendaItem>
    var votes: seq<Numbered>
    var convened: Option<(TxId, nat)>
    var openedAt: Option<nat>
    var finalized: Option<(TxId, nat)>

    function State(): MeetingState
      reads this
    {
      MeetingState(status, company, metadata, items, votes, convened, openedAt, finalized)
    }

    ghost predicate Valid()
      reads this
    {
      Formed(State())
    }

    constructor Draft(metadata: MeetingMetadata)
      ensures Valid() && State() == DraftMeeting(metadata)
    {
      status, company, this.metadata, items, votes := MeetingStatus.Draft, "", metadata, [], [];
      convened, openedAt, finalized := None, None, None;
    }

    method AddAgendaItem(title: string, body: AgendaBody) returns (r: Result<AgendaItem, MeetingError>)
      requires Valid()
      modifies this`items
      ensures Valid()
      ensures match AddItem(old(State()), title, body)
        case Ok(next) => State() == next && r == Ok(next.items[|next.items| - 1])
        case Err(e) => State() == old(State()) && r == Err(e)
    {
      hide Blank;
      if status != MeetingStatus.Draft { return Err(InvalidTransition(status)); }
      if Blank(title) { return Err(InvalidAgenda); }
      var number := |items| + 1;
      if number > U32_MAX { return Err(InvalidAgenda); }
      items := items + [AgendaItem(number, title, body)];
      r := Ok(items[|items| - 1]);
    }

    method Convene(w: World, store: Store, key: PublicKey) returns (r: Result<TxId, MeetingError>)
      requires Valid() && store.Valid()
      modifies this`status, this`company, this`convened, store
      ensures Valid() && store.Valid()
      ensures var (result, blocks) := ConveneMeeting(w, old(State()), old(store.blocks), key, Says(old(store.answers)));
        && store.blocks == blocks
        && match result
           case Ok(next) => State() == next && r == Ok(next.convened.value.0)
           case Err(e) => State() == old(State()) && r == Err(e)
    {
      hide Reconstruct, MaySign, ValidAgenda, Blank, V.Formed;
      if status != MeetingStatus.Draft { return Err(InvalidTransition(status)); }
      if !ValidAgenda(items) { return Err(InvalidAgenda); }
      var now := ReconstructAt(store.blocks, |store.blocks| - 1);
      if now.Err? { return Err(LedgerFailed(now.error)); }
      if !MaySign(now.value, GovernanceFamily, key) {
        return Err(LedgerFailed(UnauthorisedSigner(GovernanceFamily, key)));
      }
      if Blank(metadata.title) { return Err(InvalidMetadata); }
      var tx := MeetingTx(w, now.value.company, MeetingBody.Convened(metadata, items), key, |store.blocks|);
      var appended := store.Append(tx);
      if appended.Refused? { return Err(MeetingNotAppended); }
      company := now.value.company;
      convened := Some((appended.txId, appended.height));
      status := MeetingStatus.Convened;
      r := Ok(appended.txId);
    }

    method OpenFor(store: Store) returns (r: Result<nat, MeetingError>)
      requires Valid() && store.Valid()
      modifies this`status, this`votes, this`openedAt
      ensures Valid()
      ensures match OpenMeeting(old(State()), store.blocks)
        case Ok(next) => State() == next && r == Ok(next.openedAt.value)
        case Err(e) => State() == old(State()) && r == Err(e)
    {
      hide OpenedVote, OpenVotes, V.Formed;
      if status != MeetingStatus.Convened { return Err(InvalidTransition(status)); }
      var at := |store.blocks| - 1;
      var started: seq<Numbered> := [];
      NothingOpened(items, store.blocks, at, metadata.channel);
      for i := 0 to |items|
        invariant OpenVotes(items[..i], store.blocks, at, metadata.channel) == Ok(started)
        invariant status == old(status) && votes == old(votes) && openedAt == old(openedAt)
      {
        OpenVotesStep(items, i, store.blocks, at, metadata.channel);
        var item := items[i];
        if item.body.VoteItem? {
          var next := OpenOne(store, item, at, metadata.channel);
          if next.Err? {
            OpeningStops(items, i + 1, store.blocks, at, metadata.channel);
            return Err(next.error);
          }
          started := started + [(item.number, next.value)];
        }
      }
      assert items[..|items|] == items;
      votes, openedAt, status := started, Some(at), MeetingStatus.Open;
      r := Ok(at);
    }

    method CastBallot(w: World, number: nat, ballot: SignedBallot) returns (r: Result<(), MeetingError>)
      requires Valid()
      modifies this`votes
      ensures Valid()
      ensures match CastInMeeting(w, old(State()), number, ballot)
        case Ok(next) => State() == next && r == Ok(())
        case Err(e) => State() == old(State()) && r == Err(e)
    {
      hide V.BallotRefusal;
      if status != MeetingStatus.Open { return Err(InvalidTransition(status)); }
      if forall item :: item in items ==> item.number != number { return Err(NoSuchItem(number)); }
      var found := VoteIndex(votes, number);
      if found.None? { return Err(NotAVoteItem(number)); }
      var vote := new V.Vote.From(votes[found.value].1);
      var cast := vote.Cast(w, ballot);
      if cast.Err? { return Err(VoteFailed(number, cast.error)); }
      votes := votes[found.value := (number, vote.State())];
      r := Ok(());
    }

    method Close(store: Store) returns (r: Result<(), MeetingError>)
      requires Valid() && store.Valid()
      modifies this`status, this`votes
      ensures Valid()
      ensures var (error, next) := CloseMeeting(old(State()), store.blocks);
        State() == next && r == if error.Some? then Err(error.value) else Ok(())
    {
      hide CloseAt, V.Formed, CloseVotes;
      if status != MeetingStatus.Open { return Err(InvalidTransition(status)); }
      ghost var before := votes;
      NothingClosed(votes, store.blocks);
      for k := 0 to |votes|
        invariant |votes| == |before| && AllFormed(votes) && AllFormed(before)
        invariant CloseVotes(before, k, store.blocks) == Closing(votes, None)
        invariant status == old(status)
      {
        CloseVotesStep(before, k, store.blocks);
        var error;
        error := CloseOne(store, k);
        if error.Some? {
          ClosingStops(before, k + 1, |before|, store.blocks);
          return Err(error.value);
        }
      }
      status := MeetingStatus.Closed;
      r := Ok(());
    }

    /** Closes and counts one vote where it is. */
    method CloseOne(store: Store, k: nat) returns (error: Option<MeetingError>)
      requires store.Valid() && k < |votes| && AllFormed(votes)
      modifies this`votes
      ensures Closing(votes, error) == CloseAt(old(votes), k, store.blocks) && AllFormed(votes)
    {
      var (number, v) := votes[k];
      var vote := new V.Vote.From(v);
      var closed := vote.Close();
      if closed.Err? { return Some(VoteFailed(number, closed.error)); }
      var counted := vote.Count(store);
      votes := votes[k := (number, vote.State())];
      if counted.Err? { return Some(VoteFailed(number, counted.error)); }
      error := None;
    }

    method Finalize(w: World, store: Store, key: PublicKey) returns (r: Result<(TxId, nat), MeetingError>)
      requires Valid() && store.Valid()
      modifies this`status, this`votes, this`finalized, store
      ensures Valid() && store.Valid()
      ensures var ending := FinalizeMeeting(w, old(State()), old(store.blocks), key, old(store.answers));
        && State() == ending.meeting && store.blocks == ending.blocks && store.answers == ending.answers
        && r == if ending.error.Some? then Err(ending.error.value) else Ok(finalized.value)
    {
      hide FileVotes, V.Formed, Reconstruct, MaySign, ValidAgenda, Blank, FinalRecord;
      if status != MeetingStatus.Closed { return Err(InvalidTransition(status)); }
      var now := ReconstructAt(store.blocks, |store.blocks| - 1);
      if now.Err? { return Err(LedgerFailed(now.error)); }
      if !MaySign(now.value, GovernanceFamily, key) {
        return Err(LedgerFailed(UnauthorisedSigner(GovernanceFamily, key)));
      }
      var error := FinalizeEachVote(w, store, key);
      if error.Some? { return Err(error.value); }
      if Blank(metadata.title) { return Err(InvalidMetadata); }
      if !ValidAgenda(items) { return Err(InvalidAgenda); }
      var appended := store.Append(FinalTx(w, State(), key, |store.blocks|));
      if appended.Refused? { return Err(MeetingNotAppended); }
      finalized := Some((appended.txId, appended.height));
      status := MeetingStatus.Finalized;
      r := Ok(finalized.value);
    }

    /** Finalises every vote not already finalised, in order, stopping at the first that fails. */
    method FinalizeEachVote(w: World, store: Store, key: PublicKey) returns (error: Option<MeetingError>)
      requires store.Valid() && AllFormed(votes)
      modifies this`votes, store
      ensures store.Valid() && AllFormed(votes)
      ensures var f := FileVotes(w, old(votes), |old(votes)|, old(store.blocks), key, old(store.answers));
        f.votes == votes && f.blocks == store.blocks && f.answers == store.answers && f.error == error
    {
      hide FileVotes, FileAt, V.Formed;
      ghost var before, blocks, answers := votes, store.blocks, store.answers;
      NothingFiled(w, votes, blocks, key, answers);
      error := None;
      for k := 0 to |votes|
        invariant store.Valid() && |votes| == |before| && AllFormed(votes) && AllFormed(before) && error.None?
        invariant var f := FileVotes(w, before, k, blocks, key, answers);
          f.votes == votes && f.blocks == store.blocks && f.answers == store.answers && f.error.None?
      {
        FileVotesStep(w, before, k, blocks, key, answers);
        ghost var f := FileVotes(w, before, k, blocks, key, answers);
        error := FinalizeOne(w, store, key, k, f);
        if error.Some? {
          FilingStops(w, before, k + 1, |before|, blocks, key, answers);
          return;
        }
      }
    }

    /** Finalises one vote where it is, unless it already is. */
    method FinalizeOne(w: World, store: Store, key: PublicKey, k: nat,
        ghost f: Filing) returns (error: Option<MeetingError>)
      requires store.Valid() && k < |votes| && AllFormed(votes)
      requires f.votes == votes && f.blocks == store.blocks && f.answers == store.answers && f.error.None?
      modifies this`votes, store
      ensures store.Valid() && AllFormed(votes)
      ensures var g := FileAt(w, f, k, key);
        g.votes == votes && g.blocks == store.blocks && g.answers == store.answers && g.error == error
    {
      hide V.EvaluateNow, Reconstruct, MaySign, V.SummaryOf, V.FinalRecord;
      var (number, v) := votes[k];
      if v.finalized.Some? { return None; }
      var vote := new V.Vote.From(v);
      var filed := vote.Finalize(w, store, key);
      if filed.Err? { return Some(VoteFailed(number, filed.error)); }
      votes := votes[k := (number, vote.State())];
      error := None;
    }
  }

  /** Drafts, freezes and opens the vote of one item. */
  method OpenOne(store: Store, item: AgendaItem, at: nat, channel: Id) returns (r: Result<V.VoteState, MeetingError>)
    requires store.Valid() && item.body.VoteItem?
    ensures r == OpenedVote(item, store.blocks, at, channel)
  {
    hide V.FreezeVote, Subject;
    var vote := new V.Vote.Draft(Subject(item), item.body.proposalDigest);
    var frozen := vote.Freeze(store, at, channel);
    if frozen.Err? { return Err(VoteFailed(item.number, frozen.error)); }
    var started := vote.Open();
    if started.Err? { return Err(VoteFailed(item.number, started.error)); }
    r := Ok(vote.State());
  }

  lemma NothingOpened(items: seq<AgendaItem>, b: Blocks, at: nat, channel: Id)
    requires |b| > 0
    ensures OpenVotes(items[..0], b, at, channel) == Ok([])
  {
  }

  lemma NothingClosed(votes: seq<Numbered>, b: Blocks)
    requires |b| > 0 && AllFormed(votes)
    ensures CloseVotes(votes, 0, b) == Closing(votes, None)
  {
  }

  lemma CloseVotesStep(votes: seq<Numbered>, k: nat, b: Blocks)
    requires |b| > 0 && k < |votes| && AllFormed(votes) && CloseVotes(votes, k, b).error.None?
    ensures CloseVotes(votes, k + 1, b) == CloseAt(CloseVotes(votes, k, b).votes, k, b)
  {
    hide CloseAt;
  }

  lemma NothingFiled(w: World, votes: seq<Numbered>, b: Blocks, key: PublicKey, answers: seq<bool>)
    requires |b| > 0 && AllFormed(votes)
    ensures FileVotes(w, votes, 0, b, key, answers) == Filing(votes, b, answers, None, [])
  {
  }

  lemma FileVotesStep(w: World, votes: seq<Numbered>, k: nat, b: Blocks, key: PublicKey, answers: seq<bool>)
    requires |b| > 0 && k < |votes| && AllFormed(votes) && FileVotes(w, votes, k, b, key, answers).error.None?
    ensures FileVotes(w, votes, k + 1, b, key, answers) == FileAt(w, FileVotes(w, votes, k, b, key, answers), k, key)
  {
    hide FileAt;
  }
}
