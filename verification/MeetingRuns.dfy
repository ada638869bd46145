/**
 What every run of a meeting keeps, and what it leaves on the ledger: a final record that verifies,
 each vote filed once.
 */
module MeetingRuns {
  import opened Bytes
  import opened Ordering
  import opened Parts
  import opened Records
  import opened Ledger
  import opened History
  import opened Resolve
  import opened Meeting
  import V = Vote

  // ---------------------------------------------------------------- the invariant

  /** What every vote of a meeting shares. */
  datatype Sitting = Sitting(company: Id, channel: Id, openedAt: nat)

  function SittingOf(m: MeetingState): Sitting
    requires m.openedAt.Some?
  {
    Sitting(m.company, m.metadata.channel, m.openedAt.value)
  }

  predicate SnapshotFits(f: Sitting, item: AgendaItem, s: VoteSnapshot) {
    && item.body.VoteItem? && s.company == f.company && s.channel == f.channel && s.height == f.openedAt
    && s.subject == Subject(item) && s.proposalDigest == item.body.proposalDigest
  }

  /** A vote is the vote of its item, and keeps what votes keep. */
  ghost predicate Stands(w: World, b: Blocks, f: Sitting, item: AgendaItem, v: Numbered) {
    v.0 == item.number && V.VoteInvariant(w, v.1, b) && v.1.snapshot.Some? && SnapshotFits(f, item, v.1.snapshot.value)
  }

  ghost predicate AllStand(w: World, b: Blocks, f: Sitting, items: seq<AgendaItem>, votes: seq<Numbered>) {
    |votes| == |VoteItems(items)| && forall k :: 0 <= k < |votes| ==> Stands(w, b, f, VoteItems(items)[k], votes[k])
  }

  predicate AllCounted(votes: seq<Numbered>) {
    forall k :: 0 <= k < |votes| ==> votes[k].1.status in {V.Evaluated, V.Finalized}
  }

  predicate AllFiled(votes: seq<Numbered>) {
    forall k :: 0 <= k < |votes| ==> votes[k].1.status == V.Finalized
  }

  /** The convening record is on the ledger, as the meeting has it, under a governance signer of its company. */
  ghost predicate ConvenedOn(m: MeetingState, b: Blocks) {
    && b != [] && m.convened.Some? && ValidAgenda(m.items) && !Blank(m.metadata.title)
    && Locate(b, m.convened.value.0).Some?
    && var e := Locate(b, m.convened.value.0).value;
       && e.height == m.convened.value.1 && e.tx.body.ns == MeetingNs
       && e.tx.body.payload == MeetingPayload(m.company, MeetingBody.Convened(m.metadata, m.items))
       && GovernanceSignerAt(b, e.height, e.tx.body.signer) && CompanyIs(b, e.height, m.company)
  }

  ghost predicate MeetingFiled(w: World, m: MeetingState, b: Blocks) {
    && m.finalized.Some? && m.convened.Some? && m.openedAt.Some? && Locate(b, m.finalized.value.0).Some?
    && MeetingVerifies(w, b, m.finalized.value.0)
    && Locate(b, m.finalized.value.0).value.height == m.finalized.value.1
    && Locate(b, m.finalized.value.0).value.tx.body.payload == MeetingPayload(m.company, Final(FinalRecord(m)))
  }

  ghost predicate MeetingInvariant(w: World, m: MeetingState, b: Blocks) {
    && |b| > 0 && Formed(m)
    && (m.status != Draft ==> ConvenedOn(m, b))
    && (m.status in {Open, Closed, Finalized} ==>
        m.convened.value.1 <= m.openedAt.value < |b| && AllStand(w, b, SittingOf(m), m.items, m.votes))
    && (m.status in {Closed, Finalized} ==> AllCounted(m.votes))
    && (m.status == Finalized ==> AllFiled(m.votes) && MeetingFiled(w, m, b))
  }

  // ---------------------------------------------------------------- growth

  lemma ConvenedOnStays(m: MeetingState, b: Blocks, b': Blocks)
    requires b <= b' && ConvenedOn(m, b)
    ensures ConvenedOn(m, b')
    ensures m.convened.value.1 < |b|
  {
    hide Locate, CompanyIs, GovernanceSignerAt, ValidAgenda;
    var e := Locate(b, m.convened.value.0).value;
    LocateStays(b, b', m.convened.value.0);
    CompanyIsStays(b, b', e.height, m.company);
    GovernanceSignerStays(b, b', e.height, e.tx.body.signer);
  }

  lemma StandsStays(w: World, b: Blocks, b': Blocks, f: Sitting, item: AgendaItem, v: Numbered)
    requires b <= b' && Stands(w, b, f, item, v)
    ensures Stands(w, b', f, item, v)
  {
    hide V.VoteInvariant, SnapshotFits;
    V.VoteInvariantGrows(w, v.1, b, b');
  }

  lemma AllStandStays(w: World, b: Blocks, b': Blocks, f: Sitting, items: seq<AgendaItem>, votes: seq<Numbered>)
    requires b <= b' && AllStand(w, b, f, items, votes)
    ensures AllStand(w, b', f, items, votes)
  {
    hide Stands, VoteItems;
    forall k | 0 <= k < |votes| ensures Stands(w, b', f, VoteItems(items)[k], votes[k]) {
      StandsStays(w, b, b', f, VoteItems(items)[k], votes[k]);
    }
  }

  lemma OneVoteMoves(w: World, b: Blocks, f: Sitting, items: seq<AgendaItem>, votes: seq<Numbered>, k: nat, v: Numbered)
    requires AllStand(w, b, f, items, votes) && k < |votes| && Stands(w, b, f, VoteItems(items)[k], v)
    ensures AllStand(w, b, f, items, votes[k := v])
  {
    hide Stands, VoteItems;
  }

  /** Only these fields of a meeting say how it was convened. */
  lemma ConvenedOnReads(m: MeetingState, m': MeetingState, b: Blocks)
    requires ConvenedOn(m, b)
    requires m'.company == m.company && m'.metadata == m.metadata && m'.items == m.items && m'.convened == m.convened
    ensures ConvenedOn(m', b)
  {
    hide Locate, CompanyIs, GovernanceSignerAt, ValidAgenda;
  }

  lemma MeetingInvariantGrows(w: World, m: MeetingState, b: Blocks, b': Blocks)
    requires b <= b' && MeetingInvariant(w, m, b)
    ensures MeetingInvariant(w, m, b')
  {
    hide ConvenedOn, AllStand, AllCounted, AllFiled, MeetingVerifies, Locate, FinalRecord;
    if m.status != Draft { ConvenedOnStays(m, b, b'); }
    if m.status in {Open, Closed, Finalized} { AllStandStays(w, b, b', SittingOf(m), m.items, m.votes); }
    if m.status == Finalized { MeetingVerdictIsPermanent(w, b, b', m.finalized.value.0); }
  }

  // ---------------------------------------------------------------- convening

  lemma ConveningKeeps(w: World, m: MeetingState, b: Blocks, key: PublicKey, works: bool)
    requires |b| > 0 && Formed(m) && ConveneMeeting(w, m, b, key, works).0.Ok?
    ensures var (r, b') := ConveneMeeting(w, m, b, key, works); MeetingInvariant(w, r.value, b')
  {
    hide Reconstruct, MaySign, ValidAgenda, Locate, GovernanceSignerAt, Blank;
    var c := CompanyNow(b).value;
    var tx := MeetingTx(w, c.company, MeetingBody.Convened(m.metadata, m.items), key, |b|);
    AppendedIsLocated(b, tx);
    GovernanceSignerAfter(b, tx, key);
    CompanyIsAfter(b, tx, c.company);
  }

  lemma CompanyIsAfter(b: Blocks, tx: Tx, company: Id)
    requires |b| > 0 && !IsIrena(tx) && CompanyNow(b).Ok?
    ensures CompanyIs(b + [[tx]], |b|, company) == (CompanyNow(b).value.company == company)
  {
    hide Fold;
    OtherRecordsChangeNothing(b, tx);
  }

  // ---------------------------------------------------------------- opening

  predicate NoOtherCompany(b: Blocks, at: nat, company: Id)
    requires |b| > 0
  {
    Reconstruct(b, at).Ok? ==> Reconstruct(b, at).value.company == company
  }

  lemma OpenedStands(w: World, b: Blocks, f: Sitting, item: AgendaItem, proposalDigest: Digest)
    requires f.openedAt < |b| && NoOtherCompany(b, f.openedAt, f.company) && item.body == VoteItem(proposalDigest)
    requires V.FreezeVote(V.DraftVote(Subject(item), proposalDigest), b, f.openedAt, f.channel).Ok?
    ensures var frozen := V.FreezeVote(V.DraftVote(Subject(item), proposalDigest), b, f.openedAt, f.channel).value;
      V.OpenVote(frozen).Ok? && Stands(w, b, f, item, (item.number, V.OpenVote(frozen).value))
  {
    hide Reconstruct, ResolveChannel, V.Refreezes, Subject;
    V.FrozenRefreezes(V.DraftVote(Subject(item), proposalDigest), b, f.openedAt, f.channel);
  }

  lemma {:induction false} OpenVotesStand(w: World, b: Blocks, f: Sitting, items: seq<AgendaItem>)
    requires f.openedAt < |b| && NoOtherCompany(b, f.openedAt, f.company)
    requires OpenVotes(items, b, f.openedAt, f.channel).Ok?
    ensures AllStand(w, b, f, items, OpenVotes(items, b, f.openedAt, f.channel).value)
  {
    hide NoOtherCompany, V.FreezeVote, Stands, V.Formed;
    if items == [] {
    } else {
      var n := |items| - 1;
      OpenVotesStand(w, b, f, items[..n]);
      if items[n].body.VoteItem? {
        OpenedStands(w, b, f, items[n], items[n].body.proposalDigest);
        var frozen := V.FreezeVote(V.DraftVote(Subject(items[n]), items[n].body.proposalDigest), b, f.openedAt,
          f.channel).value;
        StandingIsFormed(w, b, f, items[n], (items[n].number, V.OpenVote(frozen).value));
      }
    }
  }

  lemma StandingIsFormed(w: World, b: Blocks, f: Sitting, item: AgendaItem, v: Numbered)
    requires Stands(w, b, f, item, v)
    ensures |b| > 0 && V.Formed(v.1)
  {
    hide V.Refreezes, V.BallotsSound, V.VoteFiled;
    V.VoteInvariantIsFormed(w, v.1, b);
  }

  lemma OpeningKeeps(w: World, m: MeetingState, b: Blocks)
    requires MeetingInvariant(w, m, b) && OpenMeeting(m, b).Ok?
    ensures MeetingInvariant(w, OpenMeeting(m, b).value, b)
  {
    hide OpenVotes, AllStand, V.Formed, Locate, CompanyIs, GovernanceSignerAt, ValidAgenda, Reconstruct;
    var next := OpenMeeting(m, b).value;
    ConvenedOnStays(m, b, b);
    HeadCompany(m, b);
    OpenVotesStand(w, b, SittingOf(next), m.items);
  }

  /** The company at the head, if it reconstructs, is the company that convened. */
  lemma HeadCompany(m: MeetingState, b: Blocks)
    requires ConvenedOn(m, b) && m.convened.value.1 < |b|
    ensures NoOtherCompany(b, |b| - 1, m.company)
  {
    hide Reconstruct, Locate, GovernanceSignerAt, ValidAgenda;
    if Reconstruct(b, |b| - 1).Ok? { CompanyIsFixed(b, m.convened.value.1, |b| - 1); }
  }

  // ---------------------------------------------------------------- casting and closing

  /** One event of one vote keeps it the vote of its item. */
  lemma StandsStep(w: World, b: Blocks, f: Sitting, item: AgendaItem, v: Numbered, event: V.VoteEvent)
    requires Stands(w, b, f, item, v) && V.Formed(v.1) && |b| > 0
    ensures var (next, b') := V.VoteNext(w, v.1, b, event); Stands(w, b', f, item, (v.0, next)) && b <= b'
  {
    hide V.VoteInvariant, V.VoteNext, SnapshotFits;
    V.VoteStepKeeps(w, v.1, b, event);
  }

  lemma CastingKeeps(w: World, m: MeetingState, b: Blocks, number: nat, ballot: SignedBallot)
    requires MeetingInvariant(w, m, b) && CastInMeeting(w, m, number, ballot).Ok?
    ensures MeetingInvariant(w, CastInMeeting(w, m, number, ballot).value, b)
  {
    hide Stands, V.CastVote, Locate, CompanyIs, GovernanceSignerAt, ValidAgenda, VoteItems;
    var f, k := SittingOf(m), VoteIndex(m.votes, number).value;
    var v := m.votes[k];
    StandsStep(w, b, f, VoteItems(m.items)[k], v, V.Casting(ballot));
    OneVoteMoves(w, b, f, m.items, m.votes, k, (number, V.CastVote(w, v.1, ballot).value));
    StandingIsFormed(w, b, f, VoteItems(m.items)[k], (number, V.CastVote(w, v.1, ballot).value));
  }

  lemma CloseAtKeeps(w: World, b: Blocks, f: Sitting, items: seq<AgendaItem>, votes: seq<Numbered>, k: nat)
    requires |b| > 0 && AllStand(w, b, f, items, votes) && k < |votes| && V.Formed(votes[k].1)
    ensures AllStand(w, b, f, items, CloseAt(votes, k, b).votes)
    ensures CloseAt(votes, k, b).error.None? ==> CloseAt(votes, k, b).votes[k].1.status == V.Evaluated
  {
    hide Stands, V.EvaluateNow, VoteItems, V.SummaryOf;
    var item, v := VoteItems(items)[k], votes[k];
    StandsStep(w, b, f, item, v, V.VoteEvent.Closing);
    if V.CloseVote(v.1).Ok? {
      var closed := V.CloseVote(v.1).value;
      StandingIsFormed(w, b, f, item, (v.0, closed));
      StandsStep(w, b, f, item, (v.0, closed), V.Counting);
    }
  }

  lemma {:induction false} CloseVotesKeeps(w: World, b: Blocks, f: Sitting, items: seq<AgendaItem>,
      votes: seq<Numbered>, n: nat)
    requires |b| > 0 && AllStand(w, b, f, items, votes) && n <= |votes| && AllFormed(votes)
    ensures AllStand(w, b, f, items, CloseVotes(votes, n, b).votes)
    ensures CloseVotes(votes, n, b).error.None? ==> forall k :: 0 <= k < n ==>
      CloseVotes(votes, n, b).votes[k].1.status == V.Evaluated
  {
    hide AllStand, CloseAt, V.Formed;
    if n == 0 {
    } else {
      CloseVotesKeeps(w, b, f, items, votes, n - 1);
      var sofar := CloseVotes(votes, n - 1, b);
      if sofar.error.None? { CloseAtKeeps(w, b, f, items, sofar.votes, n - 1); }
    }
  }

  lemma ClosingKeeps(w: World, m: MeetingState, b: Blocks)
    requires MeetingInvariant(w, m, b)
    ensures MeetingInvariant(w, CloseMeeting(m, b).1, b)
  {
    hide AllStand, CloseVotes, V.Formed, Locate, CompanyIs, GovernanceSignerAt, ValidAgenda, MeetingFiled;
    if m.status == Open { CloseVotesKeeps(w, b, SittingOf(m), m.items, m.votes, |m.votes|); }
  }

  lemma {:induction false} NotOpenFails(votes: seq<Numbered>, k: nat, n: nat, b: Blocks)
    requires |b| > 0 && k < n <= |votes| && AllFormed(votes) && votes[k].1.status != V.VoteStatus.Open
    ensures CloseVotes(votes, n, b).error.Some?
  {
    hide V.CountVote, V.Formed;
    if k < n - 1 { NotOpenFails(votes, k, n - 1, b); }
  }

  lemma {:induction false} MovedIsNotOpen(votes: seq<Numbered>, n: nat, b: Blocks)
    requires |b| > 0 && n <= |votes| && AllFormed(votes)
    ensures CloseVotes(votes, n, b).votes == votes ||
      exists k :: 0 <= k < n && CloseVotes(votes, n, b).votes[k].1.status in {V.VoteStatus.Closed, V.Evaluated}
  {
    hide V.EvaluateNow, V.Formed, V.SummaryOf;
    if n == 0 {
    } else {
      MovedIsNotOpen(votes, n - 1, b);
      var sofar, r := CloseVotes(votes, n - 1, b), CloseVotes(votes, n, b);
      if sofar.votes != votes {
        var k :| 0 <= k < n - 1 && sofar.votes[k].1.status in {V.VoteStatus.Closed, V.Evaluated};
        assert r.votes[k] == sofar.votes[k];
      } else if r.votes != votes {
        assert r.votes[n - 1].1.status in {V.VoteStatus.Closed, V.Evaluated};
      }
    }
  }

  /**
   Closing is not resumable: a close that fails after it has touched any vote leaves a meeting
   that no later close, on any ledger, can finish.
   */
  lemma HalfClosedIsStuck(m: MeetingState, b: Blocks, later: Blocks)
    requires |b| > 0 && |later| > 0 && Formed(m) && CloseMeeting(m, b).0.Some? && CloseMeeting(m, b).1.votes != m.votes
    ensures CloseMeeting(CloseMeeting(m, b).1, later).0.Some?
  {
    hide CloseVotes, V.Formed;
    MovedIsNotOpen(m.votes, |m.votes|, b);
    var after := CloseVotes(m.votes, |m.votes|, b).votes;
    var k :| 0 <= k < |m.votes| && after[k].1.status in {V.VoteStatus.Closed, V.Evaluated};
    NotOpenFails(after, k, |after|, later);
  }

  // ---------------------------------------------------------------- filing the votes

  /** Somebody may sign governance records at the head with this key. */
  predicate MaySignNow(b: Blocks, key: PublicKey)
    requires |b| > 0
  {
    CompanyNow(b).Ok? && MaySign(CompanyNow(b).value, GovernanceFamily, key)
  }

  lemma MaySignNowAfter(b: Blocks, tx: Tx, key: PublicKey)
    requires |b| > 0 && !IsIrena(tx) && MaySignNow(b, key)
    ensures MaySignNow(b + [[tx]], key)
  {
    hide Fold;
    OtherRecordsChangeNothing(b, tx);
  }

  lemma FileAtKeeps(w: World, f: Sitting, items: seq<AgendaItem>, g: Filing, k: nat, key: PublicKey)
    requires |g.blocks| > 0 && k < |g.votes| && V.Formed(g.votes[k].1) && AllStand(w, g.blocks, f, items, g.votes)
    requires g.votes[k].1.status in {V.Evaluated, V.Finalized}
    ensures var r := FileAt(w, g, k, key);
      && AllStand(w, r.blocks, f, items, r.votes) && (MaySignNow(g.blocks, key) ==> MaySignNow(r.blocks, key))
      && r.votes[k].1.status in {V.Evaluated, V.Finalized}
      && (g.error.None? && r.error.None? ==> r.votes[k].1.status == V.Finalized)
  {
    hide Stands, V.EvaluateNow, VoteItems, V.SummaryOf, Locate, MaySign, Reconstruct, MaySignNow, V.FinalRecord;
    hide V.Commitment;
    var item, v, r := VoteItems(items)[k], g.votes[k], FileAt(w, g, k, key);
    StandsStep(w, g.blocks, f, item, v, V.Finalising(key, Says(g.answers)));
    AllStandStays(w, g.blocks, r.blocks, f, items, g.votes);
    if v.1.finalized.None? && V.FinalizeVote(w, v.1, g.blocks, key, Says(g.answers)).0.Ok? {
      OneVoteMoves(w, r.blocks, f, items, g.votes, k, r.votes[k]);
      if MaySignNow(g.blocks, key) { MaySignNowAfter(g.blocks, V.VoteTx(w, v.1, key, |g.blocks|), key); }
    }
  }

  lemma {:induction false} FileVotesKeeps(w: World, f: Sitting, items: seq<AgendaItem>, votes: seq<Numbered>,
      n: nat, b: Blocks, key: PublicKey, answers: seq<bool>)
    requires |b| > 0 && n <= |votes| && AllStand(w, b, f, items, votes) && AllCounted(votes)
    requires AllFormed(votes)
    ensures var r := FileVotes(w, votes, n, b, key, answers);
      && AllStand(w, r.blocks, f, items, r.votes) && AllCounted(r.votes)
           && (MaySignNow(b, key) ==> MaySignNow(r.blocks, key))
      && (r.error.None? ==> forall k :: 0 <= k < n ==> r.votes[k].1.status == V.Finalized)
  {
    hide AllStand, FileAt, V.Formed, MaySignNow;
    if n == 0 {
    } else {
      FileVotesKeeps(w, f, items, votes, n - 1, b, key, answers);
      var sofar := FileVotes(w, votes, n - 1, b, key, answers);
      if sofar.error.None? { FileAtKeeps(w, f, items, sofar, n - 1, key); }
    }
  }

  // ---------------------------------------------------------------- the final record

  /** Each item's vote is the one at its place among the vote items, and informational items have none. */
  lemma VoteOfItem(w: World, b: Blocks, f: Sitting, items: seq<AgendaItem>, votes: seq<Numbered>, i: nat)
    requires ValidAgenda(items) && AllStand(w, b, f, items, votes) && i < |items|
    ensures VoteIndex(votes, items[i].number).Some? <==> items[i].body.VoteItem?
    ensures items[i].body.VoteItem? ==> Stands(w, b, f, items[i], votes[VoteIndex(votes, items[i].number).value])
  {
    hide V.VoteInvariant, SnapshotFits, Blank;
    VoteItemsListed(items);
    var found := VoteIndex(votes, items[i].number);
    assert AgendaEntry(items, i);
    if found.Some? {
      var k := found.value;
      assert Stands(w, b, f, VoteItems(items)[k], votes[k]);
      SameNumberSameItem(items, i, VoteItems(items)[k]);
    }
    if items[i].body.VoteItem? {
      var k :| 0 <= k < |VoteItems(items)| && VoteItems(items)[k] == items[i];
      assert Stands(w, b, f, VoteItems(items)[k], votes[k]);
    }
  }

  lemma SameNumberSameItem(items: seq<AgendaItem>, i: nat, item: AgendaItem)
    requires ValidAgenda(items) && i < |items| && item in items && item.number == items[i].number
    ensures item == items[i]
  {
    hide Blank;
    var j :| 0 <= j < |items| && items[j] == item;
    assert AgendaEntry(items, i) && AgendaEntry(items, j);
  }

  /** The line written for an item passes everything the verifier asks of lines. */
  lemma LineHolds(w: World, b: Blocks, f: Sitting, items: seq<AgendaItem>, votes: seq<Numbered>, i: nat)
    requires b != [] && ValidAgenda(items) && AllStand(w, b, f, items, votes) && AllFiled(votes) && i < |items|
    ensures var line := FinalLine(votes, items[i]);
      LineVerifies(w, b, line) && LineBelongs(b, f.company, f.channel, f.openedAt, |b|, line) && LineConsistent(line)
  {
    hide AllStand, ValidAgenda, V.VoteVerifies, Locate, V.Refreezes, V.BallotsSound, Subject;
    VoteOfItem(w, b, f, items, votes, i);
    if items[i].body.VoteItem? {
      var k := VoteIndex(votes, items[i].number).value;
      StandingIsFormed(w, b, f, items[i], votes[k]);
      LocateStays(b, b, votes[k].1.finalized.value.0);
    }
  }

  lemma AgendaIsKept(votes: seq<Numbered>, items: seq<AgendaItem>)
    ensures SameAgenda(FinalLines(votes, items), items)
  {
    hide VoteIndex;
    assert AgendaOf(FinalLines(votes, items)) == items;
  }

  lemma FilingTheMeetingKeeps(w: World, m: MeetingState, g: Filing, key: PublicKey)
    requires Formed(m) && m.status == Closed && m.votes == g.votes && AllFiled(m.votes)
    requires MeetingInvariant(w, m, g.blocks) && MaySignNow(g.blocks, key)
    ensures MeetingInvariant(w, FileMeeting(w, m, g, key).meeting, FileMeeting(w, m, g, key).blocks)
  {
    hide AllStand, ConvenedOn, AllFiled, Locate, MaySignNow, MeetingVerifies, Blank, ValidAgenda, V.Formed;
    hide FinalLines;
    var r := FileMeeting(w, m, g, key);
    if r.error.None? {
      var tx := FinalTx(w, m, key, |g.blocks|);
      AppendedIsLocated(g.blocks, tx);
      FinalRecordVerifies(w, m, g.blocks, key, tx);
      ConvenedOnStays(m, g.blocks, r.blocks);
      ConvenedOnReads(m, r.meeting, r.blocks);
      AllStandStays(w, g.blocks, r.blocks, SittingOf(m), m.items, m.votes);
    }
  }

  lemma FinalRecordVerifies(w: World, m: MeetingState, b: Blocks, key: PublicKey, tx: Tx)
    requires MeetingInvariant(w, m, b) && m.status == Closed && AllFiled(m.votes) && MaySignNow(b, key)
    requires tx == FinalTx(w, m, key, |b|) && Locate(b, tx.id).None?
    ensures MeetingVerifies(w, b + [[tx]], tx.id)
  {
    hide AllStand, AllFiled, Locate, MaySign, Blank, ValidAgenda, V.Formed, GovernanceSignerAt, CompanyIs;
    hide Reconstruct;
    hide LinesVerify, LinesBelong, LinesConsistent, SameAgenda, FinalLines, MeetingCheckHolds, MeetingChecks;
    var b', e := b + [[tx]], Entry(|b|, 0, tx);
    var record, f := FinalRecord(m), SittingOf(m);
    AppendedIsLocated(b, tx);
    ConvenedOnStays(m, b, b');
    var convening := Locate(b', m.convened.value.0).value;
    ConvenedMeanings(w, b', e, convening, m.company, record, m.company, m.metadata, m.items);
    AgendaIsKept(m.votes, m.items);
    GovernanceSignerAfter(b, tx, key);
    LinesHold(w, b, f, m.items, m.votes);
    VerifiedAreLocated(w, b, record.items);
    LinesStay(w, b, b', f.company, f.channel, f.openedAt, |b|, record.items);
    var holds := MeetingChecks(w, b', e);
    forall check: MeetingCheck ensures holds(check) {
      match check case Decodes => case ConveningExists => case HeightsOrdered => case AgendaMatches =>
      case MetadataMatches => case CompanyReconstructs => case SignerAuthorised => case VotesVerify =>
      case VotesBelong => case ItemsConsistent =>
    }
  }

  lemma LinesHold(w: World, b: Blocks, f: Sitting, items: seq<AgendaItem>, votes: seq<Numbered>)
    requires b != [] && ValidAgenda(items) && AllStand(w, b, f, items, votes) && AllFiled(votes)
    ensures var lines := FinalLines(votes, items);
      LinesVerify(w, b, lines) && LinesBelong(b, f.company, f.channel, f.openedAt, |b|, lines) && LinesConsistent(lines)
  {
    hide AllStand, ValidAgenda, AllFiled, LineVerifies, LineBelongs, LineConsistent, FinalLine;
    forall i | 0 <= i < |items|
      ensures var line := FinalLine(votes, items[i]);
        LineVerifies(w, b, line) && LineBelongs(b, f.company, f.channel, f.openedAt, |b|, line) && LineConsistent(line)
    {
      LineHolds(w, b, f, items, votes, i);
    }
  }

  lemma FinalisingKeeps(w: World, m: MeetingState, b: Blocks, key: PublicKey, answers: seq<bool>)
    requires MeetingInvariant(w, m, b)
    ensures MeetingInvariant(w, FinalizeMeeting(w, m, b, key, answers).meeting,
      FinalizeMeeting(w, m, b, key, answers).blocks)
  {
    hide AllStand, ConvenedOn, MeetingFiled, FileVotes, FileMeeting, V.Formed, Reconstruct, MaySign;
    if m.status == Closed && MaySignNow(b, key) {
      var f := FileVotes(w, m.votes, |m.votes|, b, key, answers);
      FileVotesKeeps(w, SittingOf(m), m.items, m.votes, |m.votes|, b, key, answers);
      ConvenedOnStays(m, b, f.blocks);
      var filed := m.(votes := f.votes);
      ConvenedOnReads(m, filed, f.blocks);
      assert MeetingInvariant(w, filed, f.blocks);
      if f.error.None? { FilingTheMeetingKeeps(w, filed, f, key); }
    }
  }

  // ---------------------------------------------------------------- runs

  /** What can happen to a meeting, and to the ledger between its steps. */
  datatype MeetingEvent =
    | LedgerGrows(more: Blocks)
    | AddingItem(title: string, body: AgendaBody)
    | Convening(key: PublicKey, works: bool)
    | Opening
    | Casting(number: nat, ballot: SignedBallot)
    | ClosingDown
    | Finalising(key: PublicKey, answers: seq<bool>)

  function KeptMeeting(m: MeetingState,
      r: Result<MeetingState, MeetingError>): MeetingState { if r.Ok? then r.value else m }

  /**
   One event. A refused operation leaves the meeting as the code leaves it: closing and finalising
   may stop half way.
   */
  function MeetingNext(w: World, m: MeetingState, b: Blocks, event: MeetingEvent): (r: (MeetingState, Blocks))
    requires |b| > 0 && Formed(m)
    ensures b <= r.1 && Formed(r.0)
  {
    hide Reconstruct, OpenVotes, FinalizeMeeting, CloseVotes, MaySign, ValidAgenda, Locate, V.BallotRefusal;
    match event
    case LedgerGrows(more) => (m, b + more)
    case AddingItem(title, body) => (KeptMeeting(m, AddItem(m, title, body)), b)
    case Convening(key, works) => var (r, b') := ConveneMeeting(w, m, b, key, works); (KeptMeeting(m, r), b')
    case Opening => (KeptMeeting(m, OpenMeeting(m, b)), b)
    case Casting(number, ballot) => (KeptMeeting(m, CastInMeeting(w, m, number, ballot)), b)
    case ClosingDown => (CloseMeeting(m, b).1, b)
    case Finalising(key, answers) => var r := FinalizeMeeting(w, m, b, key, answers); (r.meeting, r.blocks)
  }

  lemma MeetingStepKeeps(w: World, m: MeetingState, b: Blocks, event: MeetingEvent)
    requires MeetingInvariant(w, m, b)
    ensures var (m', b') := MeetingNext(w, m, b, event); MeetingInvariant(w, m', b')
  {
    hide AllStand, ConvenedOn, MeetingFiled, FinalizeMeeting, CloseMeeting, OpenMeeting, CastInMeeting;
    hide ConveneMeeting, V.Formed;
    match event {
      case LedgerGrows(more) => MeetingInvariantGrows(w, m, b, b + more);
      case AddingItem(title, body) =>
      case Convening(key, works) =>
        if ConveneMeeting(w, m, b, key, works).0.Ok? {
          ConveningKeeps(w, m, b, key, works);
        } else {
          RefusedConvening(w, m, b, key, works);
        }
      case Opening => if OpenMeeting(m, b).Ok? { OpeningKeeps(w, m, b); }
      case Casting(number, ballot) =>
        if CastInMeeting(w, m, number, ballot).Ok? { CastingKeeps(w, m, b, number, ballot); }
      case ClosingDown => ClosingKeeps(w, m, b);
      case Finalising(key, answers) => FinalisingKeeps(w, m, b, key, answers);
    }
  }

  lemma RefusedConvening(w: World, m: MeetingState, b: Blocks, key: PublicKey, works: bool)
    requires |b| > 0 && ConveneMeeting(w, m, b, key, works).0.Err?
    ensures ConveneMeeting(w, m, b, key, works).1 == b
  {
    hide Reconstruct, MaySign, ValidAgenda, Locate;
  }

  function MeetingRun(w: World, m: MeetingState, b: Blocks, events: seq<MeetingEvent>): (r: (MeetingState, Blocks))
    requires |b| > 0 && Formed(m)
    ensures b <= r.1 && Formed(r.0)
    decreases |events|
  {
    if events == [] then (m, b) else
      var (m', b') := MeetingNext(w, m, b, events[0]);
      MeetingRun(w, m', b', events[1..])
  }

  lemma {:induction false} MeetingRunKeeps(w: World, m: MeetingState, b: Blocks, events: seq<MeetingEvent>)
    requires MeetingInvariant(w, m, b)
    ensures var (m', b') := MeetingRun(w, m, b, events); MeetingInvariant(w, m', b')
    decreases |events|
  {
    hide MeetingNext, ConvenedOn, AllStand, AllCounted, AllFiled, MeetingFiled, V.Formed;
    if events == [] {
    } else {
      var (m', b') := MeetingNext(w, m, b, events[0]);
      MeetingStepKeeps(w, m, b, events[0]);
      MeetingRunKeeps(w, m', b', events[1..]);
    }
  }

  /**
   What the lifecycle writes, the verifier accepts for ever: from a draft, any attempts in any
   order, with any failures and any blocks between them; once the meeting is finalised its record
   carries what the meeting holds and passes all ten checks on its ledger and every extension.
   */
  lemma MeetingRoundTrip(w: World, metadata: MeetingMetadata, b: Blocks,
      events: seq<MeetingEvent>, later: Blocks)
    requires |b| > 0
    requires var (m, b') := MeetingRun(w, DraftMeeting(metadata), b, events); m.status == Finalized && b' <= later
    ensures var (m, b') := MeetingRun(w, DraftMeeting(metadata), b, events);
      MeetingFiled(w, m, later) && ConvenedOn(m, later)
  {
    hide AllStand, ConvenedOn, MeetingFiled, MeetingRun, V.Formed;
    MeetingRunKeeps(w, DraftMeeting(metadata), b, events);
    var (m, b') := MeetingRun(w, DraftMeeting(metadata), b, events);
    MeetingInvariantGrows(w, m, b', later);
  }

  // ---------------------------------------------------------------- each vote is filed exactly once

  /** A transaction carries the final record of a vote, and the vote says so. */
  ghost predicate VoteLogged(w: World, v: V.VoteState, tx: Tx) {
    && v.finalized.Some? && v.snapshot.Some? && v.evaluation.Some? && tx.id == v.finalized.value.0
    && tx.body.payload == VotePayload(V.FinalRecord(w, v.snapshot.value, v.ballots, v.evaluation.value))
  }

  /** The transactions written so far are those of the first votes, one each, in order; no other vote is filed. */
  ghost predicate Logged(w: World, votes: seq<Numbered>, log: seq<Tx>) {
    && |log| <= |votes|
    && (forall k :: 0 <= k < |log| ==> VoteLogged(w, votes[k].1, log[k]))
    && (forall k :: |log| <= k < |votes| ==> votes[k].1.finalized.None?)
  }

  /** Each transaction in a block of its own. */
  function Wrapped(txs: seq<Tx>): (r: Blocks)
    ensures |r| == |txs| && forall i :: 0 <= i < |txs| ==> r[i] == [txs[i]]
  {
    seq(|txs|, i requires 0 <= i < |txs| => [txs[i]])
  }

  /** What filing at one place writes. */
  function WrittenAt(w: World, g: Filing, k: nat, key: PublicKey): seq<Tx>
    requires |g.blocks| > 0 && k < |g.votes| && V.Formed(g.votes[k].1)
  {
    var v := g.votes[k].1;
    if v.finalized.None? && V.FinalizeVote(w, v, g.blocks, key, Says(g.answers)).0.Ok?
    then [V.VoteTx(w, v, key, |g.blocks|)] else []
  }

  lemma FileAtLogs(w: World, g: Filing, k: nat, key: PublicKey, log: seq<Tx>)
    requires |g.blocks| > 0 && k < |g.votes| && V.Formed(g.votes[k].1)
    requires Logged(w, g.votes, log) && |log| >= k && g.error.None?
    ensures var r, more := FileAt(w, g, k, key), WrittenAt(w, g, k, key);
      && r.written == g.written + more && r.blocks == g.blocks + Wrapped(more)
      && Logged(w, r.votes, log + more) && (r.error.None? ==> |log + more| > k)
  {
    hide V.EvaluateNow, V.SummaryOf, Locate, MaySign, Reconstruct, V.FinalRecord;
    var r, more := FileAt(w, g, k, key), WrittenAt(w, g, k, key);
    if more == [] {
      assert log + more == log && Wrapped(more) == [] && g.blocks + Wrapped(more) == g.blocks;
    } else {
      assert |log| == k && Wrapped(more) == [more];
    }
  }

  lemma {:induction false} FileVotesLogs(w: World, votes: seq<Numbered>, n: nat, b: Blocks, key: PublicKey,
      answers: seq<bool>, log: seq<Tx>)
    requires |b| > 0 && n <= |votes| && AllFormed(votes) && Logged(w, votes, log)
    ensures var r := FileVotes(w, votes, n, b, key, answers);
      && r.blocks == b + Wrapped(r.written) && Logged(w, r.votes, log + r.written)
      && (r.error.None? ==> |log + r.written| >= n)
  {
    hide FileAt, V.Formed, WrittenAt, Logged;
    if n == 0 {
      assert b + Wrapped([]) == b && log + [] == log;
    } else {
      FileVotesLogs(w, votes, n - 1, b, key, answers, log);
      var sofar := FileVotes(w, votes, n - 1, b, key, answers);
      if sofar.error.None? {
        assert V.Formed(sofar.votes[n - 1].1);
        FileAtLogs(w, sofar, n - 1, key, log + sofar.written);
        var more := WrittenAt(w, sofar, n - 1, key);
        assert log + (sofar.written + more) == log + sofar.written + more;
        assert b + Wrapped(sofar.written + more) == b + Wrapped(sofar.written) + Wrapped(more);
      }
    }
  }

  /** A transaction carries the meeting's final record, and the meeting says so. */
  predicate MeetingLogged(m: MeetingState, tx: Tx) {
    && m.finalized.Some? && m.convened.Some? && m.openedAt.Some? && tx.id == m.finalized.value.0
    && tx.body.payload == MeetingPayload(m.company, Final(FinalRecord(m)))
  }

  /** Until the meeting is finalised only votes have been written; then all of them and, last, its record. */
  ghost predicate Accounted(w: World, m: MeetingState, log: seq<Tx>) {
    && (m.status == Closed ==> Logged(w, m.votes, log))
    && (m.status == Finalized ==>
        |log| == |m.votes| + 1 && Logged(w, m.votes, log[..|m.votes|]) && MeetingLogged(m, log[|m.votes|]))
  }

  lemma OneMoreWritten(b: Blocks, log: seq<Tx>, written: seq<Tx>, tx: Tx)
    ensures log + (written + [tx]) == (log + written) + [tx]
    ensures ((log + written) + [tx])[..|log + written|] == log + written
    ensures b + Wrapped(written) + [[tx]] == b + Wrapped(written + [tx])
  {
    var more := Wrapped(written + [tx]);
    assert more == Wrapped(written) + [[tx]];
  }

  lemma FinalizeLogs(w: World, m: MeetingState, b: Blocks, key: PublicKey, answers: seq<bool>, log: seq<Tx>)
    requires |b| > 0 && Formed(m) && m.status in {Closed, Finalized} && Accounted(w, m, log)
    ensures var r := FinalizeMeeting(w, m, b, key, answers);
      && r.blocks == b + Wrapped(r.written) && r.meeting.status in {Closed, Finalized}
           && Accounted(w, r.meeting, log + r.written)
      && r.meeting.items == m.items
  {
    hide FileVotes, Reconstruct, MaySign, Locate, V.Formed, Logged, ValidAgenda, Blank, FinalRecord;
    var r := FinalizeMeeting(w, m, b, key, answers);
    if r.written == [] { assert b + Wrapped([]) == b && log + [] == log; }
    if m.status == Closed {
      FileVotesLogs(w, m.votes, |m.votes|, b, key, answers, log);
      LoggedBounds(w, m.votes, log);
      var f := FileVotes(w, m.votes, |m.votes|, b, key, answers);
      LoggedBounds(w, f.votes, log + f.written);
      if r.error.None? {
        var tx := r.written[|r.written| - 1];
        FinalRecordReads(m.(votes := f.votes), r.meeting);
        OneMoreWritten(b, log, f.written, tx);
      }
    }
  }

  lemma LoggedBounds(w: World, votes: seq<Numbered>, log: seq<Tx>)
    requires Logged(w, votes, log)
    ensures |log| <= |votes|
  {
  }

  lemma FinalRecordReads(m: MeetingState, m': MeetingState)
    requires m.convened.Some? && m.openedAt.Some?
    requires m'.convened == m.convened && m'.metadata == m.metadata
    requires m'.openedAt == m.openedAt && m'.votes == m.votes && m'.items == m.items
    ensures FinalRecord(m') == FinalRecord(m)
  {
  }

  /** One attempt to finalise: what the ledger gained meanwhile, the key, and what the disk says to each append. */
  datatype Attempt = Attempt(more: Blocks, key: PublicKey, answers: seq<bool>)

  /** Any number of attempts: the meeting, the ledger, and every transaction the attempts wrote. */
  function Attempts(w: World, m: MeetingState, b: Blocks, attempts: seq<Attempt>): (r: (MeetingState, Blocks, seq<Tx>))
    requires |b| > 0 && Formed(m)
    ensures Formed(r.0) && b <= r.1
    decreases |attempts|
  {
    if attempts == [] then (m, b, []) else
      var one := FinalizeMeeting(w, m, b + attempts[0].more, attempts[0].key, attempts[0].answers);
      var rest := Attempts(w, one.meeting, one.blocks, attempts[1..]);
      (rest.0, rest.1, one.written + rest.2)
  }

  function Gained(attempts: seq<Attempt>): nat {
    if attempts == [] then 0 else |attempts[0].more| + Gained(attempts[1..])
  }

  lemma {:induction false} AttemptsLog(w: World, m: MeetingState, b: Blocks, attempts: seq<Attempt>, log: seq<Tx>)
    requires |b| > 0 && Formed(m) && m.status in {Closed, Finalized} && Accounted(w, m, log)
    ensures var (m', b', written) := Attempts(w, m, b, attempts);
      && Accounted(w, m', log + written) && m'.status in {Closed, Finalized} && m'.items == m.items
      && |b'| == |b| + Gained(attempts) + |written|
    decreases |attempts|
  {
    hide FinalizeMeeting, Formed, Accounted;
    if attempts == [] {
      assert log + [] == log;
    } else {
      var one := FinalizeMeeting(w, m, b + attempts[0].more, attempts[0].key, attempts[0].answers);
      FinalizeLogs(w, m, b + attempts[0].more, attempts[0].key, attempts[0].answers, log);
      AttemptsLog(w, one.meeting, one.blocks, attempts[1..], log + one.written);
      var rest := Attempts(w, one.meeting, one.blocks, attempts[1..]);
      assert log + (one.written + rest.2) == log + one.written + rest.2;
    }
  }

  // ---------------------------------------------------------------- the record names exactly those transactions

  /** The vote transactions a final record names, in agenda order. */
  function NamedVotes(lines: seq<FinalItem>): seq<Option<TxId>> {
    if lines == [] then [] else
      var n := |lines| - 1;
      NamedVotes(lines[..n]) + if lines[n].item.body.VoteItem? then [lines[n].voteTx] else []
  }

  function LinesOf(votes: seq<Numbered>, items: seq<AgendaItem>): seq<Option<TxId>> {
    seq(|items|, i requires 0 <= i < |items| => FinalLine(votes, items[i]).voteTx)
  }

  lemma {:induction false} NamedVotesFollow(votes: seq<Numbered>, items: seq<AgendaItem>)
    ensures NamedVotes(FinalLines(votes, items)) == LinesOf(votes, VoteItems(items))
  {
    hide FinalLine;
    if items == [] {
    } else {
      var n := |items| - 1;
      NamedVotesFollow(votes, items[..n]);
      FinalLineItem(votes, items[n]);
      assert FinalLines(votes, items)[..n] == FinalLines(votes, items[..n]);
    }
  }

  lemma FinalLineItem(votes: seq<Numbered>, item: AgendaItem)
    ensures FinalLine(votes, item).item == item
  {
  }

  predicate NumbersRise(items: seq<AgendaItem>) {
    forall i, j :: 0 <= i < j < |items| ==> items[i].number < items[j].number
  }

  predicate NumberedFromOne(items: seq<AgendaItem>) {
    forall i :: 0 <= i < |items| ==> items[i].number == i + 1
  }

  lemma {:induction false} VoteItemsRise(items: seq<AgendaItem>)
    requires NumberedFromOne(items)
    ensures NumbersRise(VoteItems(items)) && forall x :: x in VoteItems(items) ==> x.number <= |items|
  {
    if items == [] {
    } else {
      VoteItemsRise(items[..|items| - 1]);
    }
  }

  lemma AgendaIsNumbered(items: seq<AgendaItem>)
    requires ValidAgenda(items)
    ensures NumberedFromOne(items)
  {
    hide Blank;
    forall i | 0 <= i < |items| ensures items[i].number == i + 1 { assert AgendaEntry(items, i); }
  }

  lemma VoteAtItsPlace(w: World, b: Blocks, f: Sitting, items: seq<AgendaItem>, votes: seq<Numbered>, k: nat)
    requires AllStand(w, b, f, items, votes) && NumbersRise(VoteItems(items)) && k < |votes|
    ensures VoteIndex(votes, VoteItems(items)[k].number) == Some(k)
  {
    hide V.VoteInvariant, SnapshotFits, VoteItems;
    assert Stands(w, b, f, VoteItems(items)[k], votes[k]);
    var j := VoteIndex(votes, VoteItems(items)[k].number).value;
    assert Stands(w, b, f, VoteItems(items)[j], votes[j]);
  }

  function IdsOf(txs: seq<Tx>): (r: seq<Option<TxId>>)
    ensures |r| == |txs| && forall k :: 0 <= k < |txs| ==> r[k] == Some(txs[k].id)
  {
    seq(|txs|, k requires 0 <= k < |txs| => Some(txs[k].id))
  }

  /** One transaction for each vote item and then the record, which names the first ones precisely, in agenda order. */
  predicate NamesExactly(m: MeetingState, written: seq<Tx>) {
    && m.convened.Some? && m.openedAt.Some? && |written| == |m.votes| + 1 && |m.votes| == |VoteItems(m.items)|
    && NamedVotes(FinalRecord(m).items) == IdsOf(written[..|m.votes|])
  }

  /**
   Meeting finalisation resumes and files exactly once. Over any number of attempts, whichever
   appends fail and whatever else the ledger gains, the attempts together write one transaction
   for each vote, in agenda order, and then the final record; nothing else. That record names
   precisely those transactions, under the agenda as convened.
   */
  lemma FiledExactlyOnce(w: World, m: MeetingState, b: Blocks, attempts: seq<Attempt>)
    requires MeetingInvariant(w, m, b) && m.status == Closed && Logged(w, m.votes, [])
    ensures var (m', b', written) := Attempts(w, m, b, attempts);
      && Accounted(w, m', written) && |b'| == |b| + Gained(attempts) + |written|
      && MeetingInvariant(w, m', b') && m'.items == m.items
      && (m'.status == Finalized ==> NamesExactly(m', written))
  {
    hide ConvenedOn, AllStand, AllCounted, AllFiled, MeetingFiled, Logged, V.Formed, MeetingLogged;
    assert Accounted(w, m, []);
    AttemptsLog(w, m, b, attempts, []);
    AttemptsKeep(w, m, b, attempts);
    var (m', b', written) := Attempts(w, m, b, attempts);
    assert [] + written == written;
    if m'.status == Finalized { NamedInOrder(w, m', b', written); }
  }

  lemma NamedInOrder(w: World, m: MeetingState, b: Blocks, written: seq<Tx>)
    requires MeetingInvariant(w, m, b) && m.status == Finalized && Accounted(w, m, written)
    ensures NamesExactly(m, written)
  {
    hide V.Formed, MeetingLogged, Stands, MeetingFiled, AllFiled, AllCounted, Locate, ValidAgenda;
    var f := SittingOf(m);
    AgendaIsNumbered(m.items);
    VoteItemsRise(m.items);
    NamedVotesFollow(m.votes, m.items);
    forall k | 0 <= k < |m.votes| ensures FinalLine(m.votes, VoteItems(m.items)[k]).voteTx == Some(written[k].id) {
      VoteAtItsPlace(w, b, f, m.items, m.votes, k);
      assert VoteLogged(w, m.votes[k].1, written[..|m.votes|][k]);
    }
  }

  lemma {:induction false} AttemptsKeep(w: World, m: MeetingState, b: Blocks, attempts: seq<Attempt>)
    requires MeetingInvariant(w, m, b)
    ensures var (m', b', written) := Attempts(w, m, b, attempts); MeetingInvariant(w, m', b')
    decreases |attempts|
  {
    hide ConvenedOn, AllStand, AllCounted, AllFiled, MeetingFiled, FinalizeMeeting;
    if attempts == [] {
    } else {
      var more := b + attempts[0].more;
      MeetingInvariantGrows(w, m, b, more);
      FinalisingKeeps(w, m, more, attempts[0].key, attempts[0].answers);
      var one := FinalizeMeeting(w, m, more, attempts[0].key, attempts[0].answers);
      AttemptsKeep(w, one.meeting, one.blocks, attempts[1..]);
    }
  }
}
