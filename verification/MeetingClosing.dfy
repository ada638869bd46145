/** When a meeting can be closed, exactly; and that a close which fails once fails for ever. */
module MeetingClosing {
  import opened Ordering
  import opened Evaluation
  import opened Records
  import opened Ledger
  import opened Resolve
  import opened Counting
  import opened Meeting
  import opened MeetingRuns
  import V = Vote

  predicate AllOpen(votes: seq<Numbered>) {
    forall k :: 0 <= k < |votes| ==> votes[k].1.status == V.VoteStatus.Open
  }

  /** The channel resolved at that height, and its rules suit the people it had. */
  predicate Countable(b: Blocks, at: nat, channel: Id)
    requires |b| > 0
  {
    V.RulesAt(b, at, channel).Some? && Contradictions(b, at, channel) == {}
  }

  /** An open meeting that can no longer be closed: a vote has left the open state, or no count can succeed. */
  predicate Stuck(m: MeetingState, b: Blocks)
    requires |b| > 0 && Formed(m)
  {
    && m.status == MeetingStatus.Open && m.votes != []
    && (!AllOpen(m.votes) || !Countable(b, m.openedAt.value, m.metadata.channel))
  }

  // ---------------------------------------------------------------- the exact condition

  /** One vote closes and counts exactly when it is open and its channel's rules suit its electorate. */
  lemma CloseAtDecides(w: World, b: Blocks, f: Sitting, item: AgendaItem, votes: seq<Numbered>, k: nat)
    requires |b| > 0 && k < |votes| && V.Formed(votes[k].1) && Stands(w, b, f, item, votes[k])
    ensures CloseAt(votes, k, b).error.None? <==>
      votes[k].1.status == V.VoteStatus.Open && Countable(b, f.openedAt, f.channel)
  {
    hide V.VoteInvariant, V.EvaluateNow, V.RulesAt, Contradictions, V.SummaryOf, Count;
    CountDecides(w, votes[k].1, b);
  }

  lemma {:induction false} CloseVotesDecides(w: World, b: Blocks, f: Sitting, items: seq<AgendaItem>,
      votes: seq<Numbered>, n: nat)
    requires |b| > 0 && n <= |votes| && AllFormed(votes) && AllStand(w, b, f, items, votes)
    ensures CloseVotes(votes, n, b).error.None? <==>
      AllOpen(votes[..n]) && (n == 0 || Countable(b, f.openedAt, f.channel))
  {
    hide CloseAt, V.Formed, Stands, Countable, VoteItems;
    if n == 0 {
    } else {
      CloseVotesDecides(w, b, f, items, votes, n - 1);
      var sofar := CloseVotes(votes, n - 1, b);
      if sofar.error.None? { CloseAtDecides(w, b, f, VoteItems(items)[n - 1], sofar.votes, n - 1); }
      assert votes[..n] == votes[..n - 1] + [votes[n - 1]];
    }
  }

  /**
   The exact condition of `close`, for every meeting a run can reach. It succeeds if and only if
   the meeting and all its votes are open and, unless no item asks for a vote, the rules of the
   channel it was opened through do not contradict the people that channel had at that height. A
   secretary can ask that before opening: no ballot and no later block has any say in it.
   */
  lemma CloseDecides(w: World, m: MeetingState, b: Blocks)
    requires MeetingInvariant(w, m, b)
    ensures CloseMeeting(m, b).0.None? <==>
      && m.status == MeetingStatus.Open && AllOpen(m.votes)
      && (m.votes == [] || Countable(b, m.openedAt.value, m.metadata.channel))
  {
    hide CloseVotes, V.Formed, Countable, ConvenedOn, AllCounted, AllFiled, MeetingFiled, AllStand;
    if m.status == MeetingStatus.Open {
      CloseVotesDecides(w, b, SittingOf(m), m.items, m.votes, |m.votes|);
      assert m.votes[..|m.votes|] == m.votes;
    }
  }

  // ---------------------------------------------------------------- failing once is failing for ever

  lemma CountableStays(b: Blocks, b': Blocks, at: nat, channel: Id)
    requires |b| > 0 && b <= b' && at < |b|
    ensures Countable(b', at, channel) == Countable(b, at, channel)
  {
    hide Reconstruct, ResolveChannel, Issues;
    PastIsFixed(b, b', at);
  }

  lemma CastingKeepsStuck(w: World, m: MeetingState, b: Blocks, number: nat, ballot: SignedBallot)
    requires |b| > 0 && Formed(m) && Stuck(m, b) && CastInMeeting(w, m, number, ballot).Ok?
    ensures Formed(CastInMeeting(w, m, number, ballot).value) && Stuck(CastInMeeting(w, m, number, ballot).value, b)
  {
    hide Countable, V.BallotRefusal, Insert, V.SignedVoters;
    var next := CastInMeeting(w, m, number, ballot).value;
    var k := VoteIndex(m.votes, number).value;
    if !AllOpen(m.votes) {
      var i :| 0 <= i < |m.votes| && m.votes[i].1.status != V.VoteStatus.Open;
      assert i != k && next.votes[i] == m.votes[i];
    }
  }

  lemma ClosingKeepsStuck(w: World, m: MeetingState, b: Blocks)
    requires MeetingInvariant(w, m, b) && Stuck(m, b)
    ensures Stuck(CloseMeeting(m, b).1, b)
  {
    hide CloseVotes, V.Formed, Countable, ConvenedOn, AllCounted, AllFiled, MeetingFiled, AllStand;
    CloseDecides(w, m, b);
    MovedIsNotOpen(m.votes, |m.votes|, b);
  }

  lemma StuckStep(w: World, m: MeetingState, b: Blocks, event: MeetingEvent)
    requires MeetingInvariant(w, m, b) && Stuck(m, b)
    ensures var (m', b') := MeetingNext(w, m, b, event); MeetingInvariant(w, m', b') && Stuck(m', b')
  {
    hide AllOpen, Countable, ConvenedOn, AllStand, CloseMeeting, CastInMeeting, V.Formed;
    MeetingStepKeeps(w, m, b, event);
    match event {
      case LedgerGrows(more) => CountableStays(b, b + more, m.openedAt.value, m.metadata.channel);
      case Casting(number, ballot) =>
        if CastInMeeting(w, m, number, ballot).Ok? { CastingKeepsStuck(w, m, b, number, ballot); }
      case ClosingDown => ClosingKeepsStuck(w, m, b);
      case AddingItem(title, body) => case Convening(key, works) => case Opening => case Finalising(key, answers) =>
    }
  }

  /** A stuck meeting stays open through every run: it is never closed and never finalised. */
  lemma {:induction false} StuckForEver(w: World, m: MeetingState, b: Blocks, events: seq<MeetingEvent>)
    requires MeetingInvariant(w, m, b) && Stuck(m, b)
    ensures var (m', b') := MeetingRun(w, m, b, events); |b'| > 0 && Stuck(m', b')
    decreases |events|
  {
    hide MeetingNext, MeetingInvariant, Stuck, Formed;
    InvariantIsFormed(w, m, b);
    if events == [] {
    } else {
      var (m', b') := MeetingNext(w, m, b, events[0]);
      StuckStep(w, m, b, events[0]);
      StuckForEver(w, m', b', events[1..]);
    }
  }

  lemma InvariantIsFormed(w: World, m: MeetingState, b: Blocks)
    requires MeetingInvariant(w, m, b)
    ensures |b| > 0 && Formed(m)
  {
  }

  /**
   A failed close cannot be repeated. Once closing an open meeting has failed, no run of any
   attempts, with any blocks between them, ever closes it.
   */
  lemma FailedCloseIsFinal(w: World, m: MeetingState, b: Blocks, events: seq<MeetingEvent>)
    requires MeetingInvariant(w, m, b) && m.status == MeetingStatus.Open && CloseMeeting(m, b).0.Some?
    ensures MeetingRun(w, CloseMeeting(m, b).1, b, events).0.status == MeetingStatus.Open
  {
    hide AllStand, ConvenedOn, V.Formed, CloseMeeting, Countable, MeetingRun, CloseVotes;
    CloseDecides(w, m, b);
    ClosingKeeps(w, m, b);
    ClosingKeepsStuck(w, m, b);
    StuckForEver(w, CloseMeeting(m, b).1, b, events);
  }
}
