/** Lifecycles only go forward: what each stage fixes stays as it is through every run. */
module Lifecycles {
  import opened Ordering
  import opened Records
  import opened Ledger
  import Parts
  import V = Vote
  import D = Decision
  import M = Meeting
  import MR = MeetingRuns

  // ---------------------------------------------------------------- votes

  function VoteStage(s: V.VoteStatus): nat {
    match s case Draft => 0 case Frozen => 1 case Open => 2 case Closed => 3 case Evaluated => 4 case Finalized => 5
  }

  /** What one event can do to a vote: nothing, one ballot more while it is open, or one stage forward. */
  predicate VoteMoves(v: V.VoteState, next: V.VoteState) {
    || next == v
    || (v.status == V.VoteStatus.Open && next == v.(ballots := next.ballots) && |next.ballots| == |v.ballots| + 1
        && multiset(v.ballots) <= multiset(next.ballots))
    || (VoteStage(next.status) == VoteStage(v.status) + 1 && match v.status
        case Draft => false
        case Frozen => next == v.(status := V.VoteStatus.Open)
        case Open => next == v.(status := V.Closed)
        case Closed => next == v.(status := V.Evaluated, evaluation := next.evaluation) && next.evaluation.Some?
        case Evaluated => next == v.(status := V.Finalized, finalized := next.finalized) && next.finalized.Some?
        case Finalized => false)
  }

  lemma OneMore<T>(s: seq<T>, x: T, t: seq<T>)
    requires multiset(t) == multiset(s) + multiset{x}
    ensures |t| == |s| + 1 && multiset(s) <= multiset(t)
  {
    assert |multiset(t)| == |t| && |multiset(s)| == |s|;
  }

  lemma VoteStepMoves(w: World, v: V.VoteState, b: Blocks, event: V.VoteEvent)
    requires |b| > 0 && V.Formed(v)
    ensures VoteMoves(v, V.VoteNext(w, v, b, event).0)
  {
    hide V.EvaluateNow, V.BallotRefusal, V.SummaryOf, Reconstruct, MaySign, Locate, V.FinalRecord, Insert,
        V.SignedVoters;
    match event {
      case Casting(ballot) =>
        if V.CastVote(w, v, ballot).Ok? {
          InsertPermutes(V.SignedVoter, v.ballots, ballot);
          OneMore(v.ballots, ballot, V.CastVote(w, v, ballot).value.ballots);
        }
      case LedgerGrows(more) => case Opening => case Closing => case Counting => case Finalising(key, works) =>
    }
  }

  /** What has been settled by a stage of a vote is the same at every later one. */
  predicate VoteKeeps(v: V.VoteState, later: V.VoteState) {
    && VoteStage(v.status) <= VoteStage(later.status)
    && later.snapshot == v.snapshot && later.subject == v.subject && later.company == v.company
    && later.proposalDigest == v.proposalDigest && multiset(v.ballots) <= multiset(later.ballots)
    && (VoteStage(v.status) >= 3 ==> later.ballots == v.ballots)
    && (VoteStage(v.status) >= 4 ==> later.evaluation == v.evaluation)
    && (v.status == V.Finalized ==> later == v)
  }

  /**
   Over any run a vote never goes back: its snapshot stays, no ballot is ever lost, none comes in
   after closing, the result stays once counted, and a finalised vote stays as it is.
   */
  lemma {:induction false} VoteNeverGoesBack(w: World, v: V.VoteState, b: Blocks, events: seq<V.VoteEvent>)
    requires |b| > 0 && V.Formed(v)
    ensures VoteKeeps(v, V.VoteRun(w, v, b, events).0)
    decreases |events|
  {
    hide V.VoteNext, V.Formed;
    if events == [] {
    } else {
      var (next, b') := V.VoteNext(w, v, b, events[0]);
      VoteStepMoves(w, v, b, events[0]);
      VoteNeverGoesBack(w, next, b', events[1..]);
    }
  }

  // ---------------------------------------------------------------- decisions

  function DecisionStage(s: D.DecisionStatus): nat {
    match s case Draft => 0 case Frozen => 1 case Signed => 2 case Finalized => 3
  }

  predicate DecisionKeeps(d: D.DecisionState, later: D.DecisionState) {
    && DecisionStage(d.status) <= DecisionStage(later.status) && later.snapshot == d.snapshot
    && later.subject == d.subject && later.proposalDigest == d.proposalDigest
    && (DecisionStage(d.status) >= 2 ==> later.signature == d.signature)
    && (d.status == D.Finalized ==> later == d)
  }

  lemma {:induction false} DecisionNeverGoesBack(w: World, d: D.DecisionState, b: Blocks, events: seq<D.DecisionEvent>)
    requires |b| > 0 && D.Formed(d)
    ensures DecisionKeeps(d, D.DecisionRun(w, d, b, events).0)
    decreases |events|
  {
    hide Reconstruct, MaySign, Locate, D.FinalRecord;
    if events == [] {
    } else {
      var (next, b') := D.DecisionNext(w, d, b, events[0]);
      DecisionNeverGoesBack(w, next, b', events[1..]);
    }
  }

  // ---------------------------------------------------------------- meetings

  function MeetingStage(s: M.MeetingStatus): nat {
    match s case Draft => 0 case Convened => 1 case Open => 2 case Closed => 3 case Finalized => 4
  }

  /** The votes of a meeting, and each vote of it, only go forward. */
  predicate VotesKeep(votes: seq<M.Numbered>, later: seq<M.Numbered>) {
    |later| == |votes| && forall k :: 0 <= k < |votes| ==> later[k].0 == votes[k].0 && VoteKeeps(votes[k].1, later[k].1)
  }

  predicate MeetingKeeps(m: M.MeetingState, later: M.MeetingState) {
    && MeetingStage(m.status) <= MeetingStage(later.status) && later.metadata == m.metadata
    && (MeetingStage(m.status) >= 1 ==>
        later.items == m.items && later.company == m.company && later.convened == m.convened)
    && (MeetingStage(m.status) >= 2 ==> later.openedAt == m.openedAt && VotesKeep(m.votes, later.votes))
    && (m.status == M.Finalized ==> later == m)
  }

  lemma VoteKeepsItself(v: V.VoteState)
    ensures VoteKeeps(v, v)
  {
  }

  lemma VotesKeepThemselves(votes: seq<M.Numbered>)
    ensures VotesKeep(votes, votes)
  {
    hide VoteKeeps;
    forall k | 0 <= k < |votes| ensures VoteKeeps(votes[k].1, votes[k].1) { VoteKeepsItself(votes[k].1); }
  }

  lemma VoteKeepsChains(x: V.VoteState, y: V.VoteState, z: V.VoteState)
    requires VoteKeeps(x, y) && VoteKeeps(y, z)
    ensures VoteKeeps(x, z)
  {
  }

  lemma VotesKeepChains(x: seq<M.Numbered>, y: seq<M.Numbered>, z: seq<M.Numbered>)
    requires VotesKeep(x, y) && VotesKeep(y, z)
    ensures VotesKeep(x, z)
  {
    hide VoteKeeps;
    forall k | 0 <= k < |x| ensures z[k].0 == x[k].0 && VoteKeeps(x[k].1, z[k].1) {
      VoteKeepsChains(x[k].1, y[k].1, z[k].1);
    }
  }

  lemma OneVoteKeeps(votes: seq<M.Numbered>, k: nat, v: V.VoteState)
    requires k < |votes| && VoteKeeps(votes[k].1, v)
    ensures VotesKeep(votes, votes[k := (votes[k].0, v)])
  {
    hide VoteKeeps;
    VotesKeepThemselves(votes);
  }

  lemma MovedKeeps(v: V.VoteState, next: V.VoteState)
    requires VoteMoves(v, next)
    ensures VoteKeeps(v, next)
  {
  }

  lemma ClosedKeeps(w: World, v: V.VoteState, b: Blocks)
    requires |b| > 0 && V.Formed(v)
    ensures V.CloseVote(v).Ok? ==> V.Formed(V.CloseVote(v).value) && VoteKeeps(v, V.CloseVote(v).value)
    ensures V.CloseVote(v).Ok? && V.CountVote(V.CloseVote(v).value, b).Ok? ==>
      VoteKeeps(v, V.CountVote(V.CloseVote(v).value, b).value)
  {
    hide V.EvaluateNow, V.SummaryOf;
  }

  lemma CloseAtKeepsVotes(w: World, votes: seq<M.Numbered>, k: nat, b: Blocks)
    requires |b| > 0 && k < |votes| && V.Formed(votes[k].1)
    ensures VotesKeep(votes, M.CloseAt(votes, k, b).votes)
  {
    hide V.EvaluateNow, V.SummaryOf, VoteKeeps, V.VoteNext, VotesKeep, VoteMoves;
    var (number, v) := votes[k];
    VotesKeepThemselves(votes);
    ClosedKeeps(w, v, b);
    if V.CloseVote(v).Ok? {
      OneVoteKeeps(votes, k, V.CloseVote(v).value);
      if V.CountVote(V.CloseVote(v).value, b).Ok? {
        OneVoteKeeps(votes, k, V.CountVote(V.CloseVote(v).value, b).value);
      }
    }
  }

  lemma {:induction false} CloseVotesKeepVotes(w: World, votes: seq<M.Numbered>, n: nat, b: Blocks)
    requires |b| > 0 && n <= |votes| && M.AllFormed(votes)
    ensures VotesKeep(votes, M.CloseVotes(votes, n, b).votes)
  {
    hide M.CloseAt, V.Formed, VotesKeep;
    if n == 0 {
      VotesKeepThemselves(votes);
    } else {
      CloseVotesKeepVotes(w, votes, n - 1, b);
      var sofar := M.CloseVotes(votes, n - 1, b);
      if sofar.error.None? {
        CloseAtKeepsVotes(w, sofar.votes, n - 1, b);
        VotesKeepChains(votes, sofar.votes, M.CloseAt(sofar.votes, n - 1, b).votes);
      }
    }
  }

  lemma FiledKeeps(w: World, v: V.VoteState, b: Blocks, key: Parts.PublicKey, works: bool)
    requires |b| > 0 && V.Formed(v)
    ensures V.FinalizeVote(w, v, b, key, works).0.Ok? ==> VoteKeeps(v, V.FinalizeVote(w, v, b, key, works).0.value)
  {
    hide V.EvaluateNow, V.SummaryOf, Reconstruct, MaySign, Locate, V.FinalRecord;
  }

  lemma FileAtKeepsVotes(w: World, f: M.Filing, k: nat, key: Parts.PublicKey)
    requires |f.blocks| > 0 && k < |f.votes| && V.Formed(f.votes[k].1)
    ensures VotesKeep(f.votes, M.FileAt(w, f, k, key).votes)
  {
    hide V.FinalizeVote, VoteKeeps, VotesKeep, V.FinalRecord;
    var (number, v) := f.votes[k];
    VotesKeepThemselves(f.votes);
    FiledKeeps(w, v, f.blocks, key, Says(f.answers));
    if v.finalized.None? && V.FinalizeVote(w, v, f.blocks, key, Says(f.answers)).0.Ok? {
      OneVoteKeeps(f.votes, k, V.FinalizeVote(w, v, f.blocks, key, Says(f.answers)).0.value);
    }
  }

  lemma {:induction false} FileVotesKeepVotes(w: World, votes: seq<M.Numbered>, n: nat, b: Blocks, key: Parts.PublicKey,
      answers: seq<bool>)
    requires |b| > 0 && n <= |votes| && M.AllFormed(votes)
    ensures VotesKeep(votes, M.FileVotes(w, votes, n, b, key, answers).votes)
  {
    hide M.FileAt, V.Formed, VotesKeep;
    if n == 0 {
      VotesKeepThemselves(votes);
    } else {
      FileVotesKeepVotes(w, votes, n - 1, b, key, answers);
      var sofar := M.FileVotes(w, votes, n - 1, b, key, answers);
      if sofar.error.None? {
        FileAtKeepsVotes(w, sofar, n - 1, key);
        VotesKeepChains(votes, sofar.votes, M.FileAt(w, sofar, n - 1, key).votes);
      }
    }
  }

  lemma CastMoves(w: World, v: V.VoteState, b: Blocks, ballot: SignedBallot)
    requires |b| > 0 && V.Formed(v) && V.CastVote(w, v, ballot).Ok?
    ensures VoteMoves(v, V.CastVote(w, v, ballot).value)
  {
    hide VoteMoves, V.CastVote;
    VoteStepMoves(w, v, b, V.Casting(ballot));
  }

  lemma CastKeepsVotes(w: World, m: M.MeetingState, b: Blocks, number: nat, ballot: SignedBallot)
    requires |b| > 0 && M.Formed(m) && M.CastInMeeting(w, m, number, ballot).Ok?
    ensures m.status == M.MeetingStatus.Open
    ensures var next := M.CastInMeeting(w, m, number, ballot).value;
      next == m.(votes := next.votes) && VotesKeep(m.votes, next.votes)
  {
    hide V.CastVote, VoteKeeps, VoteMoves, V.VoteNext;
    var k := M.VoteIndex(m.votes, number).value;
    CastMoves(w, m.votes[k].1, b, ballot);
    MovedKeeps(m.votes[k].1, V.CastVote(w, m.votes[k].1, ballot).value);
    OneVoteKeeps(m.votes, k, V.CastVote(w, m.votes[k].1, ballot).value);
  }

  lemma MeetingStepKeepsStages(w: World, m: M.MeetingState, b: Blocks, event: MR.MeetingEvent)
    requires |b| > 0 && M.Formed(m)
    ensures MeetingKeeps(m, MR.MeetingNext(w, m, b, event).0)
  {
    hide Reconstruct, M.OpenVotes, M.FileVotes, M.CloseVotes, MaySign, M.ValidAgenda, Locate, V.Formed, M.CastInMeeting;
    hide VotesKeep, M.Blank;
    VotesKeepThemselves(m.votes);
    match event {
      case Casting(number, ballot) =>
        if M.CastInMeeting(w, m, number, ballot).Ok? { CastKeepsVotes(w, m, b, number, ballot); }
      case ClosingDown => CloseVotesKeepVotes(w, m.votes, |m.votes|, b);
      case Finalising(key, answers) => FileVotesKeepVotes(w, m.votes, |m.votes|, b, key, answers);
      case LedgerGrows(more) => case AddingItem(title, body) => case Convening(key, works) => case Opening =>
    }
  }

  lemma MeetingKeepsChains(x: M.MeetingState, y: M.MeetingState, z: M.MeetingState)
    requires MeetingKeeps(x, y) && MeetingKeeps(y, z)
    ensures MeetingKeeps(x, z)
  {
    hide VotesKeep;
    if MeetingStage(x.status) >= 2 { VotesKeepChains(x.votes, y.votes, z.votes); }
  }

  lemma MeetingKeepsItself(m: M.MeetingState)
    ensures MeetingKeeps(m, m)
  {
    VotesKeepThemselves(m.votes);
  }

  /**
   Over any run, failures half way included, a meeting never goes back: the agenda and the company
   stay once it is convened, the height and the votes once it is open, each vote itself only goes
   forward, and a finalised meeting stays as it is.
   */
  lemma {:induction false} MeetingNeverGoesBack(w: World, m: M.MeetingState, b: Blocks, events: seq<MR.MeetingEvent>)
    requires |b| > 0 && M.Formed(m)
    ensures MeetingKeeps(m, MR.MeetingRun(w, m, b, events).0)
    decreases |events|
  {
    hide MR.MeetingNext, M.Formed, MeetingKeeps;
    if events == [] {
      MeetingKeepsItself(m);
    } else {
      var (next, b') := MR.MeetingNext(w, m, b, events[0]);
      MeetingStepKeepsStages(w, m, b, events[0]);
      MeetingNeverGoesBack(w, next, b', events[1..]);
      MeetingKeepsChains(m, next, MR.MeetingRun(w, next, b', events[1..]).0);
    }
  }
}
