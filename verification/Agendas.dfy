/** Agendas: what counts as one, what the subject of a vote says, and when a meeting can be opened. */
module Agendas {
  import opened Ordering
  import opened Records
  import opened Text
  import opened Ledger
  import opened Meeting
  import opened Evidence
  import V = Vote

  // ---------------------------------------------------------------- what is blank

  lemma {:induction false} TrimmedStart(s: string)
    ensures TrimStart(s) == "" <==> forall c :: c in s ==> IsSpace(c)
    ensures forall c :: c in TrimStart(s) ==> c in s
  {
    hide IsSpace;
    if s == [] {
    } else {
      assert s == [s[0]] + s[1..];
      if IsSpace(s[0]) { TrimmedStart(s[1..]); }
    }
  }

  lemma {:induction false} TrimmedEnd(s: string)
    ensures TrimEnd(s) == "" <==> forall c :: c in s ==> IsSpace(c)
  {
    hide IsSpace;
    if s == [] {
    } else {
      var n := |s| - 1;
      assert s == s[..n] + [s[n]];
      if IsSpace(s[n]) { TrimmedEnd(s[..n]); } else { assert s[n] in s; }
    }
  }

  /** A title is blank exactly when it is nothing but white space. */
  lemma BlankIsSpace(text: string)
    ensures Blank(text) <==> forall c :: c in text ==> IsSpace(c)
  {
    hide IsSpace;
    TrimmedStart(text);
    TrimmedEnd(TrimStart(text));
    var s := TrimStart(text);
    if s != "" { assert !IsSpace(s[0]) && s[0] in s; }
  }

  // ---------------------------------------------------------------- subjects

  predicate Digits(s: string) { forall i :: 0 <= i < |s| ==> s[i] in DIGITS }

  /** The number a string of digits stands for. */
  function Reading(s: string): nat
    requires Digits(s)
  {
    if s == "" then 0 else 10 * Reading(s[..|s| - 1]) + (s[|s| - 1] as int - '0' as int)
  }

  lemma DigitsStand(d: nat)
    requires d < 10
    ensures DIGITS[d] as int == '0' as int + d
    ensures DIGITS[d] in DIGITS && DIGITS[d] != ':'
  {
  }

  lemma {:induction false} DecimalReads(n: nat)
    ensures Digits(Decimal(n)) && Decimal(n) != "" && Reading(Decimal(n)) == n
  {
    DigitsStand(n % 10);
    if n < 10 {
      assert Reading([]) == 0;
      assert Decimal(n)[..0] == [];
    } else {
      DecimalReads(n / 10);
      var s := Decimal(n);
      assert s[..|s| - 1] == Decimal(n / 10);
    }
  }

  lemma NoColon()
    ensures ':' !in DIGITS
  {
  }

  lemma SameUpToColon(a: string, x: string, b: string, y: string)
    requires Digits(a) && Digits(b) && a + ": " + x == b + ": " + y
    ensures a == b && x == y
  {
    var s := a + ": " + x;
    assert s[|a|] == ':' && s[|b|] == ':';
    assert forall i :: 0 <= i < |a| ==> s[i] == a[i];
    assert forall i :: 0 <= i < |b| ==> s[i] == b[i];
    NoColon();
    assert |a| == |b|;
    assert a == s[..|a|] && x == s[|a| + 2..] && y == s[|b| + 2..];
  }

  /** The subject of a vote says which item it is on: its number and its title can be read back off it. */
  lemma SubjectNamesTheItem(a: AgendaItem, b: AgendaItem)
    requires Subject(a) == Subject(b)
    ensures a.number == b.number && a.title == b.title
  {
    hide Decimal, Reading;
    DecimalReads(a.number);
    DecimalReads(b.number);
    var x, y := Decimal(a.number), Decimal(b.number);
    assert Subject(a)[5..] == x + ": " + a.title && Subject(b)[5..] == y + ": " + b.title;
    SameUpToColon(x, a.title, y, b.title);
  }

  // ---------------------------------------------------------------- building an agenda

  datatype Adding = Adding(title: string, body: AgendaBody)

  /** Items added to a draft one after another; a refused one changes nothing. */
  function Added(m: MeetingState, adds: seq<Adding>): MeetingState {
    if adds == [] then m else
      var before := Added(m, adds[..|adds| - 1]);
      var last := adds[|adds| - 1];
      match AddItem(before, last.title, last.body)
      case Ok(next) => next
      case Err(_) => before
  }

  /** What the accepted additions are: those with a title, in order. */
  function Titled(adds: seq<Adding>): seq<Adding> {
    if adds == [] then [] else
      var last := adds[|adds| - 1];
      Titled(adds[..|adds| - 1]) + if exists c :: c in last.title && !IsSpace(c) then [last] else []
  }

  /**
   However items are added to a draft, what stands there is an agenda as soon as it holds one:
   the additions that had a title, in order, numbered from one.
   */
  lemma {:induction false} AddedIsAnAgenda(metadata: MeetingMetadata, adds: seq<Adding>)
    requires |adds| <= 0xFFFF_FFFF
    ensures var m := Added(DraftMeeting(metadata), adds);
      && m == DraftMeeting(metadata).(items := m.items) && |m.items| == |Titled(adds)|
      && (m.items != [] ==> ValidAgenda(m.items))
      && forall i :: 0 <= i < |m.items| ==>
           m.items[i].title == Titled(adds)[i].title && m.items[i].body == Titled(adds)[i].body
    ensures |Titled(adds)| <= |adds|
  {
    hide Blank, IsSpace;
    if adds == [] {
    } else {
      var n := |adds| - 1;
      AddedIsAnAgenda(metadata, adds[..n]);
      BlankIsSpace(adds[n].title);
      var before, m := Added(DraftMeeting(metadata), adds[..n]), Added(DraftMeeting(metadata), adds);
      if !Blank(adds[n].title) {
        assert m.items == before.items + [AgendaItem(|before.items| + 1, adds[n].title, adds[n].body)];
        forall i | 0 <= i < |m.items| ensures AgendaEntry(m.items, i) {
          if i < |before.items| { assert AgendaEntry(before.items, i); }
        }
      }
    }
  }

  // ---------------------------------------------------------------- opening

  predicate AsksForAVote(items: seq<AgendaItem>) { exists item :: item in items && item.body.VoteItem? }

  lemma FreezingLeavesFrozen(v: V.VoteState, b: Blocks, at: nat, id: Id)
    requires |b| > 0
    ensures V.FreezeVote(v, b, at, id).Ok? ==> V.FreezeVote(v, b, at, id).value.status == V.Frozen
  {
    hide Reconstruct;
  }

  lemma ItemOpens(item: AgendaItem, b: Blocks, at: nat, id: Id)
    requires |b| > 0 && item.body.VoteItem?
    ensures OpenedVote(item, b, at, id).Ok? <==> CollectiveAt(b, at, id)
  {
    hide V.FreezeVote, CollectiveAt, Subject;
    VoteFreezes(V.DraftVote(Subject(item), item.body.proposalDigest), b, at, id);
    FreezingLeavesFrozen(V.DraftVote(Subject(item), item.body.proposalDigest), b, at, id);
  }

  lemma {:induction false} ItemsOpen(items: seq<AgendaItem>, b: Blocks, at: nat, id: Id)
    requires |b| > 0
    ensures OpenVotes(items, b, at, id).Ok? <==> (AsksForAVote(items) ==> CollectiveAt(b, at, id))
  {
    hide OpenedVote, CollectiveAt, V.Formed;
    if items == [] {
    } else {
      var n := |items| - 1;
      ItemsOpen(items[..n], b, at, id);
      assert items == items[..n] + [items[n]];
      assert AsksForAVote(items) <==> AsksForAVote(items[..n]) || items[n].body.VoteItem?;
      if items[n].body.VoteItem? { ItemOpens(items[n], b, at, id); }
    }
  }

  /**
   Opening, exactly. A convened meeting opens if and only if nothing on its agenda asks for a vote or
   its channel decides together in the company at the head; the rules of that channel are not looked at.
   */
  lemma OpenDecides(m: MeetingState, b: Blocks)
    requires |b| > 0
    ensures OpenMeeting(m, b).Ok? <==>
      m.status == MeetingStatus.Convened && (AsksForAVote(m.items) ==> CollectiveAt(b, |b| - 1, m.metadata.channel))
  {
    hide OpenVotes, CollectiveAt;
    ItemsOpen(m.items, b, |b| - 1, m.metadata.channel);
  }
}
