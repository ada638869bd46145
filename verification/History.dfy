/**
 What the amendment chain guarantees: every part has one linear history, no provider ever
 returns once replaced, and every record is replaced at most once.
 */
module History {
  import opened Ordering
  import opened Parts
  import opened Records
  import opened Ledger

  /** One part of the company as in force, whatever its kind. */
  datatype Part =
    | IdentityPart(identity: InForce<Identity>)
    | SharesPart(shares: InForce<Register>)
    | ChannelsPart(channels: InForce<ChannelSet>)
    | PersonsPart(persons: InForce<Identities>)
    | AuthorisationPart(authorisation: InForce<Authorisation>)

  function PartInForce(c: Company, kind: RecordKind): Part
    requires kind != GenesisKind
  {
    match kind
    case IdentityKind => IdentityPart(c.identity)
    case SharesKind => SharesPart(c.shares)
    case ChannelsKind => ChannelsPart(c.channels)
    case PersonsKind => PersonsPart(c.persons)
    case AuthorisationKind => AuthorisationPart(c.authorisation)
  }

  /** The part a record provides, if it provides that part. */
  function Provided(r: RecordRef, kind: RecordKind): Option<Part>
    requires kind != GenesisKind
  {
    match (kind, r.record.body)
    case (IdentityKind, IdentityBody(v)) => Some(IdentityPart(From(r, v)))
    case (SharesKind, SharesBody(v)) => Some(SharesPart(From(r, v)))
    case (ChannelsKind, ChannelsBody(v)) => Some(ChannelsPart(From(r, v)))
    case (PersonsKind, PersonsBody(v)) => Some(PersonsPart(From(r, v)))
    case (AuthorisationKind, AuthorisationBody(v)) => Some(AuthorisationPart(From(r, v)))
    case (IdentityKind, Genesis(v, _, _, _, _)) => Some(IdentityPart(From(r, v)))
    case (SharesKind, Genesis(_, v, _, _, _)) => Some(SharesPart(From(r, v)))
    case (ChannelsKind, Genesis(_, _, v, _, _)) => Some(ChannelsPart(From(r, v)))
    case (PersonsKind, Genesis(_, _, _, v, _)) => Some(PersonsPart(From(r, v)))
    case (AuthorisationKind, Genesis(_, _, _, _, v)) => Some(AuthorisationPart(From(r, v)))
    case (_, _) => None
  }

  /** A genesis, then amendments of one part, each superseding the one before it. */
  ghost predicate Linear(h: seq<RecordRef>, kind: RecordKind) {
    && |h| > 0
    && h[0].record.body.Genesis? && h[0].record.supersedes.None?
    && forall i :: 0 < i < |h| ==> Supersedes(h, i, kind)
  }

  ghost predicate Supersedes(h: seq<RecordRef>, i: nat, kind: RecordKind)
    requires 0 < i < |h|
  {
    h[i].record.body.Kind() == kind && h[i].record.supersedes == Some(h[i - 1].txId)
  }

  /** Entries with one id carry one record. */
  ghost predicate SameIdSameRecord(h: seq<RecordRef>) {
    forall i, j :: 0 <= i < |h| && 0 <= j < |h| && h[i].txId == h[j].txId ==> h[i].record == h[j].record
  }

  lemma LinearSnoc(h: seq<RecordRef>, r: RecordRef, kind: RecordKind)
    requires Linear(h, kind) && r.record.body.Kind() == kind && r.record.supersedes == Some(h[|h| - 1].txId)
    ensures Linear(h + [r], kind)
  {
    var all := h + [r];
    forall i | 0 < i < |all| ensures Supersedes(all, i, kind) {
      if i < |h| { assert Supersedes(h, i, kind); }
    }
  }

  lemma HistorySnoc(applied: seq<RecordRef>, r: RecordRef, kind: RecordKind)
    ensures HistoryIn(applied + [r], kind) == HistoryIn(applied, kind) + if Concerns(r, kind) then [r] else []
  {
    assert (applied + [r])[..|applied|] == applied;
  }

  /** What the fold keeps for one part: a linear history, its last entry in force. */
  ghost predicate Provides(c: Company, kind: RecordKind)
    requires kind != GenesisKind
  {
    var h := c.HistoryOf(kind);
    && Linear(h, kind)
    && c.ProviderOf(kind) == h[|h| - 1].txId
    && Provided(h[|h| - 1], kind) == Some(PartInForce(c, kind))
  }

  lemma FoundProvides(r: RecordRef, kind: RecordKind)
    requires kind != GenesisKind && Found(r).Ok?
    ensures Provides(Found(r).value, kind)
  {
    HistorySnoc([], r, kind);
    assert [] + [r] == [r];
  }

  /** An amendment replaces the part it names and no other. */
  lemma ReplacesOnePart(c: Company, r: RecordRef, kind: RecordKind)
    requires kind != GenesisKind && r.record.body.Kind() != GenesisKind
    ensures Replaced(c, r).applied == c.applied
    ensures r.record.body.Kind() == kind ==>
      Replaced(c, r).ProviderOf(kind) == r.txId && Provided(r, kind) == Some(PartInForce(Replaced(c, r), kind))
    ensures r.record.body.Kind() != kind ==>
      Replaced(c, r).ProviderOf(kind) == c.ProviderOf(kind) && PartInForce(Replaced(c, r), kind) == PartInForce(c, kind)
  {
  }

  lemma ApplyProvides(c: Company, r: RecordRef, kind: RecordKind)
    requires kind != GenesisKind && Provides(c, kind) && Apply(c, r).Ok?
    ensures Provides(Apply(c, r).value, kind)
  {
    hide LockedOutBy, MaySign, HistoryIn, Provided, Replaced;
    HistorySnoc(c.applied, r, kind);
    ReplacesOnePart(c, r, kind);
    var h, next := c.HistoryOf(kind), Apply(c, r).value;
    if r.record.body.Kind() == kind {
      LinearSnoc(h, r, kind);
      assert next.HistoryOf(kind) == h + [r];
    } else {
      assert next.HistoryOf(kind) == h;
    }
  }

  lemma StepProvides(c: Option<Company>, e: Entry, kind: RecordKind)
    requires kind != GenesisKind && (c.Some? ==> Provides(c.value, kind))
    ensures Step(c, e).Ok? && Step(c, e).value.Some? ==> Provides(Step(c, e).value.value, kind)
  {
    hide Provides, Apply, Found;
    if IsIrena(e.tx) && RefOf(e).Some? {
      var r := RefOf(e).value;
      if c.None? {
        if Found(r).Ok? { FoundProvides(r, kind); }
      } else {
        if Apply(c.value, r).Ok? { ApplyProvides(c.value, r, kind); }
      }
    }
  }

  lemma {:induction false} FoldProvides(es: seq<Entry>, kind: RecordKind)
    requires kind != GenesisKind
    ensures Fold(es).Ok? && Fold(es).value.Some? ==> Provides(Fold(es).value.value, kind)
  {
    hide Provides, Step;
    if es == [] {
    } else {
      var n := |es| - 1;
      FoldProvides(es[..n], kind);
      if Fold(es[..n]).Ok? { StepProvides(Fold(es[..n]).value, es[n], kind); }
    }
  }

  /** Every applied record is a transaction of the chain read so far. */
  lemma {:induction false} AppliedComesFromEntries(es: seq<Entry>)
    ensures Fold(es).Ok? && Fold(es).value.Some? ==>
      forall r :: r in Fold(es).value.value.applied ==> exists e :: e in es && RefOf(e) == Some(r)
  {
    hide MaySign, LockedOutBy;
    if es == [] {
    } else {
      var n := |es| - 1;
      AppliedComesFromEntries(es[..n]);
      assert es == es[..n] + [es[n]];
      assert forall e :: e in es[..n] ==> e in es;
      assert es[n] in es;
    }
  }

  lemma {:induction false} HistoryIsApplied(applied: seq<RecordRef>, kind: RecordKind)
    ensures forall r :: r in HistoryIn(applied, kind) <==> r in applied && Concerns(r, kind)
  {
    if applied == [] {
    } else {
      HistoryIsApplied(applied[..|applied| - 1], kind);
      assert applied == applied[..|applied| - 1] + [applied[|applied| - 1]];
    }
  }

  lemma {:induction false} AppliedGrows(es: seq<Entry>, es': seq<Entry>)
    requires es <= es' && Fold(es').Ok? && Fold(es).Ok? && Fold(es).value.Some?
    ensures Fold(es').value.Some? && Fold(es).value.value.applied <= Fold(es').value.value.applied
    decreases |es'|
  {
    hide MaySign, LockedOutBy;
    if |es| < |es'| { AppliedGrows(es, es'[..|es'| - 1]); } else { assert es == es'; }
  }

  lemma {:induction false} HistoryGrows(a: seq<RecordRef>, b: seq<RecordRef>, kind: RecordKind)
    requires a <= b
    ensures HistoryIn(a, kind) <= HistoryIn(b, kind)
  {
    if |a| < |b| { HistoryGrows(a, b[..|b| - 1], kind); } else { assert a == b; }
  }

  // ---------------------------------------------------------------- linear histories do not repeat

  /** In a linear history no id occurs twice, even if a ledger committed one transaction twice. */
  lemma {:induction false} NoRepeat(h: seq<RecordRef>, kind: RecordKind, i: nat, j: nat)
    requires kind != GenesisKind && Linear(h, kind) && SameIdSameRecord(h) && i < j < |h|
    ensures h[i].txId != h[j].txId
  {
    assert Supersedes(h, j, kind);
    if i == 0 {
    } else {
      assert Supersedes(h, i, kind);
      NoRepeat(h, kind, i - 1, j - 1);
    }
  }

  /** Two entries superseding one record are one entry. */
  lemma OneSuccessor(h: seq<RecordRef>, kind: RecordKind, i: nat, j: nat)
    requires kind != GenesisKind && Linear(h, kind) && SameIdSameRecord(h) && i < |h| && j < |h|
    requires h[i].record.supersedes.Some? && h[i].record.supersedes == h[j].record.supersedes
    ensures i == j
  {
    if i > 0 { assert Supersedes(h, i, kind); }
    if j > 0 { assert Supersedes(h, j, kind); }
    if 0 < i < j { NoRepeat(h, kind, i - 1, j - 1); }
    if 0 < j < i { NoRepeat(h, kind, j - 1, i - 1); }
  }

  // ---------------------------------------------------------------- reconstructed companies

  function End(b: Blocks, at: nat): nat
    requires |b| > 0
  {
    if at < |b| then at else |b| - 1
  }

  /** Every reconstructed part has a linear history, without repeats, whose last entry is in force. */
  lemma ReconstructedHistory(b: Blocks, at: nat, kind: RecordKind)
    requires |b| > 0 && kind != GenesisKind && Reconstruct(b, at).Ok? && IdsCommit(b)
    ensures var c := Reconstruct(b, at).value; var h := c.HistoryOf(kind);
      && Provides(c, kind) && SameIdSameRecord(h)
      && forall i, j :: 0 <= i < j < |h| ==> h[i].txId != h[j].txId
  {
    hide Fold, IsIrena;
    var es := Entries(b[..End(b, at) + 1]);
    var c := Fold(es).value.value;
    FoldProvides(es, kind);
    HistoryCommits(b, at, kind);
    var h := c.HistoryOf(kind);
    forall i, j | 0 <= i < j < |h| ensures h[i].txId != h[j].txId { NoRepeat(h, kind, i, j); }
  }

  lemma AppliedEntry(es: seq<Entry>, r: RecordRef) returns (e: Entry)
    requires Fold(es).Ok? && Fold(es).value.Some? && r in Fold(es).value.value.applied
    ensures e in es && RefOf(e) == Some(r)
  {
    hide Fold, RefOf;
    AppliedComesFromEntries(es);
    e :| e in es && RefOf(e) == Some(r);
  }

  lemma RefsOfOneTx(e: Entry, f: Entry)
    requires RefOf(e).Some? && RefOf(f).Some?
    ensures RefOf(e).value.txId == e.tx.id
    ensures e.tx == f.tx ==> RefOf(e).value.record == RefOf(f).value.record
  {
  }

  lemma HistoryCommits(b: Blocks, at: nat, kind: RecordKind)
    requires |b| > 0 && Reconstruct(b, at).Ok? && IdsCommit(b)
    ensures SameIdSameRecord(Reconstruct(b, at).value.HistoryOf(kind))
  {
    hide Fold, RefOf, Entries, HistoryIn;
    var es := Entries(b[..End(b, at) + 1]);
    var c := Fold(es).value.value;
    EntriesGrow(b[..End(b, at) + 1], b);
    HistoryIsApplied(c.applied, kind);
    var h := HistoryIn(c.applied, kind);
    forall i, j | 0 <= i < |h| && 0 <= j < |h| && h[i].txId == h[j].txId
      ensures h[i].record == h[j].record
    {
      assert h[i] in c.applied && h[j] in c.applied;
      var e := AppliedEntry(es, h[i]);
      var f := AppliedEntry(es, h[j]);
      RefsOfOneTx(e, f);
      RefsOfOneTx(f, e);
    }
  }

  /** What has been applied stays applied: later companies extend earlier ones. */
  lemma AppliedNests(b: Blocks, at: nat, later: nat)
    requires at <= later < |b| && Reconstruct(b, at).Ok? && Reconstruct(b, later).Ok?
    ensures Reconstruct(b, at).value.applied <= Reconstruct(b, later).value.applied
  {
    hide Fold, Entries;
    assert b[..at + 1] <= b[..later + 1];
    EntriesGrow(b[..at + 1], b[..later + 1]);
    AppliedGrows(Entries(b[..at + 1]), Entries(b[..later + 1]));
  }

  lemma {:induction false} FoldKeepsCompany(es: seq<Entry>, es': seq<Entry>)
    requires es <= es' && Fold(es').Ok? && Fold(es).Ok? && Fold(es).value.Some?
    ensures Fold(es').value.Some?
    ensures Fold(es').value.value.company == Fold(es).value.value.company
    ensures Fold(es').value.value.genesisTx == Fold(es).value.value.genesisTx
    decreases |es'|
  {
    hide MaySign, LockedOutBy;
    if |es| < |es'| { FoldKeepsCompany(es, es'[..|es'| - 1]); } else { assert es == es'; }
  }

  /** One ledger, one company: who it is and where it was founded never change. */
  lemma CompanyIsFixed(b: Blocks, at: nat, later: nat)
    requires at <= later < |b| && Reconstruct(b, at).Ok? && Reconstruct(b, later).Ok?
    ensures Reconstruct(b, later).value.company == Reconstruct(b, at).value.company
    ensures Reconstruct(b, later).value.genesisTx == Reconstruct(b, at).value.genesisTx
  {
    hide Fold, Entries;
    assert b[..at + 1] <= b[..later + 1];
    EntriesGrow(b[..at + 1], b[..later + 1]);
    FoldKeepsCompany(Entries(b[..at + 1]), Entries(b[..later + 1]));
  }

  lemma ReconstructsBetween(b: Blocks, at: nat, mid: nat, later: nat)
    requires at <= mid <= later < |b| && Reconstruct(b, at).Ok? && Reconstruct(b, later).Ok?
    ensures Reconstruct(b, mid).Ok?
  {
    hide Fold, Entries;
    var x, y, z := b[..at + 1], b[..mid + 1], b[..later + 1];
    assert x <= y <= z;
    EntriesGrow(x, y);
    EntriesGrow(y, z);
    if Fold(Entries(y)).Err? {
      BreakStays(Entries(y), Entries(z));
    } else {
      AppliedGrows(Entries(x), Entries(y));
    }
  }

  /** Between a height that reconstructs and a later one that does, every height does, and histories only grow. */
  lemma HistoriesNest(b: Blocks, at: nat, mid: nat, later: nat, kind: RecordKind)
    requires at <= mid <= later < |b| && Reconstruct(b, at).Ok? && Reconstruct(b, later).Ok?
    ensures Reconstruct(b, mid).Ok?
    ensures Reconstruct(b, at).value.HistoryOf(kind) <= Reconstruct(b, mid).value.HistoryOf(kind)
    ensures Reconstruct(b, mid).value.HistoryOf(kind) <= Reconstruct(b, later).value.HistoryOf(kind)
  {
    hide Reconstruct;
    ReconstructsBetween(b, at, mid, later);
    AppliedNests(b, at, mid);
    AppliedNests(b, mid, later);
    HistoryGrows(Reconstruct(b, at).value.applied, Reconstruct(b, mid).value.applied, kind);
    HistoryGrows(Reconstruct(b, mid).value.applied, Reconstruct(b, later).value.applied, kind);
  }

  /**
   No ABA: if one record provides a part at two heights, the part never changed between them —
   same history, same provider, same value in force at every height in between.
   */
  lemma NoAba(b: Blocks, at: nat, mid: nat, later: nat, kind: RecordKind)
    requires at <= mid <= later < |b| && IdsCommit(b) && kind != GenesisKind
    requires Reconstruct(b, at).Ok? && Reconstruct(b, later).Ok?
    requires Reconstruct(b, at).value.ProviderOf(kind) == Reconstruct(b, later).value.ProviderOf(kind)
    ensures Reconstruct(b, mid).Ok?
    ensures Reconstruct(b, mid).value.HistoryOf(kind) == Reconstruct(b, at).value.HistoryOf(kind)
    ensures PartInForce(Reconstruct(b, mid).value, kind) == PartInForce(Reconstruct(b, at).value, kind)
  {
    hide Reconstruct, HistoryIn, Provided, PartInForce;
    HistoriesNest(b, at, mid, later, kind);
    ReconstructedHistory(b, at, kind);
    ReconstructedHistory(b, mid, kind);
    ReconstructedHistory(b, later, kind);
    var h, g := Reconstruct(b, at).value.HistoryOf(kind), Reconstruct(b, later).value.HistoryOf(kind);
    assert h[|h| - 1].txId == g[|g| - 1].txId && g[|h| - 1] == h[|h| - 1];
    assert |h| == |g|;
    assert h == g;
  }

  /** Once replaced, a provider is gone for good: it provides the part at no later height. */
  lemma ReplacedForGood(b: Blocks, at: nat, mid: nat, later: nat, kind: RecordKind)
    requires at <= mid <= later < |b| && IdsCommit(b) && kind != GenesisKind
    requires Reconstruct(b, at).Ok? && Reconstruct(b, mid).Ok? && Reconstruct(b, later).Ok?
    requires Reconstruct(b, mid).value.ProviderOf(kind) != Reconstruct(b, at).value.ProviderOf(kind)
    ensures Reconstruct(b, later).value.ProviderOf(kind) != Reconstruct(b, at).value.ProviderOf(kind)
  {
    hide Reconstruct, HistoryIn, Provided, PartInForce;
    if Reconstruct(b, later).value.ProviderOf(kind) == Reconstruct(b, at).value.ProviderOf(kind) {
      NoAba(b, at, mid, later, kind);
      ReconstructedHistory(b, at, kind);
      ReconstructedHistory(b, mid, kind);
    }
  }
}
