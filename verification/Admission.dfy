/**
 Which ledgers are companies: what every company record on one has to satisfy, told from the
 record, its place and the company just before it; and what the company then consists of.
 */
module Admission {
  import opened Ordering
  import opened Parts
  import opened Records
  import opened Ledger
  import opened History

  // ---------------------------------------------------------------- the ledger up to a place

  /** The ledger cut just before transaction `i` of block `h`. */
  function UpTo(b: Blocks, h: nat, i: nat): Blocks
    requires h < |b| && i <= |b[h]|
  {
    b[..h] + [b[h][..i]]
  }

  predicate InCompanySpace(tx: Tx) {
    || tx.body.ns == CompanyNs || tx.body.ns == SharesNs || tx.body.ns == ChannelsNs
    || tx.body.ns == PersonsNs || tx.body.ns == AuthorisationNs
  }

  /** The namespace a record of each kind belongs in. */
  predicate InItsPlace(ns: Namespace, body: RecordBody) {
    match body
    case Genesis(_, _, _, _, _) => ns == CompanyNs
    case IdentityBody(_) => ns == CompanyNs
    case SharesBody(_) => ns == SharesNs
    case ChannelsBody(_) => ns == ChannelsNs
    case PersonsBody(_) => ns == PersonsNs
    case AuthorisationBody(_) => ns == AuthorisationNs
  }

  // ---------------------------------------------------------------- what a record has to satisfy

  /** Somebody holds the key, and is listed to sign such records. */
  predicate ListedSigner(persons: seq<Person>, rows: seq<Signer>, family: Family, key: PublicKey) {
    exists p :: p in persons && p.key == Some(key) && Signer(p.id, family) in rows
  }

  predicate SomebodyAmends(persons: seq<Person>, rows: seq<Signer>) {
    exists p :: p in persons && p.key.Some? && Signer(p.id, CompanyFamily) in rows
  }

  /** The record that provides the part a body would replace. */
  function InForceFor(c: Company, body: RecordBody): TxId {
    match body
    case Genesis(_, _, _, _, _) => c.genesisTx
    case IdentityBody(_) => c.identity.txId
    case SharesBody(_) => c.shares.txId
    case ChannelsBody(_) => c.channels.txId
    case PersonsBody(_) => c.persons.txId
    case AuthorisationBody(_) => c.authorisation.txId
  }

  /** Once the body is in, somebody can still amend. */
  predicate StaysOpen(c: Company, body: RecordBody) {
    match body
    case PersonsBody(persons) => SomebodyAmends(persons, c.authorisation.value)
    case AuthorisationBody(rows) => SomebodyAmends(c.persons.value, rows)
    case _ => SomebodyAmends(c.persons.value, c.authorisation.value)
  }

  /** A founding record: it supersedes nothing and leaves somebody able to amend. */
  predicate Founds(record: Record) {
    && record.body.Genesis? && record.supersedes.None?
    && SomebodyAmends(record.body.persons, record.body.authorisation)
  }

  /** An amendment of this company: its own, signed by a company signer, of the record in force. */
  predicate Amends(c: Company, record: Record, signer: PublicKey) {
    && record.company == c.company && !record.body.Genesis?
    && ListedSigner(c.persons.value, c.authorisation.value, CompanyFamily, signer)
    && record.supersedes == Some(InForceFor(c, record.body)) && StaysOpen(c, record.body)
  }

  /** What the chain asks of a transaction in the company's namespaces, given the company before it. */
  predicate Admitted(before: Option<Company>, tx: Tx) {
    && tx.body.payload.CompanyPayload? && InItsPlace(tx.body.ns, tx.body.payload.record.body)
    && match before
       case None => Founds(tx.body.payload.record)
       case Some(c) => Amends(c, tx.body.payload.record, tx.body.signer)
  }

  /** The company just before a place, if there is one. */
  function CompanyBefore(b: Blocks, h: nat, i: nat): Option<Company>
    requires h < |b| && i <= |b[h]|
  {
    match Reconstruct(UpTo(b, h, i), h)
    case Ok(c) => Some(c)
    case Err(_) => None
  }

  predicate AdmittedAt(b: Blocks, h: nat, i: nat)
    requires h < |b| && i < |b[h]|
  {
    InCompanySpace(b[h][i]) ==> Admitted(CompanyBefore(b, h, i), b[h][i])
  }

  /** Every company record at or below a height is admitted where it stands. */
  predicate AllAdmitted(b: Blocks, end: nat)
    requires end < |b|
  {
    forall h, i :: 0 <= h <= end && 0 <= i < |b[h]| ==> AdmittedAt(b, h, i)
  }

  predicate SomeRecord(b: Blocks, end: nat)
    requires end < |b|
  {
    exists h, i :: 0 <= h <= end && 0 <= i < |b[h]| && InCompanySpace(b[h][i])
  }

  // ---------------------------------------------------------------- one record

  lemma SignersAreListed(persons: Identities, rows: Authorisation, family: Family, key: PublicKey)
    ensures SignerOf(persons, rows, family, key).Some? <==> ListedSigner(persons, rows, family, key)
  {
    if SignerOf(persons, rows, family, key).Some? {
      var p := HolderOf(persons, key).value;
      AllowsIsMembership(rows, p.id, family);
    }
    if p :| p in persons && p.key == Some(key) && Signer(p.id, family) in rows {
      ListedPersonFound(persons, p);
      HolderIsThePerson(persons, p.id, key);
      AllowsIsMembership(rows, p.id, family);
    }
  }

  lemma OpenIsNotLocked(persons: Identities, rows: Authorisation)
    ensures LockedOutBy(persons, rows) <==> !SomebodyAmends(persons, rows)
  {
    if !LockedOutBy(persons, rows) {
      var s :| s in rows && s.family == CompanyFamily && KeyOf(persons, s.person).Some?;
      assert s == Signer(s.person, CompanyFamily);
    }
    if p :| p in persons && p.key.Some? && Signer(p.id, CompanyFamily) in rows {
      ListedPersonFound(persons, p);
      assert KeyOf(persons, Signer(p.id, CompanyFamily).person).Some?;
    }
  }

  lemma ReadsInPlace(e: Entry)
    ensures IsIrena(e.tx) <==> InCompanySpace(e.tx)
    ensures InCompanySpace(e.tx) ==>
      (RefOf(e).Some? <==> e.tx.body.payload.CompanyPayload? && InItsPlace(e.tx.body.ns, e.tx.body.payload.record.body))
    ensures RefOf(e).Some? ==>
      RefOf(e).value == RecordRef(e.height, e.index, e.tx.id, e.tx.body.signer, e.tx.body.payload.record)
  {
  }

  lemma FoundingIsExact(r: RecordRef)
    ensures Found(r).Ok? <==> Founds(r.record)
  {
    hide LockedOutBy, SomebodyAmends;
    if r.record.body.Genesis? { OpenIsNotLocked(r.record.body.persons, r.record.body.authorisation); }
  }

  lemma AmendingIsExact(c: Company, r: RecordRef)
    ensures Apply(c, r).Ok? <==> Amends(c, r.record, r.signer)
  {
    hide LockedOutBy, SomebodyAmends, SignerOf, ListedSigner;
    SignersAreListed(c.persons.value, c.authorisation.value, CompanyFamily, r.signer);
    var next := Replaced(c, r);
    OpenIsNotLocked(next.persons.value, next.authorisation.value);
  }

  lemma StepIsExact(c: Option<Company>, e: Entry)
    ensures Step(c, e).Ok? <==> (InCompanySpace(e.tx) ==> Admitted(c, e.tx))
    ensures Step(c, e).Ok? ==> (Step(c, e).value.Some? <==> c.Some? || InCompanySpace(e.tx))
  {
    hide Found, Apply, IsIrena, RefOf, InCompanySpace, InItsPlace, Founds, Amends;
    ReadsInPlace(e);
    if RefOf(e).Some? {
      FoundingIsExact(RefOf(e).value);
      if c.Some? { AmendingIsExact(c.value, RefOf(e).value); }
    }
  }

  // ---------------------------------------------------------------- all of them

  function SoFar(es: seq<Entry>): Option<Company> { if Fold(es).Ok? then Fold(es).value else None }

  predicate AdmittedEntry(es: seq<Entry>, k: nat)
    requires k < |es|
  {
    InCompanySpace(es[k].tx) ==> Admitted(SoFar(es[..k]), es[k].tx)
  }

  lemma {:induction false} FoldIsExact(es: seq<Entry>)
    ensures Fold(es).Ok? <==> forall k :: 0 <= k < |es| ==> AdmittedEntry(es, k)
    ensures Fold(es).Ok? ==> (Fold(es).value.Some? <==> exists k :: 0 <= k < |es| && InCompanySpace(es[k].tx))
  {
    hide Step, InCompanySpace, Admitted;
    if es == [] {
    } else {
      var n := |es| - 1;
      FoldIsExact(es[..n]);
      assert forall k :: 0 <= k < n ==> es[..n][..k] == es[..k] && es[..n][k] == es[k];
      assert forall k :: 0 <= k < n ==> AdmittedEntry(es[..n], k) == AdmittedEntry(es, k);
      if Fold(es[..n]).Ok? {
        StepIsExact(Fold(es[..n]).value, es[n]);
        assert AdmittedEntry(es, n) <==> Step(Fold(es[..n]).value, es[n]).Ok?;
      }
    }
  }

  // ---------------------------------------------------------------- places and entries

  lemma EntriesBefore(b: Blocks, h: nat, i: nat)
    requires h < |b| && i <= |b[h]|
    ensures Entries(UpTo(b, h, i)) == Entries(b[..h]) + BlockEntries(h, b[h])[..i]
  {
    var x := UpTo(b, h, i);
    assert x[..h] == b[..h] && x[h] == b[h][..i];
    assert BlockEntries(h, b[h][..i]) == BlockEntries(h, b[h])[..i];
  }

  lemma InLastBlock(b: Blocks, i: nat)
    requires |b| > 0 && i < |b[|b| - 1]|
    ensures var n := |b| - 1; var k := |Entries(b[..n])| + i;
      && k < |Entries(b)| && Entries(b)[k] == Entry(n, i, b[n][i])
      && Entries(b)[..k] == Entries(UpTo(b, n, i)) && Entries(b)[..k + 1] == Entries(UpTo(b, n, i + 1))
  {
    var n := |b| - 1;
    var k := |Entries(b[..n])| + i;
    EntriesBefore(b, n, i);
    EntriesBefore(b, n, i + 1);
    assert Entries(b) == Entries(b[..n]) + BlockEntries(n, b[n]);
    assert Entries(b)[..k] == Entries(b[..n]) + BlockEntries(n, b[n])[..i];
    assert Entries(b)[..k + 1] == Entries(b[..n]) + BlockEntries(n, b[n])[..i + 1];
  }

  /** Where a transaction is among the entries, and what comes before it there. */
  lemma {:induction false} EntryOfPlace(b: Blocks, h: nat, i: nat) returns (k: nat)
    requires h < |b| && i < |b[h]|
    ensures k < |Entries(b)| && Entries(b)[k] == Entry(h, i, b[h][i])
    ensures Entries(b)[..k] == Entries(UpTo(b, h, i)) && Entries(b)[..k + 1] == Entries(UpTo(b, h, i + 1))
  {
    var n := |b| - 1;
    if h == n {
      k := |Entries(b[..n])| + i;
      InLastBlock(b, i);
    } else {
      var c := b[..n];
      assert c[..h] == b[..h] && UpTo(c, h, i) == UpTo(b, h, i) && UpTo(c, h, i + 1) == UpTo(b, h, i + 1);
      k := EntryOfPlace(c, h, i);
      assert Entries(b)[..k] == Entries(c)[..k] && Entries(b)[..k + 1] == Entries(c)[..k + 1];
    }
  }

  /** Every entry has a place. */
  lemma {:induction false} PlaceOfEntry(b: Blocks, k: nat)
    requires k < |Entries(b)|
    ensures var e := Entries(b)[k];
      e.height < |b| && e.index < |b[e.height]| && e.tx == b[e.height][e.index]
      && Entries(b)[..k] == Entries(UpTo(b, e.height, e.index))
  {
    var n := |b| - 1;
    var c := b[..n];
    if k < |Entries(c)| {
      PlaceOfEntry(c, k);
      var e := Entries(c)[k];
      assert c[..e.height] == b[..e.height] && UpTo(c, e.height, e.index) == UpTo(b, e.height, e.index);
    } else {
      EntriesBefore(b, n, k - |Entries(c)|);
    }
  }

  lemma BeforeCut(b: Blocks, end: nat, h: nat, i: nat)
    requires h <= end < |b| && i <= |b[h]|
    ensures UpTo(b[..end + 1], h, i) == UpTo(b, h, i)
  {
    assert b[..end + 1][..h] == b[..h];
  }

  lemma CompanyIsSoFar(b: Blocks, h: nat, i: nat)
    requires h < |b| && i <= |b[h]|
    ensures var c := SoFar(Entries(UpTo(b, h, i)));
      CompanyBefore(b, h, i) == if c.None? then None else Some(c.value.(at := h))
  {
    hide Fold, Entries;
    var x := UpTo(b, h, i);
    assert x[..h + 1] == x;
  }

  lemma HeightIsNoMatter(c: Option<Company>, at: nat, tx: Tx)
    ensures c.Some? ==> Admitted(Some(c.value.(at := at)), tx) == Admitted(c, tx)
  {
    hide ListedSigner, SomebodyAmends;
  }

  lemma PlaceIsEntry(b: Blocks, h: nat, i: nat, k: nat)
    requires h < |b| && i < |b[h]| && k < |Entries(b)| && Entries(b)[k] == Entry(h, i, b[h][i])
    requires Entries(b)[..k] == Entries(UpTo(b, h, i))
    ensures AdmittedAt(b, h, i) == AdmittedEntry(Entries(b), k)
  {
    hide Fold, Entries, InCompanySpace, Admitted;
    CompanyIsSoFar(b, h, i);
    HeightIsNoMatter(SoFar(Entries(b)[..k]), h, b[h][i]);
  }

  /** Asking at every place is asking at every entry. */
  lemma PlacesAreEntries(b: Blocks)
    requires b != []
    ensures AllAdmitted(b, |b| - 1) <==> forall k :: 0 <= k < |Entries(b)| ==> AdmittedEntry(Entries(b), k)
  {
    hide Entries, AdmittedEntry, AdmittedAt;
    var es := Entries(b);
    if AllAdmitted(b, |b| - 1) {
      forall k | 0 <= k < |es| ensures AdmittedEntry(es, k) {
        PlaceOfEntry(b, k);
        PlaceIsEntry(b, es[k].height, es[k].index, k);
      }
    }
    if forall k :: 0 <= k < |es| ==> AdmittedEntry(es, k) {
      forall h, i | 0 <= h <= |b| - 1 && 0 <= i < |b[h]| ensures AdmittedAt(b, h, i) {
        var k := EntryOfPlace(b, h, i);
        PlaceIsEntry(b, h, i, k);
      }
    }
  }

  lemma SomePlaceIsSomeEntry(b: Blocks)
    requires b != []
    ensures SomeRecord(b, |b| - 1) <==> exists k :: 0 <= k < |Entries(b)| && InCompanySpace(Entries(b)[k].tx)
  {
    hide Entries, InCompanySpace;
    var es := Entries(b);
    if k :| 0 <= k < |es| && InCompanySpace(es[k].tx) {
      PlaceOfEntry(b, k);
      assert InCompanySpace(b[es[k].height][es[k].index]);
    }
    if h: nat, i: nat :| 0 <= h <= |b| - 1 && 0 <= i < |b[h]| && InCompanySpace(b[h][i]) {
      var k := EntryOfPlace(b, h, i);
      assert InCompanySpace(es[k].tx);
    }
  }

  lemma CutAdmits(b: Blocks, end: nat)
    requires end < |b|
    ensures AllAdmitted(b[..end + 1], end) == AllAdmitted(b, end)
    ensures SomeRecord(b[..end + 1], end) == SomeRecord(b, end)
  {
    hide Reconstruct, InCompanySpace, Admitted;
    var c := b[..end + 1];
    forall h, i | 0 <= h <= end && 0 <= i < |b[h]| ensures AdmittedAt(c, h, i) == AdmittedAt(b, h, i) {
      BeforeCut(b, end, h, i);
    }
    assert forall h :: 0 <= h <= end ==> c[h] == b[h];
  }

  /**
   The company reconstructs if and only if the ledger holds a company record and every one of
   them is admitted where it stands: readable in the namespace of its kind, a founding record
   first, and after it only amendments of this company, each signed by a key whose holder the
   company just before lists as a company signer, each superseding the record then in force, none
   of them leaving nobody able to amend.
   */
  lemma ReconstructsExactly(b: Blocks, at: nat)
    requires |b| > 0
    ensures Reconstruct(b, at).Ok? <==> SomeRecord(b, End(b, at)) && AllAdmitted(b, End(b, at))
  {
    hide Fold, Entries, AdmittedEntry, AdmittedAt, InCompanySpace;
    var end := End(b, at);
    CutAdmits(b, end);
    PlacesAreEntries(b[..end + 1]);
    SomePlaceIsSomeEntry(b[..end + 1]);
    FoldIsExact(Entries(b[..end + 1]));
  }

  // ---------------------------------------------------------------- what the company consists of

  /** The company records among entries, in chain order. */
  function CompanyRecords(es: seq<Entry>): seq<RecordRef> {
    if es == [] then [] else
      var e := es[|es| - 1];
      CompanyRecords(es[..|es| - 1]) +
      if InCompanySpace(e.tx) && e.tx.body.payload.CompanyPayload?
      then [RecordRef(e.height, e.index, e.tx.id, e.tx.body.signer, e.tx.body.payload.record)] else []
  }

  lemma {:induction false} AppliedAre(es: seq<Entry>)
    requires Fold(es).Ok?
    ensures CompanyRecords(es) == if Fold(es).value.None? then [] else Fold(es).value.value.applied
  {
    hide IsIrena, InCompanySpace, InItsPlace, RefOf, MaySign, LockedOutBy, Replaced;
    if es == [] {
    } else {
      var n := |es| - 1;
      AppliedAre(es[..n]);
      ReadsInPlace(es[n]);
    }
  }

  lemma ReplacedKeepsName(es: seq<Entry>, n: nat)
    requires n < |es| && Fold(es[..n]).Ok? && Fold(es[..n]).value.Some?
    ensures forall r :: Replaced(Fold(es[..n]).value.value, r).company == Fold(es[..n]).value.value.company
  {
    hide Fold;
  }

  lemma {:induction false} AllNameOne(es: seq<Entry>)
    requires Fold(es).Ok? && Fold(es).value.Some?
    ensures forall k :: 0 <= k < |es| && InCompanySpace(es[k].tx) ==>
      es[k].tx.body.payload.CompanyPayload? && es[k].tx.body.payload.record.company == Fold(es).value.value.company
  {
    hide IsIrena, InCompanySpace, InItsPlace, RefOf, MaySign, LockedOutBy, Replaced;
    var n := |es| - 1;
    ReadsInPlace(es[n]);
    if Fold(es[..n]).value.Some? {
      AllNameOne(es[..n]);
      assert forall k :: 0 <= k < n ==> es[..n][k] == es[k];
      ReplacedKeepsName(es, n);
    } else {
      FoldIsExact(es[..n]);
      assert forall k :: 0 <= k < n ==> es[..n][k] == es[k];
    }
  }

  /**
   What a reconstructed company is made of: exactly the company records at or below the height, in
   chain order, every one of them naming this company and none other.
   */
  lemma MadeOfItsRecords(b: Blocks, at: nat)
    requires |b| > 0 && Reconstruct(b, at).Ok?
    ensures Reconstruct(b, at).value.applied == CompanyRecords(Entries(b[..End(b, at) + 1]))
    ensures forall h, i :: 0 <= h <= End(b, at) && 0 <= i < |b[h]| && InCompanySpace(b[h][i]) ==>
      && b[h][i].body.payload.CompanyPayload?
      && b[h][i].body.payload.record.company == Reconstruct(b, at).value.company
  {
    hide Fold, Entries, InCompanySpace, CompanyRecords;
    var end := End(b, at);
    var c := b[..end + 1];
    AppliedAre(Entries(c));
    AllNameOne(Entries(c));
    forall h, i | 0 <= h <= end && 0 <= i < |b[h]| && InCompanySpace(b[h][i])
      ensures b[h][i].body.payload.CompanyPayload?
      ensures b[h][i].body.payload.record.company == Reconstruct(b, at).value.company
    {
      var k := EntryOfPlace(c, h, i);
    }
  }

  /** Two company records that name different companies: there is no company at any height from the later one on. */
  lemma ForeignRecordBreaks(b: Blocks, at: nat, h: nat, i: nat, g: nat, j: nat)
    requires h < |b| && i < |b[h]| && g < |b| && j < |b[g]| && h <= at && g <= at
    requires InCompanySpace(b[h][i]) && InCompanySpace(b[g][j])
    requires b[h][i].body.payload.CompanyPayload? && b[g][j].body.payload.CompanyPayload?
    requires b[h][i].body.payload.record.company != b[g][j].body.payload.record.company
    ensures Reconstruct(b, at).Err?
  {
    hide Reconstruct, InCompanySpace;
    if Reconstruct(b, at).Ok? { MadeOfItsRecords(b, at); }
  }

  /** The error a foreign record leaves, at every height from its own on. */
  lemma ForeignRecordIsNamed(b: Blocks, at: nat, h: nat, i: nat)
    requires h < |b| && i < |b[h]| && h <= at && InCompanySpace(b[h][i]) && CompanyBefore(b, h, i).Some?
    requires b[h][i].body.payload.CompanyPayload? && InItsPlace(b[h][i].body.ns, b[h][i].body.payload.record.body)
    requires b[h][i].body.payload.record.company != CompanyBefore(b, h, i).value.company
    ensures var company := CompanyBefore(b, h, i).value.company;
      Reconstruct(b, at) == Err(ForeignCompany(company, b[h][i].body.payload.record.company, h, b[h][i].id))
  {
    hide Entries, InCompanySpace, InItsPlace, IsIrena, RefOf;
    var e := Entry(h, i, b[h][i]);
    var end := End(b, at);
    ReadsInPlace(e);
    BeforeCut(b, end, h, i);
    BeforeCut(b, end, h, i + 1);
    CompanyIsSoFar(b, h, i);
    var k := EntryOfPlace(b[..end + 1], h, i);
    var es := Entries(b[..end + 1]);
    assert es[..k + 1] == es[..k] + [e];
    FoldStep(es[..k], e);
    BreakStays(es[..k + 1], es);
  }

  /** Right after an admitted record the part it carries is in force, provided by it. */
  predicate InForceAs(c: Company, body: RecordBody, txId: TxId) {
    match body
    case Genesis(identity, shares, channels, persons, rows) =>
      && c.identity.value == identity && c.shares.value == shares && c.channels.value == channels
      && c.persons.value == persons && c.authorisation.value == rows && c.genesisTx == txId
      && c.identity.txId == c.shares.txId == c.channels.txId == c.persons.txId == c.authorisation.txId == txId
    case IdentityBody(v) => c.identity.value == v && c.identity.txId == txId
    case SharesBody(v) => c.shares.value == v && c.shares.txId == txId
    case ChannelsBody(v) => c.channels.value == v && c.channels.txId == txId
    case PersonsBody(v) => c.persons.value == v && c.persons.txId == txId
    case AuthorisationBody(v) => c.authorisation.value == v && c.authorisation.txId == txId
  }

  lemma StepPutsInForce(c: Option<Company>, e: Entry)
    requires InCompanySpace(e.tx) && Step(c, e).Ok?
    ensures Step(c, e).value.Some? && e.tx.body.payload.CompanyPayload?
    ensures InForceAs(Step(c, e).value.value, e.tx.body.payload.record.body, e.tx.id)
  {
    hide MaySign, LockedOutBy, IsIrena, RefOf, InCompanySpace, InItsPlace;
    ReadsInPlace(e);
  }

  lemma HeightKeepsForce(c: Company, at: nat, body: RecordBody, txId: TxId)
    ensures InForceAs(c.(at := at), body, txId) == InForceAs(c, body, txId)
  {
  }

  /** Every company record of a ledger that reconstructs put its part in force, right where it stands. */
  lemma RecordTakesForce(b: Blocks, at: nat, h: nat, i: nat)
    requires h < |b| && i < |b[h]| && h <= at && InCompanySpace(b[h][i]) && Reconstruct(b, at).Ok?
    ensures CompanyBefore(b, h, i + 1).Some? && b[h][i].body.payload.CompanyPayload?
    ensures InForceAs(CompanyBefore(b, h, i + 1).value, b[h][i].body.payload.record.body, b[h][i].id)
  {
    hide Entries, Step, InForceAs, InCompanySpace;
    var e := Entry(h, i, b[h][i]);
    var end := End(b, at);
    BeforeCut(b, end, h, i);
    BeforeCut(b, end, h, i + 1);
    CompanyIsSoFar(b, h, i + 1);
    var k := EntryOfPlace(b[..end + 1], h, i);
    var es := Entries(b[..end + 1]);
    assert es[..k + 1] == es[..k] + [e];
    FoldStep(es[..k], e);
    if Fold(es[..k + 1]).Err? { BreakStays(es[..k + 1], es); }
    StepPutsInForce(Fold(es[..k]).value, e);
    HeightKeepsForce(Fold(es[..k + 1]).value.value, h, b[h][i].body.payload.record.body, b[h][i].id);
  }
}
