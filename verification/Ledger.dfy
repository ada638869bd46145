/**
 The company as a fold over the ledger: one genesis, then amendments, each judged against the
 company as it was before it; who may sign a record; and publishing an amendment.
 */
module Ledger {
  import opened Ordering
  import opened Parts
  import opened Records
  import opened Text

  /** A record as found on the ledger. */
  datatype RecordRef = RecordRef(height: nat, index: nat, txId: TxId, signer: PublicKey, record: Record)

  /** A part of the company with the record that provides it. */
  datatype InForce<T> = InForce(value: T, txId: TxId, height: nat, notarisation: Notarisation, supersedes: Option<TxId>)

  datatype Company = Company(
    company: Id, at: nat, genesisTx: TxId, genesisHeight: nat,
    identity: InForce<Identity>, shares: InForce<Register>, channels: InForce<ChannelSet>,
    persons: InForce<Identities>, authorisation: InForce<Authorisation>,
    applied: seq<RecordRef>)
  {
    /** `provider_of`. */
    function ProviderOf(kind: RecordKind): TxId {
      match kind
      case GenesisKind => genesisTx
      case IdentityKind => identity.txId
      case SharesKind => shares.txId
      case ChannelsKind => channels.txId
      case PersonsKind => persons.txId
      case AuthorisationKind => authorisation.txId
    }

    /** `history_of`: the genesis, then every amendment of the part. */
    function HistoryOf(kind: RecordKind): seq<RecordRef> { HistoryIn(applied, kind) }
  }

  predicate Concerns(r: RecordRef, kind: RecordKind) {
    r.record.body.Kind() == GenesisKind || r.record.body.Kind() == kind
  }

  function HistoryIn(applied: seq<RecordRef>, kind: RecordKind): seq<RecordRef> {
    if applied == [] then [] else
      var n := |applied| - 1;
      HistoryIn(applied[..n], kind) + if Concerns(applied[n], kind) then [applied[n]] else []
  }

  datatype LedgerError =
    | NoCompany(at: nat)
    | NoGenesisFirst(height: nat, txId: TxId, kind: RecordKind)
    | SecondGenesis(first: TxId, height: nat, txId: TxId)
    | ForeignCompany(expected: Id, found: Id, height: nat, txId: TxId)
    | UnreadableRecord(height: nat, txId: TxId)
    | UnauthorisedRecord(height: nat, txId: TxId, kind: RecordKind, signer: PublicKey)
    | BrokenAmendmentChain(height: nat, txId: TxId, kind: RecordKind, expectedTx: Option<TxId>, foundTx: Option<TxId>)
    | Lockout(height: nat, txId: TxId)
    | NotAnAmendment
    | UnauthorisedSigner(family: Family, signer: PublicKey)
    | StaleAmendment(kind: RecordKind, provider: TxId, superseded: Option<TxId>)
    | InvalidBody
    | LockedOut
    | NotAppended

  // ---------------------------------------------------------------- authority

  /** `signer_of`: the person holding the key, if the authorisation lists them for the family. */
  function SignerOf(persons: seq<Person>, authorisation: seq<Signer>, family: Family, key: PublicKey): Option<Person> {
    match HolderOf(persons, key)
    case None => None
    case Some(person) => if Allows(authorisation, person.id, family) then Some(person) else None
  }

  predicate MaySign(c: Company, family: Family, key: PublicKey) {
    SignerOf(c.persons.value, c.authorisation.value, family, key).Some?
  }

  /** `lockout_after`: no `company` signer holds a key. */
  predicate LockedOutBy(persons: seq<Person>, authorisation: seq<Signer>) {
    forall s :: s in authorisation && s.family == CompanyFamily ==> KeyOf(persons, s.person).None?
  }

  /** The lockout rule is exact: it lets through just the pairs some key can still amend under. */
  lemma LockoutIsExact(persons: Identities, authorisation: Authorisation)
    ensures !LockedOutBy(persons, authorisation) <==>
      exists key :: SignerOf(persons, authorisation, CompanyFamily, key).Some?
  {
    if !LockedOutBy(persons, authorisation) {
      var s :| s in authorisation && s.family == CompanyFamily && KeyOf(persons, s.person).Some?;
      var key := KeyOf(persons, s.person).value;
      HolderIsThePerson(persons, s.person, key);
      AllowsIsMembership(authorisation, s.person, CompanyFamily);
      assert SignerOf(persons, authorisation, CompanyFamily, key).Some?;
    }
    if key :| SignerOf(persons, authorisation, CompanyFamily, key).Some? {
      var person := HolderOf(persons, key).value;
      HolderIsThePerson(persons, person.id, key);
      AllowsIsMembership(authorisation, person.id, CompanyFamily);
      assert Signer(person.id, CompanyFamily) in authorisation;
    }
  }

  // ---------------------------------------------------------------- one record

  /** `found_company`. */
  function Found(r: RecordRef): Result<Company, LedgerError> {
    match r.record.body
    case Genesis(identity, shares, channels, persons, authorisation) =>
      if r.record.supersedes.Some? then
        Err(BrokenAmendmentChain(r.height, r.txId, GenesisKind, None, r.record.supersedes))
      else if LockedOutBy(persons, authorisation) then Err(Lockout(r.height, r.txId))
      else Ok(Company(r.record.company, r.height, r.txId, r.height, From(r, identity), From(r, shares),
                      From(r, channels), From(r, persons), From(r, authorisation), [r]))
    case _ => Err(NoGenesisFirst(r.height, r.txId, r.record.body.Kind()))
  }

  function From<T>(r: RecordRef, value: T): InForce<T> {
    InForce(value, r.txId, r.height, r.record.notarisation, r.record.supersedes)
  }

  /** The company with the record's part replaced. */
  function Replaced(c: Company, r: RecordRef): Company {
    match r.record.body
    case IdentityBody(v) => c.(identity := From(r, v))
    case SharesBody(v) => c.(shares := From(r, v))
    case ChannelsBody(v) => c.(channels := From(r, v))
    case PersonsBody(v) => c.(persons := From(r, v))
    case AuthorisationBody(v) => c.(authorisation := From(r, v))
    case Genesis(_, _, _, _, _) => c
  }

  /** `apply`: company, kind, signer, base, then the lockout rule on the result. */
  function Apply(c: Company, r: RecordRef): Result<Company, LedgerError> {
    var kind := r.record.body.Kind();
    var next := Replaced(c, r);
    if r.record.company != c.company then Err(ForeignCompany(c.company, r.record.company, r.height, r.txId))
    else if kind == GenesisKind then Err(SecondGenesis(c.genesisTx, r.height, r.txId))
    else if !MaySign(c, CompanyFamily, r.signer) then Err(UnauthorisedRecord(r.height, r.txId, kind, r.signer))
    else if r.record.supersedes != Some(c.ProviderOf(kind)) then
      Err(BrokenAmendmentChain(r.height, r.txId, kind, Some(c.ProviderOf(kind)), r.record.supersedes))
    else if LockedOutBy(next.persons.value, next.authorisation.value) then Err(Lockout(r.height, r.txId))
    else Ok(next.(applied := c.applied + [r]))
  }

  // ---------------------------------------------------------------- the fold

  /** Whether a transaction is in one of the company namespaces. */
  predicate IsIrena(tx: Tx) {
    tx.body.ns in {CompanyNs, SharesNs, ChannelsNs, PersonsNs, AuthorisationNs}
  }

  function RefOf(e: Entry): Option<RecordRef> {
    match e.tx.body.payload
    case CompanyPayload(record, _) =>
      if NamespaceOf(record.body.Kind()) == e.tx.body.ns
      then Some(RecordRef(e.height, e.index, e.tx.id, e.tx.body.signer, record)) else None
    case _ => None
  }

  /** What one transaction does to the company so far. */
  function Step(c: Option<Company>, e: Entry): Result<Option<Company>, LedgerError> {
    if !IsIrena(e.tx) then Ok(c)
    else match RefOf(e)
      case None => Err(UnreadableRecord(e.height, e.tx.id))
      case Some(r) =>
        match (if c.None? then Found(r) else Apply(c.value, r))
        case Ok(next) => Ok(Some(next))
        case Err(e) => Err(e)
  }

  function Fold(es: seq<Entry>): Result<Option<Company>, LedgerError> {
    if es == [] then Ok(None) else
      var n := |es| - 1;
      match Fold(es[..n])
      case Err(e) => Err(e)
      case Ok(c) => Step(c, es[n])
  }

  /** `reconstruct`: everything up to `at`, or up to the head if that is lower. */
  function Reconstruct(b: Blocks, at: nat): Result<Company, LedgerError>
    requires |b| > 0
  {
    var end := if at < |b| then at else |b| - 1;
    match Fold(Entries(b[..end + 1]))
    case Err(e) => Err(e)
    case Ok(None) => Err(NoCompany(end))
    case Ok(Some(c)) => Ok(c.(at := at))
  }

  /** `company_now`. */
  function CompanyNow(b: Blocks): Result<Company, LedgerError>
    requires |b| > 0
  {
    Reconstruct(b, |b| - 1)
  }

  /** `reconstruct` as it runs: block by block, transaction by transaction, stopping at a break. */
  method ReconstructAt(b: Blocks, at: nat) returns (r: Result<Company, LedgerError>)
    requires |b| > 0
    ensures r == Reconstruct(b, at)
  {
    hide Step, Fold, Entries;
    NothingYet(b);
    var end := if at < |b| then at else |b| - 1;
    var state: Option<Company> := None;
    for h := 0 to end + 1
      invariant Fold(Entries(b[..h])) == Ok(state)
    {
      var entries := BlockEntries(h, b[h]);
      BlockAdded(b, h);
      assert Entries(b[..h]) + entries[..0] == Entries(b[..h]);
      for i := 0 to |entries|
        invariant Fold(Entries(b[..h]) + entries[..i]) == Ok(state)
      {
        FoldStep(Entries(b[..h]) + entries[..i], entries[i]);
        assert Entries(b[..h]) + entries[..i + 1] == Entries(b[..h]) + entries[..i] + [entries[i]];
        match Step(state, entries[i]) {
          case Err(error) =>
            BreakIsKept(b, h, i + 1, end);
            return Err(error);
          case Ok(next) => state := next;
        }
      }
      assert entries[..|entries|] == entries;
    }
    r := if state.None? then Err(NoCompany(end)) else Ok(state.value.(at := at));
  }

  lemma NothingYet(b: Blocks)
    ensures Fold(Entries(b[..0])) == Ok(None)
  {
  }

  lemma BlockAdded(b: Blocks, h: nat)
    requires h < |b|
    ensures Entries(b[..h + 1]) == Entries(b[..h]) + BlockEntries(h, b[h])
  {
    assert b[..h + 1][..h] == b[..h];
  }

  lemma FoldStep(es: seq<Entry>, e: Entry)
    ensures Fold(es + [e]) == match Fold(es) case Err(x) => Err(x) case Ok(c) => Step(c, e)
  {
    assert (es + [e])[..|es|] == es;
  }

  /** A break on a prefix is the break of the whole. */
  lemma {:induction false} BreakStays(es: seq<Entry>, es': seq<Entry>)
    requires es <= es' && Fold(es).Err?
    ensures Fold(es') == Fold(es)
  {
    if |es| < |es'| { BreakStays(es, es'[..|es'| - 1]); } else { assert es == es'; }
  }

  lemma BreakIsKept(b: Blocks, h: nat, i: nat, end: nat)
    requires h <= end < |b| && i <= |b[h]|
    requires Fold(Entries(b[..h]) + BlockEntries(h, b[h])[..i]).Err?
    ensures Fold(Entries(b[..end + 1])) == Fold(Entries(b[..h]) + BlockEntries(h, b[h])[..i])
  {
    var es := Entries(b[..h]) + BlockEntries(h, b[h])[..i];
    assert b[..h + 1][..h] == b[..h];
    assert es <= Entries(b[..h + 1]);
    EntriesGrow(b[..h + 1], b[..end + 1]);
    BreakStays(es, Entries(b[..end + 1]));
  }

  // ---------------------------------------------------------------- stability

  /** A past height is fixed: appending blocks never changes what was reconstructed there. */
  lemma PastIsFixed(b: Blocks, b': Blocks, at: nat)
    requires b <= b' && at < |b|
    ensures Reconstruct(b', at) == Reconstruct(b, at)
  {
    assert b'[..at + 1] == b[..at + 1];
  }

  /** A break is permanent: the same error at every later height of every extension. */
  lemma BreakIsPermanent(b: Blocks, b': Blocks, at: nat, later: nat)
    requires |b| > 0 && b <= b' && Reconstruct(b, at).Err? && !Reconstruct(b, at).error.NoCompany?
    requires at < |b| && at <= later
    ensures Reconstruct(b', later) == Reconstruct(b, at)
  {
    hide Fold, Entries;
    var end := if later < |b'| then later else |b'| - 1;
    assert b'[..at + 1] == b[..at + 1] && b'[..end + 1][..at + 1] == b'[..at + 1];
    EntriesGrow(b'[..at + 1], b'[..end + 1]);
    FoldNeverNoCompany(Entries(b[..at + 1]));
    BreakStays(Entries(b[..at + 1]), Entries(b'[..end + 1]));
  }

  lemma {:induction false} FoldNeverNoCompany(es: seq<Entry>)
    ensures Fold(es).Err? ==> !Fold(es).error.NoCompany? && !Fold(es).error.NotAppended?
  {
    if es == [] {
    } else {
      FoldNeverNoCompany(es[..|es| - 1]);
    }
  }

  /** A block without a company record changes nothing but the height. */
  lemma OtherRecordsChangeNothing(b: Blocks, tx: Tx)
    requires |b| > 0 && !IsIrena(tx) && CompanyNow(b).Ok?
    ensures CompanyNow(b + [[tx]]) == Ok(CompanyNow(b).value.(at := |b|))
  {
    OneMoreBlock(b, tx);
    assert b[..|b|] == b && (b + [[tx]])[..|b| + 1] == b + [[tx]];
    FoldStep(Entries(b), Entry(|b|, 0, tx));
  }

  lemma ApplyIgnoresHeight(c: Company, at: nat, r: RecordRef)
    ensures Apply(c.(at := at), r) == match Apply(c, r) case Ok(n) => Ok(n.(at := at)) case Err(e) => Err(e)
  {
    hide LockedOutBy, MaySign;
    assert MaySign(c.(at := at), CompanyFamily, r.signer)
      == MaySign(c, CompanyFamily, r.signer) by { MaySignReadsParts(c, at, r.signer); }
  }

  lemma MaySignReadsParts(c: Company, at: nat, key: PublicKey)
    ensures MaySign(c.(at := at), CompanyFamily, key) == MaySign(c, CompanyFamily, key)
  {
  }

  /** A block holding one amendment the company accepts leaves the amended company. */
  lemma AppliedRecordTakesEffect(b: Blocks, tx: Tx, r: RecordRef)
    requires |b| > 0 && CompanyNow(b).Ok? && IsIrena(tx) && RefOf(Entry(|b|, 0, tx)) == Some(r)
    ensures CompanyNow(b + [[tx]]) == match Apply(CompanyNow(b).value, r)
      case Ok(next) => Ok(next.(at := |b|))
      case Err(e) => Err(e)
  {
    hide Apply;
    OneMoreBlock(b, tx);
    assert b[..|b|] == b && (b + [[tx]])[..|b| + 1] == b + [[tx]];
    FoldStep(Entries(b), Entry(|b|, 0, tx));
    ApplyIgnoresHeight(Fold(Entries(b)).value.value, |b| - 1, r);
  }

  // ---------------------------------------------------------------- never locked out

  lemma {:induction false} FoldKeepsAKey(es: seq<Entry>)
    ensures Fold(es).Ok? && Fold(es).value.Some? ==>
      var c := Fold(es).value.value; !LockedOutBy(c.persons.value, c.authorisation.value)
  {
    if es == [] {
    } else {
      FoldKeepsAKey(es[..|es| - 1]);
    }
  }

  /** Every company that reconstructs can still be amended by somebody. */
  lemma NeverLockedOut(b: Blocks, at: nat)
    requires |b| > 0 && Reconstruct(b, at).Ok?
    ensures exists key :: MaySign(Reconstruct(b, at).value, CompanyFamily, key)
  {
    var end := if at < |b| then at else |b| - 1;
    FoldKeepsAKey(Entries(b[..end + 1]));
    var c := Reconstruct(b, at).value;
    LockoutIsExact(c.persons.value, c.authorisation.value);
    var key :| SignerOf(c.persons.value, c.authorisation.value, CompanyFamily, key).Some?;
    assert MaySign(c, CompanyFamily, key);
  }

  // ---------------------------------------------------------------- publishing

  /** The record and text `compose_record` builds. */
  function Compose(w: World, kind: RecordKind, company: Id, supersedes: Option<TxId>, notarisation: Notarisation,
      element: string): Option<Payload> {
    match w.read(kind, element)
    case None => None
    case Some(body) =>
      if body.Kind() != kind then None else
        Some(CompanyPayload(Record(company, supersedes, notarisation, body),
            RecordText(w, kind, company, supersedes, notarisation, element)))
  }

  /** The body is embedded verbatim between the envelope and its end tag. */
  function RecordText(w: World, kind: RecordKind, company: Id, supersedes: Option<TxId>,
      notarisation: Notarisation, element: string): string {
    w.envelope(kind, company, supersedes, notarisation) + element + "\n</irena-record>"
  }

  /** `genesis_with_company`: the one transaction of a genesis block that founds a company. */
  function FoundingTx(w: World, key: PublicKey, company: Id, text: string,
      notarisation: Notarisation): Result<Tx, LedgerError> {
    match w.read(GenesisKind, text)
    case None => Err(InvalidBody)
    case Some(body) =>
      if !body.Genesis? then Err(InvalidBody)
      else if LockedOutBy(body.persons, body.authorisation) then Err(LockedOut)
      else match Compose(w, GenesisKind, company, None, notarisation, Normalise(text))
        case None => Err(InvalidBody)
        case Some(payload) => Ok(Sealed(w, CompanyNs, payload, key, 0))
  }

  /** What it founds reconstructs from the genesis block alone, that record providing every part, and can be amended. */
  lemma FoundedCompanyReconstructs(w: World, key: PublicKey, company: Id, text: string,
      notarisation: Notarisation)
    requires FoundingTx(w, key, company, text, notarisation).Ok?
    requires w.read(GenesisKind, Normalise(text)) == w.read(GenesisKind, text)
    ensures var tx := FoundingTx(w, key, company, text, notarisation).value; var b := [[tx]];
      && CompanyNow(b).Ok? && CompanyNow(b).value.company == company
      && (forall kind :: CompanyNow(b).value.ProviderOf(kind) == tx.id)
      && exists other :: MaySign(CompanyNow(b).value, CompanyFamily, other)
  {
    hide Normalise;
    var tx := FoundingTx(w, key, company, text, notarisation).value;
    var b := [[tx]];
    OneMoreBlock([], tx);
    assert [] + [[tx]] == b && b[..1] == b && Entries([]) + [Entry(0, 0, tx)] == [Entry(0, 0, tx)];
    FoldStep([], Entry(0, 0, tx));
    assert [] + [Entry(0, 0, tx)] == [Entry(0, 0, tx)];
    NeverLockedOut(b, 0);
  }

  /** Everything `publish` refuses before it touches the ledger, in its order. */
  function Refusal(w: World, c: Company, key: PublicKey, kind: RecordKind, element: string,
      supersedes: Option<TxId>, notarisation: Notarisation): Option<LedgerError> {
    if kind == GenesisKind then Some(NotAnAmendment)
    else if !MaySign(c, CompanyFamily, key) then Some(UnauthorisedSigner(CompanyFamily, key))
    else if supersedes != Some(c.ProviderOf(kind)) then Some(StaleAmendment(kind, c.ProviderOf(kind), supersedes))
    else match Compose(w, kind, c.company, supersedes, notarisation, element)
      case None => Some(InvalidBody)
      case Some(payload) =>
        var locked := match payload.record.body
          case PersonsBody(persons) => LockedOutBy(persons, c.authorisation.value)
          case AuthorisationBody(authorisation) => LockedOutBy(c.persons.value, authorisation)
          case _ => false;
        if locked then Some(LockedOut) else None
  }

  /** The transaction `publish` writes. */
  function AmendmentTx(w: World, c: Company, key: PublicKey, kind: RecordKind, element: string,
      supersedes: Option<TxId>, notarisation: Notarisation, height: nat): Tx
    requires Compose(w, kind, c.company, supersedes, notarisation, element).Some?
  {
    Sealed(w, NamespaceOf(kind), Compose(w, kind, c.company, supersedes, notarisation, element).value, key, height)
  }

  /**
   `publish` decides exactly what `apply` decides. For a valid body of an amendment kind, on a
   company that is not locked out (every reconstructed one is), the three refusals are the
   three rejections, one for one; so what is published always applies.
   */
  lemma PublishDecidesApply(w: World, c: Company, key: PublicKey, kind: RecordKind, element: string,
      supersedes: Option<TxId>, notarisation: Notarisation, height: nat)
    requires kind != GenesisKind && !LockedOutBy(c.persons.value, c.authorisation.value)
    requires Compose(w, kind, c.company, supersedes, notarisation, element).Some?
    ensures var refusal := Refusal(w, c, key, kind, element, supersedes, notarisation);
      var tx := AmendmentTx(w, c, key, kind, element, supersedes, notarisation, height);
      var r := RefOf(Entry(height, 0, tx));
      && IsIrena(tx) && r.Some?
      && (refusal.None? <==> Apply(c, r.value).Ok?)
      && (refusal.Some? && refusal.value.UnauthorisedSigner? <==>
           Apply(c, r.value) == Err(UnauthorisedRecord(height, tx.id, kind, key)))
      && (refusal.Some? && refusal.value.StaleAmendment? <==>
          Apply(c, r.value) == Err(BrokenAmendmentChain(height, tx.id, kind, Some(c.ProviderOf(kind)), supersedes)))
      && (refusal == Some(LockedOut) <==> Apply(c, r.value) == Err(Lockout(height, tx.id)))
  {
    hide LockedOutBy, MaySign;
  }

  /**
   `publish` on a ledger: what it answers and the ledger it leaves. `works` is what the disk
   says; the store also refuses a transaction it already holds.
   */
  function PublishOn(w: World, b: Blocks, works: bool, key: PublicKey, kind: RecordKind, body: string,
      supersedes: Option<TxId>, notarisation: Notarisation)
    : (Result<RecordRef, LedgerError>, Blocks)
    requires |b| > 0
  {
    if kind == GenesisKind then (Err(NotAnAmendment), b) else
    match CompanyNow(b)
    case Err(e) => (Err(e), b)
    case Ok(c) =>
      var element := Normalise(body);
      match Refusal(w, c, key, kind, element, supersedes, notarisation)
      case Some(e) => (Err(e), b)
      case None =>
        var tx := AmendmentTx(w, c, key, kind, element, supersedes, notarisation, |b|);
        if works && Locate(b, tx.id).None?
        then (Ok(RecordRef(|b|, 0, tx.id, key, tx.body.payload.record)), b + [[tx]])
        else (Err(NotAppended), b)
  }

  /** What a successful publish leaves: the old company with exactly that part replaced. */
  lemma PublishedTakesEffect(w: World, b: Blocks, works: bool, key: PublicKey, kind: RecordKind, body: string,
      supersedes: Option<TxId>, notarisation: Notarisation)
    requires |b| > 0 && PublishOn(w, b, works, key, kind, body, supersedes, notarisation).0.Ok?
    ensures var (r, b') := PublishOn(w, b, works, key, kind, body, supersedes, notarisation); var ref := r.value;
      && kind != GenesisKind && CompanyNow(b).Ok? && CompanyNow(b').Ok?
      && (var c := CompanyNow(b).value;
          && CompanyNow(b').value == Replaced(c, ref).(applied := c.applied + [ref], at := |b|)
          && w.read(kind, Normalise(body)) == Some(ref.record.body) && ref.record.body.Kind() == kind
          && ref.record.supersedes == supersedes == Some(c.ProviderOf(kind))
          && ref.record.company == c.company && CompanyNow(b').value.ProviderOf(kind) == ref.txId
          && MaySign(c, CompanyFamily, key))
  {
    hide Fold, LockedOutBy, MaySign;
    var c, element := CompanyNow(b).value, Normalise(body);
    var tx := AmendmentTx(w, c, key, kind, element, supersedes, notarisation, |b|);
    NowIsOpen(b);
    PublishDecidesApply(w, c, key, kind, element, supersedes, notarisation, |b|);
    AppliedRecordTakesEffect(b, tx, RefOf(Entry(|b|, 0, tx)).value);
  }

  lemma NowIsOpen(b: Blocks)
    requires |b| > 0 && CompanyNow(b).Ok?
    ensures !LockedOutBy(CompanyNow(b).value.persons.value, CompanyNow(b).value.authorisation.value)
  {
    FoldKeepsAKey(Entries(b[..|b|]));
  }

  /** `publish`: every refusal before the ledger is touched, then one amendment in its own block. */
  method Publish(w: World, store: Store, key: PublicKey, kind: RecordKind, body: string, supersedes: Option<TxId>,
      notarisation: Notarisation)
    returns (r: Result<RecordRef, LedgerError>)
    requires store.Valid()
    modifies store
    ensures store.Valid() && old(store.blocks) <= store.blocks
    ensures (r, store.blocks) ==
      PublishOn(w, old(store.blocks), Says(old(store.answers)), key, kind, body, supersedes, notarisation)
    ensures store.answers == if r.Ok? || r.error.NotAppended? then After(old(store.answers)) else old(store.answers)
  {
    hide Fold, Apply, MaySign, LockedOutBy, Refusal, Compose, Reconstruct;
    if kind == GenesisKind { return Err(NotAnAmendment); }
    var company := ReconstructAt(store.blocks, |store.blocks| - 1);
    if company.Err? {
      NowNeverNotAppended(store.blocks);
      return Err(company.error);
    }
    var c, element := company.value, Normalise(body);
    var refusal := Refusal(w, c, key, kind, element, supersedes, notarisation);
    RefusalKinds(w, c, key, kind, element, supersedes, notarisation);
    if refusal.Some? { return Err(refusal.value); }
    var tx := AmendmentTx(w, c, key, kind, element, supersedes, notarisation, |store.blocks|);
    var appended := store.Append(tx);
    if appended.Refused? { return Err(NotAppended); }
    r := Ok(RecordRef(appended.height, 0, tx.id, key, tx.body.payload.record));
  }

  lemma RefusalKinds(w: World, c: Company, key: PublicKey, kind: RecordKind, element: string,
      supersedes: Option<TxId>, notarisation: Notarisation)
    ensures match Refusal(w, c, key, kind, element, supersedes, notarisation)
      case Some(e) => !e.NotAppended?
      case None =>
        var payload := Compose(w, kind, c.company, supersedes, notarisation, element);
        payload.Some? && payload.value.CompanyPayload?
  {
  }

  lemma NowNeverNotAppended(b: Blocks)
    requires |b| > 0 && CompanyNow(b).Err?
    ensures !CompanyNow(b).error.NotAppended?
  {
    FoldNeverNoCompany(Entries(b[..|b|]));
  }
}
