/**
 The validated documents a company is made of: identities, authorisation, the share register
 and the decision channels. A value of one of these types is sorted and free of duplicates, as
 it is from the moment the constructors build it.
 */
module Parts {
  import opened Bytes
  import opened Ordering
  import opened Bornite

  datatype PublicKey = PublicKey(bytes: Digest)

  datatype TxId = TxId(hash: Digest)

  // ---------------------------------------------------------------- identities

  datatype Person = Person(id: Id, name: Option<string>, documentId: Option<string>, key: Option<PublicKey>)

  function PersonId(p: Person): Id { p.id }

  function PersonIds(ps: seq<Person>): seq<Id> { Keys(PersonId, ps) }

  /** No key is on two persons. */
  predicate KeysUnique(ps: seq<Person>) {
    forall i, j :: 0 <= i < j < |ps| ==> ps[i].key.None? || ps[i].key != ps[j].key
  }

  type Identities = ps: seq<Person> | Strict(PersonIds(ps)) && KeysUnique(ps) witness []

  const MAX_PERSONS: nat := 1_000_000

  /** Everything wrong with listed persons. A report is sorted and free of repeats, so each kind is a set. */
  datatype PersonReport = PersonReport(tooMany: bool, duplicates: set<Id>, sharedKeys: set<(Id, Id)>)

  /** `IdentitiesV1::get`. */
  function PersonAt(ps: seq<Person>, id: Id): (r: Option<Person>)
    ensures r.Some? ==> r.value in ps && r.value.id == id
  {
    match Search(PersonIds(ps), id)
    case None => None
    case Some(i) => Some(ps[i])
  }

  /** `IdentitiesV1::key_of`. */
  function KeyOf(ps: seq<Person>, id: Id): Option<PublicKey> {
    match PersonAt(ps, id)
    case None => None
    case Some(p) => p.key
  }

  /** `IdentitiesV1::holder_of`: the first person holding the key. */
  function HolderOf(ps: seq<Person>, key: PublicKey): (r: Option<Person>)
    ensures r.Some? ==> r.value in ps && r.value.key == Some(key)
    ensures r.None? ==> forall p :: p in ps ==> p.key != Some(key)
  {
    if ps == [] then None
    else if ps[0].key == Some(key) then Some(ps[0])
    else
      assert ps == [ps[0]] + ps[1..];
      HolderOf(ps[1..], key)
  }

  lemma ListedPersonFound(ps: Identities, p: Person)
    requires p in ps
    ensures PersonAt(ps, p.id) == Some(p)
  {
    var i :| 0 <= i < |ps| && ps[i] == p;
    assert PersonIds(ps)[i] == p.id;
    SearchFinds(PersonIds(ps), p.id);
  }

  /** The two lookups are inverse: a person's key is held by that person and by nobody else. */
  lemma HolderIsThePerson(ps: Identities, id: Id, key: PublicKey)
    ensures KeyOf(ps, id) == Some(key) <==> HolderOf(ps, key).Some? && HolderOf(ps, key).value.id == id
  {
    if KeyOf(ps, id) == Some(key) {
      var p, q := PersonAt(ps, id).value, HolderOf(ps, key).value;
      var i :| 0 <= i < |ps| && ps[i] == p;
      var j :| 0 <= j < |ps| && ps[j] == q;
      assert i == j;
    }
    if HolderOf(ps, key).Some? { ListedPersonFound(ps, HolderOf(ps, key).value); }
  }

  /** The last person holding a key: what the map of keys seen remembers. */
  function LatestHolder(ps: seq<Person>, key: PublicKey): Option<Id> {
    if ps == [] then None
    else if ps[|ps| - 1].key == Some(key) then Some(ps[|ps| - 1].id)
    else LatestHolder(ps[..|ps| - 1], key)
  }

  /** Each pair of neighbours, in order, among the holders of one key, when they are two persons. */
  function SharedKeys(ps: seq<Person>): set<(Id, Id)> {
    if ps == [] then {} else
      var n := |ps| - 1;
      SharedKeys(ps[..n]) + SharedWith(ps[..n], ps[n])
  }

  /** What one more person adds to the pairs reported. */
  function SharedWith(earlier: seq<Person>, p: Person): set<(Id, Id)> {
    match p.key
    case None => {}
    case Some(key) =>
      match LatestHolder(earlier, key)
      case Some(first) => if first != p.id then {(first, p.id)} else {}
      case None => {}
  }

  lemma NobodyListed()
    ensures Repeated([]) == {} && SharedKeys([]) == {}
    ensures forall k :: LatestHolder([], k).None?
  {
  }

  lemma OneMorePerson(ps: seq<Person>, n: nat)
    requires n < |ps|
    ensures SharedKeys(ps[..n + 1]) == SharedKeys(ps[..n]) + SharedWith(ps[..n], ps[n])
    ensures forall k :: LatestHolder(ps[..n + 1], k) == if ps[n].key == Some(k) then Some(ps[n].id)
      else LatestHolder(ps[..n], k)
  {
    assert ps[..n + 1][..n] == ps[..n];
  }

  function ReportOn(sorted: seq<Person>): PersonReport {
    PersonReport(false, Repeated(PersonIds(sorted)), SharedKeys(sorted))
  }

  const CLEAN := PersonReport(false, {}, {})

  /** `IdentitiesV1::new` as a result. */
  function IdentitiesOf(persons: seq<Person>): Result<seq<Person>, PersonReport> {
    var sorted := SortBy(PersonId, persons);
    if |persons| > MAX_PERSONS then Err(PersonReport(true, {}, {}))
    else if ReportOn(sorted) == CLEAN then Ok(sorted)
    else Err(ReportOn(sorted))
  }

  /** `IdentitiesV1::new`: sort, then one walk with the previous id and a map of keys seen. */
  method NewIdentities(persons: seq<Person>) returns (r: Result<seq<Person>, PersonReport>)
    ensures r == IdentitiesOf(persons)
  {
    hide Repeated, SharedKeys, LatestHolder, SortBy;
    if |persons| > MAX_PERSONS { return Err(PersonReport(true, {}, {})); }
    var sorted := SortBy(PersonId, persons);
    var ids := PersonIds(sorted);
    var report := CLEAN;
    var previous: Option<Id> := None;
    var keys: map<PublicKey, Id> := map[];
    NobodyListed();
    for i := 0 to |sorted|
      invariant previous == if i == 0 then None else Some(ids[i - 1])
      invariant report == PersonReport(false, Repeated(ids[..i]), SharedKeys(sorted[..i]))
      invariant forall k :: LatestHolder(sorted[..i], k) == if k in keys then Some(keys[k]) else None
    {
      var person := sorted[i];
      OneMorePerson(sorted, i);
      RepeatedStep(ids, i);
      if previous == Some(person.id) { report := report.(duplicates := report.duplicates + {person.id}); }
      if person.key.Some? {
        var key := person.key.value;
        if key in keys && keys[key] != person.id {
          report := report.(sharedKeys := report.sharedKeys + {(keys[key], person.id)});
        }
        keys := keys[key := person.id];
      }
      previous := Some(person.id);
    }
    assert sorted[..|sorted|] == sorted && ids[..|ids|] == ids;
    r := if report == CLEAN then Ok(sorted) else Err(report);
  }

  lemma {:induction false} LatestHolderFound(ps: seq<Person>, key: PublicKey)
    ensures LatestHolder(ps, key).None? <==> forall p :: p in ps ==> p.key != Some(key)
    ensures LatestHolder(ps, key).Some? ==>
      exists p :: p in ps && p.key == Some(key) && p.id == LatestHolder(ps, key).value
  {
    if ps == [] {
    } else {
      var n := |ps| - 1;
      assert ps == ps[..n] + [ps[n]];
      LatestHolderFound(ps[..n], key);
    }
  }

  lemma LastIdIsNew(ps: seq<Person>)
    requires Strict(PersonIds(ps)) && ps != []
    ensures Strict(PersonIds(ps[..|ps| - 1]))
    ensures forall p :: p in ps[..|ps| - 1] ==> p.id != ps[|ps| - 1].id
  {
    hide Before;
    var n, ids := |ps| - 1, PersonIds(ps);
    assert PersonIds(ps[..n]) == ids[..n];
    forall p | p in ps[..n] ensures p.id != ps[n].id {
      var i :| 0 <= i < n && ps[i] == p;
      assert Before(ids[i], ids[n]);
      BeforeIsTotal(ids[i], ids[n]);
    }
  }

  /** Among persons with distinct ids, no pair is reported exactly when no key is on two of them. */
  lemma {:induction false} NoPairReported(ps: seq<Person>)
    requires Strict(PersonIds(ps))
    ensures SharedKeys(ps) == {} <==> KeysUnique(ps)
  {
    hide Strict, KeysUnique, LatestHolder;
    if ps == [] {
      NobodyListed();
      assert KeysUnique(ps) by { NobodyShares(); }
    } else {
      var n := |ps| - 1;
      LastIdIsNew(ps);
      NoPairReported(ps[..n]);
      UniqueKeysSnoc(ps[..n], ps[n]);
      assert ps == ps[..n] + [ps[n]];
      if ps[n].key.Some? { LatestHolderFound(ps[..n], ps[n].key.value); }
    }
  }

  lemma NobodyShares()
    ensures KeysUnique([])
  {
  }

  lemma UniqueKeysSnoc(ps: seq<Person>, p: Person)
    ensures KeysUnique(ps + [p]) <==> KeysUnique(ps) && (p.key.None? || forall q :: q in ps ==> q.key != p.key)
  {
    var all := ps + [p];
    assert forall i :: 0 <= i < |ps| ==> all[i] == ps[i];
    if KeysUnique(all) {
      assert forall i, j :: 0 <= i < j < |ps| ==> all[i].key.None? || all[i].key != all[j].key;
      assert forall i :: 0 <= i < |ps| ==> all[i].key.None? || all[i].key != all[|ps|].key;
    }
  }

  /** The constructor accepts exactly the lists that are, once sorted, a valid identities record. */
  lemma AcceptedIdentitiesAreValid(persons: seq<Person>)
    ensures IdentitiesOf(persons).Ok? <==>
      |persons| <= MAX_PERSONS && Strict(PersonIds(SortBy(PersonId, persons))) && KeysUnique(SortBy(PersonId, persons))
    ensures IdentitiesOf(persons).Ok? ==> multiset(IdentitiesOf(persons).value) == multiset(persons)
  {
    var sorted := SortBy(PersonId, persons);
    SortSorts(PersonId, persons);
    NothingRepeated(PersonIds(sorted));
    if Strict(PersonIds(sorted)) { NoPairReported(sorted); }
  }

  // ---------------------------------------------------------------- authorisation

  datatype Family = CompanyFamily | GovernanceFamily

  datatype Signer = Signer(person: Id, family: Family)

  /** Rows are ordered by person, then family. */
  predicate SignerBefore(a: Signer, b: Signer) {
    Before(a.person, b.person) || (a.person == b.person && a.family.CompanyFamily? && b.family.GovernanceFamily?)
  }

  predicate HasCompanySigner(ss: seq<Signer>) { exists i :: 0 <= i < |ss| && ss[i].family == CompanyFamily }

  type Authorisation = ss: seq<Signer> | StrictBy(SignerBefore, ss) && HasCompanySigner(ss)
    ghost witness FoundingRow()

  ghost function FoundingRow(): (ss: seq<Signer>)
    ensures StrictBy(SignerBefore, ss) && HasCompanySigner(ss)
  {
    var ss := [Signer("a", CompanyFamily)];
    assert ss[0].family == CompanyFamily;
    ss
  }

  /** `AuthorisationV1::allows`: a binary search for the row. */
  predicate Allows(ss: seq<Signer>, person: Id, family: Family) {
    SearchIn(SignerBefore, ss, Signer(person, family), 0, |ss|).Some?
  }

  /** The binary search answers whether the row is listed. */
  lemma AllowsIsMembership(ss: Authorisation, person: Id, family: Family)
    ensures Allows(ss, person, family) <==> Signer(person, family) in ss
  {
    if Signer(person, family) in ss {
      var i :| 0 <= i < |ss| && ss[i] == Signer(person, family);
      SearchInFinds(SignerBefore, ss, i, 0, |ss|);
    }
  }

  /** `families_of`. */
  function FamiliesOf(ss: seq<Signer>, person: Id): set<Family> {
    set s | s in ss && s.person == person :: s.family
  }

  // ---------------------------------------------------------------- the share register and rosters

  /** A holder with shares, or a roster member with a weight. */
  datatype Holding = Holding(id: Id, name: Option<string>, amount: nat)

  function HoldingId(h: Holding): Id { h.id }

  function HoldingIds(hs: seq<Holding>): seq<Id> { Keys(HoldingId, hs) }

  function Amount(hs: seq<Holding>): nat {
    if hs == [] then 0 else Amount(hs[..|hs| - 1]) + hs[|hs| - 1].amount
  }

  predicate ValidRegister(hs: seq<Holding>) {
    Strict(HoldingIds(hs)) && Amount(hs) <= U64_MAX && forall h :: h in hs ==> h.amount > 0
  }

  type Register = hs: seq<Holding> | ValidRegister(hs) witness []

  type Roster = hs: seq<Holding> | ValidRegister(hs) && hs != [] ghost witness OneMember()

  ghost function OneMember(): (hs: seq<Holding>)
    ensures ValidRegister(hs) && hs != []
  {
    var hs := [Holding("a", None, 1)];
    assert Amount(hs[..0]) == 0;
    hs
  }

  const MAX_HOLDERS: nat := 1_000_000

  /** Everything wrong with a listed register. */
  datatype HoldingReport = HoldingReport(tooMany: bool, duplicates: set<Id>, zero: set<Id>, overflow: bool)

  const NO_ISSUE := HoldingReport(false, {}, {}, false)

  function ZeroHoldings(hs: seq<Holding>): set<Id> { set h | h in hs && h.amount == 0 :: h.id }

  function HoldingsReport(sorted: seq<Holding>): HoldingReport {
    HoldingReport(false, Repeated(HoldingIds(sorted)), ZeroHoldings(sorted), Amount(sorted) > U64_MAX)
  }

  /** `ShareStructureV1::new` as a result. */
  function RegisterOf(holders: seq<Holding>): Result<seq<Holding>, HoldingReport> {
    var sorted := SortBy(HoldingId, holders);
    if |holders| > MAX_HOLDERS then Err(HoldingReport(true, {}, {}, false))
    else if HoldingsReport(sorted) == NO_ISSUE then Ok(sorted)
    else Err(HoldingsReport(sorted))
  }

  /**
   `ShareStructureV1::new`: one walk that skips an addend that would overflow and goes on. The
   flag it raises is nevertheless exact: overflow is reported just when the true total is too big.
   */
  method NewRegister(holders: seq<Holding>) returns (r: Result<seq<Holding>, HoldingReport>)
    ensures r == RegisterOf(holders)
  {
    hide Amount, Repeated, ZeroHoldings, SortBy;
    if |holders| > MAX_HOLDERS { return Err(HoldingReport(true, {}, {}, false)); }
    var sorted := SortBy(HoldingId, holders);
    var ids := HoldingIds(sorted);
    var report := NO_ISSUE;
    var previous: Option<Id> := None;
    var total: nat := 0;
    NothingListed();
    for i := 0 to |sorted|
      invariant previous == if i == 0 then None else Some(ids[i - 1])
      invariant report
        == HoldingReport(false, Repeated(ids[..i]), ZeroHoldings(sorted[..i]), Amount(sorted[..i]) > U64_MAX)
      invariant total <= Amount(sorted[..i]) && total <= U64_MAX
      invariant !report.overflow ==> total == Amount(sorted[..i])
    {
      var holder := sorted[i];
      assert sorted[..i + 1] == sorted[..i] + [holder];
      AmountSnoc(sorted[..i], holder);
      RepeatedStep(ids, i);
      ZeroStep(sorted, i);
      if previous == Some(holder.id) { report := report.(duplicates := report.duplicates + {holder.id}); }
      if holder.amount == 0 { report := report.(zero := report.zero + {holder.id}); }
      if total + holder.amount <= U64_MAX {
        total := total + holder.amount;
      } else {
        report := report.(overflow := true);
      }
      previous := Some(holder.id);
    }
    assert sorted[..|sorted|] == sorted && ids[..|ids|] == ids;
    r := if report == NO_ISSUE then Ok(sorted) else Err(report);
  }

  lemma NothingListed()
    ensures Repeated([]) == {} && ZeroHoldings([]) == {} && Amount([]) == 0
  {
  }

  lemma ZeroStep(hs: seq<Holding>, n: nat)
    requires n < |hs|
    ensures ZeroHoldings(hs[..n + 1]) == ZeroHoldings(hs[..n]) + if hs[n].amount == 0 then {hs[n].id} else {}
  {
    assert hs[..n + 1] == hs[..n] + [hs[n]];
  }

  /** What the constructor accepts is exactly a register: ordered, positive, within `u64`. */
  lemma AcceptedRegisterIsValid(holders: seq<Holding>)
    ensures RegisterOf(holders).Ok? <==> |holders| <= MAX_HOLDERS && ValidRegister(SortBy(HoldingId, holders))
    ensures RegisterOf(holders).Ok? ==> multiset(RegisterOf(holders).value) == multiset(holders)
  {
    hide Amount, Repeated, Before, Strict, ZeroHoldings, SortBy;
    var sorted := SortBy(HoldingId, holders);
    SortSorts(HoldingId, holders);
    NothingRepeated(HoldingIds(sorted));
    NoZeroHolding(sorted);
    assert HoldingsReport(sorted) == NO_ISSUE <==>
      Repeated(HoldingIds(sorted)) == {} && ZeroHoldings(sorted) == {} && Amount(sorted) <= U64_MAX;
  }

  lemma NoZeroHolding(hs: seq<Holding>)
    ensures ZeroHoldings(hs) == {} <==> forall h :: h in hs ==> h.amount > 0
  {
    assert forall h :: h in hs && h.amount == 0 ==> h.id in ZeroHoldings(hs);
  }

  lemma {:induction false} AmountPermutes(s: seq<Holding>, t: seq<Holding>)
    requires multiset(s) == multiset(t)
    ensures Amount(s) == Amount(t)
  {
    assert |s| == |multiset(s)| == |multiset(t)| == |t|;
    if s == [] {
      assert s == t;
    } else {
      var n := |s| - 1;
      assert s[n] in multiset(t);
      var i :| 0 <= i < |t| && t[i] == s[n];
      TakeOut(HoldingId, t, i);
      WithoutLast(s);
      AmountPermutes(s[..n], t[..i] + t[i + 1..]);
      AmountTakeOut(t, i);
    }
  }

  lemma AmountSnoc(s: seq<Holding>, h: Holding)
    ensures Amount(s + [h]) == Amount(s) + h.amount
  {
    assert (s + [h])[..|s|] == s;
  }

  lemma AmountTakeOut(t: seq<Holding>, i: nat)
    requires i < |t|
    ensures Amount(t) == Amount(t[..i] + t[i + 1..]) + t[i].amount
  {
    hide Amount;
    assert t == (t[..i] + [t[i]]) + t[i + 1..];
    AmountCat(t[..i], t[i + 1..]);
    AmountCat(t[..i] + [t[i]], t[i + 1..]);
    AmountSnoc(t[..i], t[i]);
  }

  lemma {:induction false} AmountCat(s: seq<Holding>, t: seq<Holding>)
    ensures Amount(s + t) == Amount(s) + Amount(t)
  {
    if t == [] {
      assert s + t == s;
    } else {
      AmountCat(s, t[..|t| - 1]);
      assert (s + t)[..|s + t| - 1] == s + t[..|t| - 1];
    }
  }

  lemma ZeroPermutes(a: seq<Holding>, b: seq<Holding>)
    requires multiset(a) == multiset(b)
    ensures ZeroHoldings(a) == ZeroHoldings(b)
  {
    assert forall h :: h in a <==> h in multiset(a);
    assert forall h :: h in b <==> h in multiset(b);
  }

  /** The order holders are listed in changes neither the register nor any complaint. */
  lemma RegisterForgetsOrder(s: seq<Holding>, t: seq<Holding>)
    requires multiset(s) == multiset(t)
    ensures RegisterOf(s) == RegisterOf(t)
  {
    hide Amount, Repeated, Before, ZeroHoldings;
    var a, b := SortBy(HoldingId, s), SortBy(HoldingId, t);
    assert |s| == |multiset(s)| == |multiset(t)| == |t|;
    SortForgetsOrder(HoldingId, s, t);
    SortSorts(HoldingId, s);
    SortSorts(HoldingId, t);
    AmountPermutes(a, b);
    ZeroPermutes(a, b);
    NothingRepeated(HoldingIds(a));
    if Strict(HoldingIds(a)) { StrictIsSortedDistinct(HoldingIds(a)); }
  }

  // ---------------------------------------------------------------- decision channels

  datatype RecordKind =
    | GenesisKind | IdentityKind | SharesKind | ChannelsKind | PersonsKind | AuthorisationKind

  datatype ActorSource = ShareRegister | Members(roster: Roster)

  datatype Mode = Individual | Collective(rules: Rules)

  /** A scope is sorted and free of repeats, so it is a set of parts; `None` amends nothing. */
  datatype Channel = Channel(id: Id, actors: ActorSource, mode: Mode, scope: Option<set<RecordKind>>) {
    predicate MayAmend(part: RecordKind) { scope.Some? && part in scope.value }
  }

  function ChannelId(c: Channel): Id { c.id }

  function ChannelIds(cs: seq<Channel>): seq<Id> { Keys(ChannelId, cs) }

  type ChannelSet = cs: seq<Channel> | Strict(ChannelIds(cs)) && cs != []
    ghost witness [Channel("a", ShareRegister, Individual, None)]

  /** `DecisionChannelsV1::get`. */
  function ChannelAt(cs: seq<Channel>, id: Id): (r: Option<Channel>)
    ensures r.Some? ==> r.value in cs && r.value.id == id
  {
    match Search(ChannelIds(cs), id)
    case None => None
    case Some(i) => Some(cs[i])
  }

  lemma ListedChannelFound(cs: ChannelSet, c: Channel)
    requires c in cs
    ensures ChannelAt(cs, c.id) == Some(c)
  {
    var i :| 0 <= i < |cs| && cs[i] == c;
    assert ChannelIds(cs)[i] == c.id;
    SearchFinds(ChannelIds(cs), c.id);
  }
}
