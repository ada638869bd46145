/** What one person's signature may do to who decides, who signs, and who holds which key: only ever less. */
module Demotion {
  import opened Ordering
  import opened Parts
  import opened Records
  import opened Ledger
  import opened Resolve

  // ---------------------------------------------------------------- seats

  /** Whether a person is among a channel's actors. */
  predicate HasSeat(c: Channel, signer: Id, register: Register, persons: seq<Person>) {
    match ActorsOf(c.actors, register, persons)
    case Err(_) => false
    case Ok(actors) => ActorAt(actors, signer).Some?
  }

  /** The channels a person sits on. */
  function Seats(set_: seq<Channel>, signer: Id, register: Register, persons: seq<Person>): set<Id> {
    set c | c in set_ && HasSeat(c, signer, register, persons) :: c.id
  }

  /** A seat is a line in the register or the roster; who holds which key has no part in it. */
  lemma SeatIsListing(c: Channel, signer: Id, register: Register, persons: seq<Person>)
    ensures HasSeat(c, signer, register, persons) <==> signer in HoldingIds(Listed(c.actors, register))
  {
    hide ActorsOf;
    ActorsAlwaysDerive(c.actors, register, persons);
    var ids := ActorIds(ActorsOf(c.actors, register, persons).value);
    if signer in ids { SearchFinds(ids, signer); }
  }

  lemma SeatsIgnoreIdentities(set_: seq<Channel>, signer: Id, register: Register, a: seq<Person>, b: seq<Person>)
    ensures Seats(set_, signer, register, a) == Seats(set_, signer, register, b)
  {
    hide HasSeat;
    forall c ensures HasSeat(c, signer, register, a) == HasSeat(c, signer, register, b) {
      SeatIsListing(c, signer, register, a);
      SeatIsListing(c, signer, register, b);
    }
  }

  /** `seats`. Validated sources always derive, so the error the code passes on never arises. */
  method FindSeats(set_: seq<Channel>, signer: Id, register: Register, persons: seq<Person>) returns (found: set<Id>)
    ensures found == Seats(set_, signer, register, persons)
  {
    hide ActorsOf, ActorAt;
    found := {};
    for i := 0 to |set_|
      invariant found == Seats(set_[..i], signer, register, persons)
    {
      var actors := ActorsOf(set_[i].actors, register, persons);
      ActorsAlwaysDerive(set_[i].actors, register, persons);
      assert set_[..i + 1] == set_[..i] + [set_[i]];
      if ActorAt(actors.value, signer).Some? { found := found + {set_[i].id}; }
    }
    assert set_[..|set_|] == set_;
  }

  // ---------------------------------------------------------------- the three verdicts

  /** The channel-set rule: no seat gained, and no channel the signer keeps a seat on changed. */
  ghost predicate KeepsToSeats(signer: Id, before: ChannelSet, after: ChannelSet, register: Register,
      persons: seq<Person>) {
    forall id :: id in Seats(after, signer, register, persons) ==>
      id in Seats(before, signer, register, persons) && ChannelAt(after, id) == ChannelAt(before, id)
  }

  /** `self_demotion`: the seats before and after, what was gained, what was kept but changed. */
  method SelfDemotion(signer: Id, before: ChannelSet, after: ChannelSet, register: Register, persons: seq<Person>)
    returns (holds: bool)
    ensures holds == KeepsToSeats(signer, before, after, register, persons)
  {
    hide ChannelAt, Seats;
    var held := FindSeats(before, signer, register, persons);
    var kept := FindSeats(after, signer, register, persons);
    var gained := kept - held;
    var changed := set id | id in kept * held && ChannelAt(before, id) != ChannelAt(after, id);
    holds := gained == {} && changed == {};
    if KeepsToSeats(signer, before, after, register, persons) {
      assert forall id :: id in kept ==> id in held;
    } else {
      var id :| id in kept && !(id in held && ChannelAt(after, id) == ChannelAt(before, id));
      assert id in gained || id in changed;
    }
  }

  /** The identities rule: nobody else's entry is changed or removed. */
  predicate LeavesOthersAlone(signer: Id, before: seq<Person>, after: seq<Person>) {
    forall p :: p in before && p.id != signer ==> PersonAt(after, p.id) == Some(p)
  }

  /** `identity_demotion`: collects the entries of others that would change or go. */
  method IdentityDemotion(signer: Id, before: seq<Person>, after: seq<Person>) returns (holds: bool)
    ensures holds == LeavesOthersAlone(signer, before, after)
  {
    hide PersonAt;
    var changed, removed: seq<Id> := [], [];
    for i := 0 to |before|
      invariant changed == [] && removed == [] <==>
        forall k :: 0 <= k < i && before[k].id != signer ==> PersonAt(after, before[k].id) == Some(before[k])
    {
      var person := before[i];
      if person.id != signer {
        match PersonAt(after, person.id)
        case None => removed := removed + [person.id];
        case Some(found) => if found != person { changed := changed + [person.id]; }
      }
    }
    holds := changed == [] && removed == [];
  }

  /** The authorisation rule, `authorisation_demotion`: no family gained. */
  predicate GainsNoFamily(signer: Id, before: seq<Signer>, after: seq<Signer>) {
    FamiliesOf(after, signer) <= FamiliesOf(before, signer)
  }

  /** A person's families are those the binary search lets them sign. */
  lemma FamiliesAreAllowed(ss: Authorisation, signer: Id, family: Family)
    ensures family in FamiliesOf(ss, signer) <==> Allows(ss, signer, family)
  {
    AllowsIsMembership(ss, signer, family);
    if family in FamiliesOf(ss, signer) {
      var s :| s in ss && s.person == signer && s.family == family;
      assert s == Signer(signer, family);
    }
  }

  /** The rule for the part a body replaces. The register has none: an individual decision may rewrite it freely. */
  ghost predicate VerdictHolds(signer: Id, c: Company, body: RecordBody) {
    match body
    case ChannelsBody(channels) => KeepsToSeats(signer, c.channels.value, channels, c.shares.value, c.persons.value)
    case PersonsBody(persons) => LeavesOthersAlone(signer, c.persons.value, persons)
    case AuthorisationBody(authorisation) => GainsNoFamily(signer, c.authorisation.value, authorisation)
    case _ => true
  }

  /** The verdict on a proposed body, as the code reaches it. */
  method Verdict(signer: Id, c: Company, body: RecordBody) returns (holds: bool)
    ensures holds == VerdictHolds(signer, c, body)
  {
    match body
    case ChannelsBody(channels) =>
      holds := SelfDemotion(signer, c.channels.value, channels, c.shares.value, c.persons.value);
    case PersonsBody(persons) => holds := IdentityDemotion(signer, c.persons.value, persons);
    case AuthorisationBody(authorisation) => holds := GainsNoFamily(signer, c.authorisation.value, authorisation);
    case _ => holds := true;
  }

  // ---------------------------------------------------------------- never more than before

  function SeatsIn(c: Company, signer: Id): set<Id> {
    Seats(c.channels.value, signer, c.shares.value, c.persons.value)
  }

  /**
   From one company to a later one a person gained nothing: every seat they have is one they
   had, on the same channel; they sign for no new family; and everybody else is who they were,
   with each key of theirs still found to be theirs.
   */
  ghost predicate GainedNothing(signer: Id, c: Company, d: Company) {
    && d.shares.value == c.shares.value
    && (forall id :: id in SeatsIn(d, signer) ==>
         id in SeatsIn(c, signer) && ChannelAt(d.channels.value, id) == ChannelAt(c.channels.value, id))
    && FamiliesOf(d.authorisation.value, signer) <= FamiliesOf(c.authorisation.value, signer)
    && (forall p :: p in c.persons.value && p.id != signer ==> p in d.persons.value && StillHolds(d.persons.value, p))
  }

  predicate StillHolds(persons: seq<Person>, p: Person) {
    PersonAt(persons, p.id) == Some(p) && (p.key.Some? ==> HolderOf(persons, p.key.value) == Some(p))
  }

  lemma ListedStillHolds(persons: Identities, p: Person)
    requires p in persons
    ensures StillHolds(persons, p)
  {
    ListedPersonFound(persons, p);
    if p.key.Some? {
      HolderIsThePerson(persons, p.id, p.key.value);
      ListedPersonFound(persons, HolderOf(persons, p.key.value).value);
    }
  }

  /** An amendment that is not of the register and passes its rule gains its signer nothing. */
  lemma DemotedGainsNothing(signer: Id, c: Company, r: RecordRef)
    requires r.record.body.Kind() in {ChannelsKind, PersonsKind, AuthorisationKind}
    requires VerdictHolds(signer, c, r.record.body)
    ensures GainedNothing(signer, c, Replaced(c, r))
  {
    hide Seats, FamiliesOf, StillHolds, PersonAt, ChannelAt;
    var d := Replaced(c, r);
    SeatsIgnoreIdentities(c.channels.value, signer, c.shares.value, c.persons.value, d.persons.value);
    forall p | p in c.persons.value && p.id != signer ensures p in d.persons.value && StillHolds(d.persons.value, p) {
      if r.record.body.PersonsBody? { assert PersonAt(d.persons.value, p.id) == Some(p); }
      ListedStillHolds(d.persons.value, p);
    }
  }

  lemma GainedNothingChains(signer: Id, a: Company, b: Company, c: Company)
    requires GainedNothing(signer, a, b) && GainedNothing(signer, b, c)
    ensures GainedNothing(signer, a, c)
  {
    hide Seats, FamiliesOf, StillHolds, ChannelAt;
  }

  lemma NothingHappened(signer: Id, c: Company, d: Company)
    requires d.shares == c.shares && d.channels == c.channels
    requires d.persons == c.persons && d.authorisation == c.authorisation
    ensures GainedNothing(signer, c, d)
  {
    hide Seats, FamiliesOf, StillHolds, ChannelAt;
    forall p | p in c.persons.value ensures StillHolds(d.persons.value, p) { ListedStillHolds(c.persons.value, p); }
  }
}
