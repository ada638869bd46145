/** From a channel's name to its actors at one height; who may sign governance records; and reports of checks. */
module Resolve {
  import opened Bytes
  import opened Ordering
  import opened Bornite
  import opened Parts
  import opened Records
  import opened Ledger

  /** One person a channel resolved to. */
  datatype Actor = Actor(id: Id, weight: Weight, key: Option<PublicKey>)

  datatype Resolved = Resolved(channel: Channel, actors: seq<Actor>) {
    /** `rules`: a collective channel's. */
    function Rules(): Option<Rules> {
      match channel.mode
      case Individual => None
      case Collective(rules) => Some(rules)
    }

    /** `sole_actor`: an individual channel's. */
    function SoleActor(): Option<Actor> {
      match channel.mode
      case Individual => if actors == [] then None else Some(actors[0])
      case Collective(_) => None
    }
  }

  datatype ResolveError = NoSuchChannel(channel: Id) | NotSingleActor(channel: Id, found: nat) | Derivation

  function ActorId(a: Actor): Id { a.id }

  function ActorIds(actors: seq<Actor>): seq<Id> { Keys(ActorId, actors) }

  /**
   `actors_of_register` and `actors_of_roster`: everyone listed, at their weight, with the key their
   identity holds.
   */
  function ActorsOfList(hs: seq<Holding>, persons: seq<Person>): Result<seq<Actor>, ResolveError> {
    if (forall h :: h in hs ==> 1 <= h.amount <= U64_MAX) && Amount(hs) <= U64_MAX && Distinct(HoldingIds(hs))
    then Ok(seq(|hs|, i requires 0 <= i < |hs| => Actor(hs[i].id, hs[i].amount, KeyOf(persons, hs[i].id))))
    else Err(Derivation)
  }

  function Listed(source: ActorSource, register: Register): Register {
    match source
    case ShareRegister => register
    case Members(roster) => roster
  }

  function ActorsOf(source: ActorSource, register: Register, persons: seq<Person>): Result<seq<Actor>, ResolveError> {
    ActorsOfList(Listed(source, register), persons)
  }

  lemma {:induction false} AmountBounds(hs: seq<Holding>)
    ensures forall h :: h in hs ==> h.amount <= Amount(hs)
  {
    if hs == [] {
    } else {
      AmountBounds(hs[..|hs| - 1]);
      assert hs == hs[..|hs| - 1] + [hs[|hs| - 1]];
    }
  }

  /** Validated documents always derive, and in id order: the error the code keeps cannot occur. */
  lemma ActorsAlwaysDerive(source: ActorSource, register: Register, persons: seq<Person>)
    ensures ActorsOf(source, register, persons).Ok?
    ensures ActorIds(ActorsOf(source, register, persons).value) == HoldingIds(Listed(source, register))
    ensures Strict(ActorIds(ActorsOf(source, register, persons).value))
  {
    var hs := Listed(source, register);
    AmountBounds(hs);
    StrictIsSortedDistinct(HoldingIds(hs));
    assert ActorIds(ActorsOf(source, register, persons).value) == HoldingIds(hs);
  }

  /** `ActorSetV1::get`. */
  function ActorAt(actors: seq<Actor>, id: Id): Option<Actor> {
    match Search(ActorIds(actors), id)
    case None => None
    case Some(i) => Some(actors[i])
  }

  /** `resolve_channel`. */
  function ResolveChannel(c: Company, id: Id): Result<Resolved, ResolveError> {
    match ChannelAt(c.channels.value, id)
    case None => Err(NoSuchChannel(id))
    case Some(channel) =>
      match ActorsOf(channel.actors, c.shares.value, c.persons.value)
      case Err(e) => Err(e)
      case Ok(actors) =>
        if channel.mode.Individual? && |actors| != 1 then Err(NotSingleActor(id, |actors|))
        else Ok(Resolved(channel, actors))
  }

  // ---------------------------------------------------------------- the signer of a governance record

  /** `signer_authorised_at`: the key was a governance signer's under the company at that height. */
  predicate GovernanceSignerAt(b: Blocks, height: nat, key: PublicKey)
    requires |b| > 0
  {
    Reconstruct(b, height).Ok? && MaySign(Reconstruct(b, height).value, GovernanceFamily, key)
  }

  lemma GovernanceSignerStays(b: Blocks, b': Blocks, height: nat, key: PublicKey)
    requires b <= b' && height < |b|
    ensures GovernanceSignerAt(b', height, key) == GovernanceSignerAt(b, height, key)
  {
    PastIsFixed(b, b', height);
  }

  /** A record outside the company's namespaces is judged, at its own height, by the company it was checked under. */
  lemma GovernanceSignerAfter(b: Blocks, tx: Tx, key: PublicKey)
    requires |b| > 0 && !IsIrena(tx) && CompanyNow(b).Ok?
    ensures GovernanceSignerAt(b + [[tx]], |b|, key) == MaySign(CompanyNow(b).value, GovernanceFamily, key)
  {
    hide Fold;
    OtherRecordsChangeNothing(b, tx);
  }

  // ---------------------------------------------------------------- reports

  /** One check of a verifier and how it came out. */
  datatype Check<N> = Check(name: N, passed: bool)

  /** `is_valid`: something was checked and nothing failed. */
  predicate IsValid<N>(report: seq<Check<N>>) {
    report != [] && forall i :: 0 <= i < |report| ==> report[i].passed
  }

  /** Every reported check came out as it should. */
  ghost predicate Exact<N(!new)>(holds: N -> bool, report: seq<Check<N>>) {
    forall i :: 0 <= i < |report| ==> report[i].passed == holds(report[i].name)
  }

  ghost function Reported<N(!new)>(report: seq<Check<N>>): set<N> {
    set i | 0 <= i < |report| :: report[i].name
  }

  lemma NothingReported<N(!new)>(holds: N -> bool)
    ensures Exact(holds, [])
  {
  }

  /** A verifier's `check`: one more line in the report. `holds` says what each check means. */
  method Push<N(!new)>(ghost holds: N -> bool, report: seq<Check<N>>, name: N, passed: bool) returns (r: seq<Check<N>>)
    requires Exact(holds, report) && passed == holds(name)
    ensures Exact(holds, r) && r == report + [Check(name, passed)] && name in Reported(r)
    ensures forall n :: n in Reported(report) ==> n in Reported(r)
    ensures IsValid(r) <==> (report == [] || IsValid(report)) && passed
  {
    r := report + [Check(name, passed)];
    assert r[|report|].name == name;
    forall n | n in Reported(report) ensures n in Reported(r) {
      var i :| 0 <= i < |report| && report[i].name == n;
      assert r[i].name == n;
    }
    assert forall i :: 0 <= i < |report| ==> r[i] == report[i];
  }

  /**
   An exact report that leaves out only checks that hold anyway, or that shows a failure, is
   valid just when every check holds.
   */
  lemma ReportDecides<N(!new)>(holds: N -> bool, report: seq<Check<N>>)
    requires Exact(holds, report) && report != []
    requires (forall n :: n in Reported(report) || holds(n)) || !IsValid(report)
    ensures IsValid(report) <==> forall n :: holds(n)
  {
    if IsValid(report) {
      forall n ensures holds(n) {
        if n in Reported(report) {
          var i :| 0 <= i < |report| && report[i].name == n;
          assert report[i].passed;
        }
      }
    }
  }
}
