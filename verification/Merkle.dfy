/**
 The Merkle tree of `prunella-core`: the shape of section 2.1 of RFC 6962, audit paths as
 in section 2.1.1, and inclusion proofs checked against a root and a leaf count alone.
 */
module Merkle {
  import opened Bytes
  import opened Ordering

  /** The three hash domains of a tree. */
  datatype TreeTags = TreeTags(leaf: ByteString, node: ByteString, empty: ByteString) {
    ghost predicate Separated() {
      leaf != node && leaf != empty && node != empty
    }
  }

  const PRUNELLA_V1: TreeTags :=
    TreeTags(Ascii("PRUNELLA/v1/tx-leaf"), Ascii("PRUNELLA/v1/tx-node"), Ascii("PRUNELLA/v1/tx-root"))

  /** The domains of the ballot commitment. */
  const COMMITMENT_TAGS: TreeTags :=
    TreeTags(Ascii("IRENA/vote/v1/leaf"), Ascii("IRENA/vote/v1/node"), Ascii("IRENA/vote/v1/empty"))

  lemma TagsSeparated()
    ensures PRUNELLA_V1.Separated() && COMMITMENT_TAGS.Separated()
  {
    assert PRUNELLA_V1.leaf[15] == 'l' as int && PRUNELLA_V1.node[15] == 'n' as int
      && PRUNELLA_V1.empty[15] == 'r' as int;
    assert COMMITMENT_TAGS.leaf[14] == 'l' as int && COMMITMENT_TAGS.node[14] == 'n' as int;
    assert |COMMITMENT_TAGS.empty| == 19 && |COMMITMENT_TAGS.leaf| == 18 && |COMMITMENT_TAGS.node| == 18;
  }

  // ---------------------------------------------------------------- shape

  ghost predicate PowerOfTwo(k: nat) {
    k == 1 || (k > 1 && k % 2 == 0 && PowerOfTwo(k / 2))
  }

  /** Doubles `k` while the double is still below `n`. */
  function SplitFrom(k: nat, n: nat): (r: nat)
    requires 1 <= k < n
    ensures k <= r < n <= 2 * r
    decreases n - k
  {
    if k * 2 < n then SplitFrom(k * 2, n) else k
  }

  /** Where a tree of `n` leaves splits. */
  function Split(n: nat): (r: nat)
    requires n >= 2
    ensures 1 <= r < n <= 2 * r
  {
    SplitFrom(1, n)
  }

  /** `split_point`: the largest power of two strictly below `n`. */
  method SplitPoint(n: nat) returns (k: nat)
    requires n >= 2
    ensures k == Split(n)
    ensures PowerOfTwo(k) && k < n
    ensures forall p: nat :: PowerOfTwo(p) && p < n ==> p <= k
  {
    k := 1;
    while k * 2 < n
      invariant 1 <= k < n && PowerOfTwo(k)
      invariant SplitFrom(k, n) == Split(n)
    {
      assert (k * 2) / 2 == k;
      k := k * 2;
    }
    forall p: nat | PowerOfTwo(p) && p < n
      ensures p <= k
    {
      if k < p { PowersDouble(k, p); }
    }
  }

  /** There is no power of two strictly between one and its double. */
  lemma {:induction false} PowersDouble(k: nat, p: nat)
    requires PowerOfTwo(k) && PowerOfTwo(p) && k < p
    ensures 2 * k <= p
  {
    if k > 1 { PowersDouble(k / 2, p / 2); }
  }

  // ---------------------------------------------------------------- root

  function LeafPreimage(tags: TreeTags, content: Digest): seq<Byte> { InDomain(tags.leaf, content) }

  function NodePreimage(tags: TreeTags, left: Digest, right: Digest): seq<Byte> { InDomain(tags.node, left + right) }

  /** `root`: the digest of an ordered list of leaves. */
  function Root(hash: Hash, tags: TreeTags, leaves: seq<Digest>): Digest {
    hash(TopPreimage(hash, tags, leaves))
  }

  /** The last byte string hashed on the way to the root. */
  function TopPreimage(hash: Hash, tags: TreeTags, leaves: seq<Digest>): seq<Byte> {
    if |leaves| == 0 then InDomain(tags.empty, [])
    else if |leaves| == 1 then LeafPreimage(tags, leaves[0])
    else
      var k := Split(|leaves|);
      NodePreimage(tags, hash(TopPreimage(hash, tags, leaves[..k])), hash(TopPreimage(hash, tags, leaves[k..])))
  }

  /** Every byte string hashed while computing the root of `leaves`. */
  function Preimages(hash: Hash, tags: TreeTags, leaves: seq<Digest>): (s: set<seq<Byte>>)
    ensures TopPreimage(hash, tags, leaves) in s
  {
    {TopPreimage(hash, tags, leaves)} +
    if |leaves| < 2 then {} else
      var k := Split(|leaves|);
      Preimages(hash, tags, leaves[..k]) + Preimages(hash, tags, leaves[k..])
  }

  lemma NodePreimageInjective(tags: TreeTags, a: Digest, b: Digest, c: Digest, d: Digest)
    requires NodePreimage(tags, a, b) == NodePreimage(tags, c, d)
    ensures a == c && b == d
  {
    DomainsSeparate(tags.node, a + b, tags.node, c + d);
    SplitAt(a, b, c, d);
  }

  /**
   The root commits to the list: two lists with one root, of whatever lengths, are the same
   list, or computing the two roots hashed a collision.
   */
  lemma RootCommits(hash: Hash, tags: TreeTags, a: seq<Digest>, b: seq<Digest>)
    requires tags.Separated()
    requires Root(hash, tags, a) == Root(hash, tags, b)
    ensures a == b || CollisionIn(hash, Preimages(hash, tags, a), Preimages(hash, tags, b))
    decreases |a|, 0
  {
    var xs, ys := Preimages(hash, tags, a), Preimages(hash, tags, b);
    EqualOrCollision(hash, TopPreimage(hash, tags, a), TopPreimage(hash, tags, b), xs, ys);
    if !CollisionIn(hash, xs, ys) {
      SameTop(hash, tags, a, b);
      if |a| >= 2 {
        var i, j := Split(|a|), Split(|b|);
        ChildCommits(hash, tags, a[..i], b[..j], xs, ys);
        ChildCommits(hash, tags, a[i..], b[j..], xs, ys);
        assert a == a[..i] + a[i..] && b == b[..j] + b[j..];
      }
    }
  }

  lemma ChildCommits(
      hash: Hash, tags: TreeTags, a: seq<Digest>, b: seq<Digest>, xs: set<seq<Byte>>, ys: set<seq<Byte>>)
    requires tags.Separated() && Root(hash, tags, a) == Root(hash, tags, b)
    requires Preimages(hash, tags, a) <= xs && Preimages(hash, tags, b) <= ys && !CollisionIn(hash, xs, ys)
    ensures a == b
    decreases |a|, 1
  {
    RootCommits(hash, tags, a, b);
    if a != b { CollisionWidens(hash, Preimages(hash, tags, a), Preimages(hash, tags, b), xs, ys); }
  }

  /** Equal top pre-images come from trees of one shape at the top, with equal children. */
  lemma SameTop(hash: Hash, tags: TreeTags, a: seq<Digest>, b: seq<Digest>)
    requires tags.Separated()
    requires TopPreimage(hash, tags, a) == TopPreimage(hash, tags, b)
    ensures |a| >= 2 <==> |b| >= 2
    ensures |a| < 2 ==> a == b
    ensures |a| >= 2 ==>
      var i, j := Split(|a|), Split(|b|);
      Root(hash, tags, a[..i]) == Root(hash, tags, b[..j]) && Root(hash, tags, a[i..]) == Root(hash, tags, b[j..])
  {
    hide InDomain;
    DomainsSeparate(TopTag(tags, a), TopContent(hash, tags, a), TopTag(tags, b), TopContent(hash, tags, b));
    if |a| >= 2 && |b| >= 2 {
      var i, j := Split(|a|), Split(|b|);
      NodePreimageInjective(tags, Root(hash, tags, a[..i]), Root(hash, tags, a[i..]),
                            Root(hash, tags, b[..j]), Root(hash, tags, b[j..]));
    }
  }

  function TopTag(tags: TreeTags, leaves: seq<Digest>): ByteString {
    if |leaves| == 0 then tags.empty else if |leaves| == 1 then tags.leaf else tags.node
  }

  function TopContent(hash: Hash, tags: TreeTags, leaves: seq<Digest>): (c: seq<Byte>)
    ensures TopPreimage(hash, tags, leaves) == InDomain(TopTag(tags, leaves), c)
  {
    if |leaves| == 0 then [] else if |leaves| == 1 then leaves[0]
    else var k := Split(|leaves|); Root(hash, tags, leaves[..k]) + Root(hash, tags, leaves[k..])
  }

  // ---------------------------------------------------------------- inclusion proofs

  datatype Side = Left | Right

  datatype ProofStep = ProofStep(side: Side, hash: Digest)

  datatype InclusionProof = InclusionProof(index: nat, steps: seq<ProofStep>)

  datatype Verdict =
    | Accepted
    | IndexOutOfRange(index: nat, count: nat)
    | WrongShape(expectedSides: seq<Side>, foundSides: seq<Side>)
    | RootMismatch(expectedRoot: Digest, computed: Digest)

  /** `audit_path`: the sibling roots from leaf `index` up, leaf-most first. */
  function AuditPath(hash: Hash, tags: TreeTags, leaves: seq<Digest>, index: nat): seq<ProofStep>
    requires index < |leaves|
  {
    if |leaves| == 1 then [] else
      var k := Split(|leaves|);
      if index < k then
        AuditPath(hash, tags, leaves[..k], index) + [ProofStep(Right, Root(hash, tags, leaves[k..]))]
      else
        AuditPath(hash, tags, leaves[k..], index - k) + [ProofStep(Left, Root(hash, tags, leaves[..k]))]
  }

  /** `expected_sides`: left or right at each level, read off the shape of the tree alone. */
  function ExpectedSides(count: nat, index: nat): seq<Side>
    requires index < count
  {
    if count == 1 then [] else
      var k := Split(count);
      if index < k then ExpectedSides(k, index) + [Right] else ExpectedSides(count - k, index - k) + [Left]
  }

  function Sides(steps: seq<ProofStep>): (s: seq<Side>)
    ensures |s| == |steps|
  {
    seq(|steps|, i requires 0 <= i < |steps| => steps[i].side)
  }

  /** What is hashed at one level of a path. */
  function StepPreimage(tags: TreeTags, running: Digest, step: ProofStep): seq<Byte> {
    match step.side
    case Left => NodePreimage(tags, step.hash, running)
    case Right => NodePreimage(tags, running, step.hash)
  }

  /** The root a path folds to. */
  function FoldPath(hash: Hash, tags: TreeTags, leaf: Digest, steps: seq<ProofStep>): Digest {
    if steps == [] then hash(LeafPreimage(tags, leaf)) else
      var n := |steps| - 1;
      hash(StepPreimage(tags, FoldPath(hash, tags, leaf, steps[..n]), steps[n]))
  }

  /** Every byte string hashed while folding a path. */
  function PathPreimages(hash: Hash, tags: TreeTags, leaf: Digest, steps: seq<ProofStep>): set<seq<Byte>> {
    if steps == [] then {LeafPreimage(tags, leaf)} else
      var n := |steps| - 1;
      {StepPreimage(tags, FoldPath(hash, tags, leaf, steps[..n]), steps[n])} +
      PathPreimages(hash, tags, leaf, steps[..n])
  }

  function Judge(hash: Hash, tags: TreeTags, proof: InclusionProof, leaf: Digest, count: nat, root: Digest): Verdict {
    if proof.index >= count then IndexOutOfRange(proof.index, count)
    else if ExpectedSides(count, proof.index) != Sides(proof.steps) then
      WrongShape(ExpectedSides(count, proof.index), Sides(proof.steps))
    else if FoldPath(hash, tags, leaf, proof.steps) != root then
      RootMismatch(root, FoldPath(hash, tags, leaf, proof.steps))
    else Accepted
  }

  /** `verify_with`: range, shape, then one hash per level. */
  method VerifyWith(hash: Hash, tags: TreeTags, proof: InclusionProof, leaf: Digest, count: nat, root: Digest)
    returns (verdict: Verdict)
    ensures verdict == Judge(hash, tags, proof, leaf, count, root)
  {
    if proof.index >= count {
      return IndexOutOfRange(proof.index, count);
    }
    var expected, found := ExpectedSides(count, proof.index), Sides(proof.steps);
    if expected != found {
      return WrongShape(expected, found);
    }
    var running := hash(LeafPreimage(tags, leaf));
    for i := 0 to |proof.steps|
      invariant running == FoldPath(hash, tags, leaf, proof.steps[..i])
    {
      assert proof.steps[..i + 1][..i] == proof.steps[..i];
      running := hash(StepPreimage(tags, running, proof.steps[i]));
    }
    assert proof.steps[..|proof.steps|] == proof.steps;
    verdict := if running == root then Accepted else RootMismatch(root, running);
  }

  lemma FoldOneMore(hash: Hash, tags: TreeTags, leaf: Digest, steps: seq<ProofStep>, last: ProofStep)
    ensures FoldPath(hash, tags, leaf, steps + [last])
      == hash(StepPreimage(tags, FoldPath(hash, tags, leaf, steps), last))
    ensures Sides(steps + [last]) == Sides(steps) + [last.side]
  {
    assert (steps + [last])[..|steps|] == steps;
  }

  /** A generated path has the expected shape and folds to the root: every leaf can be proved. */
  lemma {:induction false} PathComplete(hash: Hash, tags: TreeTags, leaves: seq<Digest>, index: nat)
    requires index < |leaves|
    ensures Sides(AuditPath(hash, tags, leaves, index)) == ExpectedSides(|leaves|, index)
    ensures FoldPath(hash, tags, leaves[index], AuditPath(hash, tags, leaves, index)) == Root(hash, tags, leaves)
  {
    hide NodePreimage, LeafPreimage, FoldPath, Sides;
    if |leaves| == 1 {
      SingleLeaf(hash, tags, leaves[0]);
      assert leaves == [leaves[0]];
    } else {
      var k := Split(|leaves|);
      if index < k {
        PathComplete(hash, tags, leaves[..k], index);
        FoldOneMore(hash, tags, leaves[index], AuditPath(hash, tags, leaves[..k], index),
                    ProofStep(Right, Root(hash, tags, leaves[k..])));
      } else {
        PathComplete(hash, tags, leaves[k..], index - k);
        FoldOneMore(hash, tags, leaves[index], AuditPath(hash, tags, leaves[k..], index - k),
                    ProofStep(Left, Root(hash, tags, leaves[..k])));
      }
    }
  }

  lemma SingleLeaf(hash: Hash, tags: TreeTags, leaf: Digest)
    ensures Sides([]) == [] && FoldPath(hash, tags, leaf, []) == Root(hash, tags, [leaf])
  {
  }

  /** `generate_with`: no proof for an index out of range, nor for one that does not fit a `u32`. */
  function GenerateWith(hash: Hash, tags: TreeTags, leaves: seq<Digest>, index: nat): Option<InclusionProof> {
    if index >= |leaves| || index > U32_MAX then None
    else Some(InclusionProof(index, AuditPath(hash, tags, leaves, index)))
  }

  /** Every leaf that can be indexed has a proof, and it is accepted; nothing else is generated. */
  lemma GeneratedProofAccepted(hash: Hash, tags: TreeTags, leaves: seq<Digest>, index: nat)
    ensures GenerateWith(hash, tags, leaves, index).Some? <==> index < |leaves| && index <= U32_MAX
    ensures GenerateWith(hash, tags, leaves, index).Some? ==>
      Judge(hash, tags, GenerateWith(hash, tags, leaves, index).value, leaves[index], |leaves|,
          Root(hash, tags, leaves)) == Accepted
  {
    if index < |leaves| { PathComplete(hash, tags, leaves, index); }
  }

  /**
   An accepted proof is the truth: the leaf is the one at that index and the path is, step
   for step, the one the tree generates; otherwise a byte string hashed by the verifier
   collides with one hashed by the tree.
   */
  lemma AcceptedProofSound(hash: Hash, tags: TreeTags, proof: InclusionProof, leaf: Digest,
      leaves: seq<Digest>)
    requires tags.Separated()
    requires Judge(hash, tags, proof, leaf, |leaves|, Root(hash, tags, leaves)) == Accepted
    ensures proof.index < |leaves|
    ensures (leaf == leaves[proof.index] && proof.steps == AuditPath(hash, tags, leaves, proof.index))
         || CollisionIn(hash, PathPreimages(hash, tags, leaf, proof.steps), Preimages(hash, tags, leaves))
  {
    var xs, ys := PathPreimages(hash, tags, leaf, proof.steps), Preimages(hash, tags, leaves);
    if !CollisionIn(hash, xs, ys) {
      PathSound(hash, tags, leaf, proof.steps, leaves, proof.index, xs, ys);
    }
  }

  /** Unless a collision was hashed, the last step of a path joins the two halves of the tree. */
  lemma LastStep(
      hash: Hash, tags: TreeTags, leaf: Digest, steps: seq<ProofStep>, leaves: seq<Digest>,
      xs: set<seq<Byte>>, ys: set<seq<Byte>>)
    requires |leaves| >= 2 && steps != []
    requires FoldPath(hash, tags, leaf, steps) == Root(hash, tags, leaves)
    requires PathPreimages(hash, tags, leaf, steps) <= xs && Preimages(hash, tags, leaves) <= ys
    requires !CollisionIn(hash, xs, ys)
    ensures var k, n := Split(|leaves|), |steps| - 1;
      var running := FoldPath(hash, tags, leaf, steps[..n]);
      var left, right := Root(hash, tags, leaves[..k]), Root(hash, tags, leaves[k..]);
      && PathPreimages(hash, tags, leaf, steps[..n]) <= xs
      && Preimages(hash, tags, leaves[..k]) <= ys && Preimages(hash, tags, leaves[k..]) <= ys
      && (steps[n].side == Right ==> running == left && steps[n].hash == right)
      && (steps[n].side == Left ==> running == right && steps[n].hash == left)
  {
    var k, n := Split(|leaves|), |steps| - 1;
    var running := FoldPath(hash, tags, leaf, steps[..n]);
    var left, right := Root(hash, tags, leaves[..k]), Root(hash, tags, leaves[k..]);
    EqualOrCollision(hash, StepPreimage(tags, running, steps[n]), TopPreimage(hash, tags, leaves), xs, ys);
    match steps[n].side
    case Left => NodePreimageInjective(tags, steps[n].hash, running, left, right);
    case Right => NodePreimageInjective(tags, running, steps[n].hash, left, right);
  }

  /** The sides of a path of the right shape, cut at its last step. */
  lemma LastSide(steps: seq<ProofStep>, count: nat, index: nat)
    requires index < count && count >= 2 && Sides(steps) == ExpectedSides(count, index)
    ensures var k, n := Split(count), |steps| - 1;
      && n >= 0 && steps == steps[..n] + [steps[n]]
      && (index < k ==> steps[n].side == Right && Sides(steps[..n]) == ExpectedSides(k, index))
      && (index >= k ==> steps[n].side == Left && Sides(steps[..n]) == ExpectedSides(count - k, index - k))
  {
    var n := |steps| - 1;
    assert |Sides(steps)| >= 1 && Sides(steps)[n] == steps[n].side;
    assert Sides(steps[..n]) == Sides(steps)[..n];
  }

  lemma FirstStep(
      hash: Hash, tags: TreeTags, leaf: Digest, only: Digest, xs: set<seq<Byte>>, ys: set<seq<Byte>>)
    requires FoldPath(hash, tags, leaf, []) == Root(hash, tags, [only])
    requires LeafPreimage(tags, leaf) in xs && LeafPreimage(tags, only) in ys && !CollisionIn(hash, xs, ys)
    ensures leaf == only
  {
    EqualOrCollision(hash, LeafPreimage(tags, leaf), LeafPreimage(tags, only), xs, ys);
    DomainsSeparate(tags.leaf, leaf, tags.leaf, only);
  }

  lemma {:induction false} PathSound(
      hash: Hash, tags: TreeTags, leaf: Digest, steps: seq<ProofStep>, leaves: seq<Digest>, index: nat,
      xs: set<seq<Byte>>, ys: set<seq<Byte>>)
    requires tags.Separated() && index < |leaves|
    requires Sides(steps) == ExpectedSides(|leaves|, index)
    requires FoldPath(hash, tags, leaf, steps) == Root(hash, tags, leaves)
    requires PathPreimages(hash, tags, leaf, steps) <= xs && Preimages(hash, tags, leaves) <= ys
    requires !CollisionIn(hash, xs, ys)
    ensures leaf == leaves[index] && steps == AuditPath(hash, tags, leaves, index)
  {
    if |leaves| == 1 {
      assert leaves == [leaves[0]] && steps == [];
      FirstStep(hash, tags, leaf, leaves[0], xs, ys);
    } else {
      var k, n := Split(|leaves|), |steps| - 1;
      LastSide(steps, |leaves|, index);
      LastStep(hash, tags, leaf, steps, leaves, xs, ys);
      if index < k {
        PathSound(hash, tags, leaf, steps[..n], leaves[..k], index, xs, ys);
      } else {
        PathSound(hash, tags, leaf, steps[..n], leaves[k..], index - k, xs, ys);
      }
    }
  }
}
