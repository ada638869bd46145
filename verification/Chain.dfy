/**
 Prunella's transactions, headers and blocks: the canonical pre-images, the derivations that
 bind a block to its parent and to its transactions, and what the head hash commits to.
 */
module Chain {
  import opened Bytes
  import opened Merkle

  type U32 = n: nat | n <= U32_MAX
  type U64 = n: nat | n <= U64_MAX

  /** A 64-byte Ed25519 signature. */
  type Signature = s: seq<Byte> | |s| == 64 witness seq(64, _ => 0)

  const HEADER_VERSION: nat := 1

  const TX_ID: ByteString := Ascii("PRUNELLA/v1/tx-id")
  const BLOCK_HEADER: ByteString := Ascii("PRUNELLA/v1/block-header")

  datatype Transaction = Transaction(
    id: Digest, namespace: ByteString, schemaVersion: U32, payload: ByteString,
    signer: Digest, nonce: U64, signature: Signature)

  datatype Header = Header(
    version: nat, networkId: ByteString, height: U64, previousHash: Digest,
    txRoot: Digest, txCount: U32, timestamp: U64)

  datatype Block = Block(header: Header, transactions: seq<Transaction>)

  datatype BlockDraft = BlockDraft(
    networkId: ByteString, height: U64, previousHash: Digest, timestamp: U64, transactions: seq<Transaction>)

  datatype BuildResult =
    | Built(block: Block)
    | HeightOverflow(height: U64)
    | TooManyTransactions(count: nat)

  // ---------------------------------------------------------------- pre-images

  /** The canonical bytes a transaction id is derived from: every field but the id. */
  function IdBytes(tx: Transaction): seq<Byte> {
    Prefixed(tx.namespace) + (Le(tx.schemaVersion, 4) + (Prefixed(tx.payload) +
    (tx.signer + (Le(tx.nonce, 8) + tx.signature))))
  }

  function IdPreimage(tx: Transaction): seq<Byte> { InDomain(TX_ID, IdBytes(tx)) }

  function ComputeId(hash: Hash, tx: Transaction): Digest { hash(IdPreimage(tx)) }

  /** The canonical bytes of a header, in field order. */
  function HeaderBytes(h: Header): seq<Byte> {
    Le(h.version, 2) + (Prefixed(h.networkId) + (Le(h.height, 8) + (h.previousHash +
    (h.txRoot + (Le(h.txCount, 4) + Le(h.timestamp, 8))))))
  }

  function HeaderPreimage(h: Header): seq<Byte> { InDomain(BLOCK_HEADER, HeaderBytes(h)) }

  function BlockHash(hash: Hash, h: Header): Digest { hash(HeaderPreimage(h)) }

  /** A transaction id pre-image determines every field it covers. */
  lemma IdPreimageInjective(s: Transaction, t: Transaction)
    requires IdPreimage(s) == IdPreimage(t)
    ensures s.(id := t.id) == t
  {
    DomainsSeparate(TX_ID, IdBytes(s), TX_ID, IdBytes(t));
    var s5, t5 := Le(s.nonce, 8) + s.signature, Le(t.nonce, 8) + t.signature;
    var s4, t4 := s.signer + s5, t.signer + t5;
    var s3, t3 := Prefixed(s.payload) + s4, Prefixed(t.payload) + t4;
    var s2, t2 := Le(s.schemaVersion, 4) + s3, Le(t.schemaVersion, 4) + t3;
    PrefixedSplits(s.namespace, s2, t.namespace, t2);
    SplitAt(Le(s.schemaVersion, 4), s3, Le(t.schemaVersion, 4), t3);
    PrefixedSplits(s.payload, s4, t.payload, t4);
    SplitAt(s.signer, s5, t.signer, t5);
    SplitAt(Le(s.nonce, 8), s.signature, Le(t.nonce, 8), t.signature);
    Widths();
    LeInjective(s.schemaVersion, t.schemaVersion, 4);
    LeInjective(s.nonce, t.nonce, 8);
  }

  /** A header pre-image determines the header. */
  lemma HeaderPreimageInjective(s: Header, t: Header)
    requires HeaderPreimage(s) == HeaderPreimage(t) && s.version <= U16_MAX && t.version <= U16_MAX
    ensures s == t
  {
    DomainsSeparate(BLOCK_HEADER, HeaderBytes(s), BLOCK_HEADER, HeaderBytes(t));
    var s5, t5 := Le(s.txCount, 4) + Le(s.timestamp, 8), Le(t.txCount, 4) + Le(t.timestamp, 8);
    var s4, t4 := s.txRoot + s5, t.txRoot + t5;
    var s3, t3 := s.previousHash + s4, t.previousHash + t4;
    var s2, t2 := Le(s.height, 8) + s3, Le(t.height, 8) + t3;
    SplitAt(Le(s.version, 2), Prefixed(s.networkId) + s2, Le(t.version, 2), Prefixed(t.networkId) + t2);
    PrefixedSplits(s.networkId, s2, t.networkId, t2);
    SplitAt(Le(s.height, 8), s3, Le(t.height, 8), t3);
    SplitAt(s.previousHash, s4, t.previousHash, t4);
    SplitAt(s.txRoot, s5, t.txRoot, t5);
    SplitAt(Le(s.txCount, 4), Le(s.timestamp, 8), Le(t.txCount, 4), Le(t.timestamp, 8));
    Widths();
    LeInjective(s.version, t.version, 2);
    LeInjective(s.height, t.height, 8);
    LeInjective(s.txCount, t.txCount, 4);
    LeInjective(s.timestamp, t.timestamp, 8);
  }

  lemma Field(s: seq<Byte>, i: nat, field: seq<Byte>, rest: seq<Byte>)
    requires i <= |s| && s[i..] == field + rest
    ensures |s| == i + |field| + |rest| && s[i..i + |field|] == field && s[i + |field|..] == rest
  {
    assert s[i..i + |field|] == s[i..][..|field|] && s[i + |field|..] == s[i..][|field|..];
  }

  /** Where each field of a header is, byte by byte. */
  lemma HeaderLayout(h: Header)
    ensures var s, n := HeaderBytes(h), |h.networkId|;
      && |s| == n + 90
      && s[..2] == Le(h.version, 2) && s[2..6] == Le(n, 4) && s[6..n + 6] == h.networkId
      && s[n + 6..n + 14] == Le(h.height, 8) && s[n + 14..n + 46] == h.previousHash
      && s[n + 46..n + 78] == h.txRoot && s[n + 78..n + 82] == Le(h.txCount, 4)
      && s[n + 82..] == Le(h.timestamp, 8)
  {
    hide Le;
    var s7 := Le(h.txCount, 4) + Le(h.timestamp, 8);
    var s6 := h.txRoot + s7;
    var s5 := h.previousHash + s6;
    var s4 := Le(h.height, 8) + s5;
    var s3 := h.networkId + s4;
    var s, n := HeaderBytes(h), |h.networkId|;
    assert s[0..] == Le(h.version, 2) + (Le(n, 4) + s3);
    Field(s, 0, Le(h.version, 2), Le(n, 4) + s3);
    Field(s, 2, Le(n, 4), s3);
    Field(s, 6, h.networkId, s4);
    Field(s, n + 6, Le(h.height, 8), s5);
    Field(s, n + 14, h.previousHash, s6);
    Field(s, n + 46, h.txRoot, s7);
    Field(s, n + 78, Le(h.txCount, 4), Le(h.timestamp, 8));
  }

  /** Where each field of a transaction is in what its id is derived from. */
  lemma IdLayout(tx: Transaction)
    ensures var s, n, p := IdBytes(tx), |tx.namespace|, |tx.namespace| + |tx.payload|;
      && |s| == p + 116
      && s[..4] == Le(n, 4) && s[4..n + 4] == tx.namespace && s[n + 4..n + 8] == Le(tx.schemaVersion, 4)
      && s[n + 8..n + 12] == Le(|tx.payload|, 4) && s[n + 12..p + 12] == tx.payload
      && s[p + 12..p + 44] == tx.signer && s[p + 44..p + 52] == Le(tx.nonce, 8) && s[p + 52..] == tx.signature
  {
    hide Le;
    var s6 := Le(tx.nonce, 8) + tx.signature;
    var s5 := tx.signer + s6;
    var s4 := tx.payload + s5;
    var s3 := Le(|tx.payload|, 4) + s4;
    var s2 := Le(tx.schemaVersion, 4) + s3;
    var s, n, p := IdBytes(tx), |tx.namespace|, |tx.namespace| + |tx.payload|;
    assert s[0..] == Le(n, 4) + (tx.namespace + s2);
    Field(s, 0, Le(n, 4), tx.namespace + s2);
    Field(s, 4, tx.namespace, s2);
    Field(s, n + 4, Le(tx.schemaVersion, 4), s3);
    Field(s, n + 8, Le(|tx.payload|, 4), s4);
    Field(s, n + 12, tx.payload, s5);
    Field(s, p + 12, tx.signer, s6);
    Field(s, p + 44, Le(tx.nonce, 8), tx.signature);
  }

  // ---------------------------------------------------------------- building

  function Ids(txs: seq<Transaction>): (ids: seq<Digest>)
    ensures |ids| == |txs| && forall i :: 0 <= i < |txs| ==> ids[i] == txs[i].id
  {
    seq(|txs|, i requires 0 <= i < |txs| => txs[i].id)
  }

  /** `BlockDraft::build`: the count and the root are derived, never supplied. */
  function Build(hash: Hash, draft: BlockDraft): BuildResult {
    if |draft.transactions| > U32_MAX then TooManyTransactions(|draft.transactions|) else
      Built(Block(
        Header(HEADER_VERSION, draft.networkId, draft.height, draft.previousHash,
               Root(hash, PRUNELLA_V1, Ids(draft.transactions)), |draft.transactions|, draft.timestamp),
        draft.transactions))
  }

  /** `GenesisSpec::build`. */
  function BuildGenesis(hash: Hash, networkId: ByteString, timestamp: U64, txs: seq<Transaction>): BuildResult {
    Build(hash, BlockDraft(networkId, 0, ZERO, timestamp, txs))
  }

  /** `child_draft(..).build()`. */
  function BuildChild(hash: Hash, parent: Header, txs: seq<Transaction>, timestamp: U64): BuildResult {
    if parent.height == U64_MAX then HeightOverflow(parent.height)
    else Build(hash, BlockDraft(parent.networkId, parent.height + 1, BlockHash(hash, parent), timestamp, txs))
  }

  ghost predicate GenesisOf(hash: Hash, b: Block) {
    BuildGenesis(hash, b.header.networkId, b.header.timestamp, b.transactions) == Built(b)
  }

  /** Block `i` was built as a child of the block before it. */
  ghost predicate ChildAt(hash: Hash, chain: seq<Block>, i: nat)
    requires 0 < i < |chain|
  {
    BuildChild(hash, chain[i - 1].header, chain[i].transactions, chain[i].header.timestamp) == Built(chain[i])
  }

  ghost predicate ConsistentIds(hash: Hash, b: Block) {
    forall i :: 0 <= i < |b.transactions| ==> b.transactions[i].id == ComputeId(hash, b.transactions[i])
  }

  /** A chain produced by the builders alone, its transactions carrying the ids they derive. */
  ghost predicate WellBuilt(hash: Hash, chain: seq<Block>) {
    && |chain| > 0
    && GenesisOf(hash, chain[0])
    && (forall i :: 0 < i < |chain| ==> ChildAt(hash, chain, i))
    && (forall i :: 0 <= i < |chain| ==> ConsistentIds(hash, chain[i]))
  }

  // ---------------------------------------------------------------- commitment

  /** Every byte string hashed to derive one block and its transactions' ids. */
  ghost function BlockPreimages(hash: Hash, b: Block): set<seq<Byte>> {
    {HeaderPreimage(b.header)} + Preimages(hash, PRUNELLA_V1, Ids(b.transactions)) +
    set i | 0 <= i < |b.transactions| :: IdPreimage(b.transactions[i])
  }

  /** Every byte string hashed to derive a whole chain. */
  ghost function ChainPreimages(hash: Hash, chain: seq<Block>): set<seq<Byte>> {
    set i, x | 0 <= i < |chain| && x in BlockPreimages(hash, chain[i]) :: x
  }

  lemma {:induction false} BuiltHeights(hash: Hash, chain: seq<Block>, i: nat)
    requires WellBuilt(hash, chain) && i < |chain|
    ensures chain[i].header.height == i && chain[i].header.version == HEADER_VERSION
    ensures chain[i].header.txRoot == Root(hash, PRUNELLA_V1, Ids(chain[i].transactions))
    ensures i == 0 ==> chain[i].header.previousHash == ZERO
  {
    if i == 0 {
    } else {
      BuiltHeights(hash, chain, i - 1);
      assert ChildAt(hash, chain, i);
    }
  }

  /**
   What every block of a built chain says of itself: its height, how many transactions it really
   holds, the network the chain was founded for, and the hash of the block before it.
   */
  lemma {:induction false} BuiltHeaders(hash: Hash, chain: seq<Block>, i: nat)
    requires WellBuilt(hash, chain) && i < |chain|
    ensures var h := chain[i].header;
      && h.height == i && h.txCount == |chain[i].transactions| && h.networkId == chain[0].header.networkId
      && h.txRoot == Root(hash, PRUNELLA_V1, Ids(chain[i].transactions))
      && h.previousHash == if i == 0 then ZERO else BlockHash(hash, chain[i - 1].header)
  {
    hide Root, HeaderPreimage;
    BuiltHeights(hash, chain, i);
    if i == 0 {
    } else {
      assert ChildAt(hash, chain, i);
      BuiltHeaders(hash, chain, i - 1);
    }
  }

  predicate IdsDerived(hash: Hash, txs: seq<Transaction>) {
    forall i :: 0 <= i < |txs| ==> txs[i].id == ComputeId(hash, txs[i])
  }

  /**
   The builders never refuse what fits, and carry what they are given: any transactions that fit
   extend a built chain to a built chain by one block, at the time stated.
   */
  lemma BuildersExtend(hash: Hash, chain: seq<Block>, txs: seq<Transaction>, timestamp: U64)
    requires WellBuilt(hash, chain) && IdsDerived(hash, txs) && |txs| <= U32_MAX && |chain| <= U64_MAX
    ensures var built := BuildChild(hash, chain[|chain| - 1].header, txs, timestamp);
      && built.Built? && WellBuilt(hash, chain + [built.block])
      && built.block.transactions == txs && built.block.header.timestamp == timestamp
  {
    hide Root, HeaderPreimage, IdPreimage;
    BuiltHeights(hash, chain, |chain| - 1);
    var b := BuildChild(hash, chain[|chain| - 1].header, txs, timestamp).block;
    var longer := chain + [b];
    forall i | 0 < i < |longer| ensures ChildAt(hash, longer, i) {
      if i < |chain| { assert ChildAt(hash, chain, i); }
    }
    forall i | 0 <= i < |longer| ensures ConsistentIds(hash, longer[i]) {
      if i < |chain| { assert ConsistentIds(hash, chain[i]); }
    }
  }

  /** A founding block of any transactions that fit is a built chain of its own, for the network and time stated. */
  lemma BuildersFound(hash: Hash, networkId: ByteString, timestamp: U64, txs: seq<Transaction>)
    requires IdsDerived(hash, txs) && |txs| <= U32_MAX
    ensures var built := BuildGenesis(hash, networkId, timestamp, txs);
      && built.Built? && WellBuilt(hash, [built.block]) && built.block.transactions == txs
      && built.block.header.timestamp == timestamp && built.block.header.networkId == networkId
  {
    hide Root, IdPreimage;
  }

  /** A derived id commits to the whole transaction: one id means one transaction, or a collision was hashed. */
  lemma IdCommits(hash: Hash, s: Transaction, t: Transaction)
    requires s.id == ComputeId(hash, s) && t.id == ComputeId(hash, t) && s.id == t.id
    ensures s == t || CollisionIn(hash, {IdPreimage(s)}, {IdPreimage(t)})
  {
    hide IdPreimage;
    EqualOrCollision(hash, IdPreimage(s), IdPreimage(t), {IdPreimage(s)}, {IdPreimage(t)});
    if IdPreimage(s) == IdPreimage(t) { IdPreimageInjective(s, t); }
  }

  /** On a built chain no two transactions share an id, wherever they are, unless a collision was hashed. */
  lemma ChainIdsCommit(hash: Hash, chain: seq<Block>, i: nat, k: nat, j: nat, l: nat)
    requires WellBuilt(hash, chain) && i < |chain| && j < |chain|
    requires k < |chain[i].transactions| && l < |chain[j].transactions|
    requires chain[i].transactions[k].id == chain[j].transactions[l].id
    ensures chain[i].transactions[k] == chain[j].transactions[l]
         || CollisionIn(hash, ChainPreimages(hash, chain), ChainPreimages(hash, chain))
  {
    hide IdPreimage, HeaderPreimage, Preimages;
    var s, t, xs := chain[i].transactions[k], chain[j].transactions[l], ChainPreimages(hash, chain);
    assert ConsistentIds(hash, chain[i]) && ConsistentIds(hash, chain[j]);
    IdCommits(hash, s, t);
    assert IdPreimage(s) in BlockPreimages(hash, chain[i]) && IdPreimage(t) in BlockPreimages(hash, chain[j]);
    if s != t { CollisionWidens(hash, {IdPreimage(s)}, {IdPreimage(t)}, xs, xs); }
  }

  /** Two blocks with one header and consistent ids are one block, or a collision was hashed. */
  lemma HeaderCommits(hash: Hash, a: Block, b: Block)
    requires a.header == b.header && ConsistentIds(hash, a) && ConsistentIds(hash, b)
    requires a.header.txRoot == Root(hash, PRUNELLA_V1, Ids(a.transactions))
    requires b.header.txRoot == Root(hash, PRUNELLA_V1, Ids(b.transactions))
    ensures a == b || CollisionIn(hash, BlockPreimages(hash, a), BlockPreimages(hash, b))
  {
    var xs, ys := BlockPreimages(hash, a), BlockPreimages(hash, b);
    var s, t := a.transactions, b.transactions;
    TagsSeparated();
    RootCommits(hash, PRUNELLA_V1, Ids(s), Ids(t));
    if Ids(s) != Ids(t) {
      CollisionWidens(hash, Preimages(hash, PRUNELLA_V1, Ids(s)), Preimages(hash, PRUNELLA_V1, Ids(t)), xs, ys);
    } else if !CollisionIn(hash, xs, ys) {
      forall i | 0 <= i < |s|
        ensures s[i] == t[i]
      {
        assert Ids(s)[i] == Ids(t)[i];
        EqualOrCollision(hash, IdPreimage(s[i]), IdPreimage(t[i]), xs, ys);
        IdPreimageInjective(s[i], t[i]);
      }
      assert |Ids(s)| == |Ids(t)|;
    }
  }

  /** One header hash: the two blocks are one block, or a collision was hashed. */
  lemma HeaderHashCommits(hash: Hash, a: seq<Block>, b: seq<Block>, m: nat, n: nat)
    requires WellBuilt(hash, a) && WellBuilt(hash, b) && m < |a| && n < |b|
    requires BlockHash(hash, a[m].header) == BlockHash(hash, b[n].header)
    ensures a[m] == b[n] || CollisionIn(hash, BlockPreimages(hash, a[m]), BlockPreimages(hash, b[n]))
    ensures a[m] == b[n] ==> m == n
  {
    hide HeaderBytes, InDomain;
    var xs, ys := BlockPreimages(hash, a[m]), BlockPreimages(hash, b[n]);
    EqualOrCollision(hash, HeaderPreimage(a[m].header), HeaderPreimage(b[n].header), xs, ys);
    BuiltHeights(hash, a, m);
    BuiltHeights(hash, b, n);
    if !CollisionIn(hash, xs, ys) {
      HeaderPreimageInjective(a[m].header, b[n].header);
      HeaderCommits(hash, a[m], b[n]);
    }
  }

  /** Equal blocks have equal parents, unless a collision was hashed. */
  lemma ParentsAgree(
      hash: Hash, a: seq<Block>, b: seq<Block>, n: nat, xs: set<seq<Byte>>, ys: set<seq<Byte>>)
    requires WellBuilt(hash, a) && WellBuilt(hash, b) && 0 < n < |a| && n < |b| && a[n] == b[n]
    requires ChainPreimages(hash, a) <= xs && ChainPreimages(hash, b) <= ys && !CollisionIn(hash, xs, ys)
    ensures a[n - 1] == b[n - 1]
  {
    hide HeaderPreimage, BlockPreimages;
    assert ChildAt(hash, a, n) && ChildAt(hash, b, n);
    HeaderHashCommits(hash, a, b, n - 1, n - 1);
    if a[n - 1] != b[n - 1] {
      CollisionWidens(hash, BlockPreimages(hash, a[n - 1]), BlockPreimages(hash, b[n - 1]), xs, ys);
    }
  }

  /** Equal blocks at one height have equal blocks below them, all the way down. */
  lemma {:induction false} PrefixesAgree(
      hash: Hash, a: seq<Block>, b: seq<Block>, n: nat, xs: set<seq<Byte>>, ys: set<seq<Byte>>)
    requires WellBuilt(hash, a) && WellBuilt(hash, b) && n < |a| && n < |b| && a[n] == b[n]
    requires ChainPreimages(hash, a) <= xs && ChainPreimages(hash, b) <= ys && !CollisionIn(hash, xs, ys)
    ensures forall i :: 0 <= i <= n ==> a[i] == b[i]
  {
    hide *;
    if n == 0 {
    } else {
      ParentsAgree(hash, a, b, n, xs, ys);
      PrefixesAgree(hash, a, b, n - 1, xs, ys);
    }
  }

  /**
   The head hash commits to the whole chain: two built chains with one head hash are equal
   block for block and transaction for transaction, or deriving them hashed a collision.
   */
  lemma HeadCommits(hash: Hash, a: seq<Block>, b: seq<Block>)
    requires WellBuilt(hash, a) && WellBuilt(hash, b)
    requires BlockHash(hash, a[|a| - 1].header) == BlockHash(hash, b[|b| - 1].header)
    ensures a == b || CollisionIn(hash, ChainPreimages(hash, a), ChainPreimages(hash, b))
  {
    hide HeaderPreimage, BlockPreimages;
    var m, n := |a| - 1, |b| - 1;
    var xs, ys := ChainPreimages(hash, a), ChainPreimages(hash, b);
    HeaderHashCommits(hash, a, b, m, n);
    if a[m] != b[n] {
      CollisionWidens(hash, BlockPreimages(hash, a[m]), BlockPreimages(hash, b[n]), xs, ys);
    } else if !CollisionIn(hash, xs, ys) {
      PrefixesAgree(hash, a, b, n, xs, ys);
    }
  }

  /**
   What an accepted inclusion proof against a header is worth: for a block built from
   transactions with consistent ids, the transaction whose id was proved is the one at that
   index, content and all, or a collision was hashed.
   */
  lemma ProvedTransactionIsTheBlocks(hash: Hash, b: Block, proof: InclusionProof, tx: Transaction)
    requires ConsistentIds(hash, b) && tx.id == ComputeId(hash, tx)
    requires b.header.txRoot == Root(hash, PRUNELLA_V1, Ids(b.transactions)) && b.header.txCount == |b.transactions|
    requires Judge(hash, PRUNELLA_V1, proof, tx.id, b.header.txCount, b.header.txRoot) == Accepted
    ensures proof.index < |b.transactions|
    ensures b.transactions[proof.index] == tx
         || CollisionIn(hash, {IdPreimage(tx)} + PathPreimages(hash, PRUNELLA_V1, tx.id, proof.steps),
              BlockPreimages(hash, b))
  {
    TagsSeparated();
    AcceptedProofSound(hash, PRUNELLA_V1, proof, tx.id, Ids(b.transactions));
    var xs := {IdPreimage(tx)} + PathPreimages(hash, PRUNELLA_V1, tx.id, proof.steps);
    var ys := BlockPreimages(hash, b);
    var found := b.transactions[proof.index];
    if tx.id == found.id {
      EqualOrCollision(hash, IdPreimage(tx), IdPreimage(found), xs, ys);
      if IdPreimage(tx) == IdPreimage(found) { IdPreimageInjective(tx, found); }
    } else {
      CollisionWidens(hash, PathPreimages(hash, PRUNELLA_V1, tx.id, proof.steps),
                      Preimages(hash, PRUNELLA_V1, Ids(b.transactions)), xs, ys);
    }
  }

  /**
   On a built chain nothing about the block has to be taken on trust: a transaction whose proof is
   accepted against a block's own header is the one that block holds at that index, or a collision
   was hashed.
   */
  lemma ProvedTransactionIsOnTheChain(hash: Hash, chain: seq<Block>, i: nat, proof: InclusionProof, tx: Transaction)
    requires WellBuilt(hash, chain) && i < |chain| && tx.id == ComputeId(hash, tx)
    requires Judge(hash, PRUNELLA_V1, proof, tx.id, chain[i].header.txCount, chain[i].header.txRoot) == Accepted
    ensures proof.index < |chain[i].transactions|
    ensures chain[i].transactions[proof.index] == tx
         || CollisionIn(hash, {IdPreimage(tx)} + PathPreimages(hash, PRUNELLA_V1, tx.id, proof.steps),
              ChainPreimages(hash, chain))
  {
    hide Judge, IdPreimage, HeaderPreimage, Preimages, PathPreimages, Root;
    BuiltHeaders(hash, chain, i);
    assert ConsistentIds(hash, chain[i]);
    ProvedTransactionIsTheBlocks(hash, chain[i], proof, tx);
    var xs := {IdPreimage(tx)} + PathPreimages(hash, PRUNELLA_V1, tx.id, proof.steps);
    if chain[i].transactions[proof.index] != tx {
      CollisionWidens(hash, xs, BlockPreimages(hash, chain[i]), xs, ChainPreimages(hash, chain));
    }
  }
}
