/**
 The part of the storage pallet that renewals stand on: entries of the open block, sealed
 blocks, the content-hash index and the retention sweep.
 */
module Storage {
  import opened Types

  datatype EntryKind = Store | Renew

  /** `TransactionInfo`: `blockChunks` is the running chunk total of its block. */
  datatype Entry = Entry(hash: ContentHash, size: nat, kind: EntryKind, blockChunks: nat)

  datatype TransactionRef =
    | Position(block: BlockNumber, index: nat)
    | ByHash(hash: ContentHash)

  /**
   Runtime constants. Hashing is collision-free, so a content hash fixes its size.
   */
  datatype Config = Config(
    retention: nat,
    maxBlockTxs: nat,
    maxSize: nat,
    authPeriod: nat,
    cap: nat,
    sizeOf: ContentHash -> nat)
  {
    ghost predicate Valid() {
      0 < maxBlockTxs && 0 < maxSize <= U32_MAX && cap <= U64_MAX
    }
  }

  /** `open` holds from `on_initialize(now)` until `on_finalize(now)`. */
  datatype Chain = Chain(
    now: BlockNumber,
    open: bool,
    transactions: map<BlockNumber, seq<Entry>>,
    block: seq<Entry>,
    index: map<ContentHash, (BlockNumber, nat)>)

  // ---------------------------------------------------------------- entries

  const CHUNK_SIZE: nat := 256

  function NumChunks(size: nat): nat {
    (size + CHUNK_SIZE - 1) / CHUNK_SIZE
  }

  /** The fewest chunks that hold the data. */
  lemma ChunksHoldSize(size: nat)
    ensures size <= NumChunks(size) * CHUNK_SIZE < size + CHUNK_SIZE
  {
  }

  function TotalChunks(es: seq<Entry>): nat {
    if es == [] then 0 else es[|es| - 1].blockChunks
  }

  predicate DataSizeOk(cfg: Config, size: nat) {
    0 < size <= cfg.maxSize
  }

  predicate BlockFull(cfg: Config, c: Chain) {
    |c.block| >= cfg.maxBlockTxs
  }

  /** Append to the open block and move the index there at once; `None` when the block is full. */
  function Push(cfg: Config, c: Chain, e: Entry): Option<Chain> {
    if BlockFull(cfg, c) then None
    else
      var entry := e.(blockChunks := SatAdd(U32_MAX, TotalChunks(c.block), NumChunks(e.size)));
      Some(c.(block := c.block + [entry], index := c.index[e.hash := (c.now, |c.block|)]))
  }

  /** Re-append stored data as a renewed entry. */
  function PushRenew(cfg: Config, c: Chain, info: Entry): Option<Chain> {
    Push(cfg, c, info.(kind := Renew))
  }

  function TransactionInfo(c: Chain, block: BlockNumber, index: nat): Option<Entry> {
    if block in c.transactions && index < |c.transactions[block]|
    then Some(c.transactions[block][index]) else None
  }

  function Resolve(c: Chain, entry: TransactionRef): Option<Entry> {
    match entry
    case Position(block, index) => TransactionInfo(c, block, index)
    case ByHash(hash) =>
      if hash in c.index then TransactionInfo(c, c.index[hash].0, c.index[hash].1) else None
  }

  /** `seal_block`: keep the block's entries iff they hold chunks, and close the block. */
  function Seal(c: Chain): Chain {
    c.(open := false, block := [],
       transactions := if TotalChunks(c.block) != 0 then c.transactions[c.now := c.block]
                       else c.transactions)
  }

  // ---------------------------------------------------------------- retention sweep

  /** The block whose entries age out when block `n` starts; 0 stands for none. */
  function Obsolete(cfg: Config, n: BlockNumber): BlockNumber {
    SatSub(n, cfg.retention + 1)
  }

  function Hashes(es: seq<Entry>): set<ContentHash> {
    set i | 0 <= i < |es| :: es[i].hash
  }

  predicate PointsAt(index: map<ContentHash, (BlockNumber, nat)>, h: ContentHash, b: BlockNumber) {
    h in index && index[h].0 == b
  }

  /** An entry is flagged latest when the index names its block and no earlier entry claimed the hash. */
  function Flagged(es: seq<Entry>, index: map<ContentHash, (BlockNumber, nat)>, b: BlockNumber)
    : (items: seq<(Entry, bool)>)
    ensures |items| == |es|
  {
    seq(|es|, i requires 0 <= i < |es| =>
      (es[i], PointsAt(index, es[i].hash, b) && es[i].hash !in Hashes(es[..i])))
  }

  function Unindexed(index: map<ContentHash, (BlockNumber, nat)>, es: seq<Entry>, b: BlockNumber)
    : map<ContentHash, (BlockNumber, nat)>
  {
    map h | h in index && !(index[h].0 == b && h in Hashes(es)) :: index[h]
  }

  function SweptEntries(cfg: Config, c: Chain): seq<Entry> {
    var b := Obsolete(cfg, c.now + 1);
    if b > 0 && b in c.transactions then c.transactions[b] else []
  }

  /** `on_initialize`: open block `now + 1`, drop the obsolete block and clear the index of its latest entries. */
  function Sweep(cfg: Config, c: Chain): Chain {
    var b := Obsolete(cfg, c.now + 1);
    var c1 := c.(now := c.now + 1, open := true);
    if b > 0 && b in c.transactions
    then c1.(transactions := c.transactions - {b}, index := Unindexed(c.index, c.transactions[b], b))
    else c1
  }

  // ---------------------------------------------------------------- invariant

  ghost predicate EntryOk(cfg: Config, e: Entry) {
    DataSizeOk(cfg, e.size) && e.size == cfg.sizeOf(e.hash) && 0 < e.blockChunks
  }

  /** Chunk totals are cumulative over a block. */
  ghost predicate Cumulative(es: seq<Entry>) {
    forall i :: 0 <= i < |es| ==>
      es[i].blockChunks == SatAdd(U32_MAX, TotalChunks(es[..i]), NumChunks(es[i].size))
  }

  /** The entries recorded for block `b`, sealed or still open. */
  function EntriesAt(c: Chain, b: BlockNumber): seq<Entry> {
    if b in c.transactions then c.transactions[b]
    else if c.open && b == c.now then c.block
    else []
  }

  ghost predicate ListOk(cfg: Config, es: seq<Entry>) {
    && |es| <= cfg.maxBlockTxs
    && Cumulative(es)
    && forall i :: 0 <= i < |es| ==> EntryOk(cfg, es[i])
  }

  /** Sealed blocks are non-empty and lie in the retention window. */
  ghost predicate WindowOk(cfg: Config, c: Chain) {
    && (if c.open then 1 <= c.now else c.block == [])
    && forall b :: b in c.transactions ==>
         && 0 < |c.transactions[b]|
         && 1 <= b && c.now <= b + cfg.retention
         && (if c.open then b < c.now else b <= c.now)
  }

  /** Every index entry names a recorded entry of that hash. */
  ghost predicate IndexSound(c: Chain) {
    forall h :: h in c.index ==>
      && c.index[h].1 < |EntriesAt(c, c.index[h].0)|
      && EntriesAt(c, c.index[h].0)[c.index[h].1].hash == h
  }

  /** Every recorded entry's hash is indexed, at its own block or a later one. */
  ghost predicate IndexComplete(c: Chain) {
    forall b, i :: 0 <= i < |EntriesAt(c, b)| ==>
      EntriesAt(c, b)[i].hash in c.index && b <= c.index[EntriesAt(c, b)[i].hash].0
  }

  ghost predicate ChainOk(cfg: Config, c: Chain) {
    && WindowOk(cfg, c)
    && (forall b :: ListOk(cfg, EntriesAt(c, b)))
    && IndexSound(c)
    && IndexComplete(c)
  }

  /** Some sealed block still holds the content. */
  ghost predicate Retained(c: Chain, h: ContentHash) {
    exists b, i :: b in c.transactions && 0 <= i < |c.transactions[b]| && c.transactions[b][i].hash == h
  }

  lemma ListGrows(cfg: Config, es: seq<Entry>, e: Entry)
    requires ListOk(cfg, es) && |es| < cfg.maxBlockTxs
    requires DataSizeOk(cfg, e.size) && e.size == cfg.sizeOf(e.hash)
    requires e.blockChunks == SatAdd(U32_MAX, TotalChunks(es), NumChunks(e.size))
    ensures ListOk(cfg, es + [e])
  {
  }

  /** What a push does to the block lists: one more entry at `now`, every other block as before. */
  lemma PushLists(cfg: Config, c: Chain, e: Entry, d: Chain)
    requires WindowOk(cfg, c) && c.open && Push(cfg, c, e) == Some(d)
    ensures EntriesAt(c, c.now) == c.block && EntriesAt(d, c.now) == d.block
    ensures |d.block| == |c.block| + 1 && d.block[|c.block|].hash == e.hash
    ensures forall i :: 0 <= i < |c.block| ==> d.block[i] == c.block[i]
    ensures forall b :: b != c.now ==> EntriesAt(d, b) == EntriesAt(c, b)
  {
  }

  lemma PushIndex(cfg: Config, c: Chain, e: Entry, d: Chain)
    requires WindowOk(cfg, c) && c.open && IndexSound(c) && IndexComplete(c)
    requires Push(cfg, c, e) == Some(d)
    ensures IndexSound(d) && IndexComplete(d)
  {
    PushLists(cfg, c, e, d);
    forall h | h in d.index
      ensures d.index[h].1 < |EntriesAt(d, d.index[h].0)|
      ensures EntriesAt(d, d.index[h].0)[d.index[h].1].hash == h
    {
      if h != e.hash {
        assert EntriesAt(c, c.index[h].0)[c.index[h].1].hash == h;
      }
    }
    forall b, i | 0 <= i < |EntriesAt(d, b)|
      ensures EntriesAt(d, b)[i].hash in d.index && b <= d.index[EntriesAt(d, b)[i].hash].0
    {
      if b == c.now && i == |c.block| {
      } else {
        assert EntriesAt(d, b)[i] == EntriesAt(c, b)[i];
        BlocksAreNotAhead(cfg, c, b);
      }
    }
  }

  lemma BlocksAreNotAhead(cfg: Config, c: Chain, b: BlockNumber)
    requires WindowOk(cfg, c) && EntriesAt(c, b) != []
    ensures b <= c.now
  {
  }

  lemma PushKeepsChain(cfg: Config, c: Chain, e: Entry)
    requires cfg.Valid() && ChainOk(cfg, c) && c.open && !BlockFull(cfg, c)
    requires DataSizeOk(cfg, e.size) && e.size == cfg.sizeOf(e.hash)
    ensures ChainOk(cfg, Push(cfg, c, e).value)
  {
    var d := Push(cfg, c, e).value;
    PushLists(cfg, c, e, d);
    PushIndex(cfg, c, e, d);
    forall b
      ensures ListOk(cfg, EntriesAt(d, b))
    {
      assert ListOk(cfg, EntriesAt(c, b));
      if b == c.now {
        ListGrows(cfg, c.block, d.block[|c.block|]);
      }
    }
  }

  /** Chains whose block lists and index agree satisfy the same index and list invariants. */
  lemma SameEntries(cfg: Config, c: Chain, d: Chain)
    requires forall b :: EntriesAt(d, b) == EntriesAt(c, b)
    requires d.index == c.index
    requires IndexSound(c) && IndexComplete(c)
    requires forall b :: ListOk(cfg, EntriesAt(c, b))
    ensures IndexSound(d) && IndexComplete(d)
    ensures forall b :: ListOk(cfg, EntriesAt(d, b))
  {
  }

  lemma SealsNonEmptyBlocks(cfg: Config, es: seq<Entry>)
    requires ListOk(cfg, es)
    ensures es == [] <==> TotalChunks(es) == 0
  {
  }

  /** Sealing forgets nothing: every block keeps its entries. */
  lemma SealLists(cfg: Config, c: Chain)
    requires WindowOk(cfg, c) && c.open && (c.block == [] <==> TotalChunks(c.block) == 0)
    ensures WindowOk(cfg, Seal(c))
    ensures forall b :: EntriesAt(Seal(c), b) == EntriesAt(c, b)
  {
  }

  lemma SealKeepsChain(cfg: Config, c: Chain)
    requires ChainOk(cfg, c) && c.open
    ensures ChainOk(cfg, Seal(c))
    ensures forall b :: EntriesAt(Seal(c), b) == EntriesAt(c, b)
  {
    assert c.block == [] <==> TotalChunks(c.block) == 0 by {
      assert EntriesAt(c, c.now) == c.block;
      SealsNonEmptyBlocks(cfg, c.block);
    }
    SealLists(cfg, c);
    SameEntries(cfg, c, Seal(c));
  }

  /** Exactly the positions of sealed entries resolve, each to the entry there. */
  lemma PositionResolvesIff(c: Chain, b: BlockNumber, i: nat)
    ensures Resolve(c, Position(b, i)).Some? <==> b in c.transactions && i < |c.transactions[b]|
    ensures Resolve(c, Position(b, i)).Some? ==> Resolve(c, Position(b, i)).value == c.transactions[b][i]
  {
  }

  /** The open block's contents are indexed in it. */
  lemma OpenBlockIsIndexed(cfg: Config, c: Chain, i: nat)
    requires WindowOk(cfg, c) && IndexSound(c) && IndexComplete(c) && c.open && i < |c.block|
    ensures
      var h := c.block[i].hash;
      && h in c.index && c.index[h].0 == c.now && c.index[h].1 < |c.block|
      && c.block[c.index[h].1].hash == h
  {
    var h := c.block[i].hash;
    assert EntriesAt(c, c.now) == c.block;
    assert EntriesAt(c, c.now)[i].hash in c.index && c.now <= c.index[h].0;
    IndexIsNotAhead(cfg, c, h);
  }

  lemma SealedBlock(c: Chain, i: nat)
    requires TotalChunks(c.block) != 0 && i < |c.block|
    ensures Resolve(Seal(c), Position(c.now, i)) == Some(c.block[i])
    ensures forall h :: h in c.index && c.index[h] == (c.now, i) ==> Resolve(Seal(c), ByHash(h)) == Some(c.block[i])
  {
  }

  /** Once a block is sealed each of its entries resolves by position, and each of its contents by hash. */
  lemma SealedResolves(cfg: Config, c: Chain, i: nat)
    requires ChainOk(cfg, c) && c.open && i < |c.block|
    ensures Resolve(Seal(c), Position(c.now, i)) == Some(c.block[i])
    ensures
      var found := Resolve(Seal(c), ByHash(c.block[i].hash));
      found.Some? && found.value in c.block && found.value.hash == c.block[i].hash
  {
    OpenBlockIsIndexed(cfg, c, i);
    assert TotalChunks(c.block) != 0 by {
      assert EntriesAt(c, c.now) == c.block;
      SealsNonEmptyBlocks(cfg, c.block);
    }
    SealedBlock(c, i);
    SealedBlock(c, c.index[c.block[i].hash].1);
  }

  lemma IndexIsNotAhead(cfg: Config, c: Chain, h: ContentHash)
    requires WindowOk(cfg, c) && IndexSound(c) && h in c.index
    ensures c.index[h].0 <= c.now
  {
    BlocksAreNotAhead(cfg, c, c.index[h].0);
  }

  // ---------------------------------------------------------------- sweep lemmas

  lemma SweepLists(cfg: Config, c: Chain)
    requires WindowOk(cfg, c) && !c.open
    ensures WindowOk(cfg, Sweep(cfg, c)) && Sweep(cfg, c).block == []
    ensures EntriesAt(c, Obsolete(cfg, c.now + 1)) == SweptEntries(cfg, c)
    ensures EntriesAt(Sweep(cfg, c), Obsolete(cfg, c.now + 1)) == []
    ensures forall b :: b != Obsolete(cfg, c.now + 1) ==> EntriesAt(Sweep(cfg, c), b) == EntriesAt(c, b)
  {
  }

  /** The swept index: exactly the hashes whose latest copy was in the obsolete block are dropped. */
  lemma SweepIndexes(cfg: Config, c: Chain, h: ContentHash)
    requires WindowOk(cfg, c) && !c.open && IndexSound(c)
    ensures h in Sweep(cfg, c).index <==> h in c.index && !PointsAt(c.index, h, Obsolete(cfg, c.now + 1))
    ensures h in Sweep(cfg, c).index ==> Sweep(cfg, c).index[h] == c.index[h]
    ensures PointsAt(c.index, h, Obsolete(cfg, c.now + 1)) ==> h in Hashes(SweptEntries(cfg, c))
  {
  }

  /** Content whose latest copy ages out is gone from every sealed block. */
  lemma SweptIsNotRetained(cfg: Config, c: Chain, h: ContentHash)
    requires WindowOk(cfg, c) && !c.open && IndexComplete(c)
    requires PointsAt(c.index, h, Obsolete(cfg, c.now + 1))
    ensures !Retained(Sweep(cfg, c), h)
  {
    var d := Sweep(cfg, c);
    SweepLists(cfg, c);
    forall b, j | b in d.transactions && 0 <= j < |d.transactions[b]|
      ensures d.transactions[b][j].hash != h
    {
      assert EntriesAt(d, b)[j] == EntriesAt(c, b)[j];
    }
  }

  lemma SweepKeepsIndex(cfg: Config, c: Chain)
    requires WindowOk(cfg, c) && !c.open && IndexSound(c) && IndexComplete(c)
    ensures IndexSound(Sweep(cfg, c)) && IndexComplete(Sweep(cfg, c))
  {
    var d := Sweep(cfg, c);
    SweepLists(cfg, c);
    forall h | h in d.index
      ensures d.index[h].1 < |EntriesAt(d, d.index[h].0)|
      ensures EntriesAt(d, d.index[h].0)[d.index[h].1].hash == h
    {
      SweepIndexes(cfg, c, h);
      assert EntriesAt(c, c.index[h].0)[c.index[h].1].hash == h;
    }
    forall b, i | 0 <= i < |EntriesAt(d, b)|
      ensures EntriesAt(d, b)[i].hash in d.index && b <= d.index[EntriesAt(d, b)[i].hash].0
    {
      assert EntriesAt(d, b)[i] == EntriesAt(c, b)[i];
      SweepIndexes(cfg, c, EntriesAt(d, b)[i].hash);
    }
  }

  lemma SweepKeepsChain(cfg: Config, c: Chain)
    requires ChainOk(cfg, c) && !c.open
    ensures ChainOk(cfg, Sweep(cfg, c))
  {
    SweepLists(cfg, c);
    SweepKeepsIndex(cfg, c);
    forall b ensures ListOk(cfg, EntriesAt(Sweep(cfg, c), b)) {
      assert ListOk(cfg, EntriesAt(c, b));
    }
  }
}
