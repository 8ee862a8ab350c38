/**
 * The records the consensus layer keeps, the notifications it emits, and the
 * pure part of including a downloaded block: stamping each transaction with the
 * block's height and timestamp and indexing the transactions by bloom hash.
 */
module ChainData {

  import opened Wrappers

  /** A per-height header digest as the block-info request returns it; an absent hash is "". */
  datatype BlockInfo = BlockInfo(height: int, hash: string, kernelHash: string)

  /** The scalar head of the chain kept in the consensus data. */
  datatype ChainHead = ChainHead(
    start: int, end: int, hash: string, kernelHash: string,
    prevHash: string, prevKernelHash: string, chainwork: string)

  /** The fields of a blockchain-info message that the head takes over. */
  datatype ChainUpdate = ChainUpdate(end: int, hash: string, prevHash: string)

  datatype BlockHeader = BlockHeader(height: int, hash: string, timestamp: int)

  /** The `{height, timestamp}` stamp a transaction receives from its block. */
  datatype TxExtra = TxExtra(height: int, timestamp: int)

  /** A transaction of a complete block, identified by its bloom hash. */
  datatype Tx = Tx(bloomHash: string, body: string, extra: Option<TxExtra>)

  /** A complete block: its header and its transactions. */
  datatype BlockComplete = BlockComplete(block: BlockHeader, txs: seq<Tx>)

  /** The notifications of the consensus layer, each with its payload. */
  datatype Event =
    | BlockchainInfoUpdated(head: ChainHead)
    | ConsensusError(message: string)
    | BlockDeleted(hash: string, height: int)
    | BlockInfoDownloaded(info: BlockInfo)
    | BlockDownloaded(blockComplete: BlockComplete)
    | TxDownloaded(transactions: map<string, Tx>)

  function StampOf(b: BlockHeader): TxExtra
  {
    TxExtra(b.height, b.timestamp)
  }

  /** Every transaction with its `extra` replaced by the block's stamp. */
  function StampAll(txs: seq<Tx>, b: BlockHeader): (r: seq<Tx>)
    ensures |r| == |txs|
    ensures forall k :: 0 <= k < |r| ==> r[k] == txs[k].(extra := Some(StampOf(b)))
  {
    if txs == [] then [] else [txs[0].(extra := Some(StampOf(b)))] + StampAll(txs[1..], b)
  }

  /**
   * The transactions keyed by bloom hash, a later transaction replacing an earlier
   * one with the same hash, as successive assignments to an object do.
   */
  function TxIndex(txs: seq<Tx>): map<string, Tx>
  {
    if txs == [] then map[] else TxIndex(txs[..|txs| - 1])[txs[|txs| - 1].bloomHash := txs[|txs| - 1]]
  }

  /** The block as the consensus data holds it once its transactions are stamped. */
  function StoredBlock(blk: BlockComplete): BlockComplete
  {
    blk.(txs := StampAll(blk.txs, blk.block))
  }

  /** The transactions a block inclusion stores and reports, keyed by bloom hash. */
  function IncludedTxs(blk: BlockComplete): map<string, Tx>
  {
    TxIndex(StampAll(blk.txs, blk.block))
  }

  /** The index has exactly one key per distinct bloom hash of the transactions. */
  lemma {:induction false} TxIndexKeys(txs: seq<Tx>)
    ensures forall h :: h in TxIndex(txs) <==> exists k :: 0 <= k < |txs| && txs[k].bloomHash == h
  {
    if txs != [] {
      var init := txs[..|txs| - 1];
      TxIndexKeys(init);
      assert forall k :: 0 <= k < |init| ==> init[k] == txs[k];
    }
  }

  /** Every entry of the index is one of the transactions, stored under its own bloom hash. */
  lemma {:induction false} TxIndexEntries(txs: seq<Tx>)
    ensures forall h :: h in TxIndex(txs) ==> TxIndex(txs)[h].bloomHash == h && TxIndex(txs)[h] in txs
  {
    if txs != [] {
      var init := txs[..|txs| - 1];
      TxIndexEntries(init);
      assert forall t :: t in init ==> t in txs;
    }
  }

  /** The stored block keeps its header and the order of its transactions, each one stamped. */
  lemma StoredBlockStamped(blk: BlockComplete)
    ensures StoredBlock(blk).block == blk.block && |StoredBlock(blk).txs| == |blk.txs|
    ensures forall k :: 0 <= k < |blk.txs| ==>
      StoredBlock(blk).txs[k] == blk.txs[k].(extra := Some(TxExtra(blk.block.height, blk.block.timestamp)))
  {
  }

  /** `txs[k]` carries hash `h` and no later transaction does. */
  predicate LastWithHash(txs: seq<Tx>, k: int, h: string)
  {
    0 <= k < |txs| && txs[k].bloomHash == h && forall j :: k < j < |txs| ==> txs[j].bloomHash != h
  }

  /**
   * The entry under a hash is the last transaction in the sequence that carries
   * that hash.
   */
  lemma {:induction false} TxIndexLast(txs: seq<Tx>, h: string)
    requires h in TxIndex(txs)
    ensures exists k :: LastWithHash(txs, k, h) && txs[k] == TxIndex(txs)[h]
  {
    var last := txs[|txs| - 1];
    var init := txs[..|txs| - 1];
    if last.bloomHash != h {
      TxIndexLast(init, h);
      var k :| LastWithHash(init, k, h) && init[k] == TxIndex(init)[h];
      assert txs[k] == init[k];
      assert LastWithHash(txs, k, h);
    } else {
      assert LastWithHash(txs, |txs| - 1, h);
    }
  }

  /**
   * What `_includeBlock` reports: the keys are exactly the block's transaction
   * hashes, and every reported transaction is a transaction of the block with
   * that hash, stamped with the block's height and timestamp.
   */
  lemma IncludedTxsSpec(blk: BlockComplete)
    ensures forall h :: h in IncludedTxs(blk) <==> exists k :: 0 <= k < |blk.txs| && blk.txs[k].bloomHash == h
    ensures forall h :: h in IncludedTxs(blk) ==>
      IncludedTxs(blk)[h].bloomHash == h &&
      IncludedTxs(blk)[h].extra == Some(TxExtra(blk.block.height, blk.block.timestamp)) &&
      exists k :: LastWithHash(blk.txs, k, h) && IncludedTxs(blk)[h] == blk.txs[k].(extra := Some(StampOf(blk.block)))
  {
    var stamped := StampAll(blk.txs, blk.block);
    TxIndexKeys(stamped);
    forall h | h in IncludedTxs(blk)
      ensures IncludedTxs(blk)[h].bloomHash == h
      ensures IncludedTxs(blk)[h].extra == Some(TxExtra(blk.block.height, blk.block.timestamp))
      ensures exists k :: LastWithHash(blk.txs, k, h) && IncludedTxs(blk)[h] == blk.txs[k].(extra := Some(StampOf(blk.block)))
    {
      TxIndexLast(stamped, h);
      var k :| LastWithHash(stamped, k, h) && stamped[k] == IncludedTxs(blk)[h];
      assert LastWithHash(blk.txs, k, h);
    }
  }
}
