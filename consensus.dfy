/**
 * The light-client consensus object: the chain head, the per-height block-info
 * records, the blocks indexed by height and by hash, the transactions of the
 * downloaded blocks, and the map of in-flight complete-block requests. Every
 * notification is appended to `events`; every network request is appended to
 * `infoRequests` (block info by height) or `blockRequests` (complete blocks).
 */
module ConsensusEngine {

  import opened Wrappers
  import opened JsValues
  import opened ChainData
  import opened BlockInfoWalk

  const BlockErrorMessage := "Error getting block"

  /** A complete-block request in flight: its key in the in-flight map, its network argument, which accessor made it. */
  datatype BlockFetch = BlockFetch(key: string, target: JsValue, byHash: bool)

  /** What a block accessor returns: a block (or nothing) at once, or a pending request. */
  type BlockReply = Reply<Option<BlockComplete>>

  /** The property name under which a block of height `height` is kept. */
  function HeightSlot(height: int): string
  {
    NumberKey(Finite(height))
  }

  /**
   * The loop of `_includeBlock` over the block's transactions: each one is
   * stamped, stored under its bloom hash in `existing`, and collected in the
   * batch that is reported.
   */
  method StampAndIndex(existing: map<string, Tx>, txs: seq<Tx>, b: BlockHeader)
    returns (stored: map<string, Tx>, data: map<string, Tx>)
    ensures data == TxIndex(StampAll(txs, b))
    ensures stored == existing + data
  {
    ghost var stamped := StampAll(txs, b);
    stored, data := existing, map[];
    for k := 0 to |txs|
      invariant data == TxIndex(stamped[..k])
      invariant stored == existing + data
    {
      var tx := txs[k].(extra := Some(StampOf(b)));
      assert stamped[..k + 1][..k] == stamped[..k] && stamped[k] == tx;
      assert (existing + data)[tx.bloomHash := tx] == existing + data[tx.bloomHash := tx];
      stored := stored[tx.bloomHash := tx];
      data := data[tx.bloomHash := tx];
    }
    assert stamped[..|txs|] == stamped;
  }

  class Consensus {
    var head: ChainHead
    var blocksInfo: map<int, BlockInfo>
    /** Keyed by the property name of the block height, as a JavaScript object is. */
    var blocks: map<string, BlockComplete>
    var blocksByHash: map<string, BlockComplete>
    var transactions: map<string, Tx>
    /** The in-flight map shared by both block accessors, keyed by height name or by hash. */
    var inflightBlocks: map<string, nat>
    /** Every request that has not settled yet, by handle, including ones no longer in the in-flight map. */
    var pendingFetches: map<nat, BlockFetch>
    var nextHandle: nat
    var events: seq<Event>
    var infoRequests: seq<int>
    var blockRequests: seq<JsValue>

    /** Every in-flight entry names a pending request made under that key; handles are allocated in order. */
    ghost predicate Valid()
      reads this
    {
      (forall k :: k in inflightBlocks ==>
         inflightBlocks[k] in pendingFetches && pendingFetches[inflightBlocks[k]].key == k) &&
      (forall h :: h in pendingFetches ==> h < nextHandle)
    }

    constructor (initial: ChainHead)
      ensures Valid()
      ensures head == initial && blocksInfo == map[] && blocks == map[] && blocksByHash == map[]
      ensures transactions == map[] && inflightBlocks == map[] && pendingFetches == map[]
      ensures events == [] && infoRequests == [] && blockRequests == []
    {
      head := initial;
      blocksInfo, blocks, blocksByHash, transactions := map[], map[], map[], map[];
      inflightBlocks, pendingFetches, nextHandle := map[], map[], 0;
      events, infoRequests, blockRequests := [], [], [];
    }

    /**
     * A blockchain-info message: the head takes over `end`, `hash` and `prevHash`
     * and nothing else, the update is announced with the new head, and the
     * block-info walk runs over the window `[windowStart, windowEnd - 1]`.
     */
    method ProcessBlockchain(update: ChainUpdate, windowStart: int, windowEnd: int, net: int -> Option<BlockInfo>)
      requires Valid()
      modifies this
      ensures Valid()
      ensures head == old(head).(end := update.end, hash := update.hash, prevHash := update.prevHash)
      ensures blocksInfo == Walk(old(blocksInfo), windowEnd - 1, windowStart, net).info
      ensures events == old(events) + [BlockchainInfoUpdated(head)] + Walk(old(blocksInfo), windowEnd - 1, windowStart, net).events
      ensures infoRequests == old(infoRequests) + Walk(old(blocksInfo), windowEnd - 1, windowStart, net).fetched
      ensures blocks == old(blocks) && blocksByHash == old(blocksByHash) && transactions == old(transactions)
      ensures inflightBlocks == old(inflightBlocks) && pendingFetches == old(pendingFetches)
      ensures nextHandle == old(nextHandle) && blockRequests == old(blockRequests)
    {
      head := head.(end := update.end, hash := update.hash, prevHash := update.prevHash);
      events := events + [BlockchainInfoUpdated(head)];
      DownloadBlocksHashes(windowStart, windowEnd - 1, net);
    }

    /**
     * The block-info walk from `ending` down to `starting`, asking `net` for each
     * height; its effect is exactly the one `Walk` describes.
     */
    method DownloadBlocksHashes(starting: int, ending: int, net: int -> Option<BlockInfo>)
      requires Valid()
      modifies this
      ensures Valid()
      ensures blocksInfo == Walk(old(blocksInfo), ending, starting, net).info
      ensures events == old(events) + Walk(old(blocksInfo), ending, starting, net).events
      ensures infoRequests == old(infoRequests) + Walk(old(blocksInfo), ending, starting, net).fetched
      ensures head == old(head) && blocks == old(blocks) && blocksByHash == old(blocksByHash)
      ensures transactions == old(transactions) && inflightBlocks == old(inflightBlocks)
      ensures pendingFetches == old(pendingFetches) && nextHandle == old(nextHandle)
      ensures blockRequests == old(blockRequests)
    {
      // The walk works on local copies of the records and logs, written back when
      // it ends or aborts; nothing else runs in between in this sequential model.
      ghost var goal := Walk(blocksInfo, ending, starting, net);
      var info, log, requested := blocksInfo, events, infoRequests;
      var i := ending;
      var done := false;
      while i >= starting && !done
        invariant !done ==>
          Walk(info, i, starting, net).info == goal.info &&
          log + Walk(info, i, starting, net).events == old(events) + goal.events &&
          requested + Walk(info, i, starting, net).fetched == old(infoRequests) + goal.fetched
        invariant done ==>
          info == goal.info && log == old(events) + goal.events && requested == old(infoRequests) + goal.fetched
        decreases i - starting + 1
      {
        ghost var rest := Walk(info, i, starting, net);
        requested := requested + [i];
        var answer := net(i);
        if !Usable(answer) {
          blocksInfo, events, infoRequests := info, log + [ConsensusError(InfoErrorMessage)], requested;
          return;
        }
        var record := answer.value.(height := i);
        if i in info && info[i].hash == record.hash {
          done := true;
        } else if i !in info || StrictEquals(JsBool(info[i].hash == ""), JsString(record.hash)) {
          ghost var before := log;
          if CachedHash(info, i) != None && CachedHash(info, i) != Some(record.hash) {
            log := log + [BlockDeleted(record.hash, i)];
          }
          info := info[i := record];
          log := log + [BlockInfoDownloaded(record)];
          assert log + Walk(info, i - 1, starting, net).events == before + rest.events;
        }
        i := i - 1;
      }
      blocksInfo, events, infoRequests := info, log, requested;
    }

    /**
     * Including a complete block: it is announced, stored under its height and its
     * hash, each of its transactions is stamped with the block's height and
     * timestamp and stored under its bloom hash, and one batched notification
     * reports the stored transactions. Transactions are values here: the stored
     * block holds the stamped transactions, and the block-downloaded payload is the
     * block as it was announced.
     */
    method IncludeBlock(blk: BlockComplete)
      modifies this
      ensures events == old(events) + [BlockDownloaded(blk), TxDownloaded(IncludedTxs(blk))]
      ensures blocks == old(blocks)[HeightSlot(blk.block.height) := StoredBlock(blk)]
      ensures blocksByHash == old(blocksByHash)[blk.block.hash := StoredBlock(blk)]
      ensures transactions == old(transactions) + IncludedTxs(blk)
      ensures head == old(head) && blocksInfo == old(blocksInfo) && inflightBlocks == old(inflightBlocks)
      ensures pendingFetches == old(pendingFetches) && nextHandle == old(nextHandle)
      ensures infoRequests == old(infoRequests) && blockRequests == old(blockRequests)
    {
      var announced := events + [BlockDownloaded(blk)];
      var stored := StoredBlock(blk);
      blocks := blocks[HeightSlot(blk.block.height) := stored];
      blocksByHash := blocksByHash[blk.block.hash := stored];
      var storedTxs, data := StampAndIndex(transactions, blk.txs, blk.block);
      transactions := storedTxs;
      events := announced + [TxDownloaded(data)];
    }

    /**
     * `getBlockByHash`: the cache test looks the hash up in the height-keyed map
     * and then answers from the hash-keyed map; otherwise an in-flight request
     * under the hash is shared; otherwise a new request is registered.
     */
    method GetBlockByHash(hash: string) returns (r: BlockReply)
      requires Valid()
      modifies this
      ensures Valid()
      ensures hash in old(blocks) ==>
        unchanged(this) && r == Immediate(if hash in blocksByHash then Some(blocksByHash[hash]) else None)
      ensures hash !in old(blocks) && hash in old(inflightBlocks) ==>
        unchanged(this) && r == Pending(old(inflightBlocks)[hash])
      ensures hash !in old(blocks) && hash !in old(inflightBlocks) ==>
        r == Pending(old(nextHandle)) && nextHandle == old(nextHandle) + 1 &&
        inflightBlocks == old(inflightBlocks)[hash := old(nextHandle)] &&
        pendingFetches == old(pendingFetches)[old(nextHandle) := BlockFetch(hash, JsString(hash), true)] &&
        blockRequests == old(blockRequests) + [JsString(hash)]
      ensures r.Pending? ==> r.handle in pendingFetches
      ensures head == old(head) && blocksInfo == old(blocksInfo) && blocks == old(blocks)
      ensures blocksByHash == old(blocksByHash) && transactions == old(transactions)
      ensures events == old(events) && infoRequests == old(infoRequests)
    {
      if hash in blocks {
        return Immediate(if hash in blocksByHash then Some(blocksByHash[hash]) else None);
      }
      if hash in inflightBlocks {
        return Pending(inflightBlocks[hash]);
      }
      r := Register(hash, JsString(hash), true);
    }

    /**
     * `getBlock`: a string height is converted with `parseInt`; a stored height is
     * answered at once; otherwise a new request is always started and replaces any
     * in-flight entry under that height.
     */
    method GetBlock(height: HeightArg) returns (r: BlockReply)
      requires Valid()
      modifies this
      ensures Valid()
      ensures HeightKey(height) in old(blocks) ==>
        unchanged(this) && r == Immediate(Some(old(blocks)[HeightKey(height)]))
      ensures HeightKey(height) !in old(blocks) ==>
        r == Pending(old(nextHandle)) && nextHandle == old(nextHandle) + 1 &&
        inflightBlocks == old(inflightBlocks)[HeightKey(height) := old(nextHandle)] &&
        pendingFetches == old(pendingFetches)[old(nextHandle) := BlockFetch(HeightKey(height), JsNum(ToNumber(height)), false)] &&
        blockRequests == old(blockRequests) + [JsNum(ToNumber(height))]
      ensures r.Pending? ==> r.handle in pendingFetches
      ensures head == old(head) && blocksInfo == old(blocksInfo) && blocks == old(blocks)
      ensures blocksByHash == old(blocksByHash) && transactions == old(transactions)
      ensures events == old(events) && infoRequests == old(infoRequests)
    {
      var number := ToNumber(height);
      var key := NumberKey(number);
      if key in blocks {
        return Immediate(Some(blocks[key]));
      }
      r := Register(key, JsNum(number), false);
    }

    /** Registers a new request under `key` and sends it to the network. */
    method Register(key: string, target: JsValue, byHash: bool) returns (r: BlockReply)
      requires Valid()
      modifies this
      ensures Valid()
      ensures r == Pending(old(nextHandle)) && nextHandle == old(nextHandle) + 1
      ensures inflightBlocks == old(inflightBlocks)[key := old(nextHandle)]
      ensures pendingFetches == old(pendingFetches)[old(nextHandle) := BlockFetch(key, target, byHash)]
      ensures blockRequests == old(blockRequests) + [target]
      ensures head == old(head) && blocksInfo == old(blocksInfo) && blocks == old(blocks)
      ensures blocksByHash == old(blocksByHash) && transactions == old(transactions)
      ensures events == old(events) && infoRequests == old(infoRequests)
    {
      var handle := nextHandle;
      nextHandle := nextHandle + 1;
      pendingFetches := pendingFetches[handle := BlockFetch(key, target, byHash)];
      inflightBlocks := inflightBlocks[key := handle];
      blockRequests := blockRequests + [target];
      r := Pending(handle);
    }

    /**
     * The network answers pending request `handle`. A block is included and the
     * request resolves with the block as included, its transactions stamped; no
     * block rejects it, and a by-hash request also emits
     * an error. Either way the in-flight entry under the request's key is deleted,
     * even when a later request has replaced it.
     */
    method SettleBlockFetch(handle: nat, answer: Option<BlockComplete>) returns (result: Option<BlockComplete>)
      requires Valid() && handle in pendingFetches
      modifies this
      ensures Valid()
      ensures answer.Some? <==> result.Some?
      ensures answer.Some? ==> result == Some(StoredBlock(answer.value))
      ensures pendingFetches == old(pendingFetches) - {handle}
      ensures inflightBlocks == old(inflightBlocks) - {old(pendingFetches)[handle].key}
      ensures answer.Some? ==>
        var blk := answer.value;
        events == old(events) + [BlockDownloaded(blk), TxDownloaded(IncludedTxs(blk))] &&
        blocks == old(blocks)[HeightSlot(blk.block.height) := StoredBlock(blk)] &&
        blocksByHash == old(blocksByHash)[blk.block.hash := StoredBlock(blk)] &&
        transactions == old(transactions) + IncludedTxs(blk)
      ensures answer.None? ==>
        events == old(events) + (if old(pendingFetches)[handle].byHash then [ConsensusError(BlockErrorMessage)] else []) &&
        blocks == old(blocks) && blocksByHash == old(blocksByHash) && transactions == old(transactions)
      ensures head == old(head) && blocksInfo == old(blocksInfo) && nextHandle == old(nextHandle)
      ensures infoRequests == old(infoRequests) && blockRequests == old(blockRequests)
    {
      var fetch := pendingFetches[handle];
      if answer.Some? {
        IncludeBlock(answer.value);
      } else if fetch.byHash {
        events := events + [ConsensusError(BlockErrorMessage)];
      }
      inflightBlocks := inflightBlocks - {fetch.key};
      pendingFetches := pendingFetches - {handle};
      result := if answer.Some? then Some(StoredBlock(answer.value)) else None;
    }
  }

  /** Two by-hash requests for an unknown hash share one pending request and one network call. */
  method ByHashRequestsCoalesce(initial: ChainHead, hash: string) returns (first: BlockReply, second: BlockReply, calls: nat)
    ensures first.Pending? && second == first && calls == 1
  {
    var c := new Consensus(initial);
    first := c.GetBlockByHash(hash);
    second := c.GetBlockByHash(hash);
    calls := |c.blockRequests|;
  }

  /**
   * Two by-height requests start two network calls; when the first settles it
   * deletes the in-flight entry of the second, which stays pending unregistered.
   */
  method HeightRequestsDoNotCoalesce(initial: ChainHead, height: int, answer: Option<BlockComplete>)
    returns (first: BlockReply, second: BlockReply, calls: nat, registered: bool, orphaned: bool)
    ensures first.Pending? && second.Pending? && first.handle != second.handle && calls == 2
    ensures !registered && orphaned
  {
    var c := new Consensus(initial);
    first := c.GetBlock(NumberArg(height));
    second := c.GetBlock(NumberArg(height));
    calls := |c.blockRequests|;
    var _ := c.SettleBlockFetch(first.handle, answer);
    registered := HeightSlot(height) in c.inflightBlocks;
    orphaned := second.handle in c.pendingFetches;
  }

  /** After a block is included, asking for its height as a decimal string is a cache hit. */
  method StringHeightHitsCache(initial: ChainHead, blk: BlockComplete) returns (r: BlockReply)
    ensures r == Immediate(Some(StoredBlock(blk)))
  {
    var c := new Consensus(initial);
    c.IncludeBlock(blk);
    StringHeightSameKey(blk.block.height);
    r := c.GetBlock(StringArg(HeightSlot(blk.block.height)));
  }

  /**
   * The by-hash cache test looks in the height-keyed map: a hash that spells an
   * included block's height is a hit answered with nothing, while the block's
   * real hash misses and starts a new request.
   */
  method ByHashLooksInHeightMap(initial: ChainHead, blk: BlockComplete) returns (spelled: BlockReply, actual: BlockReply)
    requires blk.block.hash != HeightSlot(blk.block.height)
    ensures spelled == Immediate(None) && actual.Pending?
  {
    var c := new Consensus(initial);
    c.IncludeBlock(blk);
    spelled := c.GetBlockByHash(HeightSlot(blk.block.height));
    actual := c.GetBlockByHash(blk.block.hash);
  }
}
