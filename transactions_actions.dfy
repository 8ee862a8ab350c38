/**
 * The wallet store's transaction actions: subscribing to and unsubscribing from
 * a transaction, and fetching a transaction by hash or by height, each through
 * a module-level map of in-flight requests, plus the inclusion of a fetched
 * transaction. Every asynchronous accessor is split into a request step, which
 * may answer at once, share the pending request or start a new one, and a
 * settle step, in which the network's answer arrives. Store commits and
 * dispatched actions are recorded in `actions`; network calls in `netCalls`.
 */
module TransactionsActions {

  import opened Wrappers
  import opened JsValues

  datatype TxVersion = TxSimple | TxZether | OtherVersion(code: int)

  datatype Payload = Payload(token: string)

  /** A wallet transaction; `height` is its `__height` field, absent for a mempool transaction. */
  datatype WalletTx = WalletTx(hash: string, version: TxVersion, payloads: seq<Payload>, height: Option<int>)

  /** The confirmation info the network sends with a transaction. */
  datatype TxInfo = TxInfo(height: int, fields: map<string, string>)

  /** A decoded transaction answer: the transaction and, for a confirmed one, its info. */
  datatype TxJson = TxJson(tx: WalletTx, info: Option<TxInfo>)

  /** What is stored as a transaction's info: the network's, or the `{mempool: true}` marker. */
  datatype StoredTxInfo = NetworkTxInfo(info: TxInfo) | MempoolTxInfo

  /** The parts of the store's state the actions read. */
  datatype StoreState = StoreState(
    subscribed: map<string, bool>, txsByHash: map<string, WalletTx>, txsByHeight: map<string, WalletTx>)

  /** Store commits and dispatched actions, in the order the actions issue them. */
  datatype StoreAction =
    | SetSubscribedTxStatus(txId: string, status: bool)
    | StoreTransactionInfo(hash: string, txInfo: StoredTxInfo)
    | GetTokenByHash(token: string)
    | SetTransactions(txs: seq<WalletTx>)

  datatype NetCall = SubscribeNetwork(txId: string) | UnsubscribeNetwork(txId: string) | GetNetworkTransaction(arg: JsValue)

  predicate IsSubscribed(state: StoreState, txId: string)
  {
    txId in state.subscribed && state.subscribed[txId]
  }

  /** The tokens a transaction needs: the native one, one per payload, or none, by version. */
  function TokensToRequest(tx: WalletTx, nativeToken: string): (tokens: seq<string>)
    ensures tx.version == TxSimple ==> tokens == [nativeToken]
    ensures tx.version == TxZether ==>
      |tokens| == |tx.payloads| && forall k :: 0 <= k < |tokens| ==> tokens[k] == tx.payloads[k].token
    ensures tx.version.OtherVersion? ==> tokens == []
  {
    match tx.version
    case TxSimple => [nativeToken]
    case TxZether => PayloadTokens(tx.payloads)
    case OtherVersion(_) => []
  }

  /** The token of every payload, in payload order. */
  function PayloadTokens(payloads: seq<Payload>): (tokens: seq<string>)
    ensures |tokens| == |payloads|
    ensures forall k :: 0 <= k < |tokens| ==> tokens[k] == payloads[k].token
  {
    if payloads == [] then [] else [payloads[0].token] + PayloadTokens(payloads[1..])
  }

  function TokenLookups(tokens: seq<string>): (r: seq<StoreAction>)
    ensures |r| == |tokens|
    ensures forall k :: 0 <= k < |r| ==> r[k] == GetTokenByHash(tokens[k])
  {
    if tokens == [] then [] else [GetTokenByHash(tokens[0])] + TokenLookups(tokens[1..])
  }

  /**
   * The transaction `includeTx` stores and returns: `__height` is set to the
   * info's height exactly when info is present and removed otherwise; nothing
   * else changes.
   */
  function IncludedTx(j: TxJson): (tx: WalletTx)
    ensures tx.height.Some? <==> j.info.Some?
    ensures j.info.Some? ==> tx.height == Some(j.info.value.height)
    ensures tx.(height := j.tx.height) == j.tx
  {
    match j.info
    case Some(info) => j.tx.(height := Some(info.height))
    case None => j.tx.(height := None)
  }

  /** The info `includeTx` stores: the network's, or the mempool marker when there is none. */
  function StoredInfo(j: TxJson): (s: StoredTxInfo)
    ensures s == MempoolTxInfo <==> j.info.None?
    ensures j.info.Some? ==> s == NetworkTxInfo(j.info.value)
  {
    if j.info.Some? then NetworkTxInfo(j.info.value) else MempoolTxInfo
  }

  class TransactionActions {
    const nativeToken: string
    var subscribing: map<string, nat>
    var unsubscribing: map<string, nat>
    var fetchingByHash: map<string, nat>
    /** Keyed by the property name of the numeric height. */
    var fetchingByHeight: map<string, nat>
    var nextHandle: nat
    var actions: seq<StoreAction>
    var netCalls: seq<NetCall>

    /** Every in-flight handle was allocated before `nextHandle`, so a new handle is never shared. */
    ghost predicate Valid()
      reads this
    {
      (forall k :: k in subscribing ==> subscribing[k] < nextHandle) &&
      (forall k :: k in unsubscribing ==> unsubscribing[k] < nextHandle) &&
      (forall k :: k in fetchingByHash ==> fetchingByHash[k] < nextHandle) &&
      (forall k :: k in fetchingByHeight ==> fetchingByHeight[k] < nextHandle)
    }

    /** Some in-flight request of any kind holds handle `h`. */
    ghost predicate InFlight(h: nat)
      reads this
    {
      (exists k :: k in subscribing && subscribing[k] == h) ||
      (exists k :: k in unsubscribing && unsubscribing[k] == h) ||
      (exists k :: k in fetchingByHash && fetchingByHash[k] == h) ||
      (exists k :: k in fetchingByHeight && fetchingByHeight[k] == h)
    }

    constructor (native: string)
      ensures Valid() && nativeToken == native
      ensures subscribing == map[] && unsubscribing == map[] && fetchingByHash == map[] && fetchingByHeight == map[]
      ensures actions == [] && netCalls == []
    {
      nativeToken := native;
      subscribing, unsubscribing, fetchingByHash, fetchingByHeight := map[], map[], map[], map[];
      nextHandle := 0;
      actions, netCalls := [], [];
    }

    /**
     * `subscribeTransaction`, request step: `true` at once when already
     * subscribed, the pending handle when a subscription is in flight, otherwise a
     * new handle and one subscribe call.
     */
    method SubscribeTransaction(state: StoreState, txId: string) returns (r: Reply<bool>)
      requires Valid()
      modifies this
      ensures Valid()
      ensures IsSubscribed(state, txId) ==> r == Immediate(true) && unchanged(this)
      ensures !IsSubscribed(state, txId) && txId in old(subscribing) ==>
        r == Pending(old(subscribing)[txId]) && unchanged(this)
      ensures !IsSubscribed(state, txId) && txId !in old(subscribing) ==>
        r == Pending(old(nextHandle)) && !old(InFlight(nextHandle)) && nextHandle == old(nextHandle) + 1 &&
        subscribing == old(subscribing)[txId := old(nextHandle)] &&
        netCalls == old(netCalls) + [SubscribeNetwork(txId)]
      ensures unsubscribing == old(unsubscribing) && fetchingByHash == old(fetchingByHash)
      ensures fetchingByHeight == old(fetchingByHeight) && actions == old(actions)
    {
      if IsSubscribed(state, txId) {
        return Immediate(true);
      }
      if txId in subscribing {
        return Pending(subscribing[txId]);
      }
      r := Pending(nextHandle);
      subscribing := subscribing[txId := nextHandle];
      nextHandle := nextHandle + 1;
      netCalls := netCalls + [SubscribeNetwork(txId)];
    }

    /**
     * `subscribeTransaction`, settle step: `succeeded` is false only when the
     * subscribe call was rejected, since its reply is never read. Success commits
     * the subscribed status `true` and resolves with `true`; a rejection commits
     * nothing and resolves with nothing. The in-flight entry goes either way.
     */
    method SettleSubscribe(txId: string, succeeded: bool) returns (resolved: Option<bool>)
      requires Valid() && txId in subscribing
      modifies this
      ensures Valid()
      ensures resolved == if succeeded then Some(true) else None
      ensures subscribing == old(subscribing) - {txId}
      ensures actions == old(actions) + (if succeeded then [SetSubscribedTxStatus(txId, true)] else [])
      ensures unsubscribing == old(unsubscribing) && fetchingByHash == old(fetchingByHash)
      ensures fetchingByHeight == old(fetchingByHeight) && nextHandle == old(nextHandle)
      ensures netCalls == old(netCalls)
    {
      if succeeded {
        actions := actions + [SetSubscribedTxStatus(txId, true)];
      }
      subscribing := subscribing - {txId};
      resolved := if succeeded then Some(true) else None;
    }

    /**
     * `unsubscribeTransaction`, request step: `true` at once when not subscribed,
     * the pending handle when an unsubscription is in flight, otherwise a new
     * handle and one unsubscribe call.
     */
    method UnsubscribeTransaction(state: StoreState, txId: string) returns (r: Reply<bool>)
      requires Valid()
      modifies this
      ensures Valid()
      ensures !IsSubscribed(state, txId) ==> r == Immediate(true) && unchanged(this)
      ensures IsSubscribed(state, txId) && txId in old(unsubscribing) ==>
        r == Pending(old(unsubscribing)[txId]) && unchanged(this)
      ensures IsSubscribed(state, txId) && txId !in old(unsubscribing) ==>
        r == Pending(old(nextHandle)) && !old(InFlight(nextHandle)) && nextHandle == old(nextHandle) + 1 &&
        unsubscribing == old(unsubscribing)[txId := old(nextHandle)] &&
        netCalls == old(netCalls) + [UnsubscribeNetwork(txId)]
      ensures subscribing == old(subscribing) && fetchingByHash == old(fetchingByHash)
      ensures fetchingByHeight == old(fetchingByHeight) && actions == old(actions)
    {
      if !IsSubscribed(state, txId) {
        return Immediate(true);
      }
      if txId in unsubscribing {
        return Pending(unsubscribing[txId]);
      }
      r := Pending(nextHandle);
      unsubscribing := unsubscribing[txId := nextHandle];
      nextHandle := nextHandle + 1;
      netCalls := netCalls + [UnsubscribeNetwork(txId)];
    }

    /**
     * `unsubscribeTransaction`, settle step: `succeeded` is false only when the
     * unsubscribe call was rejected. Success commits the subscribed status `false`
     * and resolves with `true`; a rejection commits nothing and resolves with
     * nothing. The in-flight entry goes either way.
     */
    method SettleUnsubscribe(txId: string, succeeded: bool) returns (resolved: Option<bool>)
      requires Valid() && txId in unsubscribing
      modifies this
      ensures Valid()
      ensures resolved == if succeeded then Some(true) else None
      ensures unsubscribing == old(unsubscribing) - {txId}
      ensures actions == old(actions) + (if succeeded then [SetSubscribedTxStatus(txId, false)] else [])
      ensures subscribing == old(subscribing) && fetchingByHash == old(fetchingByHash)
      ensures fetchingByHeight == old(fetchingByHeight) && nextHandle == old(nextHandle)
      ensures netCalls == old(netCalls)
    {
      if succeeded {
        actions := actions + [SetSubscribedTxStatus(txId, false)];
      }
      unsubscribing := unsubscribing - {txId};
      resolved := if succeeded then Some(true) else None;
    }

    /** `processTx`: one token lookup per token the transaction needs, in order. */
    method ProcessTx(tx: WalletTx)
      modifies this
      ensures actions == old(actions) + TokenLookups(TokensToRequest(tx, nativeToken))
      ensures subscribing == old(subscribing) && unsubscribing == old(unsubscribing)
      ensures fetchingByHash == old(fetchingByHash) && fetchingByHeight == old(fetchingByHeight)
      ensures nextHandle == old(nextHandle) && netCalls == old(netCalls)
    {
      actions := actions + TokenLookups(TokensToRequest(tx, nativeToken));
    }

    /**
     * `includeTx`: sets or removes `__height`, stores the transaction's info (the
     * mempool marker when there is none), processes the transaction, commits it
     * alone, and returns the committed transaction.
     */
    method IncludeTx(j: TxJson) returns (tx: WalletTx)
      modifies this
      ensures tx == IncludedTx(j)
      ensures actions == old(actions) + [StoreTransactionInfo(j.tx.hash, StoredInfo(j))] +
        TokenLookups(TokensToRequest(tx, nativeToken)) + [SetTransactions([tx])]
      ensures subscribing == old(subscribing) && unsubscribing == old(unsubscribing)
      ensures fetchingByHash == old(fetchingByHash) && fetchingByHeight == old(fetchingByHeight)
      ensures nextHandle == old(nextHandle) && netCalls == old(netCalls)
    {
      tx := j.tx;
      if j.info.Some? {
        tx := tx.(height := Some(j.info.value.height));
        actions := actions + [StoreTransactionInfo(tx.hash, NetworkTxInfo(j.info.value))];
      } else {
        tx := tx.(height := None);
        actions := actions + [StoreTransactionInfo(tx.hash, MempoolTxInfo)];
      }
      ProcessTx(tx);
      actions := actions + [SetTransactions([tx])];
    }

    /**
     * `getTransactionByHash`, request step: a stored transaction at once, the
     * pending handle when a fetch is in flight, otherwise a new handle and one
     * fetch.
     */
    method GetTransactionByHash(state: StoreState, hash: string) returns (r: Reply<WalletTx>)
      requires Valid()
      modifies this
      ensures Valid()
      ensures hash in state.txsByHash ==> r == Immediate(state.txsByHash[hash]) && unchanged(this)
      ensures hash !in state.txsByHash && hash in old(fetchingByHash) ==>
        r == Pending(old(fetchingByHash)[hash]) && unchanged(this)
      ensures hash !in state.txsByHash && hash !in old(fetchingByHash) ==>
        r == Pending(old(nextHandle)) && !old(InFlight(nextHandle)) && nextHandle == old(nextHandle) + 1 &&
        fetchingByHash == old(fetchingByHash)[hash := old(nextHandle)] &&
        netCalls == old(netCalls) + [GetNetworkTransaction(JsString(hash))]
      ensures subscribing == old(subscribing) && unsubscribing == old(unsubscribing)
      ensures fetchingByHeight == old(fetchingByHeight) && actions == old(actions)
    {
      if hash in state.txsByHash {
        return Immediate(state.txsByHash[hash]);
      }
      if hash in fetchingByHash {
        return Pending(fetchingByHash[hash]);
      }
      r := Pending(nextHandle);
      fetchingByHash := fetchingByHash[hash := nextHandle];
      nextHandle := nextHandle + 1;
      netCalls := netCalls + [GetNetworkTransaction(JsString(hash))];
    }

    /**
     * `getTransactionByHash`, settle step: an answer is included and resolves the
     * request; no answer rejects it without including anything; the in-flight
     * entry goes either way, so a later request fetches again.
     */
    method SettleTransactionByHash(hash: string, answer: Option<TxJson>) returns (result: Option<WalletTx>)
      requires Valid() && hash in fetchingByHash
      modifies this
      ensures Valid()
      ensures fetchingByHash == old(fetchingByHash) - {hash}
      ensures answer.None? ==> result.None? && actions == old(actions)
      ensures answer.Some? ==>
        result == Some(IncludedTx(answer.value)) &&
        actions == old(actions) + [StoreTransactionInfo(answer.value.tx.hash, StoredInfo(answer.value))] +
          TokenLookups(TokensToRequest(IncludedTx(answer.value), nativeToken)) + [SetTransactions([IncludedTx(answer.value)])]
      ensures subscribing == old(subscribing) && unsubscribing == old(unsubscribing)
      ensures fetchingByHeight == old(fetchingByHeight) && nextHandle == old(nextHandle)
      ensures netCalls == old(netCalls)
    {
      result := None;
      if answer.Some? {
        var tx := IncludeTx(answer.value);
        result := Some(tx);
      }
      fetchingByHash := fetchingByHash - {hash};
    }

    /**
     * `getTransactionByHeight`, request step: a string height is converted with
     * `parseInt` before both lookups; then as by hash.
     */
    method GetTransactionByHeight(state: StoreState, height: HeightArg) returns (r: Reply<WalletTx>)
      requires Valid()
      modifies this
      ensures Valid()
      ensures HeightKey(height) in state.txsByHeight ==>
        r == Immediate(state.txsByHeight[HeightKey(height)]) && unchanged(this)
      ensures HeightKey(height) !in state.txsByHeight && HeightKey(height) in old(fetchingByHeight) ==>
        r == Pending(old(fetchingByHeight)[HeightKey(height)]) && unchanged(this)
      ensures HeightKey(height) !in state.txsByHeight && HeightKey(height) !in old(fetchingByHeight) ==>
        r == Pending(old(nextHandle)) && !old(InFlight(nextHandle)) && nextHandle == old(nextHandle) + 1 &&
        fetchingByHeight == old(fetchingByHeight)[HeightKey(height) := old(nextHandle)] &&
        netCalls == old(netCalls) + [GetNetworkTransaction(JsNum(ToNumber(height)))]
      ensures subscribing == old(subscribing) && unsubscribing == old(unsubscribing)
      ensures fetchingByHash == old(fetchingByHash) && actions == old(actions)
    {
      var number := ToNumber(height);
      var key := NumberKey(number);
      if key in state.txsByHeight {
        return Immediate(state.txsByHeight[key]);
      }
      if key in fetchingByHeight {
        return Pending(fetchingByHeight[key]);
      }
      r := Pending(nextHandle);
      fetchingByHeight := fetchingByHeight[key := nextHandle];
      nextHandle := nextHandle + 1;
      netCalls := netCalls + [GetNetworkTransaction(JsNum(number))];
    }

    /** `getTransactionByHeight`, settle step for the request made for `height`. */
    method SettleTransactionByHeight(height: JsNumber, answer: Option<TxJson>) returns (result: Option<WalletTx>)
      requires Valid() && NumberKey(height) in fetchingByHeight
      modifies this
      ensures Valid()
      ensures fetchingByHeight == old(fetchingByHeight) - {NumberKey(height)}
      ensures answer.None? ==> result.None? && actions == old(actions)
      ensures answer.Some? ==>
        result == Some(IncludedTx(answer.value)) &&
        actions == old(actions) + [StoreTransactionInfo(answer.value.tx.hash, StoredInfo(answer.value))] +
          TokenLookups(TokensToRequest(IncludedTx(answer.value), nativeToken)) + [SetTransactions([IncludedTx(answer.value)])]
      ensures subscribing == old(subscribing) && unsubscribing == old(unsubscribing)
      ensures fetchingByHash == old(fetchingByHash) && nextHandle == old(nextHandle)
      ensures netCalls == old(netCalls)
    {
      result := None;
      if answer.Some? {
        var tx := IncludeTx(answer.value);
        result := Some(tx);
      }
      fetchingByHeight := fetchingByHeight - {NumberKey(height)};
    }
  }

  /**
   * Two subscribe requests for one transaction share one pending handle and one
   * network call; once it succeeds, the status `true` is committed, nothing is in
   * flight, and a request against the updated state answers `true` at once.
   */
  method SubscribeRequestsCoalesce(native: string, state: StoreState, txId: string)
    returns (first: Reply<bool>, second: Reply<bool>, calls: nat, committed: seq<StoreAction>, later: Reply<bool>)
    requires !IsSubscribed(state, txId)
    ensures first.Pending? && second == first && calls == 1
    ensures committed == [SetSubscribedTxStatus(txId, true)]
    ensures later == Immediate(true)
  {
    var t := new TransactionActions(native);
    first := t.SubscribeTransaction(state, txId);
    second := t.SubscribeTransaction(state, txId);
    calls := |t.netCalls|;
    var _ := t.SettleSubscribe(txId, true);
    committed := t.actions;
    later := t.SubscribeTransaction(state.(subscribed := state.subscribed[txId := true]), txId);
  }

  /**
   * A fetch by hash that gets no answer includes nothing and leaves nothing in
   * flight, so the next request for the hash makes a second network call.
   */
  method FailedFetchAllowsRetry(native: string, state: StoreState, hash: string)
    returns (first: Reply<WalletTx>, retry: Reply<WalletTx>, calls: nat, committed: seq<StoreAction>)
    requires hash !in state.txsByHash
    ensures first.Pending? && retry.Pending? && first.handle != retry.handle
    ensures calls == 2 && committed == []
  {
    var t := new TransactionActions(native);
    first := t.GetTransactionByHash(state, hash);
    var _ := t.SettleTransactionByHash(hash, None);
    retry := t.GetTransactionByHash(state, hash);
    calls := |t.netCalls|;
    committed := t.actions;
  }

  /** A height given as its decimal string shares the pending fetch of the numeric height. */
  method StringHeightSharesFetch(native: string, state: StoreState, height: int)
    returns (numeric: Reply<WalletTx>, spelled: Reply<WalletTx>, calls: nat)
    requires HeightKey(NumberArg(height)) !in state.txsByHeight
    ensures numeric.Pending? && spelled == numeric && calls == 1
  {
    var t := new TransactionActions(native);
    numeric := t.GetTransactionByHeight(state, NumberArg(height));
    StringHeightSameKey(height);
    spelled := t.GetTransactionByHeight(state, StringArg(NumberKey(Finite(height))));
    calls := |t.netCalls|;
  }
}
