# PandoraPay wallet light client: consensus and transaction actions

This project models the core of the wallet's light-client layer and proves properties of the model:

- the `Consensus` object (`src/consensus/consensus.js`). It follows the chain head, walks the block-info
  records down from the tip, downloads complete blocks by height or by hash, and indexes their
  transactions;
- the store's transaction actions (`src/store/modules/transactions/transactions-actions.js`). They
  subscribe to and unsubscribe from a transaction, fetch a transaction by hash or by height, and include
  a fetched transaction.

Every accessor shares an in-flight request for the same key where the code does.

Modules, one per concern:

- `Wrappers` has `Option` and `Reply<T>`, the value-or-pending-handle answer of the request steps in both classes.
- `JsValues` models the JavaScript behaviour the code relies on:
  - `Number.parseInt`;
  - the property name a number becomes when it is used as an object key;
  - strict equality `===` between values of different types.
- `ChainData` holds the records, the notifications, and how a block's transactions are stamped and indexed.
- `BlockInfoWalk` specifies `downloadBlocksHashes` as a recursive function `Walk` and proves lemmas about it.
- `ConsensusEngine` holds the class `Consensus`. Its methods change its fields in place, and its
  block-info loop is proved equal to `Walk`.
- `TransactionsActions` holds the class `TransactionActions`. Its fields are the module-level
  in-flight maps and logs of store actions and network calls.

Asynchronous accessors are split into two steps:

- a request step, which answers at once, returns the handle of the pending request, or registers a new one;
- a settle step, which takes the network's answer as a parameter.

Notifications (`this.emit`) are appended to an `events` log. Store commits and dispatches of actions
outside the model are appended to an `actions` log. Dispatches of actions inside the model
(`processTx` from `includeTx`, `includeTx` from the fetch settles) are inlined: their effect appears in
place of the dispatch. Network requests are appended to request logs.

The model follows the code as written, including where its evident intent differs:

- **A changed hash is never detected.** A reorganisation check would replace a record whose hash changed
  and announce the old block as deleted. At `consensus.js:40`, however, the test `!x.hash === b.hash`
  compares a boolean with a string, so it is always false. A height whose cached hash differs from the
  fetched one is therefore neither replaced nor reported. The block-deleted notification can never be
  emitted; `WalkNeverDeletes` proves this.
- **The block-deleted payload** would carry the new hash, not the old one.
- **A missing answer aborts the walk** with a `consensus/error` notification.
- **`getBlock` never shares an in-flight request.** Each call starts a new one, and the first request
  to settle deletes the in-flight entry of a later one.
- **`getBlockByHash` tests its cache in the height-keyed `blocks` map** and then answers from
  `blocksByHash`.
- **`getTransactionByHash` ignores pending or confirmed status.** It answers a stored transaction
  whatever that status is.
- **A settled block request resolves with the included block.** `_includeBlock` stamps the transactions
  of the very object that is then resolved, so the result carries the stamps.
- **The walk window is a parameter.** The code takes its bounds from the base class, `starting` and
  `ending - 1`.

## Model

| member | source | states |
|---|---|---|
| JsValues.ParseNumberKey | src/consensus/consensus.js:106-110 | `parseInt` of the property name of any integer gives that integer back, so a height passed as its decimal string converts to the number. |
| JsValues.ParseIntNoDigits | src/consensus/consensus.js:106-108 | `parseInt` of an empty or all-white-space string, or of one whose first non-blank character is neither a sign nor a digit, is NaN. |
| JsValues.NumberKeyShape | src/consensus/consensus.js:62 | Only NaN becomes the property name "NaN"; an integer's property name starts with a minus sign exactly when it is negative. |
| JsValues.NumberKeyInjective | src/consensus/consensus.js:62 | Two different integer heights never share a property name, so storing a block by height cannot overwrite another height's block. |
| JsValues.StringHeightSameKey | src/store/modules/transactions/transactions-actions.js:155-158 | A height given as its decimal string is looked up under the same key as the numeric height. |
| ChainData.StampAll | src/consensus/consensus.js:66-70 | Every transaction of the block gets an extra field holding the block's height and timestamp; nothing else about it changes, and the order and number of transactions are kept. |
| ChainData.StoredBlockStamped | src/consensus/consensus.js:62-70 | The block stored by height and by hash keeps its header and its transactions in order, each carrying the block's height and timestamp and otherwise unchanged. |
| ChainData.TxIndexEntries | src/consensus/consensus.js:71-72 | Every entry of the transaction index is one of the block's transactions, stored under its own bloom hash. |
| ChainData.TxIndexKeys | src/consensus/consensus.js:71-72 | The transaction index has an entry under a hash exactly when some transaction of the sequence carries that bloom hash. |
| ChainData.TxIndexLast | src/consensus/consensus.js:71-72 | The entry under a hash is the last transaction in the sequence with that hash, because later writes overwrite earlier ones. |
| ChainData.IncludedTxsSpec | src/consensus/consensus.js:65-74 | The reported transaction batch holds exactly the block's bloom hashes. Each entry has its own hash, carries the block's height and timestamp, and is the stamped last block transaction with that hash. |
| BlockInfoWalk.WalkContinues | src/consensus/consensus.js:33-49 | One step of `Walk` past a height that did not match: at most a block-info-downloaded notification for a height without a record, then the rest of the walk from the height below. |
| BlockInfoWalk.WalkDescends | src/consensus/consensus.js:20-23 | Heights are requested one at a time in strictly descending order from `ending`, never below `starting`; any non-empty window requests `ending`. |
| BlockInfoWalk.WalkFetchedBounds | src/consensus/consensus.js:20-23 | Every requested height lies in `[starting, ending]`. |
| BlockInfoWalk.WalkRecords | src/consensus/consensus.js:33-46 | After the walk, every existing record is kept unchanged, whatever hash was fetched. Exactly the requested heights with a hash and no record gain the fetched record stamped with their height. |
| BlockInfoWalk.WalkNeverDeletes | src/consensus/consensus.js:40-44 | The walk never emits a block-deleted notification. |
| BlockInfoWalk.WalkErrorEndsWalk | src/consensus/consensus.js:28-31 | An error notification can only come last. There is one exactly when the last requested height got no answer or no hash, and it carries "Error getting block info". |
| BlockInfoWalk.WalkReturnsOnUnusable | src/consensus/consensus.js:28-31 | The walk returns at the first answer without a record or a hash: every requested height except the last was answered with a hash. |
| BlockInfoWalk.WalkDownloads | src/consensus/consensus.js:33-47 | A height gets exactly one block-info-downloaded notification when it was requested, answered with a hash and had no record, and none otherwise. Each notification carries the stamped record. |
| BlockInfoWalk.WalkStopsAtMatch | src/consensus/consensus.js:35-38 | A height whose cached hash equals the fetched hash stops the walk: nothing below it is requested. When every height above it is answered and differs, the walk ends exactly there. |
| BlockInfoWalk.WalkFullWindow | src/consensus/consensus.js:20-49 | With no records in the window and every height answered, the walk requests every height from `ending` down to `starting`. It emits one block-info-downloaded notification per height, in that order, and nothing else. |
| BlockInfoWalk.WalkRerunQuiet | src/consensus/consensus.js:35-47 | Rerunning a walk that did not abort, over its own result and with the same answers, changes no record and emits nothing. |
| ConsensusEngine.StampAndIndex | src/consensus/consensus.js:65-73 | The transaction loop adds exactly the stamped-and-indexed batch to the existing transaction map and returns that batch. |
| ConsensusEngine.Consensus.ProcessBlockchain | src/consensus/consensus.js:7-18 | The head takes over `end`, `hash` and `prevHash` and keeps its other fields. The update is announced with the new head, followed by exactly the walk's records, notifications and requests. |
| ConsensusEngine.Consensus.DownloadBlocksHashes | src/consensus/consensus.js:20-53 | The loop leaves the records, the notification log and the request log exactly as `Walk` describes, and changes no other field. |
| ConsensusEngine.Consensus.IncludeBlock | src/consensus/consensus.js:59-76 | The block is announced and stored under its height's property name and under its hash. Its stamped transactions are merged into the transaction map, and one batched notification reports them. |
| ConsensusEngine.Consensus.GetBlockByHash | src/consensus/consensus.js:78-83 | A hash present in the height-keyed map answers from the hash map, possibly with nothing. An in-flight request under the hash is shared. Otherwise exactly one new request is registered and sent. |
| ConsensusEngine.Consensus.GetBlock | src/consensus/consensus.js:104-112 | A string height is converted with `parseInt`. A stored height answers at once; otherwise a new request always replaces the in-flight entry and is sent. |
| ConsensusEngine.Consensus.Register | src/consensus/consensus.js:83-86 | A new request takes a fresh handle, replaces whatever in-flight entry the key had, is remembered as pending and is sent to the network once; nothing else changes. |
| ConsensusEngine.Consensus.SettleBlockFetch | src/consensus/consensus.js:84-128 | A received block is included, and the request resolves with the block as included, its transactions stamped. No block rejects it, with an error notification only for a by-hash request. Either way the in-flight entry under the request's key is deleted. |
| ConsensusEngine.ByHashRequestsCoalesce | src/consensus/consensus.js:80-83 | Two by-hash requests for an unknown hash share one pending request and one network call. |
| ConsensusEngine.HeightRequestsDoNotCoalesce | src/consensus/consensus.js:112-127 | Two by-height requests make two network calls. Settling the first removes the in-flight entry while the second is still pending. |
| ConsensusEngine.StringHeightHitsCache | src/consensus/consensus.js:106-110 | After a block is included, asking for its height as a decimal string answers the stored block at once. |
| ConsensusEngine.ByHashLooksInHeightMap | src/consensus/consensus.js:80 | A by-hash lookup of a string that spells an included block's height is a cache hit answered with nothing. The block's real hash misses and starts a request. |
| TransactionsActions.TokensToRequest | src/store/modules/transactions/transactions-actions.js:52-59 | A simple transaction needs the native token. A Zether transaction needs one token per payload, in payload order. Any other version needs none. |
| TransactionsActions.PayloadTokens | src/store/modules/transactions/transactions-actions.js:57 | One token per payload, each the payload's own token, in order. |
| TransactionsActions.TokenLookups | src/store/modules/transactions/transactions-actions.js:55-57 | One `getTokenByHash` dispatch per token, in order. |
| TransactionsActions.IncludedTx | src/store/modules/transactions/transactions-actions.js:63-72 | `__height` is present exactly when the answer has info, and then equals the info's height; nothing else about the transaction changes. |
| TransactionsActions.StoredInfo | src/store/modules/transactions/transactions-actions.js:65-72 | The stored info is the mempool marker exactly when the answer has no info, and the network's info otherwise. |
| TransactionsActions.TransactionActions.SubscribeTransaction | src/store/modules/transactions/transactions-actions.js:10-15 | Answers `true` at once when already subscribed and shares an in-flight subscription. Otherwise it registers one under a handle no in-flight request holds and sends one subscribe call. |
| TransactionsActions.TransactionActions.SettleSubscribe | src/store/modules/transactions/transactions-actions.js:16-27 | Success commits the subscribed status `true` and resolves with `true`. A rejected call commits nothing and resolves with nothing. The in-flight entry is removed either way. |
| TransactionsActions.TransactionActions.UnsubscribeTransaction | src/store/modules/transactions/transactions-actions.js:31-36 | Answers `true` at once when not subscribed and shares an in-flight unsubscription. Otherwise it registers one under a handle no in-flight request holds and sends one unsubscribe call. |
| TransactionsActions.TransactionActions.SettleUnsubscribe | src/store/modules/transactions/transactions-actions.js:37-48 | Success commits the subscribed status `false` and resolves with `true`. A rejected call commits nothing and resolves with nothing. The in-flight entry is removed either way. |
| TransactionsActions.TransactionActions.ProcessTx | src/store/modules/transactions/transactions-actions.js:52-59 | Dispatches exactly one token lookup per token the transaction's version needs, in order, and nothing else. |
| TransactionsActions.TransactionActions.IncludeTx | src/store/modules/transactions/transactions-actions.js:61-78 | Stores the transaction's info (or the mempool marker), processes the transaction with its height set or removed, commits it alone and returns it. |
| TransactionsActions.TransactionActions.GetTransactionByHash | src/store/modules/transactions/transactions-actions.js:128-133 | A stored transaction answers at once and an in-flight fetch is shared. Otherwise exactly one fetch by hash is registered, under a handle no in-flight request holds, and sent. |
| TransactionsActions.TransactionActions.SettleTransactionByHash | src/store/modules/transactions/transactions-actions.js:133-150 | An answer is included and resolves the request. No answer rejects it and includes nothing. The in-flight entry is removed either way. |
| TransactionsActions.TransactionActions.GetTransactionByHeight | src/store/modules/transactions/transactions-actions.js:153-160 | A string height is converted with `parseInt` before both lookups. A stored transaction answers at once and an in-flight fetch is shared. Otherwise one fetch with the numeric height is registered, under a handle no in-flight request holds, and sent. |
| TransactionsActions.TransactionActions.SettleTransactionByHeight | src/store/modules/transactions/transactions-actions.js:160-177 | As by hash, for the in-flight entry of the height's property name. |
| TransactionsActions.SubscribeRequestsCoalesce | src/store/modules/transactions/transactions-actions.js:10-28 | Two subscribe requests share one handle and one network call. Success commits exactly the status `true`, and a request against the updated state answers `true` at once. |
| TransactionsActions.FailedFetchAllowsRetry | src/store/modules/transactions/transactions-actions.js:128-150 | A fetch by hash that gets no answer commits nothing and leaves nothing in flight, so the next request makes a second network call. |
| TransactionsActions.StringHeightSharesFetch | src/store/modules/transactions/transactions-actions.js:153-160 | A height given as its decimal string shares the pending fetch of the numeric height. |

## Left out

- Network calls (`getNetworkBlockInfo`, `getNetworkBlockComplete`, `getNetworkTransaction`,
  `subscribeNetwork`, `unsubscribeNetwork`). Their answers are parameters: a function from height to
  answer for the walk, an optional value for the block and transaction fetch settles, and a `succeeded`
  flag for the subscribe and unsubscribe settles. For a block or transaction fetch settle, no answer
  stands for a null reply, a rejected call or a decoding failure, all of which the code catches. For the
  subscribe and unsubscribe settles, the reply is never read: `false` stands only for a rejected call,
  and a null reply is a success. For the walk, no answer stands only for a null reply or a reply without
  a hash.
- BlockInfoWalk.Walk: does not model a rejected `getNetworkBlockInfo` call or a reply `JSON.parse`
  cannot decode. The walk has no `try`, and `processBlockchain` neither awaits nor catches it, so the
  code ends the walk there with the records written so far and no error notification. The model has no
  answer for that case, so `WalkErrorEndsWalk` and `DownloadBlocksHashes` do not cover it.
- `JSON.parse` and `MyTextDecode`. The model receives decoded values.
- Promise interleaving. Each request and settle step runs atomically, and the settle steps may be called in
  any order. `DownloadBlocksHashes` works on local copies and writes them back when it ends or aborts.
  Code running between its awaits is not modelled.
- ConsensusEngine.Consensus.ProcessBlockchain: the blockchain-info-updated notification carries only the
  chain head. The code emits the live `_data` object, which also holds the records, both block maps and
  the transactions, so listeners see the walk's and later inclusions' writes through it.
- ConsensusEngine.Consensus.ProcessBlockchain: runs the walk to completion before returning, whereas the code
  starts `downloadBlocksHashes` without awaiting it.
- The event emitter and `console.log`/`console.error`. Notifications are a log; console output is dropped.
- The base class `consensus-base` is not part of this model. The window bounds `starting` and `ending` are
  parameters, and the constructor starts from empty maps and a given head.
- Vuex mutations and other store actions (`setSubscribedTxStatus`, `storeTransactionInfo`, `getTokenByHash`,
  `setTransactions`). They are recorded in `actions`, but their effect on the store is not modelled; the
  store state is a parameter of each request step.
- `txNotification`, the commented-out `decryptTxData`, and the empty `stopDownloadPendingTransactions`,
  `getTransactionByHash` and `getTransaction` stubs of `Consensus`. They have no behaviour to model, or
  only forward to code outside this model.
- `wallet-store.js` is not part of this model.
- The subscription type passed to `subscribeNetwork`/`unsubscribeNetwork`, the enum values of the
  transaction versions, and the native token constant. The native token is a constructor parameter.
- Numbers are integers or NaN. Fractional heights, exponent notation and precision loss beyond 2^53 are
  not modelled.
- Object identity. Transactions and blocks are values. In the code, the stored block and the
  block-downloaded payload are the same object, so the payload later shows the stamped transactions; in
  the model the payload is the block as announced.
- Exceptions other than a missing answer, and the value a rejected promise carries.
