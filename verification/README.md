# OP Stack withdrawal finalizer and script chain/token helpers — a Dafny model

This project models two pieces of the Across relayer.

**The OP Stack withdrawal finalizer** (`src/finalizer/utils/opStack.ts`) works on an Optimism or Base spoke pool. It takes the pool's `TokensBridged` events and a cut-off block, and decides which L2-to-L1 withdrawals get a *prove* transaction and which get a *finalize* transaction:

1. Events newer than the cut-off form the "recent" group and the rest form the "older" group.
2. Each event is matched to its cross-chain message. The match uses a per-transaction ordinal log index, so that several withdrawals in one L2 transaction are told apart.
3. Messages whose nonce does not carry the Bedrock version (version 1, the top 16 bits of the 256-bit nonce) are dropped.
4. Each remaining message gets a status, queried at a log index recomputed over the filtered list.
5. Only READY_TO_PROVE and READY_FOR_RELAY messages are kept.
6. Recent events yield prove calls and "proof" records. Older events yield finalize calls and "withdrawal" records. Proofs come first.

The Optimism SDK is a `CrossChainMessenger` value whose fields are total functions: the messages of a transaction, the nonce of a message, the status of a message at a log index, and the populated prove and finalize calls. The hub pool's L1 token lookup and the wei-to-decimal conversion are a `TokenInfoSource` value of the same kind.

**The script helpers** (`scripts/utils.ts`) are:
- the production and test spoke chain lists;
- `resolveHubChainId`, which maps production chains to hub chain 1 and test chains to hub chain 5, and fails for anything else;
- `validateChainIds`;
- `resolveToken`, which resolves a symbol or an address through the contracts package's token map. `ethers.utils.isAddress` is passed in as a predicate.

Modules:
- `Wrappers`: the `Option` and `Result` types.
- `Sequences`: occurrence counting, order-preserving `Filter` and the subsequence relation.
- `LogIndex`: the ordinal log index, both as a reference function and as the source's map-based loop.
- `VersionedNonce`: the Bedrock versioned nonce.
- `OpStack`: the finalizer pipeline.
- `ScriptUtils`: `scripts/utils.ts`.
- `ChainAgreement`: how the finalizer's chains relate to the scripts' chain lists.

## Model

| member | source | states |
|---|---|---|
| OpStack.OpStackFinalizer | src/finalizer/utils/opStack.ts:32-88 | A chain other than 10 or 8453 fails with UnsupportedChainId before anything else. Otherwise the run succeeds exactly when every message lookup of both age groups lands. On success, calls and records have equal length, every record carries the chain ID, and no "proof" record follows a "withdrawal" record. |
| OpStack.OpStackFinalizerSplit | src/finalizer/utils/opStack.ts:60-87 | A successful result is the proof phase over the recent group followed by the finalize phase over the older group. Call data and withdrawals are each concatenated in that order. |
| OpStack.ProofsThenFinalizations | src/finalizer/utils/opStack.ts:84-87 | Concatenating a proof-phase output and a finalize-phase output keeps calls and records in step, keeps the chain ID on every record, and puts all proofs before all finalizations. |
| OpStack.IsOVMChainId | src/finalizer/utils/opStack.ts:90-92 | True exactly for 10 (Optimism) and 8453 (Base). |
| ChainAgreement.OVMChainsSettleOnMainnet | src/finalizer/utils/opStack.ts:90-101 | Both accepted chains are production spoke chains whose hub chain resolves to 1, the L1 chain the messenger is built against. |
| OpStack.PartitionByAge | src/finalizer/utils/opStack.ts:45-50 | Recent events are exactly those with blockNumber >= latestBlockToFinalize + 1, and older ones are the rest. Together the groups hold every event exactly once (multiset union). Each group keeps the input order (subsequence), and no event is in both groups. |
| OpStack.ProvableFromRecentEvents | src/finalizer/utils/opStack.ts:45-66 | Every message the proof phase acts on is READY_TO_PROVE and comes from an input event whose block is after the cut-off. |
| OpStack.RelayableFromOlderEvents | src/finalizer/utils/opStack.ts:45-82 | Every message the finalize phase acts on is READY_FOR_RELAY and comes from an input event at or before the cut-off, so it is disjoint from the proof phase's events. |
| OpStack.GetCrossChainMessages | src/finalizer/utils/opStack.ts:104-130 | One entry per event, in order and carrying that event. A message is found exactly when the event's ordinal among the earlier events of its transaction is below the number of messages of that transaction. A found message is message number <ordinal> of that transaction, the ordinal being the count of earlier events of the same transaction. |
| OpStack.MessagesWithinTransactionDistinct | src/finalizer/utils/opStack.ts:109-121 | Take two events of one transaction. If the later one finds its message, so does the earlier one, and the two get different messages, provided the transaction's message list has no repeats. |
| OpStack.FilterBedrockMessages | src/finalizer/utils/opStack.ts:177-189 | Succeeds exactly when every message was found. On success the result is an order-preserving subsequence of the input. It holds exactly the input messages of Bedrock version: every kept message is Bedrock and every Bedrock message is kept. |
| OpStack.FilterBedrockMessagesIsFilter | src/finalizer/utils/opStack.ts:177-189 | When every message was found, the result is exactly the resolved list with the non-Bedrock entries removed. Every Bedrock entry stays at its own position, repeated entries included. |
| OpStack.FilterBedrockMessagesFirstMissing | src/finalizer/utils/opStack.ts:177-189 | A failure is MessageNotFound for the transaction of the first event, in list order, whose message is missing. |
| OpStack.GetMessageStatuses | src/finalizer/utils/opStack.ts:132-164 | Keeps event and message position by position. The log index of entry i counts the earlier entries of the same transaction in this (filtered) list, the status is the SDK's status at that index, and the indices strictly increase within a transaction. |
| OpStack.FoundMessageInTransaction | src/finalizer/utils/opStack.ts:111-121 | A found entry pairs an input event with one of the messages of that event's own transaction. |
| OpStack.StatusesDrawnFromEvents | src/finalizer/utils/opStack.ts:172-190 | Any message chosen from the statuses of the Bedrock-filtered messages belongs to one of the input events and to that event's transaction. |
| OpStack.GetOptimismFinalizableMessages | src/finalizer/utils/opStack.ts:166-201 | Succeeds exactly when every lookup lands. On success every returned message has status READY_FOR_RELAY or READY_TO_PROVE, that status is the SDK's status at the message's log index, the message is of Bedrock version, and it belongs to an input event and to that event's transaction. |
| OpStack.FinalizableMessagesComplete | src/finalizer/utils/opStack.ts:196-200 | When every lookup lands, the finalizable messages are exactly the READY_FOR_RELAY and READY_TO_PROVE entries of the status list, in list order. |
| OpStack.ProvableMessages | src/finalizer/utils/opStack.ts:284-286 | The proof phase's selection has only READY_TO_PROVE Bedrock messages of the input events. |
| OpStack.ProvableMessagesComplete | src/finalizer/utils/opStack.ts:284-286 | The proof phase's selection is exactly the READY_TO_PROVE part of the finalizable messages, in their order. |
| OpStack.RelayableMessages | src/finalizer/utils/opStack.ts:251-253 | The finalize phase's selection has only READY_FOR_RELAY Bedrock messages of the input events. |
| OpStack.RelayableMessagesComplete | src/finalizer/utils/opStack.ts:251-253 | The finalize phase's selection is exactly the READY_FOR_RELAY part of the finalizable messages, in their order. |
| OpStack.ToWithdrawal | src/finalizer/utils/opStack.ts:290-299 | The record carries the chain ID and the phase's type, the symbol of the L1 token behind the event's L2 token, and the returned amount converted with that L1 token's decimals. |
| OpStack.MulticallOptimismL1Proofs | src/finalizer/utils/opStack.ts:277-306 | Succeeds exactly when every lookup lands. On success calls and records have equal length, and every record is a "proof" for the chain. |
| OpStack.MulticallOptimismFinalizations | src/finalizer/utils/opStack.ts:244-275 | Succeeds exactly when every lookup lands. On success calls and records have equal length, and every record is a "withdrawal" for the chain. |
| OpStack.ProofPhaseOneToOne | src/finalizer/utils/opStack.ts:287-300 | Exactly one prove call per READY_TO_PROVE message, made at that message's log index, with the matching "proof" record at the same position. |
| OpStack.FinalizePhaseOneToOne | src/finalizer/utils/opStack.ts:254-269 | Exactly one finalize call per READY_FOR_RELAY message, made at that message's log index, with the matching "withdrawal" record at the same position. |
| LogIndex.AssignLogIndices | src/finalizer/utils/opStack.ts:139-146 | The hash-to-counter loop has the input's length and equals the reference definition `LogIndices`, under which entry i gets the number of earlier entries with the same hash. |
| LogIndex.LogIndexBelowCount | src/finalizer/utils/opStack.ts:139-146 | An entry's index is below the number of occurrences of its hash. |
| LogIndex.LogIndexIncreasing | src/finalizer/utils/opStack.ts:139-146 | Within one hash, indices strictly increase in list order. |
| LogIndex.LogIndicesIncreasing | src/finalizer/utils/opStack.ts:139-146 | The same, for all pairs at once. |
| LogIndex.LogIndexContiguous | src/finalizer/utils/opStack.ts:139-146 | Every value below a hash's occurrence count is the index of some entry with that hash. With the two lemmas above, a hash's indices are exactly 0..k-1. |
| VersionedNonce.MessageVersion | src/finalizer/utils/opStack.ts:181 | The version read from a 256-bit nonce is below 2^16, and the nonce lies in [version * 2^240, (version + 1) * 2^240). |
| VersionedNonce.IsBedrockNonceRange | src/finalizer/utils/opStack.ts:181-186 | A message is kept exactly when its nonce lies in [2^240, 2^241). |
| VersionedNonce.EncodeVersionedNonceRoundTrip | src/finalizer/utils/opStack.ts:174-181 | Decoding a Bedrock-encoded nonce recovers both the version and the 240-bit sequence number. |
| ScriptUtils.ResolveHubChainId | scripts/utils.ts:103-110 | Production chains give 1 and test chains give 5. It fails with UnsupportedSpokePoolChainId exactly for IDs in neither list. |
| ScriptUtils.ChainListsDisjoint | scripts/utils.ts:13-14 | No chain is in both lists. |
| ScriptUtils.ResolveHubChainIdIdempotent | scripts/utils.ts:103-110 | A successful result is 1 or 5, and resolving it again gives the same result. |
| ScriptUtils.ValidateChainIds | scripts/utils.ts:74-82 | True exactly when every ID is a production or test chain, which is exactly when the hub chain resolves for every ID. True for the empty list. |
| ScriptUtils.ToUpperCase | scripts/utils.ts:53 | Same length, character by character upper-cased. |
| ScriptUtils.ToUpperCaseIdempotent | scripts/utils.ts:53 | Upper-casing twice equals upper-casing once, and leaves no lower-case letter. |
| ScriptUtils.LookupSymbol | scripts/utils.ts:56 | Absent exactly when no entry has the key. Otherwise it is the entry under the first occurrence of the key. |
| ScriptUtils.FindByAddress | scripts/utils.ts:54 | Absent exactly when no entry has the token as its address on the chain. Otherwise it is the first such entry in map order. |
| ScriptUtils.ResolveToken | scripts/utils.ts:50-66 | A failure is TokenUnrecognised for this token and chain. A success returns the decimals and symbol of one map entry, with that entry's address on the chain when it has one. |
| ScriptUtils.ResolveTokenBySymbol | scripts/utils.ts:52-65 | For a non-address, resolution succeeds exactly when the upper-cased token is a key, and returns that entry's fields. |
| ScriptUtils.ResolveTokenByAddress | scripts/utils.ts:52-65 | For an address, on a well-formed map, resolution succeeds exactly when some entry has exactly that address on the chain (case-sensitive). It then returns the first such entry's decimals and symbol, with the token itself as address. |

## Left out

- Optimism SDK calls (`getMessagesByTransaction`, `toCrossChainMessage`, `getMessageStatus`, `populateTransaction.proveMessage` / `finalizeMessage`): network and SDK code, represented as the uninterpreted total functions of `CrossChainMessenger`. The `undefined` second argument of the populate calls is not represented.
- `getUniqueLogIndex` (src/utils) is not part of this model. `GetCrossChainMessages` assumes it assigns the same per-transaction ordinal as the inline loop of `getMessageStatuses`.
- `getL1TokenInfoForOptimismToken` and `convertFromWei`: a hub pool client lookup and decimal string formatting, represented as the uninterpreted functions of `TokenInfoSource`.
- `getOptimismClient`, `getNetworkName`, `getCachedProvider` and the signer: client construction and wiring with no selection logic.
- Logger calls and `groupObjectCountsByProp`: logging only.
- `Promise.all` concurrency: every map is sequential. When several lookups fail, the model reports the first in list order. At run time the first rejection to settle would be reported.
- OpStack.OpStackFinalizer: a thrown SDK error is the single `MessageNotFound` error. Other SDK failures (network errors, rejected transactions) are not modelled.
- `askYesNoQuestion`, `getProviderUrl`, `getContract`, `getSpokePoolContract` in scripts/utils.ts: terminal I/O and RPC or contract wiring.
- The `console.log` of an invalid chain ID in `validateChainIds`: output only.
- `ethers.utils.isAddress` is a predicate parameter of `ResolveToken`, not a model of checksum validation.
- ScriptUtils.ToUpperCase: upper-cases ASCII letters only. JavaScript's full Unicode case mapping, which can change a string's length, is not modelled.
- ScriptUtils.ResolveTokenByAddress: assumes the token map is well formed: distinct keys, each entry stored under its own symbol, and no key "undefined". Without this, the symbol found by address may lead to a different entry.
- ScriptUtils.LookupSymbol: JavaScript object keys inherited from the prototype (e.g. "constructor") are not modelled. The map is its own entries only.
- Other repository files (bundle construction, balance allocation, API and monitor clients, tests and mocks) are outside this model.
