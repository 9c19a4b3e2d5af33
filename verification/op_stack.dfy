/** The OP Stack (Optimism, Base) withdrawal finalizer of
    src/finalizer/utils/opStack.ts: from a chain's TokensBridged events and a
    cut-off block it chooses which withdrawals receive a prove call and which
    a finalize call, and builds one multicall entry and one Withdrawal record
    per chosen message. The Optimism SDK is represented by the total functions
    held in a `CrossChainMessenger` value. */
module OpStack {
  import opened Wrappers
  import opened Sequences
  import opened LogIndex
  import opened VersionedNonce

  type TxHash = string
  type Address = string

  /** A TokensBridged event observed on the L2 spoke pool. */
  datatype TokensBridged = TokensBridged(
    blockNumber: int,
    transactionHash: TxHash,
    l2TokenAddress: Address,
    amountToReturn: nat)

  /** An SDK message handle; the model only passes it back to the messenger. */
  datatype MessageLike = MessageLike(id: nat)

  /** The SDK's `MessageStatus` enumeration, in declaration order. */
  datatype MessageStatus =
    | UnconfirmedL1ToL2Message
    | FailedL1ToL2Message
    | StateRootNotPublished
    | ReadyToProve
    | InChallengePeriod
    | ReadyForRelay
    | Relayed

  /** One entry of the aggregated multicall. */
  datatype Multicall2Call = Multicall2Call(target: Address, callData: string)

  /** The Optimism SDK queries the finalizer relies on, as total functions:
      the L2-to-L1 messages of a transaction, the nonce of a resolved message,
      the status of a message at a log index, and the populated prove and
      finalize transactions for a message at a log index. */
  datatype CrossChainMessenger = CrossChainMessenger(
    messagesByTransaction: TxHash -> seq<MessageLike>,
    messageNonce: MessageLike -> Uint256,
    messageStatus: (MessageLike, nat) -> MessageStatus,
    proveMessage: (MessageLike, nat) -> Multicall2Call,
    finalizeMessage: (MessageLike, nat) -> Multicall2Call)

  /** L1 token metadata as the hub pool client reports it. */
  datatype L1Token = L1Token(symbol: string, decimals: nat)

  /** The hub pool client's L2-to-L1 token lookup and the wei-to-decimal
      string conversion, both outside this model. */
  datatype TokenInfoSource = TokenInfoSource(
    l1TokenInfo: (int, Address) -> L1Token,
    convertFromWei: (nat, nat) -> string)

  /** An event and the message found for it; `None` is the source's
      `undefined` when the log index runs past the transaction's messages. */
  datatype CrossChainMessageWithEvent = CrossChainMessageWithEvent(event: TokensBridged, message: Option<MessageLike>)

  /** An event whose message was found. */
  datatype ResolvedMessage = ResolvedMessage(event: TokensBridged, message: MessageLike)

  datatype CrossChainMessageWithStatus = CrossChainMessageWithStatus(
    event: TokensBridged,
    message: MessageLike,
    status: MessageStatus,
    logIndex: nat)

  /** The `type` of a Withdrawal record: "proof" or "withdrawal". */
  datatype WithdrawalType = ProofStep | WithdrawalStep

  datatype Withdrawal = Withdrawal(
    l2ChainId: int,
    l1TokenSymbol: string,
    amount: string,
    withdrawalType: WithdrawalType)

  /** What a finalizer produces: the calls to aggregate and the matching
      records, position by position. */
  datatype FinalizerOutput = FinalizerOutput(callData: seq<Multicall2Call>, withdrawals: seq<Withdrawal>)

  datatype FinalizerError =
    | UnsupportedChainId(chainId: int)
    | MessageNotFound(transactionHash: TxHash)

  /** `isOVMChainId`: the two OP Stack chains the finalizer supports,
      Optimism and Base. */
  function IsOVMChainId(chainId: int): (ok: bool)
    ensures ok <==> chainId in {10, 8453}
  {
    chainId == 10 || chainId == 8453
  }

  // ---------------------------------------------------------------------
  // Age partition

  datatype AgeGroups = AgeGroups(recent: seq<TokensBridged>, older: seq<TokensBridged>)

  /** `groupBy` on `blockNumber >= latestBlockToFinalize + 1`. */
  function PartitionByAge(events: seq<TokensBridged>, latestBlockToFinalize: int): (groups: AgeGroups)
    ensures forall i :: 0 <= i < |groups.recent| ==> groups.recent[i].blockNumber >= latestBlockToFinalize + 1
    ensures forall i :: 0 <= i < |groups.older| ==> groups.older[i].blockNumber < latestBlockToFinalize + 1
    ensures multiset(groups.recent) + multiset(groups.older) == multiset(events)
    ensures IsSubsequence(groups.recent, events) && IsSubsequence(groups.older, events)
    ensures forall e :: e in groups.recent ==> e !in groups.older
  {
    var earliestBlockToProve := latestBlockToFinalize + 1;
    var isRecent := (e: TokensBridged) => e.blockNumber >= earliestBlockToProve;
    var isOlder := (e: TokensBridged) => !(e.blockNumber >= earliestBlockToProve);
    FilterComplement(events, isRecent, isOlder);
    AgeGroups(Filter(events, isRecent), Filter(events, isOlder))
  }

  // ---------------------------------------------------------------------
  // Message resolution

  function EventHashes(events: seq<TokensBridged>): (hashes: seq<TxHash>)
    ensures |hashes| == |events|
    ensures forall i :: 0 <= i < |events| ==> hashes[i] == events[i].transactionHash
  {
    seq(|events|, i requires 0 <= i < |events| => events[i].transactionHash)
  }

  function ElementAt<T>(s: seq<T>, k: nat): Option<T> {
    if k < |s| then Some(s[k]) else None
  }

  /** `getCrossChainMessages`: event i takes message number `logIndex(i)` of
      its own transaction, where `logIndex(i)` counts the earlier events of
      the same transaction. */
  function GetCrossChainMessages(m: CrossChainMessenger, tokensBridged: seq<TokensBridged>): (r: seq<CrossChainMessageWithEvent>)
    ensures |r| == |tokensBridged|
    ensures forall i :: 0 <= i < |r| ==> r[i].event == tokensBridged[i]
    ensures forall i :: 0 <= i < |r| ==>
              (r[i].message.Some? <==>
                 Count(EventHashes(tokensBridged)[..i], tokensBridged[i].transactionHash)
                   < |m.messagesByTransaction(tokensBridged[i].transactionHash)|)
    ensures forall i :: 0 <= i < |r| && r[i].message.Some? ==>
              r[i].message.value
                == m.messagesByTransaction(tokensBridged[i].transactionHash)[Count(EventHashes(tokensBridged)[..i], tokensBridged[i].transactionHash)]
  {
    var logIndexes := LogIndices(EventHashes(tokensBridged));
    seq(|tokensBridged|, i requires 0 <= i < |tokensBridged| =>
      CrossChainMessageWithEvent(
        tokensBridged[i],
        ElementAt(m.messagesByTransaction(tokensBridged[i].transactionHash), logIndexes[i])))
  }

  /** No message lookup ran past its transaction's messages. */
  predicate AllResolved(msgs: seq<CrossChainMessageWithEvent>) {
    forall i :: 0 <= i < |msgs| ==> msgs[i].message.Some?
  }

  function Resolve(msgs: seq<CrossChainMessageWithEvent>): (r: seq<ResolvedMessage>)
    requires AllResolved(msgs)
    ensures |r| == |msgs|
  {
    seq(|msgs|, i requires 0 <= i < |msgs| => ResolvedMessage(msgs[i].event, msgs[i].message.value))
  }

  /** `err` names the transaction of the first event, in list order, whose
      message lookup found nothing. */
  predicate FirstMissingReported(msgs: seq<CrossChainMessageWithEvent>, err: FinalizerError) {
    exists i :: 0 <= i < |msgs| && msgs[i].message.None? &&
                (forall j :: 0 <= j < i ==> msgs[j].message.Some?) &&
                err == MessageNotFound(msgs[i].event.transactionHash)
  }

  predicate IsBedrockMessage(m: CrossChainMessenger, message: MessageLike) {
    IsBedrockNonce(m.messageNonce(message))
  }

  /** The version filter of `getOptimismFinalizableMessages`: every message is
      resolved through the SDK (which throws on an `undefined` message), and
      only Bedrock-version messages are kept, in order; the others are dropped
      without an error. */
  function FilterBedrockMessages(m: CrossChainMessenger, msgs: seq<CrossChainMessageWithEvent>): (r: Result<seq<ResolvedMessage>, FinalizerError>)
    ensures r.Success? <==> AllResolved(msgs)
    ensures r.Success? ==> IsSubsequence(r.value, Resolve(msgs))
    ensures r.Success? ==> forall k :: 0 <= k < |r.value| ==> IsBedrockMessage(m, r.value[k].message)
    ensures r.Success? ==> forall k :: 0 <= k < |r.value| ==>
              CrossChainMessageWithEvent(r.value[k].event, Some(r.value[k].message)) in msgs
    ensures r.Success? ==> forall i :: 0 <= i < |msgs| && IsBedrockMessage(m, msgs[i].message.value) ==>
              ResolvedMessage(msgs[i].event, msgs[i].message.value) in r.value
    decreases |msgs|
  {
    if |msgs| == 0 then Success([])
    else
      match msgs[0].message
      case None => Failure(MessageNotFound(msgs[0].event.transactionHash))
      case Some(message) =>
        var rest :- FilterBedrockMessages(m, msgs[1..]);
        assert Resolve(msgs)[1..] == Resolve(msgs[1..]);
        if IsBedrockMessage(m, message) then Success([ResolvedMessage(msgs[0].event, message)] + rest)
        else Success(rest)
  }

  /** A failed filter reports the transaction of the first event, in list
      order, whose message lookup found nothing. */
  lemma {:induction false} FilterBedrockMessagesFirstMissing(m: CrossChainMessenger, msgs: seq<CrossChainMessageWithEvent>)
    requires FilterBedrockMessages(m, msgs).Failure?
    ensures FirstMissingReported(msgs, FilterBedrockMessages(m, msgs).error)
  {
    if msgs[0].message.Some? {
      FilterBedrockMessagesFirstMissing(m, msgs[1..]);
      var i :| 0 <= i < |msgs[1..]| && msgs[1..][i].message.None? &&
               (forall j :: 0 <= j < i ==> msgs[1..][j].message.Some?) &&
               FilterBedrockMessages(m, msgs[1..]).error == MessageNotFound(msgs[1..][i].event.transactionHash);
      assert msgs[i + 1].message.None? && forall j :: 0 <= j < i + 1 ==> msgs[j].message.Some?;
    }
  }

  /** The version filter is exactly `Filter` over the resolved messages:
      every Bedrock entry is kept at its own position, repeats included. */
  lemma {:induction false} FilterBedrockMessagesIsFilter(m: CrossChainMessenger, msgs: seq<CrossChainMessageWithEvent>)
    requires AllResolved(msgs)
    ensures FilterBedrockMessages(m, msgs).value == Filter(Resolve(msgs), (x: ResolvedMessage) => IsBedrockMessage(m, x.message))
  {
    if |msgs| > 0 {
      FilterBedrockMessagesIsFilter(m, msgs[1..]);
      assert Resolve(msgs)[1..] == Resolve(msgs[1..]);
      assert Resolve(msgs)[0] == ResolvedMessage(msgs[0].event, msgs[0].message.value);
    }
  }

  function ResolvedHashes(msgs: seq<ResolvedMessage>): (hashes: seq<TxHash>)
    ensures |hashes| == |msgs|
    ensures forall i :: 0 <= i < |msgs| ==> hashes[i] == msgs[i].event.transactionHash
  {
    seq(|msgs|, i requires 0 <= i < |msgs| => msgs[i].event.transactionHash)
  }

  /** `getMessageStatuses`: the log index of each message counts the earlier
      messages of the same transaction in THIS (already filtered) list, and
      the status is queried at that index. */
  function GetMessageStatuses(m: CrossChainMessenger, msgs: seq<ResolvedMessage>): (r: seq<CrossChainMessageWithStatus>)
    ensures |r| == |msgs|
    ensures forall i :: 0 <= i < |r| ==>
              && r[i].event == msgs[i].event
              && r[i].message == msgs[i].message
              && r[i].logIndex == Count(ResolvedHashes(msgs)[..i], msgs[i].event.transactionHash)
              && r[i].status == m.messageStatus(msgs[i].message, r[i].logIndex)
    ensures forall i, j :: 0 <= i < j < |r| && r[i].event.transactionHash == r[j].event.transactionHash ==>
              r[i].logIndex < r[j].logIndex
  {
    var hashes := ResolvedHashes(msgs);
    var logIndexes := LogIndices(hashes);
    LogIndicesIncreasing(hashes);
    seq(|msgs|, i requires 0 <= i < |msgs| =>
      CrossChainMessageWithStatus(
        msgs[i].event,
        msgs[i].message,
        m.messageStatus(msgs[i].message, logIndexes[i]),
        logIndexes[i]))
  }

  /** A message that survived resolution, the version filter and a status
      filter still belongs to one of the input events and to that event's
      transaction. */
  lemma StatusesDrawnFromEvents(
    m: CrossChainMessenger,
    tokensBridged: seq<TokensBridged>,
    bedrockMessages: seq<ResolvedMessage>,
    selected: seq<CrossChainMessageWithStatus>)
    requires FilterBedrockMessages(m, GetCrossChainMessages(m, tokensBridged)) == Success(bedrockMessages)
    requires forall k :: 0 <= k < |selected| ==> selected[k] in GetMessageStatuses(m, bedrockMessages)
    ensures forall k :: 0 <= k < |selected| ==>
              && selected[k].event in tokensBridged
              && selected[k].message in m.messagesByTransaction(selected[k].event.transactionHash)
  {
    var statuses := GetMessageStatuses(m, bedrockMessages);
    forall k | 0 <= k < |selected|
      ensures selected[k].event in tokensBridged
      ensures selected[k].message in m.messagesByTransaction(selected[k].event.transactionHash)
    {
      assert selected[k] in statuses;
      var j :| 0 <= j < |statuses| && statuses[j] == selected[k];
      FoundMessageInTransaction(m, tokensBridged, bedrockMessages[j].event, bedrockMessages[j].message);
    }
  }

  /** A found entry of `getCrossChainMessages` pairs an input event with one
      of that event's transaction's messages. */
  lemma FoundMessageInTransaction(m: CrossChainMessenger, tokensBridged: seq<TokensBridged>, event: TokensBridged, message: MessageLike)
    requires CrossChainMessageWithEvent(event, Some(message)) in GetCrossChainMessages(m, tokensBridged)
    ensures event in tokensBridged
    ensures message in m.messagesByTransaction(event.transactionHash)
  {
    var crossChainMessages := GetCrossChainMessages(m, tokensBridged);
    var i :| 0 <= i < |crossChainMessages| && crossChainMessages[i] == CrossChainMessageWithEvent(event, Some(message));
    var ordinal := Count(EventHashes(tokensBridged)[..i], event.transactionHash);
    assert message == m.messagesByTransaction(event.transactionHash)[ordinal];
  }

  predicate IsFinalizable(message: CrossChainMessageWithStatus) {
    message.status == ReadyForRelay || message.status == ReadyToProve
  }

  /** Every message lookup of `getCrossChainMessages` lands inside its
      transaction's message list. */
  predicate MessagesFound(m: CrossChainMessenger, tokensBridged: seq<TokensBridged>) {
    forall i :: 0 <= i < |tokensBridged| ==>
      Count(EventHashes(tokensBridged)[..i], tokensBridged[i].transactionHash)
        < |m.messagesByTransaction(tokensBridged[i].transactionHash)|
  }

  /** `getOptimismFinalizableMessages`: resolve, keep Bedrock messages, query
      statuses, keep READY_FOR_RELAY and READY_TO_PROVE. */
  function GetOptimismFinalizableMessages(m: CrossChainMessenger, tokensBridged: seq<TokensBridged>): (r: Result<seq<CrossChainMessageWithStatus>, FinalizerError>)
    ensures r.Success? <==> MessagesFound(m, tokensBridged)
    ensures r.Success? ==> forall k :: 0 <= k < |r.value| ==>
              && (r.value[k].status == ReadyForRelay || r.value[k].status == ReadyToProve)
              && r.value[k].status == m.messageStatus(r.value[k].message, r.value[k].logIndex)
              && IsBedrockMessage(m, r.value[k].message)
              && r.value[k].event in tokensBridged
              && r.value[k].message in m.messagesByTransaction(r.value[k].event.transactionHash)
  {
    var crossChainMessages := GetCrossChainMessages(m, tokensBridged);
    var bedrockMessages :- FilterBedrockMessages(m, crossChainMessages);
    var statuses := GetMessageStatuses(m, bedrockMessages);
    var finalizable := Filter(statuses, IsFinalizable);
    StatusesDrawnFromEvents(m, tokensBridged, bedrockMessages, finalizable);
    Success(finalizable)
  }

  /** The finalizable messages are exactly the READY_FOR_RELAY and
      READY_TO_PROVE entries of the status list, in their order. */
  lemma FinalizableMessagesComplete(m: CrossChainMessenger, tokensBridged: seq<TokensBridged>)
    requires MessagesFound(m, tokensBridged)
    ensures FilterBedrockMessages(m, GetCrossChainMessages(m, tokensBridged)).Success?
    ensures
      var statuses := GetMessageStatuses(m, FilterBedrockMessages(m, GetCrossChainMessages(m, tokensBridged)).value);
      var finalizable := GetOptimismFinalizableMessages(m, tokensBridged).value;
      && IsSubsequence(finalizable, statuses)
      && forall k :: 0 <= k < |statuses| && (statuses[k].status == ReadyForRelay || statuses[k].status == ReadyToProve) ==>
           statuses[k] in finalizable
  {
  }

  // ---------------------------------------------------------------------
  // The two phases

  predicate IsReadyToProve(message: CrossChainMessageWithStatus) {
    message.status == ReadyToProve
  }

  predicate IsReadyForRelay(message: CrossChainMessageWithStatus) {
    message.status == ReadyForRelay
  }

  /** The messages the proof phase acts on. */
  function ProvableMessages(m: CrossChainMessenger, tokensBridged: seq<TokensBridged>): (r: Result<seq<CrossChainMessageWithStatus>, FinalizerError>)
    ensures r.Success? <==> MessagesFound(m, tokensBridged)
    ensures r.Success? ==> forall k :: 0 <= k < |r.value| ==>
              && r.value[k].status == ReadyToProve
              && r.value[k].status == m.messageStatus(r.value[k].message, r.value[k].logIndex)
              && IsBedrockMessage(m, r.value[k].message)
              && r.value[k].event in tokensBridged
  {
    var finalizable :- GetOptimismFinalizableMessages(m, tokensBridged);
    Success(Filter(finalizable, IsReadyToProve))
  }

  /** The messages the finalize phase acts on. */
  function RelayableMessages(m: CrossChainMessenger, tokensBridged: seq<TokensBridged>): (r: Result<seq<CrossChainMessageWithStatus>, FinalizerError>)
    ensures r.Success? <==> MessagesFound(m, tokensBridged)
    ensures r.Success? ==> forall k :: 0 <= k < |r.value| ==>
              && r.value[k].status == ReadyForRelay
              && r.value[k].status == m.messageStatus(r.value[k].message, r.value[k].logIndex)
              && IsBedrockMessage(m, r.value[k].message)
              && r.value[k].event in tokensBridged
  {
    var finalizable :- GetOptimismFinalizableMessages(m, tokensBridged);
    Success(Filter(finalizable, IsReadyForRelay))
  }

  /** The proof phase's selection is exactly the READY_TO_PROVE part of the
      finalizable messages, in their order. */
  lemma ProvableMessagesComplete(m: CrossChainMessenger, tokensBridged: seq<TokensBridged>)
    requires MessagesFound(m, tokensBridged)
    ensures
      var finalizable := GetOptimismFinalizableMessages(m, tokensBridged).value;
      var provable := ProvableMessages(m, tokensBridged).value;
      && IsSubsequence(provable, finalizable)
      && forall k :: 0 <= k < |finalizable| && finalizable[k].status == ReadyToProve ==> finalizable[k] in provable
  {
  }

  /** The finalize phase's selection is exactly the READY_FOR_RELAY part of
      the finalizable messages, in their order. */
  lemma RelayableMessagesComplete(m: CrossChainMessenger, tokensBridged: seq<TokensBridged>)
    requires MessagesFound(m, tokensBridged)
    ensures
      var finalizable := GetOptimismFinalizableMessages(m, tokensBridged).value;
      var relayable := RelayableMessages(m, tokensBridged).value;
      && IsSubsequence(relayable, finalizable)
      && forall k :: 0 <= k < |finalizable| && finalizable[k].status == ReadyForRelay ==> finalizable[k] in relayable
  {
  }

  /** The Withdrawal record for one message: the L1 token resolved from the
      event's L2 token, and the returned amount converted with its decimals. */
  function ToWithdrawal(chainId: int, tokens: TokenInfoSource, message: CrossChainMessageWithStatus, withdrawalType: WithdrawalType): (w: Withdrawal)
    ensures w.l2ChainId == chainId && w.withdrawalType == withdrawalType
    ensures w.l1TokenSymbol == tokens.l1TokenInfo(chainId, message.event.l2TokenAddress).symbol
    ensures w.amount == tokens.convertFromWei(message.event.amountToReturn, tokens.l1TokenInfo(chainId, message.event.l2TokenAddress).decimals)
  {
    var l1TokenInfo := tokens.l1TokenInfo(chainId, message.event.l2TokenAddress);
    Withdrawal(
      chainId,
      l1TokenInfo.symbol,
      tokens.convertFromWei(message.event.amountToReturn, l1TokenInfo.decimals),
      withdrawalType)
  }

  /** The output of one phase: for each selected message, the call the SDK
      populates for it at its log index, and its Withdrawal record. */
  function BuildPhase(
    chainId: int,
    tokens: TokenInfoSource,
    selected: seq<CrossChainMessageWithStatus>,
    populate: (MessageLike, nat) -> Multicall2Call,
    withdrawalType: WithdrawalType): (out: FinalizerOutput)
    ensures IsPhaseOutput(chainId, out, withdrawalType)
    ensures |out.callData| == |selected|
  {
    FinalizerOutput(
      seq(|selected|, k requires 0 <= k < |selected| => populate(selected[k].message, selected[k].logIndex)),
      seq(|selected|, k requires 0 <= k < |selected| => ToWithdrawal(chainId, tokens, selected[k], withdrawalType)))
  }

  /** `multicallOptimismL1Proofs`: one prove call per READY_TO_PROVE message,
      at that message's log index, and one "proof" record per message. */
  function MulticallOptimismL1Proofs(chainId: int, m: CrossChainMessenger, tokens: TokenInfoSource, tokensBridged: seq<TokensBridged>): (r: Result<FinalizerOutput, FinalizerError>)
    ensures r.Success? <==> MessagesFound(m, tokensBridged)
    ensures r.Success? ==> |r.value.callData| == |r.value.withdrawals|
    ensures r.Success? ==> forall k :: 0 <= k < |r.value.withdrawals| ==>
              r.value.withdrawals[k].l2ChainId == chainId && r.value.withdrawals[k].withdrawalType == ProofStep
  {
    var provable :- ProvableMessages(m, tokensBridged);
    Success(BuildPhase(chainId, tokens, provable, m.proveMessage, ProofStep))
  }

  /** `multicallOptimismFinalizations`: one finalize call per READY_FOR_RELAY
      message, at that message's log index, and one "withdrawal" record per
      message. */
  function MulticallOptimismFinalizations(chainId: int, m: CrossChainMessenger, tokens: TokenInfoSource, tokensBridged: seq<TokensBridged>): (r: Result<FinalizerOutput, FinalizerError>)
    ensures r.Success? <==> MessagesFound(m, tokensBridged)
    ensures r.Success? ==> |r.value.callData| == |r.value.withdrawals|
    ensures r.Success? ==> forall k :: 0 <= k < |r.value.withdrawals| ==>
              r.value.withdrawals[k].l2ChainId == chainId && r.value.withdrawals[k].withdrawalType == WithdrawalStep
  {
    var relayable :- RelayableMessages(m, tokensBridged);
    Success(BuildPhase(chainId, tokens, relayable, m.finalizeMessage, WithdrawalStep))
  }

  // ---------------------------------------------------------------------
  // The finalizer

  /** Every message lookup of the recent group lands. */
  predicate RecentFound(m: CrossChainMessenger, tokensBridged: seq<TokensBridged>, latestBlockToFinalize: int) {
    MessagesFound(m, PartitionByAge(tokensBridged, latestBlockToFinalize).recent)
  }

  /** Every message lookup of the older group lands. */
  predicate OlderFound(m: CrossChainMessenger, tokensBridged: seq<TokensBridged>, latestBlockToFinalize: int) {
    MessagesFound(m, PartitionByAge(tokensBridged, latestBlockToFinalize).older)
  }

  /** Every message lookup of both age groups lands. */
  predicate GroupsFound(m: CrossChainMessenger, tokensBridged: seq<TokensBridged>, latestBlockToFinalize: int) {
    RecentFound(m, tokensBridged, latestBlockToFinalize) && OlderFound(m, tokensBridged, latestBlockToFinalize)
  }

  /** `opStackFinalizer`: check the chain, split the events by age, prove the
      recent ones, finalize the older ones, and concatenate proofs first. */
  function OpStackFinalizer(
    chainId: int,
    m: CrossChainMessenger,
    tokens: TokenInfoSource,
    tokensBridged: seq<TokensBridged>,
    latestBlockToFinalize: int): (r: Result<FinalizerOutput, FinalizerError>)
    ensures !IsOVMChainId(chainId) ==> r == Failure(UnsupportedChainId(chainId))
    ensures r.Success? <==> IsOVMChainId(chainId) && GroupsFound(m, tokensBridged, latestBlockToFinalize)
    ensures r.Success? ==> |r.value.callData| == |r.value.withdrawals|
    ensures r.Success? ==> forall k :: 0 <= k < |r.value.withdrawals| ==> r.value.withdrawals[k].l2ChainId == chainId
    ensures r.Success? ==> forall j, k :: 0 <= j < k < |r.value.withdrawals| && r.value.withdrawals[j].withdrawalType == WithdrawalStep ==>
              r.value.withdrawals[k].withdrawalType == WithdrawalStep
  {
    if !IsOVMChainId(chainId) then Failure(UnsupportedChainId(chainId))
    else
      var groups := PartitionByAge(tokensBridged, latestBlockToFinalize);
      var proofs :- MulticallOptimismL1Proofs(chainId, m, tokens, groups.recent);
      var finalizations :- MulticallOptimismFinalizations(chainId, m, tokens, groups.older);
      ProofsThenFinalizations(chainId, proofs, finalizations);
      Success(FinalizerOutput(proofs.callData + finalizations.callData, proofs.withdrawals + finalizations.withdrawals))
  }

  /** The phase output of one step type: one record per call, all for
      `chainId` and all of type `withdrawalType`. */
  predicate IsPhaseOutput(chainId: int, out: FinalizerOutput, withdrawalType: WithdrawalType) {
    && |out.callData| == |out.withdrawals|
    && forall k :: 0 <= k < |out.withdrawals| ==>
         out.withdrawals[k].l2ChainId == chainId && out.withdrawals[k].withdrawalType == withdrawalType
  }

  /** Concatenating a proof phase and a finalize phase keeps calls and
      records in step and puts every "proof" record before every
      "withdrawal" record. */
  lemma ProofsThenFinalizations(chainId: int, proofs: FinalizerOutput, finalizations: FinalizerOutput)
    requires IsPhaseOutput(chainId, proofs, ProofStep)
    requires IsPhaseOutput(chainId, finalizations, WithdrawalStep)
    ensures
      var withdrawals := proofs.withdrawals + finalizations.withdrawals;
      && |proofs.callData + finalizations.callData| == |withdrawals|
      && (forall k :: 0 <= k < |withdrawals| ==> withdrawals[k].l2ChainId == chainId)
      && (forall j, k :: 0 <= j < k < |withdrawals| && withdrawals[j].withdrawalType == WithdrawalStep ==>
            withdrawals[k].withdrawalType == WithdrawalStep)
  {
  }

  /** A successful run is the proof phase over the recent events followed by
      the finalize phase over the older events. */
  lemma OpStackFinalizerSplit(
    chainId: int,
    m: CrossChainMessenger,
    tokens: TokenInfoSource,
    tokensBridged: seq<TokensBridged>,
    latestBlockToFinalize: int)
    requires IsOVMChainId(chainId)
    requires GroupsFound(m, tokensBridged, latestBlockToFinalize)
    ensures
      var groups := PartitionByAge(tokensBridged, latestBlockToFinalize);
      var proofs := MulticallOptimismL1Proofs(chainId, m, tokens, groups.recent);
      var finalizations := MulticallOptimismFinalizations(chainId, m, tokens, groups.older);
      && proofs.Success?
      && finalizations.Success?
      && OpStackFinalizer(chainId, m, tokens, tokensBridged, latestBlockToFinalize)
           == Success(FinalizerOutput(proofs.value.callData + finalizations.value.callData,
                                      proofs.value.withdrawals + finalizations.value.withdrawals))
  {
  }

  /** The proof phase only acts on recent events. */
  lemma ProvableFromRecentEvents(m: CrossChainMessenger, tokensBridged: seq<TokensBridged>, latestBlockToFinalize: int)
    requires RecentFound(m, tokensBridged, latestBlockToFinalize)
    ensures
      var provable := ProvableMessages(m, PartitionByAge(tokensBridged, latestBlockToFinalize).recent).value;
      forall k :: 0 <= k < |provable| ==>
        && provable[k].status == ReadyToProve
        && provable[k].event in tokensBridged
        && provable[k].event.blockNumber > latestBlockToFinalize
  {
    var groups := PartitionByAge(tokensBridged, latestBlockToFinalize);
    var provable := ProvableMessages(m, groups.recent).value;
    forall k | 0 <= k < |provable|
      ensures provable[k].event in tokensBridged
      ensures provable[k].event.blockNumber > latestBlockToFinalize
    {
      InGroupInEvents(groups.recent, groups.older, tokensBridged, provable[k].event);
      var i :| 0 <= i < |groups.recent| && groups.recent[i] == provable[k].event;
    }
  }

  /** The finalize phase only acts on older events. */
  lemma RelayableFromOlderEvents(m: CrossChainMessenger, tokensBridged: seq<TokensBridged>, latestBlockToFinalize: int)
    requires OlderFound(m, tokensBridged, latestBlockToFinalize)
    ensures
      var relayable := RelayableMessages(m, PartitionByAge(tokensBridged, latestBlockToFinalize).older).value;
      forall k :: 0 <= k < |relayable| ==>
        && relayable[k].status == ReadyForRelay
        && relayable[k].event in tokensBridged
        && relayable[k].event.blockNumber <= latestBlockToFinalize
  {
    var groups := PartitionByAge(tokensBridged, latestBlockToFinalize);
    var relayable := RelayableMessages(m, groups.older).value;
    forall k | 0 <= k < |relayable|
      ensures relayable[k].event in tokensBridged
      ensures relayable[k].event.blockNumber <= latestBlockToFinalize
    {
      InGroupInEvents(groups.recent, groups.older, tokensBridged, relayable[k].event);
      var i :| 0 <= i < |groups.older| && groups.older[i] == relayable[k].event;
    }
  }

  /** `multicallOptimismL1Proofs` emits exactly one prove call per
      READY_TO_PROVE message, at that message's log index, and the matching
      "proof" record in the same position. */
  lemma ProofPhaseOneToOne(chainId: int, m: CrossChainMessenger, tokens: TokenInfoSource, tokensBridged: seq<TokensBridged>)
    requires MessagesFound(m, tokensBridged)
    ensures
      var out := MulticallOptimismL1Proofs(chainId, m, tokens, tokensBridged).value;
      var provable := ProvableMessages(m, tokensBridged).value;
      && |out.callData| == |provable|
      && |out.withdrawals| == |provable|
      && forall k :: 0 <= k < |provable| ==>
           && out.callData[k] == m.proveMessage(provable[k].message, provable[k].logIndex)
           && out.withdrawals[k] == ToWithdrawal(chainId, tokens, provable[k], ProofStep)
  {
  }

  /** `multicallOptimismFinalizations` emits exactly one finalize call per
      READY_FOR_RELAY message, at that message's log index, and the matching
      "withdrawal" record in the same position. */
  lemma FinalizePhaseOneToOne(chainId: int, m: CrossChainMessenger, tokens: TokenInfoSource, tokensBridged: seq<TokensBridged>)
    requires MessagesFound(m, tokensBridged)
    ensures
      var out := MulticallOptimismFinalizations(chainId, m, tokens, tokensBridged).value;
      var relayable := RelayableMessages(m, tokensBridged).value;
      && |out.callData| == |relayable|
      && |out.withdrawals| == |relayable|
      && forall k :: 0 <= k < |relayable| ==>
           && out.callData[k] == m.finalizeMessage(relayable[k].message, relayable[k].logIndex)
           && out.withdrawals[k] == ToWithdrawal(chainId, tokens, relayable[k], WithdrawalStep)
  {
  }

  /** An element of either part of a multiset split belongs to the whole. */
  lemma InGroupInEvents(first: seq<TokensBridged>, second: seq<TokensBridged>, whole: seq<TokensBridged>, e: TokensBridged)
    requires multiset(first) + multiset(second) == multiset(whole)
    requires e in first || e in second
    ensures e in whole
  {
    assert e in multiset(first) + multiset(second);
    assert e in multiset(whole);
  }

  /** Several withdrawals in one transaction are told apart: when the later
      of two events of one transaction finds its message, so does the earlier
      one, at a lower position of that transaction's message list, hence a
      different message when the list has no repeats. */
  lemma MessagesWithinTransactionDistinct(m: CrossChainMessenger, tokensBridged: seq<TokensBridged>, i: nat, j: nat)
    requires i < j < |tokensBridged|
    requires tokensBridged[i].transactionHash == tokensBridged[j].transactionHash
    requires Count(EventHashes(tokensBridged)[..j], tokensBridged[j].transactionHash)
               < |m.messagesByTransaction(tokensBridged[j].transactionHash)|
    requires
      var messages := m.messagesByTransaction(tokensBridged[j].transactionHash);
      forall a, b :: 0 <= a < b < |messages| ==> messages[a] != messages[b]
    ensures GetCrossChainMessages(m, tokensBridged)[i].message.Some?
    ensures GetCrossChainMessages(m, tokensBridged)[j].message.Some?
    ensures GetCrossChainMessages(m, tokensBridged)[i].message != GetCrossChainMessages(m, tokensBridged)[j].message
  {
    LogIndexIncreasing(EventHashes(tokensBridged), i, j);
  }
}
