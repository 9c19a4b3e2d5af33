/** How the finalizer's supported chains sit among the scripts' chain lists. */
module ChainAgreement {
  import opened Wrappers
  import OpStack
  import ScriptUtils

  /** Both OP Stack chains are production spoke chains whose hub is chain 1,
      the L1 the finalizer's messenger is built against. */
  lemma OVMChainsSettleOnMainnet(chainId: int)
    requires OpStack.IsOVMChainId(chainId)
    ensures chainId in ScriptUtils.Chains
    ensures ScriptUtils.ResolveHubChainId(chainId) == Success(ScriptUtils.MainnetHubChainId)
  {
  }
}
