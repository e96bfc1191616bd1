/** The chain-switch helper: ask the wallet to switch to Sepolia and, when the wallet
    does not know that chain, ask it to add the chain definition instead. */
module NetworkUtils {
  import opened Outcomes

  const SepoliaChainId: string := "0xaa36a7"

  datatype NativeCurrency = NativeCurrency(name: string, symbol: string, decimals: nat)

  /** The chain definition handed to `wallet_addEthereumChain`. */
  datatype ChainDefinition = ChainDefinition(
    chainId: string,
    chainName: string,
    nativeCurrency: NativeCurrency,
    rpcUrls: seq<string>,
    blockExplorerUrls: seq<string>)

  const SepoliaNetwork: ChainDefinition := ChainDefinition(
    SepoliaChainId,
    "Sepolia Test Network",
    NativeCurrency("SepoliaETH", "SEP", 18),
    ["https://sepolia.infura.io/v3/"],
    ["https://sepolia.etherscan.io"])

  /** The wallet's error code for "this chain has not been added". */
  const UnrecognizedChainCode: int := 4902

  const AddFailedMessage: string := "Sepolia ağı eklenemedi"
  const SwitchFailedMessage: string := "Ağ değiştirilemedi"

  /** The requests this helper makes of the wallet. */
  datatype WalletRequest =
    | SwitchEthereumChain(chainId: string)
    | AddEthereumChain(network: ChainDefinition)

  /** How one `window.ethereum.request` settles. A rejection may carry a numeric `code`;
      one that carries none (a missing provider throws a plain TypeError) has `None`. */
  datatype WalletReply = Granted | Refused(code: Option<int>, message: string)

  /** What one call of the helper did: the requests issued, in order, and how the
      returned promise settled. */
  datatype SwitchRun = SwitchRun(requests: seq<WalletRequest>, result: Result<()>)

  predicate ChainUnknown(reply: WalletReply) {
    reply.Refused? && reply.code == Some(UnrecognizedChainCode)
  }

  /** `switchToSepolia`: the switch request always comes first; only the "unknown chain"
      rejection leads to one add request, and a successful add ends the call without
      switching again. Every other rejection maps to a fixed message. */
  function SwitchToSepolia(switchReply: WalletReply, addReply: WalletReply): (run: SwitchRun)
    ensures 1 <= |run.requests| <= 2
    ensures run.requests[0] == SwitchEthereumChain(SepoliaChainId)
    ensures |run.requests| == 2 <==> ChainUnknown(switchReply)
    ensures |run.requests| == 2 ==> run.requests[1] == AddEthereumChain(SepoliaNetwork)
    ensures run.result.Ok? <==> switchReply.Granted? || (ChainUnknown(switchReply) && addReply.Granted?)
    ensures run.result.Err? && ChainUnknown(switchReply) ==> run.result.message == AddFailedMessage
    ensures run.result.Err? && !ChainUnknown(switchReply) ==> run.result.message == SwitchFailedMessage
  {
    var switchRequest := SwitchEthereumChain(SepoliaChainId);
    match switchReply
    case Granted => SwitchRun([switchRequest], Ok(()))
    case Refused(code, _) =>
      if code == Some(UnrecognizedChainCode) then
        var addRequest := AddEthereumChain(SepoliaNetwork);
        match addReply
        case Granted => SwitchRun([switchRequest, addRequest], Ok(()))
        case Refused(_, _) => SwitchRun([switchRequest, addRequest], Err(AddFailedMessage))
      else
        SwitchRun([switchRequest], Err(SwitchFailedMessage))
  }

  /** The wallet is asked to switch to Sepolia exactly once per call, whatever it
      answers: the request for Sepolia never repeats, in particular not after an add. */
  lemma {:induction false} SwitchRequestedOnce(switchReply: WalletReply, addReply: WalletReply, k: nat)
    requires k < |SwitchToSepolia(switchReply, addReply).requests|
    ensures SwitchToSepolia(switchReply, addReply).requests[k].SwitchEthereumChain? <==> k == 0
  {
    var run := SwitchToSepolia(switchReply, addReply);
    if k == 1 {
      assert run.requests[1] == AddEthereumChain(SepoliaNetwork);
    }
  }

  /** Success of the call does not mean the wallet ends on Sepolia: after a successful
      add the call resolves with the switch itself still refused. */
  lemma ResolvesWithoutSwitch(message: string)
    ensures var run := SwitchToSepolia(Refused(Some(UnrecognizedChainCode), message), Granted);
      run.result.Ok? && forall k :: 0 <= k < |run.requests| && run.requests[k].SwitchEthereumChain? ==> k == 0
  {
  }
}
