/** The escrow view: connects the wallet, watches the network, polls the escrow
    contract's `state()` and lets the user pay (a plain 0.01 ether transfer to the
    contract), confirm delivery or cancel. The local order state is only ever a copy of
    the last successful read; nothing is updated ahead of the chain. */
module EscrowInteraction {
  import opened Outcomes
  import opened Text
  import NetworkUtils

  const NoMetaMaskMessage: string := "MetaMask yüklü değil!"
  const WrongNetworkMessage: string := "Lütfen Sepolia test ağına geçin!"
  const ConnectErrorPrefix: string := "Cüzdan bağlantısı başarısız: "

  const PaymentSentMessage: string := "Ödeme başarıyla gönderildi!"
  const PaymentFailedPrefix: string := "Ödeme gönderilemedi: "
  const DeliveryConfirmedMessage: string := "Teslimat onaylandı!"
  const ConfirmFailedPrefix: string := "Teslimat onaylanamadı: "
  const OrderCancelledMessage: string := "Sipariş iptal edildi!"
  const CancelFailedPrefix: string := "Sipariş iptal edilemedi: "

  /** `parseEther('0.01')`: 10^16 wei. */
  const PriceWei: nat := 10_000_000_000_000_000

  /** The value `state()` returns. */
  type Uint8 = x: int | 0 <= x < 256

  /** A transaction handed to the wallet's signer. */
  datatype EscrowTx = Payment(to: string, valueWei: nat) | ContractCall(to: string, functionName: string)

  /** The order state after one poll: the printed value of a successful read, otherwise
      the last known value. */
  function Observed(last: Option<string>, read: Result<Uint8>): Option<string> {
    if read.Ok? then Some(DecimalString(read.value)) else last
  }

  /** The order state after a series of polls, oldest first. */
  function AfterPolls(last: Option<string>, polls: seq<Result<Uint8>>): Option<string>
    decreases |polls|
  {
    if |polls| == 0 then last else AfterPolls(Observed(last, polls[0]), polls[1..])
  }

  /** The value of the most recent successful read among `polls`, if any. */
  function LatestRead(polls: seq<Result<Uint8>>): Option<Uint8>
    decreases |polls|
  {
    if |polls| == 0 then None
    else if polls[|polls| - 1].Ok? then Some(polls[|polls| - 1].value)
    else LatestRead(polls[..|polls| - 1])
  }

  /** Whatever happened before, the order state after a series of polls is the printed
      value of the most recent successful read; failed reads never clear or alter it, and
      only when no read succeeded is the earlier value still there. */
  lemma {:induction false} PollsKeepLatestRead(last: Option<string>, polls: seq<Result<Uint8>>)
    ensures AfterPolls(last, polls) ==
      if LatestRead(polls).Some? then Some(DecimalString(LatestRead(polls).value)) else last
    decreases |polls|
  {
    if |polls| > 0 {
      var init, final := polls[..|polls| - 1], polls[|polls| - 1];
      assert polls == init + [final];
      AfterPollsSplit(last, init, final);
      PollsKeepLatestRead(last, init);
    }
  }

  lemma {:induction false} AfterPollsSplit(last: Option<string>, init: seq<Result<Uint8>>, final: Result<Uint8>)
    ensures AfterPolls(last, init + [final]) == Observed(AfterPolls(last, init), final)
    decreases |init|
  {
    if |init| == 0 {
      assert init + [final] == [final];
    } else {
      assert (init + [final])[1..] == init[1..] + [final];
      AfterPollsSplit(Observed(last, init[0]), init[1..], final);
    }
  }

  /** The label shown for an order state string. */
  function StateLabel(orderState: string): string {
    if orderState == "0" then "Beklemede"
    else if orderState == "1" then "Ödeme Yapıldı"
    else if orderState == "2" then "Tamamlandı"
    else if orderState == "3" then "İptal Edildi"
    else "Bilinmiyor"
  }

  /** The label of every value `state()` can return: the four contract states by name,
      every other value as unknown. */
  lemma LabelOfState(v: Uint8)
    ensures v == 0 ==> StateLabel(DecimalString(v)) == "Beklemede"
    ensures v == 1 ==> StateLabel(DecimalString(v)) == "Ödeme Yapıldı"
    ensures v == 2 ==> StateLabel(DecimalString(v)) == "Tamamlandı"
    ensures v == 3 ==> StateLabel(DecimalString(v)) == "İptal Edildi"
    ensures v >= 4 ==> StateLabel(DecimalString(v)) == "Bilinmiyor"
  {
    assert DecimalString(0) == "0" && DecimalString(1) == "1";
    assert DecimalString(2) == "2" && DecimalString(3) == "3";
    DecimalStringInjective(v, 0);
    DecimalStringInjective(v, 1);
    DecimalStringInjective(v, 2);
    DecimalStringInjective(v, 3);
  }

  /** What the rendered view lets the user do. */
  datatype Controls = Controls(connect: bool, buy: bool, confirm: bool, cancel: bool)

  /** The connect button without an account; with one, buy always, confirm and cancel
      only in state '1'; every action button disabled while a transaction is pending. */
  function Offered(account: string, isLoading: bool, orderState: Option<string>): Controls {
    var connected := account != "";
    Controls(
      !connected,
      connected && !isLoading,
      connected && !isLoading && orderState == Some("1"),
      connected && !isLoading && orderState == Some("1"))
  }

  /** Read against the chain: with the state taken from a read of v, confirm and cancel
      are offered exactly when v is 1 (the paid state); buying is offered whatever v is. */
  lemma ControlsFollowState(account: string, isLoading: bool, v: Uint8)
    ensures var c := Offered(account, isLoading, Some(DecimalString(v)));
      && (c.confirm <==> account != "" && !isLoading && v == 1)
      && (c.cancel <==> c.confirm)
      && (c.buy <==> account != "" && !isLoading)
  {
    assert DecimalString(1) == "1";
    DecimalStringInjective(v, 1);
  }

  class EscrowView {
    const contractAddress: string
    var account: string
    var isLoading: bool
    var error: string
    var success: string
    var orderState: Option<string>
    /** Every transaction handed to the signer, oldest first. */
    ghost var requested: seq<EscrowTx>

    constructor (contractAddress: string)
      ensures this.contractAddress == contractAddress
      ensures account == "" && !isLoading && error == "" && success == "" && orderState == None
      ensures requested == []
    {
      this.contractAddress := contractAddress;
      account, isLoading, error, success, orderState := "", false, "", "", None;
      requested := [];
    }

    /** The controls the view renders from its current fields. */
    function Offers(): Controls
      reads this
    {
      Offered(account, isLoading, orderState)
    }

    /** `connectWallet`: without a provider only the error is set. Otherwise the first
        granted account is kept even when the network is wrong or the chain id cannot be
        read; the error then says which, and is cleared on Sepolia. */
    method ConnectWallet(providerDetected: bool, accounts: Result<seq<string>>, chainId: Result<string>)
      modifies this
      ensures !providerDetected ==> account == old(account) && error == NoMetaMaskMessage
      ensures providerDetected && accounts.Err? ==>
        account == old(account) && error == ConnectErrorPrefix + accounts.message
      ensures providerDetected && accounts.Ok? ==> account == FirstAccount(accounts.value)
      ensures providerDetected && accounts.Ok? && chainId.Err? ==> error == ConnectErrorPrefix + chainId.message
      ensures providerDetected && accounts.Ok? && chainId.Ok? ==>
        error == if chainId.value != NetworkUtils.SepoliaChainId then WrongNetworkMessage else ""
      ensures isLoading == old(isLoading) && success == old(success)
      ensures orderState == old(orderState) && requested == old(requested)
    {
      if !providerDetected {
        error := NoMetaMaskMessage;
        return;
      }
      if accounts.Err? {
        error := ConnectErrorPrefix + accounts.message;
        return;
      }
      account := FirstAccount(accounts.value);
      error := "";
      match chainId
      case Err(message) => error := ConnectErrorPrefix + message;
      case Ok(id) =>
        if id != NetworkUtils.SepoliaChainId {
          error := WrongNetworkMessage;
        }
    }

    /** The `chainChanged` listener: the network error iff the new chain is not Sepolia. */
    method OnChainChanged(chainId: string)
      modifies this
      ensures error == if chainId != NetworkUtils.SepoliaChainId then WrongNetworkMessage else ""
      ensures account == old(account) && isLoading == old(isLoading) && success == old(success)
      ensures orderState == old(orderState) && requested == old(requested)
    {
      if chainId != NetworkUtils.SepoliaChainId {
        error := WrongNetworkMessage;
      } else {
        error := "";
      }
    }

    /** `checkOrderState`, the poll: the only place the order state is written. After a
        successful read the confirm and cancel buttons are rendered exactly when the
        contract is in its paid state. */
    method CheckOrderState(read: Result<Uint8>)
      modifies this
      ensures orderState == Observed(old(orderState), read)
      ensures account == old(account) && isLoading == old(isLoading)
      ensures error == old(error) && success == old(success) && requested == old(requested)
      ensures read.Ok? ==>
        && (Offers().confirm <==> account != "" && !isLoading && read.value == 1)
        && Offers().cancel == Offers().confirm
    {
      if read.Ok? {
        orderState := Some(DecimalString(read.value));
        ControlsFollowState(account, isLoading, read.value);
      }
    }

    /** The pattern the three transaction handlers share: clear the messages and mark
        the view busy, hand `tx` to the signer, then on success set the confirmation and
        poll once, on failure set the prefixed error; the view is not busy afterwards. */
    method Transact(tx: EscrowTx, outcome: Result<()>, confirmation: string, failurePrefix: string, poll: Result<Uint8>)
      modifies this
      ensures requested == old(requested) + [tx]
      ensures !isLoading && account == old(account)
      ensures outcome.Ok? ==> success == confirmation && error == "" && orderState == Observed(old(orderState), poll)
      ensures outcome.Err? ==> success == "" && error == failurePrefix + outcome.message && orderState == old(orderState)
    {
      isLoading := true;
      error := "";
      success := "";
      requested := requested + [tx];
      if outcome.Ok? {
        success := confirmation;
        CheckOrderState(poll);
      } else {
        error := failurePrefix + outcome.message;
      }
      isLoading := false;
    }

    /** `buyProduct`: always 0.01 ether to the escrow contract, whatever the order state. */
    method BuyProduct(outcome: Result<()>, poll: Result<Uint8>)
      modifies this
      ensures requested == old(requested) + [Payment(contractAddress, PriceWei)]
      ensures !isLoading && account == old(account)
      ensures outcome.Ok? ==> success == PaymentSentMessage && error == "" && orderState == Observed(old(orderState), poll)
      ensures outcome.Err? ==> success == "" && error == PaymentFailedPrefix + outcome.message && orderState == old(orderState)
    {
      Transact(Payment(contractAddress, PriceWei), outcome, PaymentSentMessage, PaymentFailedPrefix, poll);
    }

    /** `confirmDelivery`: a call of the contract's `confirmDelivery()`. */
    method ConfirmDelivery(outcome: Result<()>, poll: Result<Uint8>)
      modifies this
      ensures requested == old(requested) + [ContractCall(contractAddress, "confirmDelivery")]
      ensures !isLoading && account == old(account)
      ensures outcome.Ok? ==> success == DeliveryConfirmedMessage && error == "" && orderState == Observed(old(orderState), poll)
      ensures outcome.Err? ==> success == "" && error == ConfirmFailedPrefix + outcome.message && orderState == old(orderState)
    {
      Transact(ContractCall(contractAddress, "confirmDelivery"), outcome, DeliveryConfirmedMessage, ConfirmFailedPrefix, poll);
    }

    /** `cancelOrder`: a call of the contract's `cancel()`. */
    method CancelOrder(outcome: Result<()>, poll: Result<Uint8>)
      modifies this
      ensures requested == old(requested) + [ContractCall(contractAddress, "cancel")]
      ensures !isLoading && account == old(account)
      ensures outcome.Ok? ==> success == OrderCancelledMessage && error == "" && orderState == Observed(old(orderState), poll)
      ensures outcome.Err? ==> success == "" && error == CancelFailedPrefix + outcome.message && orderState == old(orderState)
    {
      Transact(ContractCall(contractAddress, "cancel"), outcome, OrderCancelledMessage, CancelFailedPrefix, poll);
    }
  }
}
