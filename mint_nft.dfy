/** The mint form: connect the wallet and switch it to Sepolia, then publish the image
    and its metadata and mint a token pointing at the published metadata. */
module MintNft {
  import opened Outcomes
  import opened Text
  import NetworkUtils
  import IpfsService

  const ConnectErrorPrefix: string := "Cüzdan bağlantısı başarısız: "
  const FillAllFieldsMessage: string := "Lütfen tüm alanları doldurun"
  const MintedMessage: string := "NFT başarıyla mint edildi!"
  const MintErrorPrefix: string := "NFT mint edilemedi: "
  const TransferEvent: string := "Transfer"

  /** The TypeError raised by reading `args` of the `undefined` that `find` returns when the
      receipt holds no Transfer event, in the wording of V8-based browsers; Firefox and
      Safari word the same TypeError differently. */
  const NoTransferMessage: string := "Cannot read properties of undefined (reading 'args')"

  /** One decoded event of the mint receipt, with its `tokenId` argument. */
  datatype ReceiptEvent = ReceiptEvent(name: string, tokenId: nat)

  /** `events.find(e => e.event === 'Transfer')` as an index: the first Transfer event,
      or `|events|` when there is none. */
  function FindTransfer(events: seq<ReceiptEvent>): (k: nat)
    ensures k <= |events|
    ensures forall j :: 0 <= j < k ==> events[j].name != TransferEvent
    ensures k < |events| ==> events[k].name == TransferEvent
    decreases |events|
  {
    if |events| == 0 then 0
    else if events[0].name == TransferEvent then 0
    else 1 + FindTransfer(events[1..])
  }

  /** The token id the mint yields: the first Transfer event's, or the error raised. */
  function MintedTokenId(mint: Result<seq<ReceiptEvent>>): Result<nat> {
    match mint
    case Err(message) => Err(message)
    case Ok(events) =>
      var k := FindTransfer(events);
      if k < |events| then Ok(events[k].tokenId) else Err(NoTransferMessage)
  }

  /** The id is the one of the first Transfer event, whatever events follow it. */
  lemma {:induction false} FirstTransferWins(before: seq<ReceiptEvent>, id: nat, after: seq<ReceiptEvent>)
    requires forall j :: 0 <= j < |before| ==> before[j].name != TransferEvent
    ensures MintedTokenId(Ok(before + [ReceiptEvent(TransferEvent, id)] + after)) == Ok(id)
  {
    var events := before + [ReceiptEvent(TransferEvent, id)] + after;
    assert events[|before|].name == TransferEvent;
    assert forall j :: 0 <= j < |before| ==> events[j] == before[j];
  }

  /** `!file || !productName || !description` fails. */
  predicate FormFilled(file: Option<IpfsService.File>, productName: string, description: string) {
    file.Some? && productName != "" && description != ""
  }

  class MintForm {
    var account: string
    var file: Option<IpfsService.File>
    var preview: Option<string>
    var productName: string
    var description: string
    var isLoading: bool
    var error: string
    var success: string
    var tokenId: Option<string>
    /** The metadata URIs passed to the contract's `mint`, oldest first. */
    ghost var minted: seq<string>

    constructor ()
      ensures account == "" && file == None && preview == None && productName == "" && description == ""
      ensures !isLoading && error == "" && success == "" && tokenId == None && minted == []
    {
      account, file, preview, productName, description := "", None, None, "", "";
      isLoading, error, success, tokenId := false, "", "", None;
      minted := [];
    }

    /** `connectWallet`: the account is set before the network switch, so it stays set
        when the switch fails; that failure only sets the error. */
    method ConnectWallet(accounts: Result<seq<string>>, switchReply: NetworkUtils.WalletReply,
                         addReply: NetworkUtils.WalletReply)
      modifies this
      ensures accounts.Err? ==> account == old(account) && error == ConnectErrorPrefix + accounts.message
      ensures accounts.Ok? ==> account == FirstAccount(accounts.value)
      ensures accounts.Ok? ==>
        var switched := NetworkUtils.SwitchToSepolia(switchReply, addReply).result;
        error == if switched.Err? then ConnectErrorPrefix + switched.message else old(error)
      ensures file == old(file) && preview == old(preview) && productName == old(productName)
      ensures description == old(description) && isLoading == old(isLoading) && success == old(success)
      ensures tokenId == old(tokenId) && minted == old(minted)
    {
      match accounts
      case Err(message) => error := ConnectErrorPrefix + message;
      case Ok(list) =>
        account := FirstAccount(list);
        var switched := NetworkUtils.SwitchToSepolia(switchReply, addReply).result;
        if switched.Err? {
          error := ConnectErrorPrefix + switched.message;
        }
    }

    /** What follows a settled upload in `mintNFT`: after a failed upload only the error;
        otherwise the mint is asked for the returned metadata URI, and a minted token's id
        is shown and the form cleared, while a failed mint sets the error and keeps it. */
    method MintUploaded(upload: Result<IpfsService.Published>, mint: Result<seq<ReceiptEvent>>)
      modifies this
      ensures account == old(account) && isLoading == old(isLoading)
      ensures upload.Err? ==> minted == old(minted) && error == MintErrorPrefix + upload.message
      ensures upload.Ok? ==> minted == old(minted) + [upload.value.metadataURI]
      ensures upload.Ok? && MintedTokenId(mint).Ok? ==>
        && tokenId == Some(DecimalString(MintedTokenId(mint).value)) && success == MintedMessage
        && error == old(error)
        && file == None && preview == None && productName == "" && description == ""
      ensures upload.Ok? && MintedTokenId(mint).Err? ==> error == MintErrorPrefix + MintedTokenId(mint).message
      ensures upload.Err? || MintedTokenId(mint).Err? ==>
        && success == old(success) && tokenId == old(tokenId) && file == old(file) && preview == old(preview)
        && productName == old(productName) && description == old(description)
    {
      if upload.Err? {
        error := MintErrorPrefix + upload.message;
      } else {
        minted := minted + [upload.value.metadataURI];
        var minting := MintedTokenId(mint);
        if minting.Err? {
          error := MintErrorPrefix + minting.message;
        } else {
          tokenId := Some(DecimalString(minting.value));
          success := MintedMessage;
          file, preview, productName, description := None, None, "", "";
        }
      }
    }

    /** `mintNFT`. An incomplete form only sets the error: nothing is uploaded or minted.
        Otherwise the messages are cleared, the upload runs first and is followed by
        MintUploaded; the form is not busy afterwards. */
    method MintNft(pinata: IpfsService.PinataClient, keys: IpfsService.Credentials,
                   fileReply: IpfsService.PostReply, metadataReply: IpfsService.PostReply,
                   mint: Result<seq<ReceiptEvent>>)
      modifies this, pinata
      ensures account == old(account)
      ensures !FormFilled(old(file), old(productName), old(description)) ==>
        && error == FillAllFieldsMessage && pinata.sent == old(pinata.sent) && minted == old(minted)
        && file == old(file) && preview == old(preview) && productName == old(productName)
        && description == old(description) && isLoading == old(isLoading) && success == old(success)
        && tokenId == old(tokenId)
      ensures FormFilled(old(file), old(productName), old(description)) ==>
        var attempt := IpfsService.TryUpload(keys, old(file), IpfsService.ProductInfo(old(productName), old(description)),
                                             fileReply, metadataReply);
        var upload := IpfsService.Settle(attempt.settled);
        && pinata.sent == old(pinata.sent) + attempt.requests
        && !isLoading
        && (upload.Err? ==> minted == old(minted) && error == MintErrorPrefix + upload.message)
        && (upload.Ok? ==> minted == old(minted) + [upload.value.metadataURI])
        && (upload.Ok? && MintedTokenId(mint).Ok? ==>
              && tokenId == Some(DecimalString(MintedTokenId(mint).value)) && success == MintedMessage && error == ""
              && file == None && preview == None && productName == "" && description == "")
        && (upload.Ok? && MintedTokenId(mint).Err? ==> error == MintErrorPrefix + MintedTokenId(mint).message)
        && (upload.Err? || MintedTokenId(mint).Err? ==>
              && success == "" && tokenId == old(tokenId) && file == old(file) && preview == old(preview)
              && productName == old(productName) && description == old(description))
    {
      if file.None? || productName == "" || description == "" {
        error := FillAllFieldsMessage;
        return;
      }
      isLoading := true;
      error := "";
      success := "";
      var upload := IpfsService.UploadToIpfs(pinata, keys, file, IpfsService.ProductInfo(productName, description),
                                             fileReply, metadataReply);
      MintUploaded(upload, mint);
      isLoading := false;
    }
  }
}
