# Handmadechain front end — a verified model

Handmadechain is a marketplace for handmade products. Each product is an ERC-721 token on the
Sepolia test network, and a simple escrow contract holds the buyer's payment until delivery is
confirmed or the order is cancelled. This project models the browser front end's core logic
in Dafny:

- The Pinata/IPFS upload pipeline (`IpfsService`). It checks the credentials and the file,
  pins the image, builds the ERC-721 metadata document around the image's `ipfs://` URI and
  pins that too. Every failure is turned into one user-facing message.
- The Sepolia network switch with its add-chain fallback (`NetworkUtils`).
- The seller check (`AuthService`): the contract owner compared without regard to case, or
  else the `isApprovedSeller` approval.
- The wallet and enumeration helpers of the web3 service (`Web3Service`). Their token walk is
  shared with the dashboard (`Enumeration`).
- The four stateful views:
  - the escrow panel (`EscrowInteraction.EscrowView`);
  - the mint form (`MintNft.MintForm`);
  - the owner's dashboard (`Dashboard.DashboardView`);
  - the product list, which probes token ids 1 to 10 (`ProductsList.ProductsView`).

The model has no wallet, chain or HTTP service. Every answer they would give is a parameter:
an outcome datatype (`Result`, `WalletReply`, `PostReply`), or a function from index or token id
to the read's result. The model records what the front end asks of the outside world as a
sequence of requests:
- the wallet requests of the network switch;
- the POSTs sent to Pinata;
- the escrow transactions;
- the metadata URIs handed to the NFT contract's `mint`.

React state becomes the fields of a class, and a handler becomes a method that modifies them.

JavaScript details are modelled explicitly:
- `accounts[0]` of an empty list is `undefined`. Here it is the empty string, which is falsy
  as `undefined` is (`Outcomes.FirstAccount`).
- `BigInt`/`BigNumber.toString()` is `Text.DecimalString`.
- `toLowerCase` is `Text.ToLower`.
- `slice(0, 6)` and `slice(-4)` are written out in `ProductsList.ShortAddress`.

Three behaviours of the code a reader might not expect:
- After a successful `wallet_addEthereumChain`, the code does not retry the switch. The call
  resolves successfully even though the switch itself was refused
  (`NetworkUtils.ResolvesWithoutSwitch`).
- The escrow panel does not check the order state before a transaction, and it does not
  change the order state until the contract is read again.
  - Buying is offered whenever a wallet is connected and nothing is loading, whatever the
    order state.
  - Each handler submits its transaction unconditionally.
  - A handler updates the order state only through the read that follows a confirmed
    transaction.
- A file larger than the limit is rejected before any request. The user then sees the
  generic `IPFS yükleme hatası: …` wrapping of the local message, not the HTTP 413 message
  (`IpfsService.SizeLimitIsInclusive`, `IpfsService.Classify`).

## Model

| member | source | states |
|---|---|---|
| Outcomes.FirstAccount | handmadechain/frontend/src/services/web3Service.js:26-27 | the connected account is the first one the wallet returns, and falsy (empty) when it returns none |
| Text.DecimalString | handmadechain/frontend/src/services/web3Service.js:53 | a token id's `toString()` is a non-empty run of decimal digits, with a leading zero exactly for 0 and a single digit exactly below 10 |
| Text.ParseDecimalString | handmadechain/frontend/src/components/EscrowInteraction.jsx:56-57 | reading the decimal text back gives the number: no two ids or order states share a string |
| Text.DecimalStringInjective | handmadechain/frontend/src/components/EscrowInteraction.jsx:200-206 | two numbers have the same decimal text if and only if they are equal, so comparing the state string with "1" is comparing the state with 1 |
| Text.ToLower | handmadechain/frontend/src/services/authService.js:17 | lower-casing keeps the length and lower-cases each ASCII letter in place, leaving every other character alone |
| NetworkUtils.SwitchToSepolia | handmadechain/frontend/src/utils/networkUtils.js:14-34 | the switch to 0xaa36a7 is always requested first; the Sepolia chain is added if and only if the switch fails with code 4902; success exactly when the switch succeeds or the chain was unknown and the add succeeded; otherwise the add or the switch failure message |
| NetworkUtils.SwitchRequestedOnce | handmadechain/frontend/src/utils/networkUtils.js:16-32 | a switch request appears exactly once, as the first request: there is no retry after the add |
| NetworkUtils.ResolvesWithoutSwitch | handmadechain/frontend/src/utils/networkUtils.js:22-29 | with code 4902 and a granted add, the call succeeds although the only switch request was refused |
| AuthService.CheckIsSeller | handmadechain/frontend/src/services/authService.js:10-27 | seller if and only if the owner read succeeds and equals the address without regard to case, or the approval read then succeeds and is true; the approval is asked if and only if the owner was read and differs; every failed read means not a seller |
| AuthService.CaseVariantsMatch | handmadechain/frontend/src/services/authService.js:16-19 | two addresses that differ only in the case of their letters (the checksummed and lower-case forms) compare equal |
| AuthService.OwnerInAnyCaseIsSeller | handmadechain/frontend/src/services/authService.js:16-20 | the contract owner, written in any letter case, is a seller without the approval being asked |
| IpfsService.TryUpload | handmadechain/frontend/src/services/ipfsService.js:6-112 | at most two POSTs; none if and only if the keys or the file fail the local checks; the first pins the file; the second is sent if and only if the first returned a hash, and pins the metadata for that hash; the upload returns if and only if both hashes came back, with the metadata URI naming the metadata hash; otherwise it throws the failed local check's own message, the rejection of the failed POST, or the missing-hash message of the step that lacked one |
| IpfsService.StatusRejectionsReachUser | handmadechain/frontend/src/services/ipfsService.js:37-131 | a 401 from either POST ends as the invalid-keys message and a 413 as the too-large message |
| IpfsService.Classify | handmadechain/frontend/src/services/ipfsService.js:121-141 | 401 gives the invalid-keys message, 413 the too-large message, any other status the prefixed details/message/error/statusText; no response gives the unreachable message; a local error its message prefixed, or the unknown-error message when empty |
| IpfsService.ClassifyKeepsKind | handmadechain/frontend/src/services/ipfsService.js:128-140 | the kind of failure can be told back from the message alone: the classification keeps keys, size, unreachable, detailed and unknown apart |
| IpfsService.GatewayUrl | handmadechain/frontend/src/services/ipfsService.js:145-147 | the gateway URL is the ipfs.io prefix followed by exactly the hash |
| IpfsService.IpfsUriNamesHash | handmadechain/frontend/src/services/ipfsService.js:58 | an `ipfs://` URI gives its hash back, and different hashes give different URIs |
| IpfsService.SizeLimitIsInclusive | handmadechain/frontend/src/services/ipfsService.js:23-25 | a file of exactly 100 MiB is sent; one byte more is rejected with no request, with the size message wrapped by the generic prefix |
| IpfsService.PublishedMetadataPointsAtImage | handmadechain/frontend/src/services/ipfsService.js:57-112 | after a successful upload, the pinned metadata carries the product's name and description, the image's `ipfs://` URI and the "Kategori: El Yapımı" attribute, and both hashes are non-empty |
| IpfsService.UploadToIpfs | handmadechain/frontend/src/services/ipfsService.js:6-143 | the client sends exactly the requests of TryUpload, and the call returns its hashes or throws its classified message |
| Enumeration.WalkSucceeds | handmadechain/frontend/src/services/web3Service.js:50-56 | the walk over n indices succeeds if and only if every index's id and URI reads succeed; it then lists n entries, entry i holding the i-th id and its URI |
| Enumeration.WalkStaysFailed | handmadechain/frontend/src/services/web3Service.js:50-58 | once a read fails, further indices do not change the outcome: the loop is left at the first failure |
| Enumeration.WalkReportsFirstFailure | handmadechain/frontend/src/services/web3Service.js:50-58 | the error reported is the one of the first index whose reads fail |
| Web3Service.ConnectWallet | handmadechain/frontend/src/services/web3Service.js:20-31 | with no injected wallet the MetaMask message, prefixed; a refused request gives its message prefixed; otherwise the first account |
| Web3Service.GetNfts | handmadechain/frontend/src/services/web3Service.js:44-60 | the loop returns the walk over `totalSupply` indices, with the list prefix on any error; success if and only if every read succeeds, and then exactly the ids and URIs in index order |
| Web3Service.GetNftDetails | handmadechain/frontend/src/services/web3Service.js:62-69 | the details succeed if and only if the URI read does, giving the decimal id and its URI, and otherwise the details prefix with the read's message |
| Web3Service.DetailsAgreeWithList | handmadechain/frontend/src/services/web3Service.js:44-69 | each entry of a successful listing is what the details call returns for that token |
| Dashboard.OwnedTokensByIndex | handmadechain/frontend/src/pages/Dashboard.jsx:46-59 | a successful listing has `balanceOf` entries, entry i being the owner's i-th token with its URI |
| Dashboard.DashboardView.constructor | handmadechain/frontend/src/pages/Dashboard.jsx:15-18 | the view starts with no account, no NFTs, no error and loading set |
| Dashboard.DashboardView.ConnectWallet | handmadechain/frontend/src/pages/Dashboard.jsx:21-29 | the account becomes the first one returned, or the error becomes the prefixed wallet message; nothing else changes |
| Dashboard.DashboardView.FetchNfts | handmadechain/frontend/src/pages/Dashboard.jsx:35-65 | with no account nothing changes; otherwise the NFTs become the owner's listing or the error its prefixed failure, and loading is cleared in every case |
| ProductsList.ProbedIsAscending | handmadechain/frontend/src/pages/ProductsList.jsx:31-44 | the probe keeps at most k products, with ids in 1..k in strictly ascending order, each with its URI and owner as read |
| ProductsList.ProbedIsComplete | handmadechain/frontend/src/pages/ProductsList.jsx:31-44 | every id in 1..k whose URI and owner reads both succeed is listed |
| ProductsList.ShortAddress | handmadechain/frontend/src/pages/ProductsList.jsx:87 | the short form is the first six characters, then "...", then the last four (fewer when the address is shorter) |
| ProductsList.ShortAddressOfAccount | handmadechain/frontend/src/pages/ProductsList.jsx:87 | a 42-character address shortens to 13 characters: its first six, "...", its last four |
| ProductsList.ProductsView.constructor | handmadechain/frontend/src/pages/ProductsList.jsx:15-17 | the list starts empty, loading, with no error |
| ProductsList.ProductsView.FetchProducts | handmadechain/frontend/src/pages/ProductsList.jsx:20-53 | with a provider the products are exactly the ids 1 to 10 whose reads succeed; without one the error carries the prefix; loading is cleared |
| EscrowInteraction.PollsKeepLatestRead | handmadechain/frontend/src/components/EscrowInteraction.jsx:52-61 | after any sequence of polls the order state is the decimal text of the latest successful read, or the initial state if none succeeded |
| EscrowInteraction.LabelOfState | handmadechain/frontend/src/components/EscrowInteraction.jsx:198-208 | states 0, 1, 2 and 3 are labelled Beklemede, Ödeme Yapıldı, Tamamlandı and İptal Edildi; any other is Bilinmiyor |
| EscrowInteraction.ControlsFollowState | handmadechain/frontend/src/components/EscrowInteraction.jsx:161-192 | with a connected wallet and nothing loading, confirm and cancel are offered exactly in state 1; buying is offered in every state |
| EscrowInteraction.EscrowView.constructor | handmadechain/frontend/src/components/EscrowInteraction.jsx:15-23 | the panel starts disconnected, idle, with no messages, no known order state and no transactions |
| EscrowInteraction.EscrowView.ConnectWallet | handmadechain/frontend/src/components/EscrowInteraction.jsx:26-49 | without a provider the MetaMask message; a refused request gives its prefixed message; otherwise the first account, with the wrong-network message exactly when the chain is not Sepolia |
| EscrowInteraction.EscrowView.OnChainChanged | handmadechain/frontend/src/components/EscrowInteraction.jsx:136-146 | a chain change sets the wrong-network message exactly when the new chain is not Sepolia, and clears it otherwise |
| EscrowInteraction.EscrowView.CheckOrderState | handmadechain/frontend/src/components/EscrowInteraction.jsx:52-61 | a successful read replaces the order state with its decimal text, and confirm and cancel are then rendered exactly when the read state is 1; a failed read keeps the state |
| EscrowInteraction.EscrowView.Transact | handmadechain/frontend/src/components/EscrowInteraction.jsx:64-133 | the transaction is recorded; on confirmation the success message and a fresh poll; on failure the prefixed error and the order state kept; loading cleared |
| EscrowInteraction.EscrowView.BuyProduct | handmadechain/frontend/src/components/EscrowInteraction.jsx:64-87 | a payment of 0.01 ether (10^16 wei) to the contract is submitted, with the outcome handled as in Transact |
| EscrowInteraction.EscrowView.ConfirmDelivery | handmadechain/frontend/src/components/EscrowInteraction.jsx:90-110 | a `confirmDelivery` call is submitted, with the outcome handled as in Transact |
| EscrowInteraction.EscrowView.CancelOrder | handmadechain/frontend/src/components/EscrowInteraction.jsx:113-133 | a `cancel` call is submitted, with the outcome handled as in Transact |
| MintNft.FindTransfer | handmadechain/frontend/src/components/MintNFT.jsx:77-78 | the search stops at the first Transfer event of the receipt, or past the end when there is none |
| MintNft.FirstTransferWins | handmadechain/frontend/src/components/MintNFT.jsx:77-78 | the token id read is the one of the first Transfer event, whatever events follow |
| MintNft.MintForm.constructor | handmadechain/frontend/src/components/MintNFT.jsx:13-21 | the form starts with no account, file, preview, name or description, not loading, with no messages, no token id and nothing minted |
| MintNft.MintForm.ConnectWallet | handmadechain/frontend/src/components/MintNFT.jsx:24-35 | a refused account request gives its prefixed message; otherwise the first account, followed by the network switch, whose failure message becomes the prefixed error |
| MintNft.MintForm.MintUploaded | handmadechain/frontend/src/components/MintNFT.jsx:63-87 | after an upload, the metadata URI is minted; on a Transfer the token id, the success message and a cleared form; on any failure the prefixed message and the form kept |
| MintNft.MintForm.MintNft | handmadechain/frontend/src/components/MintNFT.jsx:51-91 | an incomplete form is refused with nothing sent; otherwise exactly the upload's requests are sent to Pinata, only a returned upload is minted, and loading is cleared |

## Left out

- Rendering. The JSX, styles, the router and the pages without logic of their own
  (Home, Layout, App, ProductDetail) are not modelled. Only the choice of offered controls
  and the state labels are.
- File selection. Choosing a file and its FileReader preview are left out; minting only
  clears the preview.
- The libraries ethers, axios, Pinata, MetaMask and detectEthereumProvider are represented
  only by the outcomes they return. They are parameters, not code.
  - The construction of a provider or a contract object is not a separate step. Its failure
    is folded into the failure of the first read that depends on it.
  - A detectEthereumProvider call that throws is not modelled.
- Environment variables and `contracts.json` are parameters: the Pinata credentials and the
  contract address.
- Console logging is not modelled.
- Effects and timing. React effects, `setInterval` polling every 10 seconds and interleaving
  with requests still in flight are not modelled. A poll is a call of `CheckOrderState`,
  and the poll after a confirmed transaction happens before the handler returns.
- Read traces. Which reads the enumerations issue, and in what order, is not recorded, only
  the results kept. The dashboard issues no reads without an account.
- Order of effects. The escrow panel's wallet requests are not recorded; only their effect
  on the panel is.
- web3Service.mintNFT: it is not modelled, because the mint form calls the contract's `mint`
  directly. The service function is the same `mint` call and receipt wait, with its own error prefix.
- Text.ToLower: models ASCII case only. Addresses are hexadecimal, so non-ASCII case mapping
  never matters to the comparison.
- MintNft.NoTransferMessage: the message for a receipt without a Transfer event is the
  V8 wording of the TypeError; other JavaScript engines word it differently.
- Escrow order states are read as `uint8`. Numeric widths elsewhere are unbounded, because ids
  and balances are only compared and printed.
