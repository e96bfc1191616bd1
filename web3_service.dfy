/** The web3 service: wallet connection, the list of every minted token (walking the
    contract's global index) and one token's details. Each contract read is represented
    by how it settles; a failure to obtain the contract object shows up as a failure of
    the first read. */
module Web3Service {
  import opened Outcomes
  import opened Text
  import opened Enumeration

  const NoMetaMaskMessage: string := "MetaMask yüklü değil!"
  const WalletErrorPrefix: string := "Cüzdan bağlantı hatası: "
  const ListErrorPrefix: string := "NFT listesi alınamadı: "
  const DetailsErrorPrefix: string := "NFT detayları alınamadı: "

  /** `connectWallet()`: the first account the wallet grants; the missing-wallet error is
      thrown inside the try block, so it reaches the caller wrapped like any other. */
  function ConnectWallet(hasEthereum: bool, accounts: Result<seq<string>>): (r: Result<string>)
    ensures !hasEthereum ==> r == Err(WalletErrorPrefix + NoMetaMaskMessage)
    ensures hasEthereum && accounts.Ok? ==> r == Ok(FirstAccount(accounts.value))
    ensures hasEthereum && accounts.Err? ==> r == Err(WalletErrorPrefix + accounts.message)
  {
    if !hasEthereum then Err(WalletErrorPrefix + NoMetaMaskMessage)
    else match accounts
      case Ok(list) => Ok(FirstAccount(list))
      case Err(message) => Err(WalletErrorPrefix + message)
  }

  /** `getNFTs()`: reads `totalSupply`, then for i = 0 .. totalSupply-1 the id at index i
      and its URI. It returns one entry per index, in index order, or (all or nothing)
      the first failure's message under the list prefix. */
  method GetNfts(totalSupply: Result<nat>, tokenByIndex: nat -> Result<nat>, tokenUri: nat -> Result<string>)
    returns (r: Result<seq<TokenEntry>>)
    ensures totalSupply.Err? ==> r == Err(ListErrorPrefix + totalSupply.message)
    ensures totalSupply.Ok? ==> r == WithPrefix(ListErrorPrefix, Walk(tokenByIndex, tokenUri, totalSupply.value))
    ensures r.Ok? <==> totalSupply.Ok? && forall i :: 0 <= i < totalSupply.value ==> ReadsSucceedAt(tokenByIndex, tokenUri, i)
    ensures r.Ok? ==> (|r.value| == totalSupply.value &&
      forall i :: 0 <= i < totalSupply.value ==> r.value[i] == EntryAt(tokenByIndex, tokenUri, i))
  {
    if totalSupply.Err? {
      return Err(ListErrorPrefix + totalSupply.message);
    }
    var n := totalSupply.value;
    WalkSucceeds(tokenByIndex, tokenUri, n);
    var nfts: seq<TokenEntry> := [];
    var i := 0;
    while i < n
      invariant 0 <= i <= n
      invariant Walk(tokenByIndex, tokenUri, i) == Ok(nfts)
    {
      var tokenId := tokenByIndex(i);
      if tokenId.Err? {
        WalkStaysFailed(tokenByIndex, tokenUri, i + 1, n);
        return Err(ListErrorPrefix + tokenId.message);
      }
      var uri := tokenUri(tokenId.value);
      if uri.Err? {
        WalkStaysFailed(tokenByIndex, tokenUri, i + 1, n);
        return Err(ListErrorPrefix + uri.message);
      }
      nfts := nfts + [TokenEntry(DecimalString(tokenId.value), uri.value)];
      i := i + 1;
    }
    r := Ok(nfts);
  }

  /** `getNFTDetails(tokenId)`: the printed id with the token's URI, or the read's failure
      under the details prefix. */
  function GetNftDetails(tokenId: nat, tokenUri: Result<string>): (r: Result<TokenEntry>)
    ensures r.Ok? <==> tokenUri.Ok?
    ensures r.Ok? ==> r.value.id == DecimalString(tokenId) && r.value.uri == tokenUri.value
    ensures r.Err? ==> r.message == DetailsErrorPrefix + tokenUri.message
  {
    match tokenUri
    case Ok(uri) => Ok(TokenEntry(DecimalString(tokenId), uri))
    case Err(message) => Err(DetailsErrorPrefix + message)
  }

  /** The details of the token listed at index i are exactly its entry in the list. */
  lemma DetailsAgreeWithList(tokenByIndex: nat -> Result<nat>, tokenUri: nat -> Result<string>, n: nat, i: nat)
    requires i < n && Walk(tokenByIndex, tokenUri, n).Ok?
    ensures tokenByIndex(i).Ok? && |Walk(tokenByIndex, tokenUri, n).value| == n
    ensures GetNftDetails(tokenByIndex(i).value, tokenUri(tokenByIndex(i).value)) == Ok(Walk(tokenByIndex, tokenUri, n).value[i])
  {
    WalkSucceeds(tokenByIndex, tokenUri, n);
  }
}
