/** The dashboard page: connects the wallet on mount, then lists the tokens the
    connected account owns by walking the owner index `0 .. balanceOf(account)-1`. */
module Dashboard {
  import opened Outcomes
  import opened Text
  import opened Enumeration

  const ConnectErrorPrefix: string := "Cüzdan bağlantısı başarısız: "
  const LoadErrorPrefix: string := "NFT'ler yüklenirken bir hata oluştu: "

  /** The owner index of one account, as a read per index. */
  function OwnerIndex(tokenOfOwnerByIndex: (string, nat) -> Result<nat>, owner: string): nat -> Result<nat> {
    i => tokenOfOwnerByIndex(owner, i)
  }

  /** The tokens of `owner`: the balance read, then the walk over that many indexes. */
  function OwnedTokens(balanceOf: string -> Result<nat>, tokenOfOwnerByIndex: (string, nat) -> Result<nat>,
                       tokenUri: nat -> Result<string>, owner: string): Result<seq<TokenEntry>>
  {
    match balanceOf(owner)
    case Err(message) => Err(message)
    case Ok(balance) => Walk(OwnerIndex(tokenOfOwnerByIndex, owner), tokenUri, balance)
  }

  /** With a balance of n the listing has exactly n entries, entry i being the token at
      owner index i with its URI; it fails as soon as any of those reads fails. */
  lemma OwnedTokensByIndex(balanceOf: string -> Result<nat>, tokenOfOwnerByIndex: (string, nat) -> Result<nat>,
                           tokenUri: nat -> Result<string>, owner: string, i: nat)
    requires balanceOf(owner).Ok? && i < balanceOf(owner).value
    requires OwnedTokens(balanceOf, tokenOfOwnerByIndex, tokenUri, owner).Ok?
    ensures var entries := OwnedTokens(balanceOf, tokenOfOwnerByIndex, tokenUri, owner).value;
      && |entries| == balanceOf(owner).value
      && tokenOfOwnerByIndex(owner, i).Ok?
      && var id := tokenOfOwnerByIndex(owner, i).value;
         tokenUri(id).Ok? && entries[i] == TokenEntry(DecimalString(id), tokenUri(id).value)
  {
    var byIndex := OwnerIndex(tokenOfOwnerByIndex, owner);
    WalkSucceeds(byIndex, tokenUri, balanceOf(owner).value);
    assert ReadsSucceedAt(byIndex, tokenUri, i);
  }

  class DashboardView {
    var account: string
    var nfts: seq<TokenEntry>
    var loading: bool
    var error: string

    constructor ()
      ensures account == "" && nfts == [] && loading && error == ""
    {
      account, nfts, loading, error := "", [], true, "";
    }

    /** The mount effect `connectWallet`: the first granted account, or the error. */
    method ConnectWallet(accounts: Result<seq<string>>)
      modifies this
      ensures accounts.Ok? ==> account == FirstAccount(accounts.value) && error == old(error)
      ensures accounts.Err? ==> account == old(account) && error == ConnectErrorPrefix + accounts.message
      ensures nfts == old(nfts) && loading == old(loading)
    {
      match accounts
      case Ok(list) => account := FirstAccount(list);
      case Err(message) => error := ConnectErrorPrefix + message;
    }

    /** `fetchNFTs`: nothing at all without an account; otherwise the listing replaces
        `nfts` when every read succeeds, a failure leaves `nfts` as it was and sets the
        error, and `loading` ends false either way. */
    method FetchNfts(balanceOf: string -> Result<nat>, tokenOfOwnerByIndex: (string, nat) -> Result<nat>,
                     tokenUri: nat -> Result<string>)
      modifies this
      ensures old(account) == "" ==> unchanged(this)
      ensures old(account) != "" ==>
        var listing := OwnedTokens(balanceOf, tokenOfOwnerByIndex, tokenUri, old(account));
        && account == old(account)
        && !loading
        && (listing.Ok? ==> nfts == listing.value && error == old(error))
        && (listing.Err? ==> nfts == old(nfts) && error == LoadErrorPrefix + listing.message)
    {
      if account == "" {
        return;
      }
      var owner := account;
      var result: Result<seq<TokenEntry>>;
      var balance := balanceOf(owner);
      if balance.Err? {
        result := Err(balance.message);
      } else {
        var n := balance.value;
        ghost var byIndex := OwnerIndex(tokenOfOwnerByIndex, owner);
        var entries: seq<TokenEntry> := [];
        var failure: Option<string> := None;
        var i := 0;
        while i < n && failure.None?
          invariant 0 <= i <= n && unchanged(this)
          invariant failure.None? ==> Walk(byIndex, tokenUri, i) == Ok(entries)
          invariant failure.Some? ==> Walk(byIndex, tokenUri, n) == Err(failure.value)
        {
          var tokenId := tokenOfOwnerByIndex(owner, i);
          assert byIndex(i) == tokenId;
          if tokenId.Err? {
            failure := Some(tokenId.message);
          } else {
            var uri := tokenUri(tokenId.value);
            if uri.Err? {
              failure := Some(uri.message);
            } else {
              entries := entries + [TokenEntry(DecimalString(tokenId.value), uri.value)];
            }
          }
          if failure.Some? {
            WalkStaysFailed(byIndex, tokenUri, i + 1, n);
          }
          i := i + 1;
        }
        result := if failure.Some? then Err(failure.value) else Ok(entries);
      }
      if result.Ok? {
        nfts := result.value;
      } else {
        error := LoadErrorPrefix + result.message;
      }
      loading := false;
    }
  }
}
