/** The products page: probes token ids 1 to 10 and lists those whose URI and owner can
    both be read; an id whose reads fail is taken not to exist and is skipped. */
module ProductsList {
  import opened Outcomes

  const LastProbedId: nat := 10
  const LoadErrorPrefix: string := "Ürünler yüklenirken bir hata oluştu: "
  const Ellipsis: string := "..."

  datatype Product = Product(id: nat, uri: string, owner: string)

  /** Both reads for `id` succeed, in which case the id is listed. */
  predicate Listed(tokenUri: nat -> Result<string>, ownerOf: nat -> Result<string>, id: nat) {
    tokenUri(id).Ok? && ownerOf(id).Ok?
  }

  /** The products found among ids 1 .. k, probed in ascending order. */
  function Probed(tokenUri: nat -> Result<string>, ownerOf: nat -> Result<string>, k: nat): seq<Product>
    decreases k
  {
    if k == 0 then []
    else
      Probed(tokenUri, ownerOf, k - 1) +
      (if Listed(tokenUri, ownerOf, k) then [Product(k, tokenUri(k).value, ownerOf(k).value)] else [])
  }

  /** The probe lists at most k products, with ids in 1 .. k, strictly ascending (hence
      without duplicates), each carrying the URI and owner read for its id. */
  lemma {:induction false} ProbedIsAscending(tokenUri: nat -> Result<string>, ownerOf: nat -> Result<string>, k: nat)
    ensures var p := Probed(tokenUri, ownerOf, k);
      && |p| <= k
      && (forall j :: 0 <= j < |p| ==> 1 <= p[j].id <= k)
      && (forall j, l :: 0 <= j < l < |p| ==> p[j].id < p[l].id)
      && (forall j :: 0 <= j < |p| ==>
            Listed(tokenUri, ownerOf, p[j].id) &&
            p[j] == Product(p[j].id, tokenUri(p[j].id).value, ownerOf(p[j].id).value))
  {
    if k > 0 {
      ProbedIsAscending(tokenUri, ownerOf, k - 1);
    }
  }

  /** Every id in 1 .. k whose two reads succeed is listed: a failure for one id only
      skips that id. */
  lemma {:induction false} ProbedIsComplete(tokenUri: nat -> Result<string>, ownerOf: nat -> Result<string>, k: nat, id: nat)
    requires 1 <= id <= k && Listed(tokenUri, ownerOf, id)
    ensures exists j :: 0 <= j < |Probed(tokenUri, ownerOf, k)| && Probed(tokenUri, ownerOf, k)[j].id == id
  {
    var prefix := Probed(tokenUri, ownerOf, k - 1);
    if id == k {
      assert Probed(tokenUri, ownerOf, k)[|prefix|].id == id;
    } else {
      ProbedIsComplete(tokenUri, ownerOf, k - 1, id);
      var j :| 0 <= j < |prefix| && prefix[j].id == id;
      assert Probed(tokenUri, ownerOf, k)[j].id == id;
    }
  }

  function Min(a: nat, b: nat): nat {
    if a < b then a else b
  }

  /** `owner.slice(0, 6) + "..." + owner.slice(-4)`: the first six and the last four
      characters around an ellipsis (the whole string when it is shorter). */
  function ShortAddress(owner: string): (s: string)
    ensures |s| == Min(6, |owner|) + |Ellipsis| + Min(4, |owner|)
    ensures s[..Min(6, |owner|)] == owner[..Min(6, |owner|)]
    ensures s[Min(6, |owner|)..Min(6, |owner|) + |Ellipsis|] == Ellipsis
    ensures s[|s| - Min(4, |owner|)..] == owner[|owner| - Min(4, |owner|)..]
  {
    owner[..Min(6, |owner|)] + Ellipsis + owner[|owner| - Min(4, |owner|)..]
  }

  /** A 42-character address is shown as 13 characters: "0x" and four hex digits, the
      ellipsis, and the last four hex digits. */
  lemma ShortAddressOfAccount(owner: string)
    requires |owner| == 42
    ensures var s := ShortAddress(owner);
      |s| == 13 && s[..6] == owner[..6] && s[6..9] == Ellipsis && s[9..] == owner[38..]
  {
    var s := ShortAddress(owner);
    assert s[6..9] == Ellipsis;
  }

  class ProductsView {
    var products: seq<Product>
    var loading: bool
    var error: string

    constructor ()
      ensures products == [] && loading && error == ""
    {
      products, loading, error := [], true, "";
    }

    /** `fetchProducts`: when the provider can be built, probe ids 1 to 10 and replace the
        list with what was found, never setting the error; when it cannot, keep the list
        and set the error. `loading` ends false either way. */
    method FetchProducts(provider: Result<()>, tokenUri: nat -> Result<string>, ownerOf: nat -> Result<string>)
      modifies this
      ensures provider.Ok? ==> products == Probed(tokenUri, ownerOf, LastProbedId) && error == old(error)
      ensures provider.Err? ==> products == old(products) && error == LoadErrorPrefix + provider.message
      ensures !loading
    {
      if provider.Err? {
        error := LoadErrorPrefix + provider.message;
      } else {
        var found: seq<Product> := [];
        var i := 1;
        while i <= LastProbedId
          invariant 1 <= i <= LastProbedId + 1
          invariant found == Probed(tokenUri, ownerOf, i - 1)
        {
          var uri := tokenUri(i);
          if uri.Ok? {
            var owner := ownerOf(i);
            if owner.Ok? {
              found := found + [Product(i, uri.value, owner.value)];
            }
          }
          i := i + 1;
        }
        products := found;
      }
      loading := false;
    }
  }
}
