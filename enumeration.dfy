/** Indexed enumeration of tokens, shared by the dashboard (ids from
    `tokenOfOwnerByIndex(account, i)`) and the web3 service (ids from `tokenByIndex(i)`):
    for each index in turn read the token id, then that token's URI. The first failing
    read aborts the whole walk; nothing partial is kept. */
module Enumeration {
  import opened Outcomes
  import opened Text

  /** One listed token: its id as `toString()` prints it, and its metadata URI. */
  datatype TokenEntry = TokenEntry(id: string, uri: string)

  /** Both reads for index `i` succeed. */
  predicate ReadsSucceedAt(byIndex: nat -> Result<nat>, uriOf: nat -> Result<string>, i: nat) {
    byIndex(i).Ok? && uriOf(byIndex(i).value).Ok?
  }

  /** The entry for index `i` when both of its reads succeed. */
  function EntryAt(byIndex: nat -> Result<nat>, uriOf: nat -> Result<string>, i: nat): TokenEntry
    requires ReadsSucceedAt(byIndex, uriOf, i)
  {
    TokenEntry(DecimalString(byIndex(i).value), uriOf(byIndex(i).value).value)
  }

  /** The message of the first failing read for index `i`. */
  function FailureAt(byIndex: nat -> Result<nat>, uriOf: nat -> Result<string>, i: nat): string
    requires !ReadsSucceedAt(byIndex, uriOf, i)
  {
    if byIndex(i).Err? then byIndex(i).message else uriOf(byIndex(i).value).message
  }

  /** The walk over indexes 0 .. n-1, in order. */
  function Walk(byIndex: nat -> Result<nat>, uriOf: nat -> Result<string>, n: nat): Result<seq<TokenEntry>>
    decreases n
  {
    if n == 0 then Ok([])
    else
      var prefix := Walk(byIndex, uriOf, n - 1);
      if prefix.Err? then prefix
      else if !ReadsSucceedAt(byIndex, uriOf, n - 1) then Err(FailureAt(byIndex, uriOf, n - 1))
      else Ok(prefix.value + [EntryAt(byIndex, uriOf, n - 1)])
  }

  /** The walk succeeds exactly when every index's reads succeed, and then it lists one
      entry per index, in index order. */
  lemma {:induction false} WalkSucceeds(byIndex: nat -> Result<nat>, uriOf: nat -> Result<string>, n: nat)
    ensures Walk(byIndex, uriOf, n).Ok? <==> forall i :: 0 <= i < n ==> ReadsSucceedAt(byIndex, uriOf, i)
    ensures Walk(byIndex, uriOf, n).Ok? ==>
      var entries := Walk(byIndex, uriOf, n).value;
      |entries| == n && forall i :: 0 <= i < n ==> entries[i] == EntryAt(byIndex, uriOf, i)
  {
    if n > 0 {
      WalkSucceeds(byIndex, uriOf, n - 1);
      if Walk(byIndex, uriOf, n - 1).Err? {
        WalkStaysFailed(byIndex, uriOf, n - 1, n);
      }
    }
  }

  /** Once failed, a longer walk fails with the same message. */
  lemma {:induction false} WalkStaysFailed(byIndex: nat -> Result<nat>, uriOf: nat -> Result<string>, k: nat, n: nat)
    requires k <= n && Walk(byIndex, uriOf, k).Err?
    ensures Walk(byIndex, uriOf, n) == Walk(byIndex, uriOf, k)
    decreases n - k
  {
    if k < n {
      WalkStaysFailed(byIndex, uriOf, k, n - 1);
    }
  }

  /** The walk reports the failure of the first index whose reads fail. */
  lemma {:induction false} WalkReportsFirstFailure(byIndex: nat -> Result<nat>, uriOf: nat -> Result<string>, k: nat, n: nat)
    requires k < n
    requires forall j :: 0 <= j < k ==> ReadsSucceedAt(byIndex, uriOf, j)
    requires !ReadsSucceedAt(byIndex, uriOf, k)
    ensures Walk(byIndex, uriOf, n) == Err(FailureAt(byIndex, uriOf, k))
  {
    WalkSucceeds(byIndex, uriOf, k);
    WalkStaysFailed(byIndex, uriOf, k + 1, n);
  }

  /** Both results a caller shows, with the caller's prefix on the message. */
  function WithPrefix(prefix: string, r: Result<seq<TokenEntry>>): Result<seq<TokenEntry>> {
    match r
    case Ok(entries) => Ok(entries)
    case Err(message) => Err(prefix + message)
  }
}
