/** Outcomes of the awaited calls the front end makes into foreign code (the wallet,
    ethers contract objects, the HTTP client). None of that code is modelled: each call
    is represented only by how it settles, passed in as a parameter. */
module Outcomes {

  datatype Option<+T> = None | Some(value: T)

  /** An awaited call either resolves with a value or rejects with an Error; only the
      Error's `message` is ever used by the callers, so that is all that is kept. */
  datatype Result<+T> = Ok(value: T) | Err(message: string)

  /** `accounts[0]` of the list a wallet returns for `eth_requestAccounts`. An empty list
      yields `undefined`, which every caller treats exactly like the empty string (both
      are falsy and both render as "no account"), so it is represented as "". */
  function FirstAccount(accounts: seq<string>): (a: string)
    ensures |accounts| > 0 ==> a == accounts[0]
    ensures |accounts| == 0 ==> a == ""
  {
    if |accounts| > 0 then accounts[0] else ""
  }
}
