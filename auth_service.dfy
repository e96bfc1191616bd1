/** The seller check: the contract owner is always a seller; anybody else is one exactly
    when the contract approves them; any failing read means "not a seller". */
module AuthService {
  import opened Outcomes
  import opened Text

  /** The owner comparison of the check: both sides lower-cased. */
  predicate SameAddress(a: string, b: string) {
    ToLower(a) == ToLower(b)
  }

  /** The answer of one `checkIsSeller` call, and whether it asked the contract
      `isApprovedSeller` at all. */
  datatype SellerCheck = SellerCheck(isSeller: bool, askedApproval: bool)

  /** `checkIsSeller(address)`, given how `owner()` and `isApprovedSeller(address)` settle
      (a failure to build the provider or the contract shows up as a failed `owner()`). */
  function CheckIsSeller(address: string, owner: Result<string>, approval: Result<bool>): (r: SellerCheck)
    ensures r.isSeller <==>
      (owner.Ok? && SameAddress(owner.value, address)) ||
      (owner.Ok? && !SameAddress(owner.value, address) && approval == Ok(true))
    ensures r.askedApproval <==> owner.Ok? && !SameAddress(owner.value, address)
  {
    match owner
    case Err(_) => SellerCheck(false, false)
    case Ok(o) =>
      if ToLower(o) == ToLower(address) then SellerCheck(true, false)
      else
        match approval
        case Err(_) => SellerCheck(false, true)
        case Ok(approved) => SellerCheck(approved, true)
  }

  /** Two addresses that differ only in the case of their letters are the same address
      to the check: the owner written in checksum case is still recognised. */
  lemma {:induction false} CaseVariantsMatch(a: string, b: string)
    requires |a| == |b|
    requires forall i :: 0 <= i < |a| ==> a[i] == b[i] || LowerChar(a[i]) == b[i] || a[i] == LowerChar(b[i])
    ensures SameAddress(a, b)
  {
    var la, lb := ToLower(a), ToLower(b);
    forall i | 0 <= i < |a| ensures la[i] == lb[i] {
      if a[i] != b[i] && LowerChar(a[i]) == b[i] {
        assert LowerChar(b[i]) == b[i];
      } else if a[i] != b[i] {
        assert LowerChar(a[i]) == a[i];
      }
    }
  }

  /** The owner recognised up to letter case is a seller without asking for approval,
      whatever the approval read would have said. */
  lemma OwnerInAnyCaseIsSeller(owner: string, address: string, approval: Result<bool>)
    requires |owner| == |address|
    requires forall i :: 0 <= i < |owner| ==> owner[i] == address[i] || LowerChar(owner[i]) == address[i] || owner[i] == LowerChar(address[i])
    ensures CheckIsSeller(address, Ok(owner), approval) == SellerCheck(true, false)
  {
    CaseVariantsMatch(owner, address);
  }
}
