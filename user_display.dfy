/** `getUserDisplayName` of src/utils/user.ts: "You" for the connected wallet's own row,
    otherwise the display name, truncated when it is an address. Address recognition and
    truncation are library helpers and are parameters here. */
module UserDisplay {
  import opened Wrappers
  import Text

  const YOU: string := "You"

  /** An optional address that is present and non-empty (truthy). */
  predicate Truthy(address: Option<string>) {
    address.Some? && address.value != ""
  }

  /** Both addresses are truthy and equal ignoring case. */
  predicate IsCurrentWallet(walletAddress: Option<string>, currentWalletAddress: Option<string>) {
    Truthy(walletAddress) && Truthy(currentWalletAddress) &&
    Text.EqualIgnoringCase(walletAddress.value, currentWalletAddress.value)
  }

  /** The name shown for anyone but the current wallet. */
  function OtherName(displayName: string, isAddress: string -> bool, truncate: string -> string): string {
    if isAddress(displayName) then truncate(displayName) else displayName
  }

  function GetUserDisplayName(displayName: string, walletAddress: Option<string>, currentWalletAddress: Option<string>,
                              isAddress: string -> bool, truncate: string -> string): (r: string)
    ensures IsCurrentWallet(walletAddress, currentWalletAddress) ==> r == YOU
    ensures !IsCurrentWallet(walletAddress, currentWalletAddress) ==> r == OtherName(displayName, isAddress, truncate)
  {
    if IsCurrentWallet(walletAddress, currentWalletAddress) then YOU else OtherName(displayName, isAddress, truncate)
  }

  /** Swapping the two addresses never changes the result. */
  lemma DisplayNameSymmetric(displayName: string, a: Option<string>, b: Option<string>,
                             isAddress: string -> bool, truncate: string -> string)
    ensures GetUserDisplayName(displayName, a, b, isAddress, truncate) ==
            GetUserDisplayName(displayName, b, a, isAddress, truncate)
  {
  }

  /** When either address is missing or empty, the name rule applies: a truncated
      address-shaped name, or the name itself. */
  lemma MissingAddressShowsName(displayName: string, a: Option<string>, b: Option<string>,
                                isAddress: string -> bool, truncate: string -> string)
    requires !Truthy(a) || !Truthy(b)
    ensures GetUserDisplayName(displayName, a, b, isAddress, truncate) == OtherName(displayName, isAddress, truncate)
  {
  }

  /** An address compared with its own lower-cased form is the current wallet, whatever
      the display name: the comparison ignores letter case. */
  lemma CaseInsensitiveMatch(displayName: string, address: string, isAddress: string -> bool, truncate: string -> string)
    requires address != ""
    ensures GetUserDisplayName(displayName, Some(address), Some(Text.ToLower(address)), isAddress, truncate) == YOU
  {
    Text.ToLowerIdempotent(address);
    assert |Text.ToLower(address)| == |address|;
  }

  /** Addresses that differ after lower-casing, in a character or in length, are
      different wallets. */
  lemma DifferentWalletShowsName(displayName: string, a: string, b: string,
                                 isAddress: string -> bool, truncate: string -> string)
    requires Text.ToLower(a) != Text.ToLower(b)
    ensures GetUserDisplayName(displayName, Some(a), Some(b), isAddress, truncate) == OtherName(displayName, isAddress, truncate)
  {
  }

  /** Two cases of a difference after lower-casing: a character that differs ignoring
      case, and one address a proper prefix of the other. */
  lemma DifferenceAfterLowerCasing(a: string, b: string, i: nat)
    ensures i < |a| && i < |b| && Text.LowerChar(a[i]) != Text.LowerChar(b[i]) ==> Text.ToLower(a) != Text.ToLower(b)
    ensures |a| != |b| ==> Text.ToLower(a) != Text.ToLower(b)
  {
    if i < |a| && i < |b| && Text.LowerChar(a[i]) != Text.LowerChar(b[i]) {
      assert Text.ToLower(a)[i] != Text.ToLower(b)[i];
    }
  }
}
