/** The deposit helpers of the application (lib/deposit.ts): address
    shortening and the deposit addresses of a Universal Account. */
module Deposit {
  import opened Js

  /** A Universal Account instance of the SDK, created for its owner's
      address. Its remote calls are not modelled: what they resolve to is an
      input of the operations that await them. */
  datatype UniversalAccount = UniversalAccount(ownerAddress: string)

  /** What `getSmartAccountOptions` resolves to: either address may be missing. */
  datatype SmartAccountOptions = SmartAccountOptions(smartAccountAddress: Option<string>,
                                                     solanaSmartAccountAddress: Option<string>)

  /** The deposit addresses of an account on EVM chains and on Solana. */
  datatype DepositAddresses = DepositAddresses(evmSmartAccount: string, solanaSmartAccount: string)

  const NotInitialized: string := "Universal Account is not initialized"

  /** `formatAddress(address, chars = 6)`: the first and the last `chars`
      characters around "...", both taken with `slice`; the empty address
      stays empty. A `chars` of 0 keeps the whole address after the dots,
      since `slice(-0)` is `slice(0)`; a negative `chars` drops characters
      from the end of the head and from the start of the tail. */
  function FormatAddress(address: string, chars: int := 6): (r: string)
    ensures address == [] ==> r == []
    ensures address != [] && chars > 0 ==>
              r == address[..Min(chars, |address|)] + "..." + address[|address| - Min(chars, |address|)..]
    ensures address != [] && chars == 0 ==> r == "..." + address
    ensures address != [] && chars < 0 ==>
              r == address[..Max(|address| + chars, 0)] + "..." + address[Min(-chars, |address|)..]
  {
    if address == [] then []
    else Slice(address, 0, chars) + "..." + SliceFrom(address, -chars)
  }

  /** An address at least `chars` long keeps exactly `chars` characters on
      each side of the dots. */
  lemma FormatAddressLength(address: string, chars: int)
    requires 0 < chars <= |address|
    ensures |FormatAddress(address, chars)| == 2 * chars + 3
    ensures FormatAddress(address, chars)[..chars] == address[..chars]
    ensures FormatAddress(address, chars)[chars + 3..] == address[|address| - chars..]
  {
  }

  /** An address no longer than `chars` is shown twice in full: head and tail
      overlap, and nothing is hidden. */
  lemma FormatShortAddress(address: string, chars: int)
    requires 0 < |address| <= chars
    ensures FormatAddress(address, chars) == address + "..." + address
  {
    assert address[..|address|] == address;
  }

  /** `getDepositAddresses(universalAccount)`: rejects when there is no
      instance, passes on a rejection of `getSmartAccountOptions`, and
      otherwise maps each missing address to "". */
  function GetDepositAddresses(universalAccount: Option<UniversalAccount>,
                               options: Outcome<SmartAccountOptions>): (r: Outcome<DepositAddresses>)
    ensures universalAccount.None? ==> r == Rejected(NotInitialized)
    ensures universalAccount.Some? && options.Rejected? ==> r == Rejected(options.reason)
    ensures universalAccount.Some? && options.Resolved? ==>
              && r.Resolved?
              && (options.value.smartAccountAddress.Some? ==>
                    r.value.evmSmartAccount == options.value.smartAccountAddress.value)
              && (options.value.smartAccountAddress.None? ==> r.value.evmSmartAccount == "")
              && (options.value.solanaSmartAccountAddress.Some? ==>
                    r.value.solanaSmartAccount == options.value.solanaSmartAccountAddress.value)
              && (options.value.solanaSmartAccountAddress.None? ==> r.value.solanaSmartAccount == "")
  {
    if universalAccount.None? then Rejected(NotInitialized)
    else match options
      case Rejected(reason) => Rejected(reason)
      case Resolved(o) => Resolved(DepositAddresses(OrEmpty(o.smartAccountAddress),
                                                    OrEmpty(o.solanaSmartAccountAddress)))
  }

  /** The addresses are delivered iff there is an instance and the SDK
      answered; an empty address shown means the SDK gave none or gave "". */
  lemma DepositAddressesDelivered(universalAccount: Option<UniversalAccount>,
                                  options: Outcome<SmartAccountOptions>)
    ensures GetDepositAddresses(universalAccount, options).Resolved? <==>
              universalAccount.Some? && options.Resolved?
    ensures GetDepositAddresses(universalAccount, options).Resolved? ==>
              (GetDepositAddresses(universalAccount, options).value.evmSmartAccount == "" <==>
                 options.value.smartAccountAddress in {None, Some("")})
  {
  }
}
