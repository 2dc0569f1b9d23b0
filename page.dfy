/** The application page (app/page.tsx): its address shortening, the
    balance text, and the state its effects keep about the connected
    Universal Account. */
module Page {
  import opened Js
  import opened AssetBreakdown
  import Deposit

  /** `formatAddress(addr)`: the first six characters, "...", and what
      `substring(addr.length - 4)` leaves, which is the whole address when it
      is shorter than four characters since `substring` clamps a negative
      start to 0. */
  function FormatAddress(addr: string): (r: string)
    ensures addr == [] ==> r == []
    ensures addr != [] ==>
              r == addr[..Min(6, |addr|)] + "..." + addr[|addr| - Min(4, |addr|)..]
    ensures |addr| >= 6 ==> |r| == 13
  {
    if addr == [] then []
    else Substring(addr, 0, 6) + "..." + SubstringFrom(addr, |addr| - 4)
  }

  /** The page's shortening agrees with the deposit helper's default one
      exactly on the addresses of at most four characters: the page keeps a
      four-character tail, the helper a six-character one. */
  lemma FormatAddressVariantsAgree(addr: string)
    ensures FormatAddress(addr) == Deposit.FormatAddress(addr) <==> |addr| <= 4
  {
    var p, d := FormatAddress(addr), Deposit.FormatAddress(addr);
    if |addr| > 4 {
      assert |p| == Min(6, |addr|) + 3 + 4;
      assert |d| == Min(6, |addr|) + 3 + Min(6, |addr|);
    } else if addr != [] {
      assert addr[..|addr|] == addr && addr[0..] == addr;
    }
  }

  /** `${primaryAssets?.totalAmountInUSD.toFixed(4) || "0.00"}` after a "$":
      the optional chain yields `undefined` without a snapshot, and "0.00"
      is used only then, since a rendering is never empty. */
  function BalanceText(primaryAssets: Option<Snapshot>, toFixed: FixedRendering): (r: string)
    ensures primaryAssets.None? ==> r == "$0.00"
    ensures primaryAssets.Some? ==> r == "$" + toFixed(primaryAssets.value.totalAmountInUSD, 4)
  {
    var rendered := if primaryAssets.Some? then toFixed(primaryAssets.value.totalAmountInUSD, 4) else "";
    "$" + (if rendered != "" then rendered else "0.00")
  }

  /** The account details the page shows. */
  datatype AccountInfo = AccountInfo(ownerAddress: string, evmSmartAccount: string, solanaSmartAccount: string)

  /** The account details built from the SDK's smart account options. */
  function AccountInfoFrom(ownerAddress: string, options: Deposit.SmartAccountOptions): AccountInfo
  {
    AccountInfo(ownerAddress, OrEmpty(options.smartAccountAddress), OrEmpty(options.solanaSmartAccountAddress))
  }

  /** The page and the deposit helper derive the same addresses from the same
      answer of the SDK. */
  lemma AccountInfoMatchesDeposit(instance: Deposit.UniversalAccount, ownerAddress: string,
                                  options: Deposit.SmartAccountOptions)
    ensures var info := AccountInfoFrom(ownerAddress, options);
            Deposit.GetDepositAddresses(Some(instance), Resolved(options)) ==
              Resolved(Deposit.DepositAddresses(info.evmSmartAccount, info.solanaSmartAccount))
  {
  }

  /** The state of the `App` component that its effects and handlers set. The
      wallet's `isConnected` and `address`, and what the SDK's calls settle
      to, are inputs of the methods. */
  class App {
    var universalAccountInstance: Option<Deposit.UniversalAccount>
    var accountInfo: Option<AccountInfo>
    var primaryAssets: Option<Snapshot>
    var copiedAddress: Option<string>

    /** An instance and the account details are only ever made for a
        non-empty address. */
    ghost predicate Valid()
      reads this
    {
      && (universalAccountInstance.Some? ==> universalAccountInstance.value.ownerAddress != "")
      && (accountInfo.Some? ==> accountInfo.value.ownerAddress != "")
    }

    constructor()
      ensures Valid()
      ensures universalAccountInstance == None && accountInfo == None
      ensures primaryAssets == None && copiedAddress == None
    {
      universalAccountInstance := None;
      accountInfo := None;
      primaryAssets := None;
      copiedAddress := None;
    }

    /** The initialising effect: an instance for the connected address, or
        none when disconnected or without an address. */
    method InitEffect(isConnected: bool, address: string)
      requires Valid()
      modifies this
      ensures Valid()
      ensures universalAccountInstance ==
                (if isConnected && address != "" then Some(Deposit.UniversalAccount(address)) else None)
      ensures accountInfo == old(accountInfo) && primaryAssets == old(primaryAssets)
      ensures copiedAddress == old(copiedAddress)
    {
      if isConnected && address != "" {
        universalAccountInstance := Some(Deposit.UniversalAccount(address));
      } else {
        universalAccountInstance := None;
      }
    }

    /** The effect fetching the smart account addresses: nothing without an
        instance or an address; a rejection is logged and changes nothing. */
    method FetchAccountInfoEffect(address: string, options: Outcome<Deposit.SmartAccountOptions>)
      requires Valid()
      modifies this
      ensures Valid()
      ensures accountInfo ==
                (if old(universalAccountInstance).Some? && address != "" && options.Resolved?
                 then Some(AccountInfoFrom(address, options.value))
                 else old(accountInfo))
      ensures universalAccountInstance == old(universalAccountInstance)
      ensures primaryAssets == old(primaryAssets) && copiedAddress == old(copiedAddress)
    {
      if universalAccountInstance.None? || address == "" {
        return;
      }
      match options
      case Resolved(o) =>
        accountInfo := Some(AccountInfo(address, OrEmpty(o.smartAccountAddress),
                                        OrEmpty(o.solanaSmartAccountAddress)));
      case Rejected(_) =>
    }

    /** The effect fetching the balance snapshot: nothing without an
        instance or an address; a rejection is left unhandled and changes
        nothing. */
    method FetchPrimaryAssetsEffect(address: string, assets: Outcome<Snapshot>)
      requires Valid()
      modifies this
      ensures Valid()
      ensures primaryAssets ==
                (if old(universalAccountInstance).Some? && address != "" && assets.Resolved?
                 then Some(assets.value)
                 else old(primaryAssets))
      ensures universalAccountInstance == old(universalAccountInstance)
      ensures accountInfo == old(accountInfo) && copiedAddress == old(copiedAddress)
    {
      if universalAccountInstance.None? || address == "" {
        return;
      }
      if assets.Resolved? {
        primaryAssets := Some(assets.value);
      }
    }

    /** The wallet connects with `address`: the instance is created, then both
        fetch effects run with what the SDK answers. */
    method Connect(address: string, options: Outcome<Deposit.SmartAccountOptions>, assets: Outcome<Snapshot>)
      requires Valid()
      modifies this
      ensures Valid()
      ensures address != "" ==> universalAccountInstance == Some(Deposit.UniversalAccount(address))
      ensures address == "" ==> universalAccountInstance == None
      ensures accountInfo ==
                (if address != "" && options.Resolved? then Some(AccountInfoFrom(address, options.value))
                 else old(accountInfo))
      ensures primaryAssets ==
                (if address != "" && assets.Resolved? then Some(assets.value) else old(primaryAssets))
      ensures copiedAddress == old(copiedAddress)
    {
      InitEffect(true, address);
      FetchAccountInfoEffect(address, options);
      FetchPrimaryAssetsEffect(address, assets);
    }

    /** The wallet disconnects: the instance is reset, and the fetch effects,
        run again whatever the SDK would answer, return early, so the account
        details and the balance keep their last values. */
    method Disconnect(address: string, options: Outcome<Deposit.SmartAccountOptions>, assets: Outcome<Snapshot>)
      requires Valid()
      modifies this
      ensures Valid()
      ensures universalAccountInstance == None
      ensures accountInfo == old(accountInfo) && primaryAssets == old(primaryAssets)
      ensures copiedAddress == old(copiedAddress)
    {
      InitEffect(false, address);
      FetchAccountInfoEffect(address, options);
      FetchPrimaryAssetsEffect(address, assets);
    }

    /** `handleCopyToClipboard(text)`: marks `text` as just copied. */
    method HandleCopyToClipboard(text: string)
      requires Valid()
      modifies this
      ensures Valid()
      ensures copiedAddress == Some(text)
      ensures universalAccountInstance == old(universalAccountInstance)
      ensures accountInfo == old(accountInfo) && primaryAssets == old(primaryAssets)
    {
      copiedAddress := Some(text);
    }

    /** The two-second timer set by a copy fires: the mark is cleared,
        whichever address it is on. */
    method CopyFeedbackExpired()
      requires Valid()
      modifies this
      ensures Valid()
      ensures copiedAddress == None
      ensures universalAccountInstance == old(universalAccountInstance)
      ensures accountInfo == old(accountInfo) && primaryAssets == old(primaryAssets)
    {
      copiedAddress := None;
    }
  }
}
