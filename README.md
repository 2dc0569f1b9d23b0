# Universal Accounts ConnectKit demo — the balance views and account state, in Dafny

The demo is a Next.js page. Through Particle Connect and the Universal Account
SDK it shows a user's Universal Account: its EVM and Solana smart account
addresses, its total balance, and an "Asset Breakdown" dialog with two tabs.
"By Asset" lists every token the account holds, with the chains each token
is held on. "By Chain" groups the same holdings per chain and sorts the
chains by their total value.

This project models the logic under those views:

- `js.dfy` (module `Js`): the JavaScript built-ins the logic relies on, with
  their ECMAScript semantics on sequences of characters (see "Left out" for
  UTF-16):
  - `slice`, `substring`, `find` and `filter`;
  - ASCII `toLowerCase` and `toUpperCase`;
  - the decimal rendering of a chain id;
  - `||` on an optional string;
  - promises settling to a value or an error (`Outcome`).

  `toFixed` is an uninterpreted function parameter. Its only known property
  is that its rendering is never empty.
- `asset_breakdown.dfy` (module `AssetBreakdown`), from
  `app/components/AssetBreakdownDialog.tsx`:
  - the balance snapshot;
  - the dialog's helpers: `getChainName`, `getTokenInfo`, `formatAmount` and
    `formatUSD`;
  - the "By Asset" tab.

  The chain and token tables are parameters.
- `by_chain.dfy` (module `ByChain`): the "By Chain" tab.
  - The nested loops that populate `chainMap` are a `method` with loop
    invariants. They are proved equal to a fold over the positive chain
    entries.
  - `Object.values` returns the buckets in ascending order of their chain
    ids, because the chain ids are array-index keys.
  - The sort is a stable insertion sort, done in place on an `array`. It
    compares totals only, as the comparator `b.totalValue - a.totalValue`
    does.
  - The lemmas show that the tab lists each chain some asset holds a positive
    amount on exactly once, with the rows contributed to it and their sum.
  - The order is by total descending, then chain id ascending. That order is
    the only one the buckets allow.
  - The bucket totals add up to the value of every positive chain entry.
- `deposit.dfy` (module `Deposit`), from `lib/deposit.ts`: `formatAddress` with
  its `chars` parameter, and `getDepositAddresses`.
- `page.dfy` (module `Page`), from `app/page.tsx`:
  - the page's own `formatAddress`;
  - the balance text;
  - a `class App` holding the component state its effects and handlers set:
    the Universal Account instance, the account details, the balance
    snapshot and the copied address.

Amounts are `real`s, so floating-point rounding is not modelled.

## Model

| member | source | states |
|---|---|---|
| Js.Find | ua-conneckit/app/components/AssetBreakdownDialog.tsx:78 | `find`, used for the chain table here and for the token table at line 98, gives no entry iff no element matches, else the first element that matches |
| AssetBreakdown.ChainName | ua-conneckit/app/components/AssetBreakdownDialog.tsx:77-80 | the name of the first table entry with the id, or "Chain " and the id in decimal when no entry has it |
| AssetBreakdown.UnknownChainNamesDiffer | ua-conneckit/app/components/AssetBreakdownDialog.tsx:79 | two different chains missing from the table get different names |
| AssetBreakdown.TokenInfoFor | ua-conneckit/app/components/AssetBreakdownDialog.tsx:97-104 | a token type missing from the table, once lower-cased, shows its upper-cased form as name and symbol and no icon. A matching entry gives its icon, and its name and symbol unless they are empty |
| AssetBreakdown.TokenInfoIgnoresCase | ua-conneckit/app/components/AssetBreakdownDialog.tsx:98 | the display is the same for a token type and for its upper- or lower-cased form |
| AssetBreakdown.FormatAmount | ua-conneckit/app/components/AssetBreakdownDialog.tsx:83-87 | "0" for zero; "<0.00001" for every other amount below 0.00001, negatives included; otherwise the 5-decimal rendering. Never empty |
| AssetBreakdown.FormatUsd | ua-conneckit/app/components/AssetBreakdownDialog.tsx:90-94 | "$0.00" for zero; "<$0.01" for every other amount below a cent; otherwise "$" and the 2-decimal rendering. Every result starts with "$" or "<$" |
| AssetBreakdown.FormatUsdDistinguishes | ua-conneckit/app/components/AssetBreakdownDialog.tsx:93 | at or above a cent, equal texts come from equal 2-decimal renderings |
| AssetBreakdown.ByAssetView | ua-conneckit/app/components/AssetBreakdownDialog.tsx:183-185 | no snapshot renders nothing (line 111). Otherwise there is one card per asset with a positive amount |
| AssetBreakdown.ByAssetViewContents | ua-conneckit/app/components/AssetBreakdownDialog.tsx:230-261 | the cards show exactly the assets with a positive amount. Each card lists exactly its chain entries with a positive amount, in order. "No assets on any chain" shows iff no entry is positive |
| AssetBreakdown.ByAssetViewKeepsOrder | ua-conneckit/app/components/AssetBreakdownDialog.tsx:183-185 | the cards keep the snapshot's order: the cards of a joined snapshot are the cards of its parts, one after the other |
| AssetBreakdown.CardsOfAppend | ua-conneckit/app/components/AssetBreakdownDialog.tsx:185 | mapping assets to cards commutes with joining the assets |
| Js.Filter | ua-conneckit/app/components/AssetBreakdownDialog.tsx:184 | `filter` keeps only accepted elements of the input, and every accepted element |
| Js.FilterAppend | ua-conneckit/app/components/AssetBreakdownDialog.tsx:231 | filtering a concatenation filters each part, so the input order is kept |
| Js.FilterEmpty | ua-conneckit/app/components/AssetBreakdownDialog.tsx:255-257 | a filter's result is empty iff no element is accepted |
| Js.DecimalRoundTrip | ua-conneckit/app/components/AssetBreakdownDialog.tsx:79 | reading back the decimal rendering of a chain id gives the id |
| Js.CaseMappingAbsorbs | ua-conneckit/app/components/AssetBreakdownDialog.tsx:98-100 | lower-casing forgets an earlier upper- or lower-casing, and so does upper-casing |
| ByChain.ChainContributionsMembers | ua-conneckit/app/components/AssetBreakdownDialog.tsx:291-293 | a row is among an asset's contributed rows iff some chain entry of the asset with a positive amount adds it |
| ByChain.ChainContributionsAreFiltered | ua-conneckit/app/components/AssetBreakdownDialog.tsx:291-306 | an asset contributes exactly one row per chain entry with a positive amount, in entry order: the entries its "by asset" card lists (line 231), tagged with its token type |
| ByChain.ContributionsMembers | ua-conneckit/app/components/AssetBreakdownDialog.tsx:290-293 | the rows contributed by a snapshot are exactly those of the positive chain entries of its assets |
| ByChain.AddRow | ua-conneckit/app/components/AssetBreakdownDialog.tsx:294-309 | the inner loop's body for a positive entry creates the chain's bucket if missing, pushes the row and adds its value to the total |
| ByChain.BuildChainMap | ua-conneckit/app/components/AssetBreakdownDialog.tsx:289-312 | the loops leave the map of the fold over all positive chain entries, in asset-then-chain order |
| ByChain.BucketStep | ua-conneckit/app/components/AssetBreakdownDialog.tsx:294-309 | one more positive entry keeps every chain's bucket equal to its rows and their sum |
| ByChain.ChainMapBuckets | ua-conneckit/app/components/AssetBreakdownDialog.tsx:294-310 | a chain has a bucket iff rows were contributed to it. The bucket carries its own chain id, holds exactly those rows in order, and its total is their sum |
| ByChain.RowsOnNonEmpty | ua-conneckit/app/components/AssetBreakdownDialog.tsx:293-302 | a chain gets rows iff some contributing entry is on it |
| ByChain.ChainMapKeys | ua-conneckit/app/components/AssetBreakdownDialog.tsx:290-300 | the map's keys are exactly the chains on which some asset has a positive amount. Non-positive entries never create a bucket |
| ByChain.OrderedKeys | ua-conneckit/app/components/AssetBreakdownDialog.tsx:315 | the key order `Object.values` follows lists exactly the keys of the map, in strictly ascending numeric order |
| ByChain.ValuesListBuckets | ua-conneckit/app/components/AssetBreakdownDialog.tsx:315 | the values taken in key order list every bucket once, with ascending chain ids |
| ByChain.ListedTotals | ua-conneckit/app/components/AssetBreakdownDialog.tsx:308-309 | however the buckets are listed, their totals add up to the value of all positive chain entries: nothing is lost or counted twice |
| ByChain.TotalValuesPermutation | ua-conneckit/app/components/AssetBreakdownDialog.tsx:315-317 | sorting does not change the sum of the totals |
| ByChain.DistinctPermutation | ua-conneckit/app/components/AssetBreakdownDialog.tsx:315-317 | sorting buckets with distinct chains leaves distinct chains, so no chain is shown twice |
| ByChain.SortByTotalValue | ua-conneckit/app/components/AssetBreakdownDialog.tsx:315-317 | the in-place stable sort permutes the buckets and orders them by total descending. Equal totals keep the ascending chain id order they came in |
| ByChain.InsertNext | ua-conneckit/app/components/AssetBreakdownDialog.tsx:315-317 | one insertion pass extends the sorted prefix by one bucket, keeps the elements, and keeps the rest in ascending chain id order |
| ByChain.SwapStep | ua-conneckit/app/components/AssetBreakdownDialog.tsx:316 | swapping a bucket past one with a smaller total keeps the insertion invariant and the elements |
| ByChain.SortedBuckets | ua-conneckit/app/components/AssetBreakdownDialog.tsx:315-317 | `Object.values(chainMap).sort(...)` is a permutation of the values in the tab's order |
| ByChain.RankedUnique | ua-conneckit/app/components/AssetBreakdownDialog.tsx:315-317 | two orderings of the same buckets that are both in the tab's order are equal, so the buckets alone decide the displayed order |
| ByChain.PermutedListing | ua-conneckit/app/components/AssetBreakdownDialog.tsx:315 | a reordering of the values holds exactly the map's buckets and exactly its chains |
| ByChain.NothingHeld | ua-conneckit/app/components/AssetBreakdownDialog.tsx:395-399 | no chain is held on iff no chain entry of any asset is positive |
| ByChain.TabContents | ua-conneckit/app/components/AssetBreakdownDialog.tsx:290-321 | any ordering of the map's values shows each held chain exactly once (distinct chain ids), with its rows and total. The totals sum to all positive entries. The ordering is empty iff no entry is positive |
| ByChain.ByChainView | ua-conneckit/app/components/AssetBreakdownDialog.tsx:289-321 | the tab shows the chain map in the tab's order. "No assets found on any chain" shows iff no chain entry is positive |
| Deposit.FormatAddress | ua-conneckit/lib/deposit.ts:14-17 | "" stays "". Otherwise the head is the first `chars` characters (clamped) and the tail is the last `chars` (clamped). `chars` = 0 gives "..." and the whole address; a negative `chars` follows `slice`'s rules. The default `chars` is 6 |
| Deposit.FormatAddressLength | ua-conneckit/lib/deposit.ts:16 | for len ≥ chars > 0 the result has length 2·chars + 3 and shows the address's first and last `chars` characters |
| Deposit.FormatShortAddress | ua-conneckit/lib/deposit.ts:16 | an address no longer than `chars` is shown twice in full around the dots |
| Deposit.GetDepositAddresses | ua-conneckit/lib/deposit.ts:24-35 | it rejects with "Universal Account is not initialized" without an instance, and passes on the SDK's rejection. Otherwise each missing address becomes "" |
| Deposit.DepositAddressesDelivered | ua-conneckit/lib/deposit.ts:31-34 | addresses are delivered iff there is an instance and the SDK resolves. An EVM address shows "" iff the SDK gave none or "" |
| Page.FormatAddress | ua-conneckit/app/page.tsx:49-52 | "" stays "". Otherwise the first min(6, len) characters, "...", then the last min(4, len), since `substring` clamps a negative start to 0. Length 13 when len ≥ 6 |
| Page.FormatAddressVariantsAgree | ua-conneckit/app/page.tsx:51 | the page's shortening and the deposit helper's default one agree exactly on addresses of at most 4 characters |
| Page.BalanceText | ua-conneckit/app/page.tsx:399 | "$0.00" only without a snapshot. A snapshot, even with total 0, shows "$" and its 4-decimal rendering |
| Page.AccountInfoMatchesDeposit | ua-conneckit/app/page.tsx:133-137 | the page and `getDepositAddresses` derive the same EVM and Solana addresses from the same SDK answer |
| Page.App.constructor | ua-conneckit/app/page.tsx:65-71 | all four pieces of state start as null: the instance and the account details here, the copied address at line 92 and the balance snapshot at lines 147-149 |
| Page.App.InitEffect | ua-conneckit/app/page.tsx:102-124 | afterwards an instance exists, for the address, iff connected with a non-empty address; nothing else changes |
| Page.App.FetchAccountInfoEffect | ua-conneckit/app/page.tsx:127-144 | with an instance and an address, a resolved answer sets the account details, with the owner address and "" for missing addresses. Otherwise, or on a rejection, nothing changes |
| Page.App.FetchPrimaryAssetsEffect | ua-conneckit/app/page.tsx:152-163 | with an instance and an address, a resolved snapshot is stored. Otherwise, or on a rejection, nothing changes |
| Page.App.Connect | ua-conneckit/app/page.tsx:102-163 | connecting with a non-empty address creates the instance for it, then stores whatever the two fetches resolve to |
| Page.App.Disconnect | ua-conneckit/app/page.tsx:120-123 | only the instance is reset. The account details and the balance keep their values whatever the SDK would answer, because both fetch effects return early |
| Page.App.HandleCopyToClipboard | ua-conneckit/app/page.tsx:94-99 | the copied text is marked as copied and nothing else changes |
| Page.App.CopyFeedbackExpired | ua-conneckit/app/page.tsx:97 | the timer clears the mark and nothing else changes |

## Left out

- Rendering is not modelled. This covers the JSX, icons (`ChainIcon`, the
  first letter of a token type), tab and dialog state, and the tooltip delay
  at `page.tsx:81-89`.
- Clipboard writes are not modelled: `navigator.clipboard.writeText` in
  `page.tsx` and `copyToClipboard` in `lib/deposit.ts`. A copy is taken to
  succeed, as the page's own `copyToClipboard` assumes.
- Timers are events: the two-second reset of the copy mark is the method
  `CopyFeedbackExpired`. When that happens relative to other events is left
  to the caller. This includes an earlier copy's timer clearing a later
  copy's mark.
- Effect scheduling is not modelled. Each effect runs to completion with the
  SDK's answer as an input. A response that arrives after a disconnect, for
  an instance that is gone, is therefore not modelled.
- The SDK's calls (`getSmartAccountOptions`, `getPrimaryAssets`) are inputs:
  what they settle to. The instance is reduced to its owner address. Its
  project configuration, RPC URL and trade settings are out.
- `toFixed` is an uninterpreted parameter, so the exact decimal text and its
  rounding are out. So are floating-point summation error, `NaN`, and
  infinities in amounts or in the sort's comparator.
- Strings are sequences of Unicode scalar values, not of UTF-16 code units.
  `length`, `slice` and `substring` therefore agree with JavaScript only on
  strings without characters outside the Basic Multilingual Plane. Wallet
  addresses are ASCII, so the address shortening is unaffected in practice.
- Logging is not modelled: the `console.log` and `console.error` calls of the
  effects (`page.tsx:118`, `:138`, `:140`, `:159`) change no state.
- Case mapping is ASCII only. Unicode case mapping of token types is out.
- Chain ids are restricted to 0 ≤ id < 2^32 − 1, the array-index keys. For
  these, `Object.values` enumerates in ascending numeric order. Other keys
  enumerate in insertion order and are out.
- The chain table's ids are numbers in the model. The `Number(...)`
  conversion of string ids is not modelled.
- The other components and files of the demo are not part of this model:
  transfers, conversions, contract calls, the deposit dialog, the provider
  set-up, the static chain and token tables, and the account info fetch.
- ByChain.SortByTotalValue: the sort is modelled by an insertion sort. The
  engine's own algorithm is not modelled. Any stable sort gives the same
  result (`RankedUnique`), and `Array.prototype.sort` is stable.
- Logging out only resets the instance (`page.tsx:120-123`). The account
  details and the balance are not cleared, and the model follows the code.
- The by-chain totals add up to the value of the positive chain entries
  (`ListedTotals`). The code does not relate them to the snapshot's
  `totalAmountInUSD`, so neither does the model.
