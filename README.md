# Giveth dapp core: vesting arithmetic, staking workflow and their helpers

A Dafny model of the logic inside the Giveth donation front-end that is more
than rendering:

- **TokenDistro** (`token_distro.dfy`): the `TokenDistroHelper` schedule of a
  GIV or regen token distribution. It covers the three-phase release curve
  (nothing before the start, the initial amount up to the cliff, everything
  after the end, a linear ramp anchored at the start in between), the liquid
  part of an allocation, the streaming rates, a user's claimable amount, and
  the remaining time and percentages. The current time is a parameter.
- **StakeFlow** (`stake_flow.dfy`): the `StakeModal` workflow as a class. Its
  fields are `stakeState`, `amount`, `txHash` and `permit`, and its handlers
  are approve, block-driven allowance check, wrap, stake, receipt and permit
  toggle. Every awaited wallet call, the block handler's allowance read
  included, is split into a start method and a settle method that receives
  the call's outcome. The stake and wrap handlers run only in the state that
  renders their button and while it is enabled. The approve handler runs
  from APPROVE, and its own guard against a zero amount is kept. The permit
  toggle reaches its handler wherever the form is shown, because the toggle
  component ignores its `disabled` flag. Ghost logs record the
  submitted requests, the `captureException` reports and the pending
  continuations.
- **TokenDistroContext** (`token_distro_context.dfy`): building the
  per-network maps from stream type to helper, selecting a network's helpers
  by `chainId`, and `getTokenDistroHelper`.
- **Helpers** (`helpers.dfy`): `compareAddresses`, `capitalizeFirstLetter`,
  `shortenAddress`, `DurationToString`, `checkLinkActive`/`isGivEconomyRoute`,
  `getSafeUrl` and `transactionLink`.
- **DonationsTab** (`donations_tab.dfy`): the donation table's sort-order
  toggle, its header icons and the page window of the donations query.

`Wrappers` (`wrappers.dfy`) holds the `Option` type used for `null`/`undefined`.

Two behaviours of the code that are easy to miss, modelled as written:
- A wallet rejection (code 4001) of a stake or wrap is reported to the error
  tracker as well as sent back to the retry state (`Stake.tsx:172-181`).
- Only an amount edit made while in WRAP resets the workflow to APPROVE. Other
  states keep their state (`Stake.tsx:77-81`).

## Model

| member | source | states |
|---|---|---|
| `TokenDistro.TokenDistroHelper.Remain` | src/lib/contractHelper/TokenDistroHelper.ts:40-42 | the remaining time is never negative; it is the distance to the end before the end and 0 from the end on |
| `TokenDistro.TokenDistroHelper.Percent` | src/lib/contractHelper/TokenDistroHelper.ts:44-47 | NaN (`None`) exactly when the duration is 0; otherwise within [0, 100], 0 up to the start and 100 from the end on (positive duration) |
| `TokenDistro.TokenDistroHelper.GloballyClaimableNow` | src/lib/contractHelper/TokenDistroHelper.ts:49-62 | up to the end, never more than initial plus locked amount (the ramp's truncated share of the locked amount is at most the locked amount) |
| `TokenDistro.TokenDistroHelper.LiquidPart` | src/lib/contractHelper/TokenDistroHelper.ts:64-67 | 0 when the total is 0; otherwise the floor of claimable × amount / total; at most the amount whenever the claimable amount is at most the total |
| `TokenDistro.TokenDistroHelper.StreamPartTokenPerSecond` | src/lib/contractHelper/TokenDistroHelper.ts:69-76 | 0 when no time remains; otherwise the rate times the seconds left is exactly the still-locked part of the amount; never negative on a consistent schedule |
| `TokenDistro.TokenDistroHelper.StreamPartTokenPerWeek` | src/lib/contractHelper/TokenDistroHelper.ts:78-82 | 0 when no time remains; otherwise the rate times the seconds left is 604800 times the locked part |
| `TokenDistro.TokenDistroHelper.UserClaimableNow` | src/lib/contractHelper/TokenDistroHelper.ts:84-97 | result plus claimed equals the liquid part of the allocation of the stream's fields; negative exactly when claimed exceeds the liquid part (not clamped); at most allocated minus claimed |
| `TokenDistro.TokenDistroHelper.GlobalReleasePercentage` | src/lib/contractHelper/TokenDistroHelper.ts:99-105 | 0 when the total is 0; otherwise result × total = claimable × 100, hence within [0, 100] when claimable ≤ total |
| `TokenDistro.ReleasePhases` | src/lib/contractHelper/TokenDistroHelper.ts:52-54 | 0 before the start, the initial amount from the start through the cliff, the total after the end |
| `TokenDistro.RampAnchoredAtStart` | src/lib/contractHelper/TokenDistroHelper.ts:56-61 | after the cliff and up to the end, the duration is positive and the amount is initial + locked × (now − start) div duration |
| `TokenDistro.RampMonotone` | src/lib/contractHelper/TokenDistroHelper.ts:56-61 | the ramp is non-decreasing in time |
| `TokenDistro.ClaimableMonotone` | src/lib/contractHelper/TokenDistroHelper.ts:49-62 | on a funded schedule (initial + locked ≤ total) the whole release curve is non-decreasing in time |
| `TokenDistro.ClaimableAtMostTotal` | src/lib/contractHelper/TokenDistroHelper.ts:49-62 | on a funded schedule the claimable amount never exceeds the total |
| `TokenDistro.LiquidAtMostAllocation` | src/lib/contractHelper/TokenDistroHelper.ts:64-67 | on a funded schedule the liquid part of an allocation never exceeds it |
| `TokenDistro.ClaimableReadsOwnFields` | src/lib/contractHelper/TokenDistroHelper.ts:86-94 | the FOX stream's claimable amount depends only on the FOX fields; every other stream's only on `allocatedTokens`/`claimed` |
| `TokenDistro.WeekRateIsScaledSecondRate` | src/lib/contractHelper/TokenDistroHelper.ts:78-82 | the week rate is exactly the second rate × 604800 |
| `TokenDistro.Scenarios` | src/lib/contractHelper/TokenDistroHelper.ts:49-105 | 0/1000 locked over 100 s: 500 at the midpoint and 1000 past the end; a zero-supply schedule has 0 release percentage and 0 liquid part |
| `StakeFlow.AfterApproval` | src/components/modals/Stake.tsx:143-148 | a granted approval leads to WRAP exactly when a garden address is configured, to STAKE otherwise |
| `StakeFlow.AfterThrow` | src/components/modals/Stake.tsx:172-175 | a thrown error leads to ERROR exactly when its code is not 4001; otherwise back to the step's retry state |
| `StakeFlow.OfferedAction` | src/components/modals/Stake.tsx:316-367 | APPROVE offers the approve button, WRAP the wrap button, STAKE the stake button; no other state offers one |
| `StakeFlow.InputsEnabled` | src/components/modals/Stake.tsx:290-308 | the amount input and the permit toggle are passed `disabled` exactly outside APPROVE and STAKE, states that also offer a button (the toggle ignores the flag) |
| `StakeFlow.ActionDisabled` | src/components/modals/Stake.tsx:320-323 | an action button is enabled exactly when 0 < amount ≤ maximum |
| `StakeFlow.ShowsResultPanel` | src/components/modals/Stake.tsx:234-236 | the form gives way to the result panel exactly in CONFIRMING, CONFIRMED and ERROR, where nothing is offered or editable |
| `StakeFlow.StakeModal.OneSubmissionAtATime` | src/components/modals/Stake.tsx:316-367 | in a sequenced session (`Sequenced`) at most one stake or wrap transaction (approvals are not counted) is in flight, exactly in STAKING, WRAPPING and CONFIRMING, and none while a button is offered |
| `StakeFlow.StakeModal.Spender` | src/components/modals/Stake.tsx:99 | the allowance is granted to the garden contract when one is configured, else to the LM contract |
| `StakeFlow.StakeModal.constructor` | src/components/modals/Stake.tsx:57-75 | a session starts in APPROVE with amount 0, empty hash and permit off; a garden keeps permit off (`Valid`); nothing in flight (`Sequenced`) |
| `StakeFlow.StakeModal.SetAmount` | src/components/modals/Stake.tsx:77-81 | the amount is replaced; a changed amount in WRAP resets to APPROVE, every other state is kept |
| `StakeFlow.StakeModal.OnApprove` | src/components/modals/Stake.tsx:122-141 | only from APPROVE with amount ≤ max; amount 0 or no library: nothing changes and nothing is submitted; otherwise APPROVING and one approval of the amount for the garden (if set) or LM contract on the pool token |
| `StakeFlow.StakeModal.ApprovalSettled` | src/components/modals/Stake.tsx:143-151 | as written, whatever the current state: granted: WRAP with a garden, else STAKE; refused: APPROVE; thrown: state kept, no report |
| `StakeFlow.StakeModal.ApprovalSettledIntended` | src/components/modals/Stake.tsx:143-151 | the same outcomes, but only while the state is still APPROVING; any other state is kept; keeps `Sequenced` |
| `StakeFlow.StakeModal.OnBlock` | src/components/modals/Stake.tsx:84-91 | when amount > 0 and the state is APPROVING, one allowance read carrying that amount is started; nothing else changes |
| `StakeFlow.StakeModal.AllowanceSettled` | src/components/modals/Stake.tsx:97-110 | as written, whatever the current state: an allowance covering the handler's amount sets WRAP with a garden, else STAKE; a smaller allowance or a failed read keeps the state |
| `StakeFlow.StakeModal.AllowanceSettledIntended` | src/components/modals/Stake.tsx:97-110 | the same, but only while the state is still APPROVING; keeps `Sequenced` |
| `StakeFlow.StakeModal.OnStake` | src/components/modals/Stake.tsx:154-163 | only from STAKE with an enabled button; STAKING, one stake request carrying the amount and permit flag; keeps `Sequenced` |
| `StakeFlow.StakeModal.OnWrap` | src/components/modals/Stake.tsx:184-196 | only from WRAP with an enabled button, so a garden is configured; WRAPPING and one wrap request to the garden; keeps `Sequenced` |
| `StakeFlow.StakeModal.SubmissionSettled` | src/components/modals/Stake.tsx:164-218 | no response: back to STAKE/WRAP; a response: its hash in `txHash`, CONFIRMING, receipt awaited; thrown: STAKE/WRAP on 4001, else ERROR, reported with the step's section either way |
| `StakeFlow.StakeModal.ReceiptSettled` | src/components/modals/Stake.tsx:167-175 | truthy status: CONFIRMED, falsy: ERROR; a throw while waiting is handled like a thrown submission |
| `StakeFlow.StakeModal.HandlePermit` | src/components/modals/Stake.tsx:221-229 | without a garden, in any state that shows the form (the toggle ignores `disabled`): permit is negated; turning it on sets STAKE, turning it off APPROVE; nothing in flight is touched |
| `StakeFlow.StakeModal.HandlePermitIntended` | src/components/modals/Stake.tsx:221-229 | the same toggle honouring `disabled`: only in APPROVE and STAKE, and it keeps `Sequenced` |
| `StakeFlow.PermitToggleResubmits` | src/components/styled-components/Switch.tsx:10-19 | as written, toggling permit on during STAKING shows STAKE again, and a second press puts two stakes in flight, even with the intended settle methods |
| `StakeFlow.LateApprovalResubmits` | src/components/modals/Stake.tsx:143-151 | as written, an approval result arriving after the allowance check and a STAKE press lets a second press submit a second stake: two stake responses awaited |
| `StakeFlow.LateAllowanceResubmits` | src/components/modals/Stake.tsx:97-110 | as written, an allowance result arriving after the approval and a STAKE press lets a second press submit a second stake |
| `StakeFlow.LateResultsIgnored` | src/components/modals/Stake.tsx:97-151 | with the intended settle methods the same interleavings stay in STAKING with one stake in flight and no button offered |
| `TokenDistroContext.DefaultTokenDistroHelper` | src/context/tokenDistro.context.tsx:27-35 | zero address and amounts: its liquid part and release percentage are 0 for every amount and time |
| `TokenDistroContext.BuildMainnetRegenHelpers` | src/context/tokenDistro.context.tsx:69-76 | a key for every configured stream, holding the stream's helper or the default helper when it has no schedule |
| `TokenDistroContext.BuildXDaiRegenHelpers` | src/context/tokenDistro.context.tsx:84-94 | keys exactly for the configured streams that have a schedule, each holding that stream's helper |
| `TokenDistroContext.SelectNetwork` | src/context/tokenDistro.context.tsx:97-108 | the xDai network number selects xDai's helpers; any other or no chain id selects mainnet's |
| `TokenDistroContext.TokenDistroProvider.constructor` | src/context/tokenDistro.context.tsx:50-62 | all GIV helpers default, all regen maps empty, current pair selected |
| `TokenDistroContext.TokenDistroProvider.SelectCurrent` | src/context/tokenDistro.context.tsx:97-115 | re-establishes that the current pair is the selected network's |
| `TokenDistroContext.TokenDistroProvider.OnMainnetValues` | src/context/tokenDistro.context.tsx:64-77 | the GIV helper is replaced only when a schedule arrived; the regen map is rebuilt with defaults; xDai's pair untouched |
| `TokenDistroContext.TokenDistroProvider.OnXDaiValues` | src/context/tokenDistro.context.tsx:79-95 | the GIV helper is replaced only when a schedule arrived; the regen map keeps only streams with a schedule; mainnet's pair untouched |
| `TokenDistroContext.TokenDistroProvider.OnChainChanged` | src/context/tokenDistro.context.tsx:97-115 | only the selection follows the new chain id |
| `TokenDistroContext.TokenDistroProvider.GetTokenDistroHelper` | src/context/tokenDistro.context.tsx:117-123 | no stream type: the current GIV helper; a stream type: its current regen entry, absent exactly when the map has none |
| `TokenDistroContext.MainnetStreamsAlwaysResolve` | src/context/tokenDistro.context.tsx:69-76 | on mainnet, once the mainnet values have arrived and the map is built, every configured stream type resolves to some helper |
| `Helpers.CompareAddresses` | src/lib/helpers.ts:89-94 | two missing addresses are equal, missing and present are not, two present ones are equal exactly when they agree up to case |
| `Helpers.CompareAddressesEquivalence` | src/lib/helpers.ts:89-94 | reflexive, symmetric and transitive |
| `Helpers.CapitalizeFirstLetter` | src/lib/helpers.ts:108-110 | same length, first character upper-cased, the rest unchanged; empty stays empty |
| `Helpers.SliceFromEnd` | src/lib/helpers.ts:135-137 | `slice(-n)`: the last `n` characters for `0 < n ≤ length`, the whole string for `n = 0` (as `-0` is `0`) or `n` beyond the length |
| `Helpers.ShortenAddress` | src/lib/helpers.ts:124-138 | empty for a missing or empty address; unchanged below `2*charsLength+2`; otherwise the first `charsLength+2` characters, `…`, then `slice(-charsLength)` |
| `Helpers.ShortenAddressDefault` | src/lib/helpers.ts:124-127 | with the default `charsLength` of 4, an address of 10 or more characters becomes 11: its first 6, `…`, its last 4; shorter ones are kept |
| `Helpers.ShortenedLength` | src/lib/helpers.ts:135-137 | with `charsLength > 0` the result has `2*charsLength+3` characters and ends with the last `charsLength` of the address |
| `Helpers.ShortenAddressZeroCharsGrows` | src/lib/helpers.ts:135-137 | with `charsLength = 0` the whole address follows `0x…`, so the result is longer than the input |
| `Helpers.ShortenAddressIntended` | src/lib/helpers.ts:124-138 | as `ShortenAddress`, but the suffix is the last `charsLength` characters: length `2*charsLength+3`, never more than one character longer than the address |
| `Helpers.SliceFront` | src/lib/helpers.ts:49 | `slice(0, length)` is a prefix with `min(length, n)` elements for non-negative `length` |
| `Helpers.NonZeroParts` | src/lib/helpers.ts:41-48 | at most one part per entry |
| `Helpers.DurationToString` | src/lib/helpers.ts:38-50 | the non-zero `${value}${key}` parts in y, m, d, h, min, sec order, first `length` of them, joined by spaces |
| `Helpers.Join` | src/lib/helpers.ts:49 | `join(sep)`: empty for no parts; otherwise starts with the first part, ends with the last, and its length is the parts' total plus one separator per neighbouring pair |
| `Helpers.DurationToStringDefault` | src/lib/helpers.ts:38 | with the default `length` of 3: the first three non-zero parts joined by spaces, so fewer than three spaces |
| `Helpers.PartsAreNonZeroEntries` | src/lib/helpers.ts:41-48 | each part is a non-zero entry's value followed by its key and holds no space |
| `Helpers.JoinSpaces` | src/lib/helpers.ts:49 | joining space-free parts puts exactly one space between neighbours |
| `Helpers.AtMostLengthParts` | src/lib/helpers.ts:38-50 | the result has fewer than `length` spaces, so at most `length` parts |
| `Helpers.FindTab` | src/lib/helpers.ts:332-334 | the index of the first tab whose href is the route, or none when no tab has it |
| `Helpers.IsGivEconomyRoute` | src/lib/helpers.ts:331-336 | true exactly when some GIVeconomy tab links to the route |
| `Helpers.CheckLinkActive` | src/lib/helpers.ts:321-329 | true on the link's own route; for a non-GIVeconomy link only then; for the GIVeconomy link also on every GIVeconomy tab route |
| `Helpers.GetSafeUrl` | src/lib/helpers.ts:372-383 | the fixed Safe URLs of chain 1 and 100; empty exactly for every other chain |
| `Helpers.TransactionLink` | src/lib/helpers.ts:367-370 | empty for an unknown network; otherwise the explorer base followed by `/tx/` and the hash |
| `DonationsTab.NextOrder` | src/components/views/userPublicProfile/PublicProfileDonationsTab.tsx:61-76 | the clicked key becomes the sort key; the same key flips the direction, another key sorts DESC |
| `DonationsTab.ClickTwiceRestores` | src/components/views/userPublicProfile/PublicProfileDonationsTab.tsx:62-69 | clicking the current key twice restores the order |
| `DonationsTab.InjectSortIcon` | src/components/views/userPublicProfile/PublicProfileDonationsTab.tsx:36-46 | neutral exactly on other columns, down arrow exactly on the sorted DESC column, up arrow exactly on the sorted ASC column |
| `DonationsTab.QueryWindow` | src/components/views/userPublicProfile/PublicProfileDonationsTab.tsx:86-87 | take is 10 and skip is the page's multiple of 10 |
| `DonationsTab.PagesTile` | src/components/views/userPublicProfile/PublicProfileDonationsTab.tsx:86-87 | consecutive pages are adjacent windows; earlier pages end before later ones start |
| `DonationsTab.DonationsTabState.constructor` | src/components/views/userPublicProfile/PublicProfileDonationsTab.tsx:55-59 | page 0, order CreationDate DESC |
| `DonationsTab.DonationsTabState.OrderChange` | src/components/views/userPublicProfile/PublicProfileDonationsTab.tsx:61-76 | the order becomes `NextOrder` of the old order and the clicked key |
| `DonationsTab.DonationsTabState.SetPage` | src/components/views/userPublicProfile/PublicProfileDonationsTab.tsx:124-129 | the page becomes the selected one |
| `DonationsTab.DonationsTabState.Query` | src/components/views/userPublicProfile/PublicProfileDonationsTab.tsx:86-87 | the current page's take and skip |

## Findings

| source | as written | input that shows it | evidently intended | confidence | as-written member | corrected member |
|---|---|---|---|---|---|---|
| src/lib/helpers.ts:135-137 | the suffix is `address.slice(-charsLength)`, and `-0` is `0` | `shortenAddress("0xabcdef", 0)` gives `"0x…0xabcdef"`, longer than the input | keep the last `charsLength` characters (none for 0), giving `"0x…"` | low, not executed; no caller passing 0 is known | `Helpers.ShortenAddressZeroCharsGrows` | `Helpers.ShortenAddressIntended` |
| src/components/modals/Stake.tsx:143-151 | the approval result sets WRAP/STAKE or APPROVE whatever the state has become | approve; a block shows the allowance (STAKE); press STAKE (STAKING); the approval resolves (STAKE again); press STAKE: two stake transactions in flight | apply the result only while still APPROVING | low, not executed; needs the block handler to win the race and a press before the approval resolves | `StakeFlow.LateApprovalResubmits` | `StakeFlow.StakeModal.ApprovalSettledIntended` |
| src/components/modals/Stake.tsx:97-110 | the block handler's allowance result sets WRAP/STAKE whatever the state has become; removing the listener does not stop a running handler | approve; a block starts a read; the approval resolves (STAKE); press STAKE; the read resolves (STAKE again); press STAKE: two stake transactions in flight | apply the result only while still APPROVING | low, not executed; needs a slow allowance read | `StakeFlow.LateAllowanceResubmits` | `StakeFlow.StakeModal.AllowanceSettledIntended` |
| src/components/styled-components/Switch.tsx:10-19 | `ToggleSwitch` takes no `disabled` prop, so the flag passed at `Stake.tsx:299-308` is dropped and `handlePermit` runs in APPROVING and STAKING too | approve (STAKE); press STAKE (STAKING); toggle permit on (STAKE); press STAKE: two stake transactions in flight | the toggle is inert outside APPROVE and STAKE, as the flag says | medium, not executed; the interface has no such prop | `StakeFlow.PermitToggleResubmits` | `StakeFlow.StakeModal.HandlePermitIntended` |

## Left out

- Clock and network: `getNowUnixMS()` becomes the parameter `now`. The
  subgraph values, the wallet library and `config` (network numbers, regen
  stream lists, `Routes.GIVECONOMY`, `giveconomyTabs`, `networksParams`) are
  parameters too.
- Floating point: `percent`, the stream rates and `GlobalReleasePercentage`
  are exact reals. JavaScript doubles, bignumber.js's 20-decimal rounding and
  `.toNumber()` are not modelled.
- TokenDistro.TokenDistroHelper.GloballyClaimableNow: it requires
  `startTime ≤ cliffTime ≤ endTime`. Under that order the ramp's divisor is
  positive. The source would throw ethers' division-by-zero only for
  `cliffTime < startTime = endTime = now`, and that case is not modelled.
- TokenDistro.ClaimableMonotone, TokenDistro.ClaimableAtMostTotal,
  TokenDistro.LiquidAtMostAllocation: these hold only for funded schedules
  (`initialAmount + lockedAmount ≤ totalTokens`), which the source assumes
  but does not check.
- `IBalances`: only the four fields the helper reads are modelled.
  `ITokenDistroInfo` dates are millisecond integers.
- `StreamType`: the config enum is not shown. It is modelled as FOX or a
  named regen stream, and a stream type is assumed truthy in
  `getTokenDistroHelper`.
- StakeFlow.StakeModal: `amount` is a natural number. The source keeps the
  decimal string and tests `amount === '0'`, so spellings such as `'00'` are
  not told apart.
- StakeFlow.StakeModal.OnBlock: the signer-address and allowance reads are
  one awaited call; the allowance is the outcome given to `AllowanceSettled`.
- StakeFlow.StakeModal.OnApprove: the approval request enters the `submitted`
  log when the handler starts, although the source first awaits
  `signer.getAddress()`; if that call throws, the log shows a request that was
  never sent, and the state stays APPROVING.
- StakeFlow.StakeModal.OneSubmissionAtATime: approvals are not counted.
  The allowance check can move the session on while the approval is still
  awaited, and toggling permit on and off returns it to APPROVE. A second
  approval can then be sent, in the source as in the model. It only sets the
  same kind of allowance again and transfers nothing, so the bound is stated
  for stake and wrap transactions only.
- StakeFlow.StakeModal.SetAmount: the input is disabled outside APPROVE and
  STAKE, but the edit is not restricted to those states, so the effect's
  reset of WRAP stays reachable as the code has it.
- The block listener's subscribe and teardown, the later `getBalance`
  refresh, `console.error`, closing the modal (CANCEL) and all JSX and styling
  are not modelled. React's re-render timing is reduced to one method per
  event, and the context's effects finish inside the method that triggers
  them.
- Helpers: case mapping covers ASCII letters only. Unicode case rules, such
  as upper-casing `ß`, are not modelled. Strings are sequences of characters,
  not UTF-16 code units.
- Helpers.DurationToString: it takes the six differences as input.
  `DurationToYMDh` and `calcBiggestUnitDifferenceTime` (calendar arithmetic on
  `Date`) are not modelled.
- `formatTxLink` depends on `networkInfo`, which is not part of this model.
- Left out of `helpers.ts` because they do I/O or use browser APIs:
  `sendTransaction`, `signMessage` and `isSafeTx` (network and wallet),
  `getGasPreference` (local storage), `formatDate`/`smallFormatDate` (locale),
  `noImgColor` (randomness), `htmlToText` (regular expressions), `isNoImg`
  (number coercion), `detectBrave` (browser API), `showToastError` (UI) and
  `checkSafeTxStatus` (no body).
- DonationsTab: the `userId` parsing, the GraphQL query, loading flags and
  the table rendering are not modelled.
