# Deposit-liquidity validation and the asset-location registry, in Dafny

This project models two pieces of the SORA/Polkaswap runtime and proves what
they promise.

**Depositing liquidity into an XYK pool** (`pallets/pool-xyk/src/action_deposit_liquidity.rs`).
A deposit action has three legs:
- two source legs, one per asset of the pair;
- a destination leg, the pool's marker (liquidity) token.

Each leg carries an amount bound: a placeholder (`Dummy`), an exact `Desired` amount, a `Min`, a
`RangeFromDesiredToMin`, or a `Calculated` amount.

`prepare_and_validate` binds the client and receiver accounts. It then classifies the pool as empty,
with reserves, or invalid, and prices it at `k = floor(sqrt(reserve_a * reserve_b))`. It fills in the
amounts that are still missing, settles the minimum liquidity, and checks the source account's
balances. For an empty pool it keeps the minimum liquidity locked. A check is abstract when no source
account is given or some leg is still a placeholder. An abstract check skips most of these steps.

`reserve` moves the funds and mints the marker tokens. Only the client account may call it.

**The converter pallet** (`pallets/converter/src/lib.rs`).
It keeps two storage maps, asset id → XCM location and location → asset id. Root calls register,
change and delete mappings, and three `Convert` lookups read the maps.

Files:
- `wrappers.dfy`: `Option`, `Result` and a pass/fail `Outcome`.
- `fixed.dfy`: balances as 128-bit unsigned integers; the fixed-point wrapper as an exact
  value or an invalid one; the floor square root.
- `bounds.dfy`: the amount bounds, their conversion to a definite amount, and the
  satisfaction relation.
- `deposit_liquidity.dfy`: `prepare_and_validate` as pure stage functions composed by
  `Prepare`, and the class `DepositLiquidityAction`. The class's methods update its fields in
  place, and each is proved equal to its stage function.
- `deposit_liquidity_properties.dfy`: what a check promises.
- `converter.dfy`: the registry as functions on the pair of maps, the class `Registry`
  whose methods update the two map fields, and the registry's properties.

State that `prepare_and_validate` reads from elsewhere in the runtime is passed in as a
`Snapshot` value:
- the pool's account;
- the pool validity and marking-asset lookups;
- the four free balances;
- the marker token's total issuance;
- `calc_deposit_liquidity_1`;
- `MIN_LIQUIDITY`.

The model follows the code as written. Three places read differently from what they evidently
intend (see "## Findings"). There, `Prepare` and the methods take a `Revision`: `AsWritten` follows
the code and `Corrected` follows the intent.

## Model

| member | source | states |
|---|---|---|
| DepositLiquidity.DepositLiquidityAction.PrepareAndValidate | pallets/pool-xyk/src/action_deposit_liquidity.rs:60-319 | the status and the fields the in-place check leaves are those of `Prepare` on the old fields, including the updates made before an error |
| DepositLiquidity.DepositLiquidityAction.Begin | pallets/pool-xyk/src/action_deposit_liquidity.rs:60-153 | binds the accounts, reads the lookups and balances, and classifies the pool, exactly as the stage `Start` |
| DepositLiquidity.DepositLiquidityAction.DeriveAmounts | pallets/pool-xyk/src/action_deposit_liquidity.rs:155-273 | computes the invariant and fills in the missing amounts, exactly as the stage `ResolveAmounts` |
| DepositLiquidity.DepositLiquidityAction.MarkerDesiredInPlace | pallets/pool-xyk/src/action_deposit_liquidity.rs:196-236 | resolves both source legs from a desired marker amount, as `MarkerDesired` |
| DepositLiquidity.DepositLiquidityAction.RangeBothInPlace | pallets/pool-xyk/src/action_deposit_liquidity.rs:237-266 | takes all three amounts from `calc_deposit_liquidity_1` for two range legs, as `RangeBoth` |
| DepositLiquidity.DepositLiquidityAction.SettleMinLiquidity | pallets/pool-xyk/src/action_deposit_liquidity.rs:275-289 | defaults the minimum liquidity to the recommended one, or refuses one below it |
| DepositLiquidity.DepositLiquidityAction.CheckAccountLimits | pallets/pool-xyk/src/action_deposit_liquidity.rs:291-311 | applies the minimum-liquidity guard and the two balance checks without changing any field; a failed unwrap is a panic |
| DepositLiquidity.DepositLiquidityAction.LockInitialLiquidity | pallets/pool-xyk/src/action_deposit_liquidity.rs:313-319 | for an empty pool the marker amount becomes the amount minus the minimum liquidity; an underflow is a panic |
| DepositLiquidity.DepositLiquidityAction.Reserve | pallets/pool-xyk/src/action_deposit_liquidity.rs:341-379 | refuses any caller but the client and propagates a pool-account error; succeeds exactly when the legs and the receiver are definite; on success issues exactly two transfers in, one mint to the receiver and one reserve update, and on failure none |
| DepositLiquidity.DepositLiquidityAction.InstantAutoClaimUsed | pallets/pool-xyk/src/action_deposit_liquidity.rs:321-323 | the action settles by instant auto-claim |
| DepositLiquidity.DepositLiquidityAction.TriggeredAutoClaimUsed | pallets/pool-xyk/src/action_deposit_liquidity.rs:324-326 | the action never waits for a triggered claim |
| DepositLiquidity.DepositLiquidityAction.IsAbleToClaim | pallets/pool-xyk/src/action_deposit_liquidity.rs:327-329 | a claim is always possible |
| DepositLiquidity.DepositLiquidityAction.Claim | pallets/pool-xyk/src/action_deposit_liquidity.rs:380-382 | claiming always succeeds |
| DepositLiquidity.ToBalance | pallets/pool-xyk/src/action_deposit_liquidity.rs:171 | converting a fixed-point value succeeds exactly when it is exact and fits in 128 bits, and then yields that value; otherwise it fails with the calculation error |
| DepositLiquidity.IsAbstractChecking | pallets/pool-xyk/src/action_deposit_liquidity.rs:54-58 | a check is abstract exactly when one of its three legs is still the `Dummy` placeholder |
| Fixed.FloorSqrt | pallets/pool-xyk/src/action_deposit_liquidity.rs:164-173 | the result r is the floor square root: r*r <= n < (r+1)*(r+1) |
| Fixed.FloorSqrtUnique | pallets/pool-xyk/src/action_deposit_liquidity.rs:164-173 | the floor square root is the only number with that bracket |
| Fixed.SqrtOfProductFits | pallets/pool-xyk/src/action_deposit_liquidity.rs:171-172 | the square root of a product of two balances is again a balance, so the conversion at these lines never fails |
| Fixed.MultiplyAndSqrt | pallets/pool-xyk/src/action_deposit_liquidity.rs:168-173 | the result is exact when both operands are, and is the floor square root of their product |
| Fixed.Div | pallets/pool-xyk/src/action_deposit_liquidity.rs:199-201 | a quotient is exact unless an operand is invalid or the divisor is zero, and it is the floor of the quotient |
| Fixed.DivOfBalance | pallets/pool-xyk/src/action_deposit_liquidity.rs:200-201 | dividing a balance by a positive amount gives a balance no larger than it |
| Bound.Definite | pallets/pool-xyk/src/action_deposit_liquidity.rs:149-152 | a bound has a definite amount exactly when it is `Desired` or `Calculated`, and that amount is its value |
| DepositLiquidityProperties.AbstractStart | pallets/pool-xyk/src/action_deposit_liquidity.rs:60-153 | an abstract check leaves the action untouched in the first stage, stays abstract, and does not read the source's balances |
| DepositLiquidityProperties.ConcreteStart | pallets/pool-xyk/src/action_deposit_liquidity.rs:67-153 | a concrete check refuses a different client, otherwise binds the accounts; when it goes on, its locals hold the source balances and an empty pool has definite initial amounts |
| DepositLiquidityProperties.ResolveAmountsFrame | pallets/pool-xyk/src/action_deposit_liquidity.rs:155-273 | resolving the amounts never changes the accounts or the minimum liquidity, changes nothing in an abstract check, and changes only the invariant among the locals |
| DepositLiquidityProperties.AbstractAmountsIgnoreSnapshot | pallets/pool-xyk/src/action_deposit_liquidity.rs:177 | in an abstract check, resolving the amounts reads no external state |
| DepositLiquidityProperties.PrepareKeepsStartAccounts | pallets/pool-xyk/src/action_deposit_liquidity.rs:155-319 | after the first stage no step changes the client, receiver or pool account |
| DepositLiquidityProperties.AbstractCheckKeepsAccountsAndSources | pallets/pool-xyk/src/action_deposit_liquidity.rs:54-66 | an abstract check never binds an account, never rewrites a source leg, and gives the same result whatever the source account's balances |
| DepositLiquidityProperties.ConcreteCheckBindsAccounts | pallets/pool-xyk/src/action_deposit_liquidity.rs:67-96 | a concrete check refuses a client other than the source before changing anything; otherwise the client becomes the source and an unset receiver becomes the source |
| DepositLiquidityProperties.ZeroBalanceRefused | pallets/pool-xyk/src/action_deposit_liquidity.rs:104-124 | a whole concrete check whose source account holds none of one of the pair's assets is refused with the account-balance error, with the accounts already bound |
| DepositLiquidityProperties.ConcreteStartClassifies | pallets/pool-xyk/src/action_deposit_liquidity.rs:131-153 | once lookups and balances succeed, a pool with one empty reserve is invalid, a pool with both reserves goes on, and an empty pool needs definite amounts on both source legs |
| DepositLiquidityProperties.PoolInvariantIsFloorSqrt | pallets/pool-xyk/src/action_deposit_liquidity.rs:158-175 | the invariant is absent only for an abstract check of an empty pool; otherwise it is the floor square root of the reserves' product, or of the initial amounts' product for an empty pool |
| DepositLiquidityProperties.PoolClassification | pallets/pool-xyk/src/action_deposit_liquidity.rs:131-175 | a whole concrete check refuses a pool with exactly one empty reserve; a pool with both reserves is priced at the floor square root of their product |
| DepositLiquidityProperties.EmptyPoolNeedsDefiniteRatio | pallets/pool-xyk/src/action_deposit_liquidity.rs:143-153 | a concrete deposit into an empty pool without definite amounts on both source legs fails as undefined ratio |
| DepositLiquidityProperties.EmptyPoolAmounts | pallets/pool-xyk/src/action_deposit_liquidity.rs:178-190 | for an empty pool a desired marker amount must equal k, and any other marker bound becomes `Calculated(k)` |
| DepositLiquidityProperties.SettleClosedForm | pallets/pool-xyk/src/action_deposit_liquidity.rs:275-319 | for any concrete check with definite legs and invariant k, the remaining steps in closed form: the minimum is refused below the recommended one; the guard refuses a marker amount below the minimum less the invariant it reads (k, or 0 for an empty pool when corrected); then each short source balance is refused by name; a pool with reserves is done; an empty pool gives the depositor the marker amount less the minimum, or panics as written when that underflows |
| DepositLiquidityProperties.EmptyPoolDeposit | pallets/pool-xyk/src/action_deposit_liquidity.rs:60-319 | the whole check of a deposit of x and y into an empty pool, in closed form with k = floor(sqrt(x*y)), for the code as written and corrected |
| DepositLiquidityProperties.NonEmptyPoolAmounts | pallets/pool-xyk/src/action_deposit_liquidity.rs:191-272 | for a pool with reserves, a desired marker leg always takes the marker arm; two range legs take the range arm; every other shape cannot be decided |
| DepositLiquidityProperties.ThisCaseIsNotSupportedIsUnreachable | pallets/pool-xyk/src/action_deposit_liquidity.rs:196-260 | the "case not supported" error at line 259 is never raised by the check itself |
| DepositLiquidityProperties.MarkerDesiredAlwaysFailsAsWritten | pallets/pool-xyk/src/action_deposit_liquidity.rs:196-202 | as written, a positive desired marker on a pool with reserves always fails: the divisor `init_x` is zero there |
| DepositLiquidityProperties.ZeroMarkerIsRefused | pallets/pool-xyk/src/action_deposit_liquidity.rs:194-197 | a whole concrete check of a pool with reserves whose marker leg is `Desired(0)` is refused with the zero-value error, as written and corrected |
| DepositLiquidityProperties.RangeDeposit | pallets/pool-xyk/src/action_deposit_liquidity.rs:237-265 | a whole concrete check of a pool with reserves with two range legs and a non-desired marker: an inverted range is refused; an error of the total issuance or of `calc_deposit_liquidity_1` is the check's; otherwise its three amounts become the `Calculated` legs and the remaining steps run on them |
| DepositLiquidityProperties.CorrectedMarkerLegs | pallets/pool-xyk/src/action_deposit_liquidity.rs:196-236 | corrected: the source amounts are the reserves divided by the whole-number piece k/d; a zero piece fails; each desired leg must match and each other leg must accept its amount, with the base leg's error first and the base leg left rewritten when the target leg is refused; on success both legs are definite and within their bounds |
| DepositLiquidityProperties.LargeMarkerFails | pallets/pool-xyk/src/action_deposit_liquidity.rs:196-203 | corrected, in whole numbers: a desired marker amount above the pool's invariant always fails the division |
| DepositLiquidityProperties.WholePieceOvercharges | pallets/pool-xyk/src/action_deposit_liquidity.rs:196-236 | corrected, in whole numbers: 30 marker units of a 100/100 pool cost 33 of each asset |
| DepositLiquidityProperties.MarkerDesiredDefinite | pallets/pool-xyk/src/action_deposit_liquidity.rs:204-235 | a successful marker arm leaves both source legs definite and the marker leg unchanged |
| DepositLiquidityProperties.RangeBothDefinite | pallets/pool-xyk/src/action_deposit_liquidity.rs:251-264 | a successful range arm leaves all three legs definite |
| DepositLiquidityProperties.ConcreteAmountsAreDefinite | pallets/pool-xyk/src/action_deposit_liquidity.rs:177-273 | after a concrete check resolves its amounts, every leg is definite and the invariant is known, so the later unwraps are safe |
| DepositLiquidityProperties.ConcreteSettle | pallets/pool-xyk/src/action_deposit_liquidity.rs:275-319 | in a concrete check the last steps panic only as written, on an empty pool whose marker amount is below the minimum; each limit error implies its own failed comparison; success means the minimum liquidity is at least the recommended one, the guard of line 299 passed and the balances cover both amounts |
| DepositLiquidityProperties.ConcreteCheckOutcome | pallets/pool-xyk/src/action_deposit_liquidity.rs:60-319 | a successful concrete check leaves what `reserve` needs: both accounts bound, all legs definite, balances that cover both amounts, and a minimum at least the recommended one |
| DepositLiquidityProperties.CorrectedCheckNeverPanics | pallets/pool-xyk/src/action_deposit_liquidity.rs:291-319 | corrected, no check panics, abstract or concrete |
| DepositLiquidityProperties.AsWrittenDesiredMarkerFails | pallets/pool-xyk/src/action_deposit_liquidity.rs:196-202 | as written, every concrete check of a pool with reserves with a positive desired marker fails with the calculation error |
| DepositLiquidityProperties.DesiredMarkerDeposit | pallets/pool-xyk/src/action_deposit_liquidity.rs:196-236 | 10 marker units into a 100/100 pool: fails as written; corrected, it asks for 10 of each asset and succeeds |
| DepositLiquidityProperties.AsWrittenLockCanUnderflow | pallets/pool-xyk/src/action_deposit_liquidity.rs:299-316 | 500 and 500 into an empty pool with minimum 1000: panics as written; corrected, it is refused as not large enough |
| DepositLiquidityProperties.AbstractEmptyPoolLock | pallets/pool-xyk/src/action_deposit_liquidity.rs:313-317 | an abstract check of an empty pool with a placeholder marker panics as written, and passes when corrected |
| Converter.Registry.RegisterMapping | pallets/converter/src/lib.rs:92-107 | updates the two map fields as `Register` |
| Converter.Registry.ChangeMapping | pallets/converter/src/lib.rs:109-132 | two in-place steps whose first write is rolled back when the second finds no entry; the whole is `Change` |
| Converter.Registry.DeleteMapping | pallets/converter/src/lib.rs:134-151 | updates the two map fields as `Delete` |
| Converter.ConvertAssetId | pallets/converter/src/lib.rs:154-158 | an asset id converts to a location exactly when it is mapped, and then to its entry in the first map |
| Converter.ConvertMultiLocation | pallets/converter/src/lib.rs:160-164 | a location converts to an asset id exactly when it is mapped, and then to its entry in the second map |
| Converter.ConvertMultiAsset | pallets/converter/src/lib.rs:166-174 | a fungible asset named by a location converts as its location does; any other asset converts to none |
| Converter.RegisterGuard | pallets/converter/src/lib.rs:98-102 | registration is refused exactly when both keys are mapped, and a refusal changes nothing |
| Converter.RegisterEffect | pallets/converter/src/lib.rs:103-104 | after registering, the lookups round-trip between the asset id and the location, and every other entry is unchanged |
| Converter.RegisterFreshKeepsMirror | pallets/converter/src/lib.rs:98-104 | registering two fresh keys keeps the maps inverse to each other |
| Converter.RegisterCanLeaveStaleEntry | pallets/converter/src/lib.rs:98-104 | re-registering a mapped asset id with a fresh location is accepted and leaves the old location pointing at the asset id, so the maps are no longer inverse |
| Converter.ChangeGuard | pallets/converter/src/lib.rs:110-129 | a change succeeds exactly when both keys are mapped; a failure leaves both maps unchanged |
| Converter.ChangeEffect | pallets/converter/src/lib.rs:117-129 | a change overwrites both entries and nothing else |
| Converter.ChangeLeavesOldPartners | pallets/converter/src/lib.rs:117-129 | changing between two mirrored pairs leaves both old partners pointing at the new keys, so the maps are no longer inverse |
| Converter.DeleteGuardAndEffect | pallets/converter/src/lib.rs:142-148 | deletion is refused exactly when neither key is mapped; otherwise both keys are gone and every other entry is unchanged |
| Converter.DeletePairKeepsMirror | pallets/converter/src/lib.rs:142-148 | deleting a pair that maps to each other keeps the maps inverse |
| Converter.MirroredRoundTrip | pallets/converter/src/lib.rs:154-164 | while the maps are inverse, converting an asset id to its location and back returns it, and likewise for a location |
| Converter.ConvertMultiAssetByLocation | pallets/converter/src/lib.rs:166-174 | a fungible concrete asset converts as its location whatever its amount, so after a successful registration of an asset at a location any amount there converts to that asset; a non-fungible one converts to none |
| Converter.RunTouchesOnlyNamedKeys | pallets/converter/src/lib.rs:88-152 | over any history of root calls, each a transaction, an asset id or location that no call names keeps its entry or its absence |
| Converter.TidyHistoryKeepsMirror | pallets/converter/src/lib.rs:91-148 | a history made only of registrations of fresh pairs and deletions of matched pairs keeps the two maps inverse to each other |

## Left out

- The bodies of `crate::bounds` are not part of this model. Three behaviours follow the documented meaning of bounds:
  - `Option::from` and `unwrap` give the amount of a `Desired` or `Calculated` bound.
  - `unwrap` of any other bound panics.
  - `meets_the_boundaries` requires equality for `Desired`, at least the minimum for `Min` and `RangeFromDesiredToMin`, and nothing for `Dummy` and `Calculated`.
- Fixed.Div and Fixed.MultiplyAndSqrt: the fixed-point wrapper's 18 decimal places are not modelled. Its values are whole numbers with floor division and floor square root, and any overflow of the wrapper itself is not modelled. In the corrected marker arm this changes outcomes: every marker amount above the invariant k buys a zero piece and fails (k = 100, 200 marker units fail, where fixed point would ask about twice the reserves), and a marker amount that does not divide k rounds the piece down and asks for more (k = 100, 30 units cost 33 of each asset of a 100/100 pool, where fixed point gives 30). `LargeMarkerFails` and `WholePieceOvercharges` state both.
- `calc_deposit_liquidity_1` is not part of this model. It is an uninterpreted function of the `Snapshot`, with its result taken as given.
- Ledger and storage calls are inputs:
  - In `prepare_and_validate`: `free_balance`, `total_issuance`, `tech_account_id_to_account_id`, `is_pool_account_valid_for`, `get_marking_asset` and `MIN_LIQUIDITY` are fields of `Snapshot`.
  - DepositLiquidity.DepositLiquidityAction.Reserve returns the transfer, mint and reserve-update calls it would make. A failure inside `transfer_in`, `mint_to`, `free_balance` or the second account lookup is not modelled, and nor are the balances passed to `update_reserves`.
- The conversions of the destination asset id at line 346 (`asset_repr`) and line 103 (`repr_k_asset_id`, the asset whose total issuance is read) are treated as the identity.
- Integer overflow is a panic. The u128 underflow at line 316 and every `unwrap` of a missing value become the status `Panicked`. A build without overflow checks would wrap at line 316 instead.
- `weight` and `cancel` are `unimplemented!()` in the source and are not modelled.
- Converter: `ensure_root` and the three events are not modelled; every call is assumed to come from root.
- Converter: XCM locations and asset instances are opaque values compared by equality. A fungible amount is an unbounded natural number.
- `runtime/src/xcm_tests/para_x.rs` (test-runtime configuration) is not part of this model.

## Findings

| source | as written | input that shows it | evidently intended | confidence | as-written member | corrected member |
|---|---|---|---|---|---|---|
| pallets/pool-xyk/src/action_deposit_liquidity.rs:198 | the divisor for a desired marker amount is `init_x`, which is still 0 for a pool with reserves, so the division fails | pool 100/100, marker `Desired(10)`, both source legs `Min(0)`, balances 10/10: the check fails with the calculation error | divide by `destination_k`: the depositor is asked for 10 of each asset | not executed; high | DepositLiquidityProperties.AsWrittenDesiredMarkerFails | DepositLiquidityProperties.CorrectedMarkerLegs |
| pallets/pool-xyk/src/action_deposit_liquidity.rs:299-316 | for an empty pool the minimum-liquidity guard subtracts the deposit's own k, so it admits k < min, and `k - min` then underflows | 500 and 500 into an empty pool with minimum 1000: k = 500 passes the guard, and 500 - 1000 underflows | compare with the pool's existing invariant, 0 for an empty pool, which refuses the deposit as not large enough | not executed; medium | DepositLiquidityProperties.AsWrittenLockCanUnderflow | DepositLiquidityProperties.CorrectedCheckNeverPanics |
| pallets/pool-xyk/src/action_deposit_liquidity.rs:313-317 | the lock of the initial liquidity also runs in an abstract check, where the marker bound may be a placeholder, and its `unwrap` panics | abstract check (no source account) of an empty pool whose marker leg is `Dummy` | lock only in a concrete check, as the comment at line 314 assumes; the corrected reading therefore also skips the subtraction for an abstract check whose marker bound is definite | not executed; medium | DepositLiquidityProperties.AbstractEmptyPoolLock | DepositLiquidityProperties.CorrectedCheckNeverPanics |
