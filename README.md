# Sepolia test-token faucet, modelled in Dafny

The repository holds two contracts.

- **MyToken** is an EIP-20 token named "SepoliaTestToken" (symbol "STT", 18 decimals). It has
  an owner and a hard cap `MAX_SUPPLY` of one million tokens. The owner names one
  `faucetAddress`, and only that address may mint.
- **TokenFaucet** hands out `FAUCET_AMOUNT` (10 tokens) per claim. It enforces a per-account
  cooldown `COOLDOWN_TIME` (24 hours) and a per-account lifetime cap `MAX_CLAIM_AMOUNT`
  (50 tokens). An admin can pause claiming and can pass the admin role on.

The Solidity sources are not part of this model. Their behaviour, constants, error cases and
events are taken from the two test suites, `test/Token.test.js` and `test/TokenFaucet.test.js`.
Both suites are cited below.

## Modules

| file | module | contents |
|---|---|---|
| `chain.dfy` | `Chain` | addresses, `Result`/`Outcome`, `Commit` (a reverted call keeps the old state), `Lookup` (a missing map entry reads as 0, like a Solidity mapping) |
| `sums.dfy` | `Sums` | the sum of a balance map, with the update lemma that supply accounting rests on |
| `token.dfy` | `MyToken` | the token state, every token call as a pure transition `After…`, and the class `Token` whose methods update fields and are proved equal to those transitions |
| `faucet.dfy` | `TokenFaucet` | the faucet state, its views (`CanClaim`, `RemainingAllowance`, `TimeUntilNextClaim`), its calls as transitions, and the class `Faucet` whose `RequestTokens` calls `Token.Mint` |
| `deployment.dfy` | `Deployment` | both contracts deployed together, every transaction as a `Call`, and the invariants that hold over any sequence of calls |
| `scenarios.dfy` | `Scenarios` | the test scenarios as lemmas for every start time, plus client methods that drive the objects through the claim and pause tests |

### Decisions

- **Time.** The block timestamp is the explicit parameter `now`.
- **Never claimed.** An account that never claimed has no entry in `lastClaimAt`, so its first
  claim is never blocked by the cooldown, even at time 0.
- **Cooldown.** A claim is in cooldown exactly when `now < lastClaimAt + COOLDOWN_TIME`, so a
  claim exactly one `COOLDOWN_TIME` later succeeds. This boundary is the model's own choice. The
  tests at `test/TokenFaucet.test.js:87-98` advance the clock by `COOLDOWN_TIME` and then claim in
  a later block, at least one second past the cooldown, so they do not fix the boundary.
  `timeUntilNextClaim` is `lastClaimAt + COOLDOWN_TIME - now` during the cooldown and 0 otherwise.
- **Lifetime cap.** A claim is refused when `totalClaimed + FAUCET_AMOUNT > MAX_CLAIM_AMOUNT`.
  Because claims are always exactly `FAUCET_AMOUNT`, this is the same as refusing at
  `totalClaimed >= MAX_CLAIM_AMOUNT`.
- **Order of checks in a claim.** "Paused" is checked first, then the cap and the cooldown. Both
  of the latter revert with the same error, `CannotClaimYet`.
- **All or nothing.** A claim mints and then records the claim. Either both happen or, when the
  token refuses the mint, neither does. The refusal surfaces as `TokenReverted(cause)`.
- **Mint permission.** Mint checks the caller against `faucetAddress` first, then the zero
  recipient, then the supply cap.
- **EIP-20 checks.** The error checks follow OpenZeppelin ERC20 v5, which the token's
  `OwnableUnauthorizedAccount` error points to:
  - `transfer`: zero sender, then zero receiver, then insufficient balance;
  - `approve`: zero approver, then zero spender;
  - `transferFrom`: the allowance is spent first (insufficient allowance, then zero approver,
    then zero spender), and the units are moved after that (zero receiver, then insufficient
    balance). A revert in the second part undoes the first.
- **Events.** Each contract's events are kept as an append-only log in its state.

## Model

| member | source | states |
|---|---|---|
| MyToken.BalanceOf | test/Token.test.js:78-84 | the balanceOf getter: an account never credited holds 0, and under the supply accounting no account holds more than the total supply |
| MyToken.Allowance | test/Token.test.js:153-161 | the allowance getter: the recorded allowance for that owner and spender, 0 when never approved |
| MyToken.TokenDeployed | test/Token.test.js:18-39 | after deployment the deployer is owner, the faucet address is zero, the supply is zero, every balance and allowance is zero, and the supply accounting holds |
| MyToken.AfterSetFaucetAddress | test/Token.test.js:41-71 | succeeds iff the caller is the owner and the new address is non-zero; otherwise reverts with OwnableUnauthorizedAccount or FaucetAddressZero; on success only the faucet address changes, and FaucetAddressSet(old, new) is logged |
| MyToken.AfterMint | test/Token.test.js:73-137 | succeeds iff the caller is the faucet address, the recipient is non-zero and the supply stays within MAX_SUPPLY; each failure has its own error; on success the recipient's balance and the supply both grow by the amount, no other balance changes, and Transfer(0, to, amount) is logged |
| MyToken.MintKeepsSupplyInvariant | test/Token.test.js:100-124 | every accepted mint keeps the supply equal to the sum of all balances and at most MAX_SUPPLY |
| MyToken.MintUpToCap | test/Token.test.js:109-124 | the faucet can mint exactly MAX_SUPPLY from zero, and any further unit is then refused with MaxSupplyExceeded |
| MyToken.MoveEffect | test/Token.test.js:145-151 | moving value debits the sender, credits the receiver, leaves every other balance alone and keeps the sum of balances |
| MyToken.AfterTransfer | test/Token.test.js:145-151 | succeeds iff sender and receiver are non-zero and the sender's balance covers the value; otherwise reverts with ERC20InvalidSender, then ERC20InvalidReceiver, then ERC20InsufficientBalance; on success the balances move by the value, the supply is unchanged and Transfer is logged |
| MyToken.TransferConservesBalances | test/Token.test.js:145-151 | a transfer keeps the supply invariant |
| MyToken.AfterApprove | test/Token.test.js:153-157 | succeeds iff owner and spender are non-zero, otherwise reverts with ERC20InvalidApprover, then ERC20InvalidSpender; on success sets that one allowance to the value, leaves every other allowance and all balances alone, and logs Approval |
| MyToken.AfterTransferFrom | test/Token.test.js:153-162 | succeeds iff the allowance covers the value, owner, spender and receiver are non-zero and the balance covers the value; each failure has its own error, in OpenZeppelin v5's order (allowance, approver, spender, receiver, balance); on success the balances move, that allowance drops by the value and nothing else changes |
| MyToken.TransferFromConservesBalances | test/Token.test.js:153-162 | a transferFrom keeps the supply invariant |
| MyToken.Token.constructor | test/Token.test.js:11-39 | a new token object holds the deployment state |
| MyToken.Token.SetFaucetAddress | test/Token.test.js:41-71 | the object outcome and new fields are exactly AfterSetFaucetAddress's (the old fields on a revert) |
| MyToken.Token.Mint | test/Token.test.js:73-137 | the object outcome and new fields are exactly AfterMint's, and the supply invariant is kept |
| MyToken.Token.Transfer | test/Token.test.js:145-151 | the object outcome and new fields are exactly AfterTransfer's, and the supply invariant is kept |
| MyToken.Token.Approve | test/Token.test.js:153-157 | the object outcome and new fields are exactly AfterApprove's |
| MyToken.Token.TransferFrom | test/Token.test.js:153-162 | the object outcome and new fields are exactly AfterTransferFrom's, and the supply invariant is kept |
| TokenFaucet.LastClaimAt | test/TokenFaucet.test.js:70-76 | the lastClaimAt getter: the time of the account's last claim, 0 for an account that never claimed |
| TokenFaucet.TotalClaimed | test/TokenFaucet.test.js:61-68 | the totalClaimed getter: 0 for an account that never claimed, and never above MAX_CLAIM_AMOUNT while the lifetime cap holds |
| TokenFaucet.FaucetDeployed | test/TokenFaucet.test.js:33-57 | deployment fails with TokenAddressZero iff the token address is zero; otherwise the deployer is admin, claiming is open and no account has claimed |
| TokenFaucet.CanClaim | test/TokenFaucet.test.js:136-164 | true iff the faucet is not paused, the account is not in cooldown and another claim fits under the lifetime cap; equivalently, iff not paused, remainingAllowance is at least FAUCET_AMOUNT and timeUntilNextClaim is 0 |
| TokenFaucet.RemainingAllowance | test/TokenFaucet.test.js:166-191 | claimed plus remaining is MAX_CLAIM_AMOUNT while within the cap; it is 0 iff the cap is reached, and below FAUCET_AMOUNT iff no further claim fits |
| TokenFaucet.TimeUntilNextClaim | test/TokenFaucet.test.js:193-211 | 0 iff the account is not in cooldown; otherwise `now` plus the wait is exactly the end of the cooldown, and, when the last claim is not after `now`, the wait is at most COOLDOWN_TIME |
| TokenFaucet.AfterRequestTokens | test/TokenFaucet.test.js:60-134 | a paused faucet reverts with FaucetIsPaused, a full cap or a running cooldown with CannotClaimYet, and a mint the token refuses with TokenReverted(cause); it succeeds iff CanClaim holds and the token accepts the mint; on success the claimer's total grows by FAUCET_AMOUNT, the claim time becomes `now`, TokensClaimed is logged, the claimer's balance and the supply grow by FAUCET_AMOUNT, no other account's total or balance changes, the token's owner, faucet address and allowances are kept, and the token logs Transfer(0, caller, FAUCET_AMOUNT) |
| TokenFaucet.AfterSetPaused | test/TokenFaucet.test.js:213-253 | succeeds iff the caller is admin; sets the flag, logs FaucetPaused(flag) and changes nothing else |
| TokenFaucet.AfterTransferAdmin | test/TokenFaucet.test.js:255-287 | reverts with OnlyAdmin for a non-admin and with NewAdminZero for the zero address; otherwise only the admin changes |
| TokenFaucet.CallsKeepClaimsWithinCap | test/TokenFaucet.test.js:100-123 | claims, pausing and admin transfer never take any account's total above MAX_CLAIM_AMOUNT |
| TokenFaucet.ClaimStartsCooldown | test/TokenFaucet.test.js:78-98 | after a successful claim at `now`, the same account cannot claim before `now + COOLDOWN_TIME` and waits exactly the rest of the cooldown |
| TokenFaucet.TimeUntilNextClaimDecreases | test/TokenFaucet.test.js:193-211 | as time passes, the wait shrinks by the time elapsed until it reaches 0 |
| TokenFaucet.ClaimUsesAllowance | test/TokenFaucet.test.js:171-182 | a successful claim lowers the remaining allowance by exactly FAUCET_AMOUNT |
| TokenFaucet.ClaimsAreIndependent | test/TokenFaucet.test.js:289-316 | one account's claim changes neither another account's totals and claim time, nor whether that account can claim |
| TokenFaucet.PauseGatesEveryClaim | test/TokenFaucet.test.js:238-252 | while paused no account can claim; unpausing gives every account back the eligibility it had before pausing |
| TokenFaucet.TransferAdminMovesControl | test/TokenFaucet.test.js:273-286 | after the admin role moves, the new admin can pause and the old admin is refused with OnlyAdmin |
| TokenFaucet.Faucet.constructor | test/TokenFaucet.test.js:18-31 | given a token with a non-zero address, the new faucet object holds that token, its own address and the deployment state |
| TokenFaucet.Faucet.Deploy | test/TokenFaucet.test.js:18-57 | a missing token is refused with TokenAddressZero; otherwise a fresh faucet holds the deployment state |
| TokenFaucet.Faucet.RequestTokens | test/TokenFaucet.test.js:60-134 | the outcome and the new faucet and token fields are exactly AfterRequestTokens's, a refused mint being reported as TokenReverted, and both objects' invariants are kept |
| TokenFaucet.Faucet.SetPaused | test/TokenFaucet.test.js:213-253 | the object outcome and new fields are exactly AfterSetPaused's |
| TokenFaucet.Faucet.TransferAdmin | test/TokenFaucet.test.js:255-287 | the object outcome and new fields are exactly AfterTransferAdmin's |
| Sums.SumUpdate | test/Token.test.js:126-137 | changing one account's entry changes the sum of all entries by exactly the difference |
| Deployment.DeployedIsLinked | test/TokenFaucet.test.js:18-31 | right after the fixture's deployment the faucet is the minter, the owner is admin, supply and claims are zero and all invariants hold |
| Deployment.StepKeepsInvariant | test/TokenFaucet.test.js:100-123 | every call, accepted or reverted, keeps the supply invariant and every account within the lifetime cap |
| Deployment.RunKeepsInvariant | test/TokenFaucet.test.js:100-123 | after any sequence of calls no account has claimed more than MAX_CLAIM_AMOUNT and the supply is at most MAX_SUPPLY |
| Deployment.StepNeverTakesBack | test/TokenFaucet.test.js:171-191 | no call lowers an account's claimed total or the supply |
| Deployment.RunNeverTakesBack | test/TokenFaucet.test.js:171-191 | no sequence of calls lowers an account's claimed total or the supply |
| Deployment.StepKeepsLinked | test/TokenFaucet.test.js:61-68 | for any call that does not name a different non-zero minter from the owner's account (refused renaming attempts are allowed), the supply stays equal to the sum of all claimed totals |
| Deployment.StepKeepsBalancesAreClaims | test/TokenFaucet.test.js:61-68 | for a call that keeps the faucet as minter and, if it is a transfer or transferFrom, leaves every balance as it was, each balance stays equal to that account's claimed total |
| Deployment.TransfersThatMoveNothing | test/Token.test.js:139-162 | a transfer or transferFrom leaves every balance as it was exactly when it reverts, moves a zero value, or moves units from an account to itself |
| Deployment.MintedSupplyIsClaimed | test/TokenFaucet.test.js:100-134 | from a linked state, over any sequence of calls none of which names a different non-zero minter from the owner's account, the supply equals the sum of claimed totals; and balances equal claims when no call of the sequence changes a balance by a transfer or transferFrom |
| Scenarios.DeploymentDefaults | test/TokenFaucet.test.js:14-57 | the constants, the deployment defaults of both contracts, and the refusal of the zero token address |
| Scenarios.FirstClaim | test/TokenFaucet.test.js:61-76 | a first claim at any time pays FAUCET_AMOUNT, records the time and logs TokensClaimed |
| Scenarios.ClaimAfterCooldown | test/TokenFaucet.test.js:78-98 | an immediate second claim reverts with CannotClaimYet; one cooldown later it pays again |
| Scenarios.OneMoreClaim | test/TokenFaucet.test.js:100-110 | once the cooldown since USER1's previous claim has passed and the cap is not reached, one more claim adds FAUCET_AMOUNT to its claimed total, its balance and the supply, and records the claim time |
| Scenarios.FiveClaimsReachCap | test/TokenFaucet.test.js:100-123 | five claims a cooldown apart pay exactly MAX_CLAIM_AMOUNT, leave no allowance, and a sixth reverts with CannotClaimYet |
| Scenarios.IndependentClaims | test/TokenFaucet.test.js:125-134 | three accounts claiming at the same time each get FAUCET_AMOUNT |
| Scenarios.StaggeredCooldowns | test/TokenFaucet.test.js:290-306 | cooldowns run per account from each account's own claim time |
| Scenarios.FailedClaimLeavesOthers | test/TokenFaucet.test.js:308-316 | a reverted claim leaves the world unchanged and another account can still claim |
| Scenarios.PauseScenario | test/TokenFaucet.test.js:213-253 | only the admin can pause; pausing logs FaucetPaused(true); claims revert while paused and pay again after unpausing |
| Scenarios.AdminTransferScenario | test/TokenFaucet.test.js:255-287 | the admin-transfer tests: refusals for non-admin and zero address, then the new admin pauses and the old one is refused |
| Scenarios.RefusedMinterChangeKeepsMinter | test/Token.test.js:50-60 | a non-owner's renaming attempt and the owner naming the zero address both leave the deployment unchanged and count as keeping the minter; the owner naming another account does not |
| Scenarios.FaucetAddressManagement | test/Token.test.js:41-71 | the faucet-address tests: owner only, never zero, replaceable, each change logged with the old and new address |
| Scenarios.MintingScenarios | test/Token.test.js:73-137 | the minting tests: faucet only, never to zero, up to MAX_SUPPLY and not beyond, several recipients |
| Scenarios.Erc20Scenario | test/Token.test.js:139-162 | the EIP-20 tests: a transfer, then an approval and a transferFrom that uses it |
| Scenarios.DeployFixture | test/TokenFaucet.test.js:18-31 | the objects built as the fixture does hold the fixture's states, with the token pointed at the faucet |
| Scenarios.ClaimUntilCap | test/TokenFaucet.test.js:100-123 | on the objects, five claims a cooldown apart leave the claimer holding and having claimed exactly MAX_CLAIM_AMOUNT, and a sixth fails with CannotClaimYet |
| Scenarios.CooldownAndPause | test/TokenFaucet.test.js:78-98 | on the objects, an immediate second claim fails with CannotClaimYet, a claim while paused fails with FaucetIsPaused, one after unpausing a cooldown later passes, and the balance is two claims |

## Left out

- Contract sources: the Solidity files of MyToken and TokenFaucet are not part of this model. The checks, their order and the events are reconstructed from the tests, as described under Decisions.
- Execution environment: gas, blocks, mining, signatures and transaction ordering are not modelled. Each call is applied atomically with an explicit `now`.
- Timestamp drift: the few seconds a test network adds between transactions are not modelled. An "immediate" retry uses the same `now`.
- Integer width: `uint256` arithmetic is not modelled. All amounts are unbounded naturals. Balances, the supply and claimed totals stay below MAX_SUPPLY, but allowances and mint arguments are not bounded by it. A mint whose `totalSupply + amount` passes 2^256 would stop with a Solidity arithmetic panic, while the model reports MaxSupplyExceeded for it.
- Reentrancy: the token's mint calls no outside code, so the order of the faucet's mint and its own writes cannot be observed and is not modelled.
- Ownable: `transferOwnership` and `renounceOwnership` of the token are not used by the tests and are not modelled. The token's owner never changes.
- EIP-20 extras: the unlimited-allowance convention (`type(uint256).max`) and the `increaseAllowance`/`decreaseAllowance` helpers are not modelled. `name`, `symbol` and `decimals` are constants.
- Zero caller: a transaction never comes from the zero address on a real chain; the model does not forbid it.
- Deployment scripts, the verification script and the frontend are not modelled: scripts/deploy.js, scripts/verify.js, contracts/scripts/deploy.js, frontend/src/App.jsx and frontend/server.js are not part of this model. They call the contracts but add no contract behaviour.
- Deployment.MintedSupplyIsClaimed: the balance-equals-claims half is stated only for call sequences in which no transfer or transferFrom changes a balance, because such a call moves units between accounts without changing claims. Both halves also assume the faucet contract sends no transactions of its own and the owner never names a different non-zero minter.
