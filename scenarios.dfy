/**
 * The scenarios of the two test suites, stated for every start time `t0`: as lemmas over the
 * pure transitions, and as client methods that drive the Token and Faucet objects through their
 * method contracts alone.
 */
module Scenarios {
  import opened Chain
  import opened MyToken
  import opened TokenFaucet
  import D = Deployment

  const OWNER: Address := 1
  const USER1: Address := 2
  const USER2: Address := 3
  const USER3: Address := 4
  const TOKEN_AT: Address := 100
  const FAUCET_AT: Address := 101

  /** The fixture: token and faucet deployed by OWNER and linked. */
  function Fixture(): D.World
  {
    D.Deployed(OWNER, TOKEN_AT, FAUCET_AT)
  }

  /** Deployment defaults of both contracts, and the faucet refusing the zero token address. */
  lemma DeploymentDefaults()
    ensures FAUCET_AMOUNT == 10 * ONE_TOKEN && MAX_CLAIM_AMOUNT == 50 * ONE_TOKEN && COOLDOWN_TIME == 86400
    ensures MAX_SUPPLY == 1_000_000 * ONE_TOKEN && NAME == "SepoliaTestToken" && SYMBOL == "STT"
    ensures var t := TokenDeployed(OWNER);
      t.totalSupply == 0 && t.owner == OWNER && t.faucetAddress == ZERO_ADDRESS
    ensures var f := FaucetDeployed(OWNER, TOKEN_AT);
      f.Ok? && f.value.admin == OWNER && !f.value.paused
    ensures FaucetDeployed(OWNER, ZERO_ADDRESS) == Revert(TokenAddressZero)
  {
  }

  /** A first claim pays FAUCET_AMOUNT, records it and its time, and emits TokensClaimed. */
  lemma FirstClaim(t0: nat)
    ensures var w := D.Step(Fixture(), D.RequestTokens(USER1, t0));
      && BalanceOf(w.token, USER1) == FAUCET_AMOUNT
      && TotalClaimed(w.faucet, USER1) == FAUCET_AMOUNT
      && LastClaimAt(w.faucet, USER1) == t0
      && w.faucet.log == [TokensClaimed(USER1, FAUCET_AMOUNT, t0)]
      && RemainingAllowance(w.faucet, USER1) == MAX_CLAIM_AMOUNT - FAUCET_AMOUNT
  {
  }

  /** A second claim at once reverts with CannotClaimYet; one COOLDOWN_TIME later it pays again. */
  lemma ClaimAfterCooldown(t0: nat)
    ensures var w1 := D.Step(Fixture(), D.RequestTokens(USER1, t0));
      && AfterRequestTokens(w1.faucet, w1.token, FAUCET_AT, USER1, t0) == Revert(CannotClaimYet)
      && !CanClaim(w1.faucet, USER1, t0)
      && TimeUntilNextClaim(w1.faucet, USER1, t0) == COOLDOWN_TIME
      && CanClaim(w1.faucet, USER1, t0 + COOLDOWN_TIME)
      && TimeUntilNextClaim(w1.faucet, USER1, t0 + COOLDOWN_TIME) == 0
      && var w2 := D.Step(w1, D.RequestTokens(USER1, t0 + COOLDOWN_TIME));
         && BalanceOf(w2.token, USER1) == 2 * FAUCET_AMOUNT
         && TotalClaimed(w2.faucet, USER1) == 2 * FAUCET_AMOUNT
         && RemainingAllowance(w2.faucet, USER1) == MAX_CLAIM_AMOUNT - 2 * FAUCET_AMOUNT
  {
  }

  /** The five claims spaced by COOLDOWN_TIME starting at t0. */
  function FiveClaims(t0: nat): seq<D.Call>
  {
    seq(5, i requires 0 <= i < 5 => D.RequestTokens(USER1, t0 + i * COOLDOWN_TIME))
  }

  /** One more claim by USER1, once the cooldown since the previous one has passed, adds one
      FAUCET_AMOUNT to both its claimed total and its balance. */
  lemma OneMoreClaim(w: D.World, k: nat, now: nat)
    requires k < 5 && w.faucetAt == FAUCET_AT && w.token.faucetAddress == FAUCET_AT && !w.faucet.paused
    requires TotalClaimed(w.faucet, USER1) == k * FAUCET_AMOUNT
    requires BalanceOf(w.token, USER1) == k * FAUCET_AMOUNT && w.token.totalSupply == k * FAUCET_AMOUNT
    requires USER1 in w.faucet.lastClaimAt ==> w.faucet.lastClaimAt[USER1] + COOLDOWN_TIME <= now
    ensures var w' := D.Step(w, D.RequestTokens(USER1, now));
      && w'.faucetAt == FAUCET_AT && w'.token.faucetAddress == FAUCET_AT && !w'.faucet.paused
      && TotalClaimed(w'.faucet, USER1) == (k + 1) * FAUCET_AMOUNT
      && BalanceOf(w'.token, USER1) == (k + 1) * FAUCET_AMOUNT && w'.token.totalSupply == (k + 1) * FAUCET_AMOUNT
      && USER1 in w'.faucet.lastClaimAt && w'.faucet.lastClaimAt[USER1] == now
  {
    assert CanClaim(w.faucet, USER1, now);
  }

  /** Five spaced claims reach the lifetime cap exactly; a sixth reverts with CannotClaimYet
      although the cooldown has passed, and canClaim and remainingAllowance say so. */
  lemma FiveClaimsReachCap(t0: nat)
    ensures var w := D.Run(Fixture(), FiveClaims(t0));
      && BalanceOf(w.token, USER1) == MAX_CLAIM_AMOUNT
      && TotalClaimed(w.faucet, USER1) == MAX_CLAIM_AMOUNT
      && RemainingAllowance(w.faucet, USER1) == 0
      && TimeUntilNextClaim(w.faucet, USER1, t0 + 5 * COOLDOWN_TIME) == 0
      && !CanClaim(w.faucet, USER1, t0 + 5 * COOLDOWN_TIME)
      && AfterRequestTokens(w.faucet, w.token, FAUCET_AT, USER1, t0 + 5 * COOLDOWN_TIME) == Revert(CannotClaimYet)
  {
    var calls := FiveClaims(t0);
    var w := Fixture();
    var k := 0;
    while k < 5
      invariant 0 <= k <= 5
      invariant D.Run(Fixture(), calls) == D.Run(w, calls[k..])
      invariant w.faucetAt == FAUCET_AT && w.token.faucetAddress == FAUCET_AT && !w.faucet.paused
      invariant TotalClaimed(w.faucet, USER1) == k * FAUCET_AMOUNT
      invariant BalanceOf(w.token, USER1) == k * FAUCET_AMOUNT && w.token.totalSupply == k * FAUCET_AMOUNT
      invariant k > 0 ==> USER1 in w.faucet.lastClaimAt && w.faucet.lastClaimAt[USER1] == t0 + (k - 1) * COOLDOWN_TIME
      invariant k == 0 ==> USER1 !in w.faucet.lastClaimAt
    {
      assert calls[k..] == [calls[k]] + calls[k + 1..];
      OneMoreClaim(w, k, t0 + k * COOLDOWN_TIME);
      w := D.Step(w, calls[k]);
      k := k + 1;
    }
  }

  /** Several accounts claim at the same time and each gets FAUCET_AMOUNT. */
  lemma IndependentClaims(t0: nat)
    ensures var w1 := D.Step(Fixture(), D.RequestTokens(USER1, t0));
      var w2 := D.Step(w1, D.RequestTokens(USER2, t0));
      var w3 := D.Step(w2, D.RequestTokens(USER3, t0));
      && BalanceOf(w3.token, USER1) == FAUCET_AMOUNT
      && BalanceOf(w3.token, USER2) == FAUCET_AMOUNT
      && BalanceOf(w3.token, USER3) == FAUCET_AMOUNT
  {
  }

  /** Cooldowns run per account: USER1 claims at t0 and USER2 half a cooldown later. */
  lemma StaggeredCooldowns(t0: nat)
    ensures var half := COOLDOWN_TIME / 2;
      var w1 := D.Step(Fixture(), D.RequestTokens(USER1, t0));
      var w := D.Step(w1, D.RequestTokens(USER2, t0 + half));
      && !CanClaim(w.faucet, USER1, t0 + half) && !CanClaim(w.faucet, USER2, t0 + half)
      && CanClaim(w.faucet, USER1, t0 + COOLDOWN_TIME) && !CanClaim(w.faucet, USER2, t0 + COOLDOWN_TIME)
  {
  }

  /** A reverted claim by USER1 leaves the world as it was and does not stand in USER2's way. */
  lemma FailedClaimLeavesOthers(t0: nat)
    ensures var w1 := D.Step(Fixture(), D.RequestTokens(USER1, t0));
      var w := D.Step(w1, D.RequestTokens(USER1, t0));
      && w == w1
      && AfterRequestTokens(w.faucet, w.token, FAUCET_AT, USER2, t0).Ok?
  {
  }

  /** Pausing: only the admin may, it emits FaucetPaused, claims revert with FaucetIsPaused
      while paused and succeed again after unpausing. */
  lemma PauseScenario(t0: nat)
    ensures AfterSetPaused(Fixture().faucet, USER1, true) == Revert(OnlyAdmin)
    ensures var paused := AfterSetPaused(Fixture().faucet, OWNER, true);
      && paused.Ok? && paused.value.paused && paused.value.log == [FaucetPaused(true)]
      && !CanClaim(paused.value, USER1, t0)
      && AfterRequestTokens(paused.value, Fixture().token, FAUCET_AT, USER1, t0) == Revert(FaucetIsPaused)
      && var resumed := AfterSetPaused(paused.value, OWNER, false);
         && resumed.Ok? && !resumed.value.paused
         && resumed.value.log == [FaucetPaused(true), FaucetPaused(false)]
         && AfterRequestTokens(resumed.value, Fixture().token, FAUCET_AT, USER1, t0).Ok?
  {
  }

  /** Admin transfer: only the admin may, not to the zero address, and afterwards only the new
      admin can pause. */
  lemma AdminTransferScenario()
    ensures AfterTransferAdmin(Fixture().faucet, USER1, USER2) == Revert(OnlyAdmin)
    ensures AfterTransferAdmin(Fixture().faucet, OWNER, ZERO_ADDRESS) == Revert(NewAdminZero)
    ensures var moved := AfterTransferAdmin(Fixture().faucet, OWNER, USER1);
      && moved.Ok? && moved.value.admin == USER1
      && AfterSetPaused(moved.value, USER1, true).Ok?
      && AfterSetPaused(moved.value, OWNER, true) == Revert(OnlyAdmin)
  {
  }

  /** The token's faucet address: owner only, never zero, replaceable, each change logged. */
  lemma FaucetAddressManagement()
    ensures var t := TokenDeployed(OWNER);
      && AfterSetFaucetAddress(t, USER1, FAUCET_AT) == Revert(OwnableUnauthorizedAccount(USER1))
      && AfterSetFaucetAddress(t, OWNER, ZERO_ADDRESS) == Revert(FaucetAddressZero)
      && var t1 := AfterSetFaucetAddress(t, OWNER, FAUCET_AT);
         && t1.Ok? && t1.value.faucetAddress == FAUCET_AT
         && t1.value.log == [FaucetAddressSet(ZERO_ADDRESS, FAUCET_AT)]
         && var t2 := AfterSetFaucetAddress(t1.value, OWNER, USER1);
            && t2.Ok? && t2.value.faucetAddress == USER1
            && t2.value.log == [FaucetAddressSet(ZERO_ADDRESS, FAUCET_AT), FaucetAddressSet(FAUCET_AT, USER1)]
  {
  }

  /** A refused attempt to rename the minter (by a non-owner, or naming the zero address) changes
      nothing and keeps the faucet as minter, so the supply accounting still applies after it. */
  lemma RefusedMinterChangeKeepsMinter()
    ensures var w := Fixture();
      && D.KeepsMinter(w, D.SetFaucetAddress(USER1, USER2)) && D.Step(w, D.SetFaucetAddress(USER1, USER2)) == w
      && D.KeepsMinter(w, D.SetFaucetAddress(OWNER, ZERO_ADDRESS)) && D.Step(w, D.SetFaucetAddress(OWNER, ZERO_ADDRESS)) == w
      && !D.KeepsMinter(w, D.SetFaucetAddress(OWNER, USER2))
  {
  }

  /** Minting: only the faucet, never to the zero address, up to MAX_SUPPLY and not beyond. */
  lemma MintingScenarios()
    ensures var t := Fixture().token;
      && AfterMint(t, USER1, USER1, 100 * ONE_TOKEN) == Revert(OnlyFaucetCanMint)
      && AfterMint(t, FAUCET_AT, ZERO_ADDRESS, 100 * ONE_TOKEN) == Revert(MintToZeroAddress)
      && AfterMint(t, FAUCET_AT, USER1, MAX_SUPPLY + ONE_TOKEN) == Revert(MaxSupplyExceeded)
      && AfterMint(t, FAUCET_AT, USER1, MAX_SUPPLY).Ok?
      && AfterMint(t, FAUCET_AT, USER1, MAX_SUPPLY).value.totalSupply == MAX_SUPPLY
      && (var half := AfterMint(t, FAUCET_AT, USER1, 500_000 * ONE_TOKEN);
          && half.Ok?
          && AfterMint(half.value, FAUCET_AT, USER2, 500_001 * ONE_TOKEN) == Revert(MaxSupplyExceeded))
      && (var m1 := AfterMint(t, FAUCET_AT, USER1, 100 * ONE_TOKEN);
          && m1.Ok?
          && var m2 := AfterMint(m1.value, FAUCET_AT, USER2, 200 * ONE_TOKEN);
             && m2.Ok?
             && BalanceOf(m2.value, USER1) == 100 * ONE_TOKEN && BalanceOf(m2.value, USER2) == 200 * ONE_TOKEN
             && m2.value.totalSupply == 300 * ONE_TOKEN)
  {
  }

  /** EIP-20 transfers, approvals and transferFrom after USER1 has been minted 1000 tokens. */
  lemma Erc20Scenario()
    ensures var funded := AfterMint(Fixture().token, FAUCET_AT, USER1, 1000 * ONE_TOKEN);
      && funded.Ok?
      && (var sent := AfterTransfer(funded.value, USER1, USER2, 100 * ONE_TOKEN);
          && sent.Ok?
          && BalanceOf(sent.value, USER2) == 100 * ONE_TOKEN && BalanceOf(sent.value, USER1) == 900 * ONE_TOKEN)
      && var approved := AfterApprove(funded.value, USER1, USER2, 100 * ONE_TOKEN);
         && approved.Ok? && Allowance(approved.value, USER1, USER2) == 100 * ONE_TOKEN
         && var pulled := AfterTransferFrom(approved.value, USER2, USER1, USER2, 100 * ONE_TOKEN);
            && pulled.Ok? && BalanceOf(pulled.value, USER2) == 100 * ONE_TOKEN
            && Allowance(pulled.value, USER1, USER2) == 0
  {
  }

  /** The fixture built from the objects: the token, the faucet, and the token pointed at the faucet. */
  method DeployFixture() returns (token: Token, faucet: Faucet)
    ensures fresh(token) && fresh(faucet) && faucet.token == token && faucet.address == FAUCET_AT
    ensures token.Valid() && faucet.Valid()
    ensures token.State() == Fixture().token && faucet.State() == Fixture().faucet
  {
    token := new Token(OWNER, TOKEN_AT);
    var deployed := Faucet.Deploy(OWNER, FAUCET_AT, token);
    assert deployed.Ok?;
    faucet := deployed.value;
    var linked := token.SetFaucetAddress(OWNER, FAUCET_AT);
  }

  /** The claim loop of the cap tests, run on the objects: five claims a cooldown apart
      each pay FAUCET_AMOUNT, and the sixth reverts with CannotClaimYet. */
  method ClaimUntilCap(t0: nat) returns (balance: nat, claimed: nat, sixth: Outcome<FaucetError>)
    ensures balance == MAX_CLAIM_AMOUNT && claimed == MAX_CLAIM_AMOUNT
    ensures sixth == Fail(CannotClaimYet)
  {
    var token, faucet := DeployFixture();
    var now := t0;
    for i := 0 to 5
      invariant token.Valid() && faucet.Valid() && faucet.token == token && faucet.address == FAUCET_AT
      invariant token.faucetAddress == FAUCET_AT && !faucet.paused && now == t0 + i * COOLDOWN_TIME
      invariant TotalClaimed(faucet.State(), USER1) == i * FAUCET_AMOUNT
      invariant BalanceOf(token.State(), USER1) == i * FAUCET_AMOUNT && token.totalSupply == i * FAUCET_AMOUNT
      invariant i > 0 ==> USER1 in faucet.lastClaimAt && faucet.lastClaimAt[USER1] + COOLDOWN_TIME == now
      invariant i == 0 ==> USER1 !in faucet.lastClaimAt
    {
      var claim := faucet.RequestTokens(USER1, now);
      now := now + COOLDOWN_TIME;
    }
    balance := Lookup(token.balances, USER1);
    claimed := Lookup(faucet.totalClaimed, USER1);
    sixth := faucet.RequestTokens(USER1, now);
  }

  /** The cooldown and pause tests on the objects: an immediate second claim reverts with
      CannotClaimYet, a claim while paused with FaucetIsPaused, and after unpausing a
      claim one cooldown later pays. */
  method CooldownAndPause(t0: nat) returns (again: Outcome<FaucetError>, whilePaused: Outcome<FaucetError>,
                                           resumed: Outcome<FaucetError>, balance: nat)
    ensures again == Fail(CannotClaimYet) && whilePaused == Fail(FaucetIsPaused) && resumed == Pass
    ensures balance == 2 * FAUCET_AMOUNT
  {
    var token, faucet := DeployFixture();
    var first := faucet.RequestTokens(USER1, t0);
    assert first == Pass;
    again := faucet.RequestTokens(USER1, t0);
    var pause := faucet.SetPaused(OWNER, true);
    whilePaused := faucet.RequestTokens(USER1, t0 + COOLDOWN_TIME);
    var unpause := faucet.SetPaused(OWNER, false);
    resumed := faucet.RequestTokens(USER1, t0 + COOLDOWN_TIME);
    balance := Lookup(token.balances, USER1);
  }
}
