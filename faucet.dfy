/**
 * TokenFaucet: hands out FAUCET_AMOUNT of MyToken per claim, at most once per COOLDOWN_TIME
 * per account and at most MAX_CLAIM_AMOUNT per account over its lifetime, unless the single
 * admin has paused it.
 *
 * The block timestamp of a call is the explicit parameter `now`; the caller's address is the
 * explicit parameter `caller`.
 */
module TokenFaucet {
  import opened Chain
  import opened MyToken

  const FAUCET_AMOUNT: nat := 10 * ONE_TOKEN
  const MAX_CLAIM_AMOUNT: nat := 50 * ONE_TOKEN
  const COOLDOWN_TIME: nat := 24 * 60 * 60

  datatype FaucetError =
    | TokenAddressZero              // deployment with the zero token address
    | OnlyAdmin                     // an admin-only call from another account
    | NewAdminZero                  // admin rights handed to the zero address
    | FaucetIsPaused                // a claim while paused
    | CannotClaimYet                // a claim in cooldown or past the lifetime cap
    | TokenReverted(cause: TokenError)  // the token refused the mint

  datatype FaucetEvent =
    | TokensClaimed(user: Address, amount: nat, timestamp: nat)
    | FaucetPaused(paused: bool)

  /** The faucet's storage. An address absent from `lastClaimAt` has never claimed. */
  datatype FaucetState = FaucetState(
    admin: Address,
    paused: bool,
    lastClaimAt: map<Address, nat>,
    totalClaimed: map<Address, nat>,
    log: seq<FaucetEvent>)

  /** The lastClaimAt getter: 0 for an account that has never claimed. */
  function LastClaimAt(s: FaucetState, user: Address): (t: nat)
    ensures user !in s.lastClaimAt ==> t == 0
    ensures user in s.lastClaimAt ==> t == s.lastClaimAt[user]
  {
    Lookup(s.lastClaimAt, user)
  }

  /** The totalClaimed getter: 0 for an account that has never claimed, never above the cap. */
  function TotalClaimed(s: FaucetState, user: Address): (c: nat)
    ensures user !in s.totalClaimed ==> c == 0
    ensures ClaimsWithinCap(s) ==> c <= MAX_CLAIM_AMOUNT
  {
    Lookup(s.totalClaimed, user)
  }

  /** The user claimed less than COOLDOWN_TIME seconds before `now`. */
  predicate InCooldown(s: FaucetState, user: Address, now: nat)
  {
    user in s.lastClaimAt && now < s.lastClaimAt[user] + COOLDOWN_TIME
  }

  /** One more claim would take the user past the lifetime cap. */
  predicate CapReached(s: FaucetState, user: Address)
  {
    TotalClaimed(s, user) + FAUCET_AMOUNT > MAX_CLAIM_AMOUNT
  }

  /** No account has received more than the lifetime cap. */
  ghost predicate ClaimsWithinCap(s: FaucetState)
  {
    forall user | user in s.totalClaimed :: s.totalClaimed[user] <= MAX_CLAIM_AMOUNT
  }

  /** The state right after deployment by `deployer`, pointing at the token at `tokenAddress`. */
  function FaucetDeployed(deployer: Address, tokenAddress: Address): (r: Result<FaucetState, FaucetError>)
    ensures r.Revert? <==> tokenAddress == ZERO_ADDRESS
    ensures r.Revert? ==> r.error == TokenAddressZero
    ensures r.Ok? ==> r.value.admin == deployer && !r.value.paused && r.value.log == []
    ensures r.Ok? ==> forall user :: !(user in r.value.lastClaimAt) && TotalClaimed(r.value, user) == 0
    ensures r.Ok? ==> ClaimsWithinCap(r.value)
  {
    if tokenAddress == ZERO_ADDRESS then Revert(TokenAddressZero)
    else Ok(FaucetState(deployer, false, map[], map[], []))
  }

  /** canClaim: a claim by `user` at time `now` passes the faucet's own checks. */
  function CanClaim(s: FaucetState, user: Address, now: nat): (b: bool)
    ensures b <==> !s.paused && !CapReached(s, user) && !InCooldown(s, user, now)
    ensures b <==> !s.paused && RemainingAllowance(s, user) >= FAUCET_AMOUNT && TimeUntilNextClaim(s, user, now) == 0
  {
    !s.paused && TotalClaimed(s, user) + FAUCET_AMOUNT <= MAX_CLAIM_AMOUNT
    && (user !in s.lastClaimAt || now >= s.lastClaimAt[user] + COOLDOWN_TIME)
  }

  /** remainingAllowance: how much of the lifetime cap the user has left. */
  function RemainingAllowance(s: FaucetState, user: Address): (left: nat)
    ensures TotalClaimed(s, user) <= MAX_CLAIM_AMOUNT ==> left + TotalClaimed(s, user) == MAX_CLAIM_AMOUNT
    ensures left == 0 <==> TotalClaimed(s, user) >= MAX_CLAIM_AMOUNT
    ensures left < FAUCET_AMOUNT <==> CapReached(s, user)
  {
    if TotalClaimed(s, user) >= MAX_CLAIM_AMOUNT then 0 else MAX_CLAIM_AMOUNT - TotalClaimed(s, user)
  }

  /** timeUntilNextClaim: seconds until the user's cooldown is over, 0 when it is not running. */
  function TimeUntilNextClaim(s: FaucetState, user: Address, now: nat): (wait: nat)
    ensures wait == 0 <==> !InCooldown(s, user, now)
    ensures wait > 0 ==> now + wait == s.lastClaimAt[user] + COOLDOWN_TIME
    ensures user in s.lastClaimAt && s.lastClaimAt[user] <= now ==> wait <= COOLDOWN_TIME
  {
    if user !in s.lastClaimAt then 0
    else if now >= s.lastClaimAt[user] + COOLDOWN_TIME then 0
    else s.lastClaimAt[user] + COOLDOWN_TIME - now
  }

  /** The faucet's record of a successful claim by `user` at `now`. */
  function RecordClaim(s: FaucetState, user: Address, now: nat): FaucetState
  {
    s.(lastClaimAt := s.lastClaimAt[user := now],
       totalClaimed := s.totalClaimed[user := TotalClaimed(s, user) + FAUCET_AMOUNT],
       log := s.log + [TokensClaimed(user, FAUCET_AMOUNT, now)])
  }

  /** The token accepts the faucet's mint of one FAUCET_AMOUNT to `user`. */
  predicate MintAccepted(t: TokenState, faucetAt: Address, user: Address)
  {
    t.faucetAddress == faucetAt && user != ZERO_ADDRESS && t.totalSupply + FAUCET_AMOUNT <= MAX_SUPPLY
  }

  /**
   * requestTokens by `caller` at `now`, for a faucet deployed at `faucetAt` and the token it mints
   * with. Both contracts change together or not at all.
   */
  function AfterRequestTokens(s: FaucetState, t: TokenState, faucetAt: Address, caller: Address, now: nat)
    : (r: Result<(FaucetState, TokenState), FaucetError>)
    ensures s.paused ==> r == Revert(FaucetIsPaused)
    ensures !s.paused && (CapReached(s, caller) || InCooldown(s, caller, now)) ==> r == Revert(CannotClaimYet)
    ensures r.Ok? <==> CanClaim(s, caller, now) && MintAccepted(t, faucetAt, caller)
    ensures CanClaim(s, caller, now) && !MintAccepted(t, faucetAt, caller) ==>
              r == Revert(TokenReverted(AfterMint(t, faucetAt, caller, FAUCET_AMOUNT).error))
    ensures r.Ok? ==> var (s', t') := r.value;
      && TotalClaimed(s', caller) == TotalClaimed(s, caller) + FAUCET_AMOUNT
      && s'.lastClaimAt == s.lastClaimAt[caller := now]
      && s'.log == s.log + [TokensClaimed(caller, FAUCET_AMOUNT, now)]
      && s'.admin == s.admin && s'.paused == s.paused
      && (forall user :: user != caller ==> TotalClaimed(s', user) == TotalClaimed(s, user))
      && BalanceOf(t', caller) == BalanceOf(t, caller) + FAUCET_AMOUNT
      && t'.totalSupply == t.totalSupply + FAUCET_AMOUNT
      && (forall a :: a != caller ==> BalanceOf(t', a) == BalanceOf(t, a))
      && t'.owner == t.owner && t'.faucetAddress == t.faucetAddress && t'.allowances == t.allowances
      && t'.log == t.log + [TokenEvent.Transfer(ZERO_ADDRESS, caller, FAUCET_AMOUNT)]
  {
    if s.paused then Revert(FaucetIsPaused)
    else if !CanClaim(s, caller, now) then Revert(CannotClaimYet)
    else
      match AfterMint(t, faucetAt, caller, FAUCET_AMOUNT)
      case Revert(e) => Revert(TokenReverted(e))
      case Ok(t') => Ok((RecordClaim(s, caller, now), t'))
  }

  /** setPaused: the admin switches claiming off or on. */
  function AfterSetPaused(s: FaucetState, caller: Address, value: bool): (r: Result<FaucetState, FaucetError>)
    ensures r.Ok? <==> caller == s.admin
    ensures r.Revert? ==> r.error == OnlyAdmin
    ensures r.Ok? ==> r.value.paused == value && r.value.log == s.log + [FaucetPaused(value)]
    ensures r.Ok? ==> r.value.(paused := s.paused, log := s.log) == s
  {
    if caller != s.admin then Revert(OnlyAdmin)
    else Ok(s.(paused := value, log := s.log + [FaucetPaused(value)]))
  }

  /** transferAdmin: the admin hands its rights to a non-zero address. */
  function AfterTransferAdmin(s: FaucetState, caller: Address, newAdmin: Address): (r: Result<FaucetState, FaucetError>)
    ensures r.Ok? <==> caller == s.admin && newAdmin != ZERO_ADDRESS
    ensures caller != s.admin ==> r == Revert(OnlyAdmin)
    ensures caller == s.admin && newAdmin == ZERO_ADDRESS ==> r == Revert(NewAdminZero)
    ensures r.Ok? ==> r.value == s.(admin := newAdmin)
  {
    if caller != s.admin then Revert(OnlyAdmin)
    else if newAdmin == ZERO_ADDRESS then Revert(NewAdminZero)
    else Ok(s.(admin := newAdmin))
  }

  /** Every faucet call keeps each account's total within the lifetime cap. */
  lemma CallsKeepClaimsWithinCap(s: FaucetState, t: TokenState, faucetAt: Address, caller: Address, now: nat,
                                 value: bool, newAdmin: Address)
    requires ClaimsWithinCap(s)
    ensures var r := AfterRequestTokens(s, t, faucetAt, caller, now); r.Ok? ==> ClaimsWithinCap(r.value.0)
    ensures var r := AfterSetPaused(s, caller, value); r.Ok? ==> ClaimsWithinCap(r.value)
    ensures var r := AfterTransferAdmin(s, caller, newAdmin); r.Ok? ==> ClaimsWithinCap(r.value)
  {
    var r := AfterRequestTokens(s, t, faucetAt, caller, now);
    if r.Ok? {
      forall user | user in r.value.0.totalClaimed ensures r.value.0.totalClaimed[user] <= MAX_CLAIM_AMOUNT {
        if user != caller {
          assert TotalClaimed(r.value.0, user) == TotalClaimed(s, user);
        }
      }
    }
  }

  /** A claim starts the cooldown: until COOLDOWN_TIME has passed every further claim by the same
      account reverts with CannotClaimYet, canClaim is false and timeUntilNextClaim counts down
      from exactly COOLDOWN_TIME; from then on the cooldown no longer stands in the way. */
  lemma ClaimStartsCooldown(s: FaucetState, t: TokenState, faucetAt: Address, caller: Address, now: nat,
                            t2: TokenState, later: nat)
    requires AfterRequestTokens(s, t, faucetAt, caller, now).Ok?
    ensures var s' := AfterRequestTokens(s, t, faucetAt, caller, now).value.0;
      && TimeUntilNextClaim(s', caller, now) == COOLDOWN_TIME
      && LastClaimAt(s', caller) == now
      && (now <= later < now + COOLDOWN_TIME ==>
            AfterRequestTokens(s', t2, faucetAt, caller, later) == Revert(CannotClaimYet)
            && !CanClaim(s', caller, later)
            && TimeUntilNextClaim(s', caller, later) == now + COOLDOWN_TIME - later)
      && (later >= now + COOLDOWN_TIME ==>
            TimeUntilNextClaim(s', caller, later) == 0
            && CanClaim(s', caller, later) == !CapReached(s', caller))
  {
  }

  /** As time passes, timeUntilNextClaim shrinks by exactly the time elapsed until it reaches 0. */
  lemma TimeUntilNextClaimDecreases(s: FaucetState, user: Address, now: nat, later: nat)
    requires now <= later
    ensures TimeUntilNextClaim(s, user, later) ==
              if TimeUntilNextClaim(s, user, now) >= later - now then TimeUntilNextClaim(s, user, now) - (later - now)
              else 0
  {
  }

  /** Each claim takes exactly FAUCET_AMOUNT off the remaining allowance. */
  lemma ClaimUsesAllowance(s: FaucetState, t: TokenState, faucetAt: Address, caller: Address, now: nat)
    requires ClaimsWithinCap(s)
    requires AfterRequestTokens(s, t, faucetAt, caller, now).Ok?
    ensures var s' := AfterRequestTokens(s, t, faucetAt, caller, now).value.0;
      RemainingAllowance(s', caller) + FAUCET_AMOUNT == RemainingAllowance(s, caller)
  {
  }

  /** A claim, and a failed claim, leave every other account's record and eligibility as they were. */
  lemma ClaimsAreIndependent(s: FaucetState, t: TokenState, faucetAt: Address, caller: Address, now: nat,
                             other: Address, when: nat)
    requires other != caller
    ensures var r := AfterRequestTokens(s, t, faucetAt, caller, now);
      var s' := if r.Ok? then r.value.0 else s;
      && LastClaimAt(s', other) == LastClaimAt(s, other)
      && (other in s'.lastClaimAt <==> other in s.lastClaimAt)
      && TotalClaimed(s', other) == TotalClaimed(s, other)
      && CanClaim(s', other, when) == CanClaim(s, other, when)
      && TimeUntilNextClaim(s', other, when) == TimeUntilNextClaim(s, other, when)
      && RemainingAllowance(s', other) == RemainingAllowance(s, other)
  {
  }

  /** While paused nobody can claim; unpausing restores exactly the eligibility the
      unchanged records give. */
  lemma PauseGatesEveryClaim(s: FaucetState, value: bool, user: Address, now: nat)
    requires AfterSetPaused(s, s.admin, value).Ok?
    ensures var s' := AfterSetPaused(s, s.admin, value).value;
      && (value ==> !CanClaim(s', user, now) && !InCooldown(s', user, now) == !InCooldown(s, user, now))
      && (!value ==> CanClaim(s', user, now) == (!CapReached(s, user) && !InCooldown(s, user, now)))
      && s'.lastClaimAt == s.lastClaimAt && s'.totalClaimed == s.totalClaimed
  {
  }

  /** After a transfer of admin rights only the new admin can pause or transfer them again. */
  lemma TransferAdminMovesControl(s: FaucetState, newAdmin: Address, caller: Address, value: bool, next: Address)
    requires newAdmin != ZERO_ADDRESS
    ensures AfterTransferAdmin(s, s.admin, newAdmin).Ok?
    ensures var s' := AfterTransferAdmin(s, s.admin, newAdmin).value;
      && s'.admin == newAdmin
      && (AfterSetPaused(s', caller, value).Ok? <==> caller == newAdmin)
      && (caller != newAdmin ==> AfterTransferAdmin(s', caller, next) == Revert(OnlyAdmin))
  {
  }

  /** The faucet contract's storage as mutable fields, holding the token it mints with. */
  class Faucet {
    /** The address the contract was deployed at: the token only lets that address mint. */
    const address: Address
    const token: Token
    var admin: Address
    var paused: bool
    var lastClaimAt: map<Address, nat>
    var totalClaimed: map<Address, nat>
    var log: seq<FaucetEvent>

    function State(): FaucetState
      reads this
    {
      FaucetState(admin, paused, lastClaimAt, totalClaimed, log)
    }

    ghost predicate Valid()
      reads this
    {
      ClaimsWithinCap(State())
    }

    constructor (deployer: Address, at: Address, token: Token)
      requires token.address != ZERO_ADDRESS
      ensures Valid() && this.address == at && this.token == token
      ensures State() == FaucetDeployed(deployer, token.address).value
    {
      this.address := at;
      this.token := token;
      admin := deployer;
      paused := false;
      lastClaimAt := map[];
      totalClaimed := map[];
      log := [];
    }

    /** Deployment by `deployer` at `at`, given the token (null stands for the zero address). */
    static method Deploy(deployer: Address, at: Address, token: Token?) returns (r: Result<Faucet, FaucetError>)
      ensures var tokenAddress := if token == null then ZERO_ADDRESS else token.address;
        var next := FaucetDeployed(deployer, tokenAddress);
        && r.Revert? == next.Revert?
        && (r.Revert? ==> r.error == next.error)
        && (r.Ok? ==> fresh(r.value) && r.value.Valid() && r.value.State() == next.value
                      && r.value.token == token && r.value.address == at)
    {
      if token == null || token.address == ZERO_ADDRESS {
        return Revert(TokenAddressZero);
      }
      var f := new Faucet(deployer, at, token);
      r := Ok(f);
    }

    method RequestTokens(caller: Address, now: nat) returns (r: Outcome<FaucetError>)
      requires Valid() && token.Valid()
      modifies this, token
      ensures Valid() && token.Valid()
      ensures var next := AfterRequestTokens(old(State()), old(token.State()), address, caller, now);
        r == Status(next) && (State(), token.State()) == Commit(next, (old(State()), old(token.State())))
    {
      if paused {
        return Fail(FaucetIsPaused);
      }
      if !CanClaim(State(), caller, now) {
        return Fail(CannotClaimYet);
      }
      ghost var before := State();
      var minted := token.Mint(address, caller, FAUCET_AMOUNT);
      if minted.Fail? {
        return Fail(TokenReverted(minted.error));
      }
      CallsKeepClaimsWithinCap(before, old(token.State()), address, caller, now, paused, admin);
      totalClaimed := totalClaimed[caller := Lookup(totalClaimed, caller) + FAUCET_AMOUNT];
      lastClaimAt := lastClaimAt[caller := now];
      log := log + [TokensClaimed(caller, FAUCET_AMOUNT, now)];
      r := Pass;
    }

    method SetPaused(caller: Address, value: bool) returns (r: Outcome<FaucetError>)
      requires Valid()
      modifies this
      ensures Valid()
      ensures var next := AfterSetPaused(old(State()), caller, value);
        r == Status(next) && State() == Commit(next, old(State()))
    {
      if caller != admin {
        return Fail(OnlyAdmin);
      }
      paused := value;
      log := log + [FaucetPaused(value)];
      r := Pass;
    }

    method TransferAdmin(caller: Address, newAdmin: Address) returns (r: Outcome<FaucetError>)
      requires Valid()
      modifies this
      ensures Valid()
      ensures var next := AfterTransferAdmin(old(State()), caller, newAdmin);
        r == Status(next) && State() == Commit(next, old(State()))
    {
      if caller != admin {
        return Fail(OnlyAdmin);
      }
      if newAdmin == ZERO_ADDRESS {
        return Fail(NewAdminZero);
      }
      admin := newAdmin;
      r := Pass;
    }
  }
}
