/**
 * MyToken: an EIP-20 token ("SepoliaTestToken", STT, 18 decimals) with a fixed supply cap,
 * owned by its deployer, whose only source of new units is a single faucet address
 * that the owner configures.
 *
 * The transitions are pure functions from the state before a call to the state after it
 * (or to the error the call reverts with); class Token keeps the same state in fields and
 * its methods are proved to follow those functions.
 */
module MyToken {
  import opened Chain
  import opened Sums

  const NAME: string := "SepoliaTestToken"
  const SYMBOL: string := "STT"
  const DECIMALS: nat := 18

  /** The cap on the total supply: one million whole tokens. */
  const MAX_SUPPLY: nat := 1_000_000 * ONE_TOKEN

  datatype TokenError =
    | OwnableUnauthorizedAccount(account: Address)  // an owner-only call from another account
    | FaucetAddressZero                             // the new faucet address is zero
    | OnlyFaucetCanMint                             // a mint from an account other than the faucet
    | MintToZeroAddress                             // a mint to the zero address
    | MaxSupplyExceeded                             // a mint beyond MAX_SUPPLY
    | ERC20InvalidSender(sender: Address)
    | ERC20InvalidReceiver(receiver: Address)
    | ERC20InvalidApprover(approver: Address)
    | ERC20InvalidSpender(spender: Address)
    | ERC20InsufficientBalance(sender: Address, balance: nat, needed: nat)
    | ERC20InsufficientAllowance(spender: Address, allowance: nat, needed: nat)

  datatype TokenEvent =
    | Transfer(from: Address, to: Address, value: nat)
    | Approval(owner: Address, spender: Address, value: nat)
    | FaucetAddressSet(oldFaucet: Address, newFaucet: Address)

  /** The token's storage, together with the events it has emitted so far. */
  datatype TokenState = TokenState(
    owner: Address,
    faucetAddress: Address,
    balances: map<Address, nat>,
    allowances: map<(Address, Address), nat>,
    totalSupply: nat,
    log: seq<TokenEvent>)

  /** balanceOf: an account never credited holds 0, and no account holds more than the supply. */
  function BalanceOf(s: TokenState, account: Address): (b: nat)
    ensures account !in s.balances ==> b == 0
    ensures s.totalSupply == Sum(s.balances) ==> b <= s.totalSupply
  {
    SumBoundsLookup(s.balances, account);
    Lookup(s.balances, account)
  }

  /** allowance: what `spender` may still withdraw from `owner`, 0 when never approved. */
  function Allowance(s: TokenState, owner: Address, spender: Address): (a: nat)
    ensures (owner, spender) !in s.allowances ==> a == 0
    ensures (owner, spender) in s.allowances ==> a == s.allowances[(owner, spender)]
  {
    Lookup(s.allowances, (owner, spender))
  }

  /** Supply accounting: the total supply is the sum of all balances and stays within the cap. */
  ghost predicate SupplyInvariant(s: TokenState)
  {
    s.totalSupply == Sum(s.balances) && s.totalSupply <= MAX_SUPPLY
  }

  /** The state right after deployment by `deployer`. */
  function TokenDeployed(deployer: Address): (s: TokenState)
    ensures s.owner == deployer && s.faucetAddress == ZERO_ADDRESS
    ensures s.totalSupply == 0 && s.log == []
    ensures forall a :: BalanceOf(s, a) == 0
    ensures forall o: Address, sp: Address :: Allowance(s, o, sp) == 0
    ensures SupplyInvariant(s)
  {
    TokenState(deployer, ZERO_ADDRESS, map[], map[], 0, [])
  }

  /** setFaucetAddress: the owner names the one address allowed to mint. */
  function AfterSetFaucetAddress(s: TokenState, caller: Address, faucet: Address): (r: Result<TokenState, TokenError>)
    ensures r.Ok? <==> caller == s.owner && faucet != ZERO_ADDRESS
    ensures caller != s.owner ==> r == Revert(OwnableUnauthorizedAccount(caller))
    ensures caller == s.owner && faucet == ZERO_ADDRESS ==> r == Revert(FaucetAddressZero)
    ensures r.Ok? ==> r.value.faucetAddress == faucet
    ensures r.Ok? ==> r.value.log == s.log + [FaucetAddressSet(s.faucetAddress, faucet)]
    ensures r.Ok? ==> r.value.(faucetAddress := s.faucetAddress, log := s.log) == s
  {
    if caller != s.owner then Revert(OwnableUnauthorizedAccount(caller))
    else if faucet == ZERO_ADDRESS then Revert(FaucetAddressZero)
    else Ok(s.(faucetAddress := faucet, log := s.log + [FaucetAddressSet(s.faucetAddress, faucet)]))
  }

  /** mint: the faucet creates `amount` new units for `to`, within the supply cap. */
  function AfterMint(s: TokenState, caller: Address, to: Address, amount: nat): (r: Result<TokenState, TokenError>)
    ensures r.Ok? <==> caller == s.faucetAddress && to != ZERO_ADDRESS && s.totalSupply + amount <= MAX_SUPPLY
    ensures caller != s.faucetAddress ==> r == Revert(OnlyFaucetCanMint)
    ensures caller == s.faucetAddress && to == ZERO_ADDRESS ==> r == Revert(MintToZeroAddress)
    ensures caller == s.faucetAddress && to != ZERO_ADDRESS && s.totalSupply + amount > MAX_SUPPLY ==>
              r == Revert(MaxSupplyExceeded)
    ensures r.Ok? ==> r.value.totalSupply == s.totalSupply + amount
    ensures r.Ok? ==> BalanceOf(r.value, to) == BalanceOf(s, to) + amount
    ensures r.Ok? ==> forall a :: a != to ==> BalanceOf(r.value, a) == BalanceOf(s, a)
    ensures r.Ok? ==> r.value.log == s.log + [Transfer(ZERO_ADDRESS, to, amount)]
    ensures r.Ok? ==> r.value.owner == s.owner && r.value.faucetAddress == s.faucetAddress
                      && r.value.allowances == s.allowances
  {
    if caller != s.faucetAddress then Revert(OnlyFaucetCanMint)
    else if to == ZERO_ADDRESS then Revert(MintToZeroAddress)
    else if s.totalSupply + amount > MAX_SUPPLY then Revert(MaxSupplyExceeded)
    else Ok(s.(balances := s.balances[to := BalanceOf(s, to) + amount],
               totalSupply := s.totalSupply + amount,
               log := s.log + [Transfer(ZERO_ADDRESS, to, amount)]))
  }

  /** The balances after `value` units move from `from` to `to`. */
  function Move(b: map<Address, nat>, from: Address, to: Address, value: nat): map<Address, nat>
    requires Lookup(b, from) >= value
  {
    var debited := b[from := Lookup(b, from) - value];
    debited[to := Lookup(debited, to) + value]
  }

  /** A move debits `from` and credits `to` by exactly `value` (nothing when they coincide),
      leaves every other balance alone and conserves the sum of all balances. */
  lemma MoveEffect(b: map<Address, nat>, from: Address, to: Address, value: nat)
    requires Lookup(b, from) >= value
    ensures from != to ==> Lookup(Move(b, from, to, value), from) == Lookup(b, from) - value
    ensures from != to ==> Lookup(Move(b, from, to, value), to) == Lookup(b, to) + value
    ensures from == to ==> Lookup(Move(b, from, to, value), from) == Lookup(b, from)
    ensures forall a :: a != from && a != to ==> Lookup(Move(b, from, to, value), a) == Lookup(b, a)
    ensures Sum(Move(b, from, to, value)) == Sum(b)
  {
    var debited := b[from := Lookup(b, from) - value];
    SumUpdate(b, from, Lookup(b, from) - value);
    SumUpdate(debited, to, Lookup(debited, to) + value);
  }

  /** transfer: the caller sends `value` of its own units to `to`. */
  function AfterTransfer(s: TokenState, caller: Address, to: Address, value: nat): (r: Result<TokenState, TokenError>)
    ensures r.Ok? <==> caller != ZERO_ADDRESS && to != ZERO_ADDRESS && BalanceOf(s, caller) >= value
    ensures caller == ZERO_ADDRESS ==> r == Revert(ERC20InvalidSender(ZERO_ADDRESS))
    ensures caller != ZERO_ADDRESS && to == ZERO_ADDRESS ==> r == Revert(ERC20InvalidReceiver(ZERO_ADDRESS))
    ensures caller != ZERO_ADDRESS && to != ZERO_ADDRESS && BalanceOf(s, caller) < value ==>
              r == Revert(ERC20InsufficientBalance(caller, BalanceOf(s, caller), value))
    ensures r.Ok? ==> r.value.balances == Move(s.balances, caller, to, value)
    ensures r.Ok? ==> r.value.log == s.log + [Transfer(caller, to, value)]
    ensures r.Ok? ==> r.value.(balances := s.balances, log := s.log) == s
  {
    if caller == ZERO_ADDRESS then Revert(ERC20InvalidSender(ZERO_ADDRESS))
    else if to == ZERO_ADDRESS then Revert(ERC20InvalidReceiver(ZERO_ADDRESS))
    else if BalanceOf(s, caller) < value then Revert(ERC20InsufficientBalance(caller, BalanceOf(s, caller), value))
    else Ok(s.(balances := Move(s.balances, caller, to, value), log := s.log + [Transfer(caller, to, value)]))
  }

  /** approve: the caller lets `spender` withdraw up to `value` of its units, replacing any earlier allowance. */
  function AfterApprove(s: TokenState, caller: Address, spender: Address, value: nat): (r: Result<TokenState, TokenError>)
    ensures r.Ok? <==> caller != ZERO_ADDRESS && spender != ZERO_ADDRESS
    ensures caller == ZERO_ADDRESS ==> r == Revert(ERC20InvalidApprover(ZERO_ADDRESS))
    ensures caller != ZERO_ADDRESS && spender == ZERO_ADDRESS ==> r == Revert(ERC20InvalidSpender(ZERO_ADDRESS))
    ensures r.Ok? ==> Allowance(r.value, caller, spender) == value
    ensures r.Ok? ==> forall o: Address, sp: Address :: (o, sp) != (caller, spender) ==> Allowance(r.value, o, sp) == Allowance(s, o, sp)
    ensures r.Ok? ==> r.value.log == s.log + [Approval(caller, spender, value)]
    ensures r.Ok? ==> r.value.(allowances := s.allowances, log := s.log) == s
  {
    if caller == ZERO_ADDRESS then Revert(ERC20InvalidApprover(ZERO_ADDRESS))
    else if spender == ZERO_ADDRESS then Revert(ERC20InvalidSpender(ZERO_ADDRESS))
    else Ok(s.(allowances := s.allowances[(caller, spender) := value], log := s.log + [Approval(caller, spender, value)]))
  }

  /**
   * transferFrom: the caller spends `value` of the allowance `from` gave it, moving the units to
   * `to`. As in OpenZeppelin ERC20 (v5), the allowance is spent first, which checks the allowance,
   * the approver and the spender, and the units are moved afterwards, which checks the receiver
   * and the balance; a revert in either part undoes both.
   */
  function AfterTransferFrom(s: TokenState, caller: Address, from: Address, to: Address, value: nat): (r: Result<TokenState, TokenError>)
    ensures r.Ok? <==> Allowance(s, from, caller) >= value && from != ZERO_ADDRESS && caller != ZERO_ADDRESS
                       && to != ZERO_ADDRESS && BalanceOf(s, from) >= value
    ensures Allowance(s, from, caller) < value ==>
              r == Revert(ERC20InsufficientAllowance(caller, Allowance(s, from, caller), value))
    ensures Allowance(s, from, caller) >= value && from == ZERO_ADDRESS ==>
              r == Revert(ERC20InvalidApprover(ZERO_ADDRESS))
    ensures Allowance(s, from, caller) >= value && from != ZERO_ADDRESS && caller == ZERO_ADDRESS ==>
              r == Revert(ERC20InvalidSpender(ZERO_ADDRESS))
    ensures (Allowance(s, from, caller) >= value && from != ZERO_ADDRESS && caller != ZERO_ADDRESS
             && to == ZERO_ADDRESS) ==> r == Revert(ERC20InvalidReceiver(ZERO_ADDRESS))
    ensures (Allowance(s, from, caller) >= value && from != ZERO_ADDRESS && caller != ZERO_ADDRESS
             && to != ZERO_ADDRESS && BalanceOf(s, from) < value) ==>
              r == Revert(ERC20InsufficientBalance(from, BalanceOf(s, from), value))
    ensures r.Ok? ==> Allowance(r.value, from, caller) == Allowance(s, from, caller) - value
    ensures r.Ok? ==> forall o: Address, sp: Address :: (o, sp) != (from, caller) ==> Allowance(r.value, o, sp) == Allowance(s, o, sp)
    ensures r.Ok? ==> r.value.balances == Move(s.balances, from, to, value)
    ensures r.Ok? ==> r.value.log == s.log + [Transfer(from, to, value)]
    ensures r.Ok? ==> r.value.(balances := s.balances, allowances := s.allowances, log := s.log) == s
  {
    if Allowance(s, from, caller) < value then
      Revert(ERC20InsufficientAllowance(caller, Allowance(s, from, caller), value))
    else if from == ZERO_ADDRESS then Revert(ERC20InvalidApprover(ZERO_ADDRESS))
    else if caller == ZERO_ADDRESS then Revert(ERC20InvalidSpender(ZERO_ADDRESS))
    else if to == ZERO_ADDRESS then Revert(ERC20InvalidReceiver(ZERO_ADDRESS))
    else if BalanceOf(s, from) < value then Revert(ERC20InsufficientBalance(from, BalanceOf(s, from), value))
    else
      Ok(s.(balances := Move(s.balances, from, to, value),
            allowances := s.allowances[(from, caller) := Allowance(s, from, caller) - value],
            log := s.log + [Transfer(from, to, value)]))
  }

  /** Minting keeps the supply accounting: supply equals the sum of balances and stays within the cap. */
  lemma MintKeepsSupplyInvariant(s: TokenState, caller: Address, to: Address, amount: nat)
    requires SupplyInvariant(s)
    ensures AfterMint(s, caller, to, amount).Ok? ==> SupplyInvariant(AfterMint(s, caller, to, amount).value)
  {
    SumUpdate(s.balances, to, BalanceOf(s, to) + amount);
  }

  /** A transfer moves units between accounts and leaves the total supply and the sum of balances as they were. */
  lemma TransferConservesBalances(s: TokenState, caller: Address, to: Address, value: nat)
    requires SupplyInvariant(s)
    ensures var r := AfterTransfer(s, caller, to, value);
      r.Ok? ==> SupplyInvariant(r.value) && Sum(r.value.balances) == Sum(s.balances)
                && (caller != to ==> BalanceOf(r.value, caller) == BalanceOf(s, caller) - value
                                     && BalanceOf(r.value, to) == BalanceOf(s, to) + value)
                && (forall a :: a != caller && a != to ==> BalanceOf(r.value, a) == BalanceOf(s, a))
  {
    if AfterTransfer(s, caller, to, value).Ok? {
      MoveEffect(s.balances, caller, to, value);
    }
  }

  /** transferFrom moves the approved units and keeps the supply accounting in the same way. */
  lemma TransferFromConservesBalances(s: TokenState, caller: Address, from: Address, to: Address, value: nat)
    requires SupplyInvariant(s)
    ensures var r := AfterTransferFrom(s, caller, from, to, value);
      r.Ok? ==> SupplyInvariant(r.value) && Sum(r.value.balances) == Sum(s.balances)
                && (from != to ==> BalanceOf(r.value, from) == BalanceOf(s, from) - value
                                   && BalanceOf(r.value, to) == BalanceOf(s, to) + value)
                && (forall a :: a != from && a != to ==> BalanceOf(r.value, a) == BalanceOf(s, a))
  {
    if AfterTransferFrom(s, caller, from, to, value).Ok? {
      MoveEffect(s.balances, from, to, value);
    }
  }

  /** The cap is reachable exactly: a mint that fills the supply up to MAX_SUPPLY commits,
      and once it has, every further mint of a positive amount reverts with MaxSupplyExceeded. */
  lemma MintUpToCap(s: TokenState, to: Address)
    requires SupplyInvariant(s) && to != ZERO_ADDRESS
    ensures var r := AfterMint(s, s.faucetAddress, to, MAX_SUPPLY - s.totalSupply);
      r.Ok? && r.value.totalSupply == MAX_SUPPLY
      && forall to', amount :: to' != ZERO_ADDRESS && amount > 0 ==>
           AfterMint(r.value, s.faucetAddress, to', amount) == Revert(MaxSupplyExceeded)
  {
  }

  /** The token contract's storage as mutable fields. */
  class Token {
    /** The address the contract was deployed at. */
    const address: Address
    var owner: Address
    var faucetAddress: Address
    var balances: map<Address, nat>
    var allowances: map<(Address, Address), nat>
    var totalSupply: nat
    var log: seq<TokenEvent>

    function State(): TokenState
      reads this
    {
      TokenState(owner, faucetAddress, balances, allowances, totalSupply, log)
    }

    ghost predicate Valid()
      reads this
    {
      SupplyInvariant(State())
    }

    /** Deployment by `deployer` at address `at`. */
    constructor (deployer: Address, at: Address)
      ensures Valid() && address == at
      ensures State() == TokenDeployed(deployer)
    {
      address := at;
      owner := deployer;
      faucetAddress := ZERO_ADDRESS;
      balances := map[];
      allowances := map[];
      totalSupply := 0;
      log := [];
    }

    method SetFaucetAddress(caller: Address, faucet: Address) returns (r: Outcome<TokenError>)
      requires Valid()
      modifies this
      ensures Valid()
      ensures var next := AfterSetFaucetAddress(old(State()), caller, faucet);
        r == Status(next) && State() == Commit(next, old(State()))
    {
      if caller != owner {
        return Fail(OwnableUnauthorizedAccount(caller));
      }
      if faucet == ZERO_ADDRESS {
        return Fail(FaucetAddressZero);
      }
      log := log + [FaucetAddressSet(faucetAddress, faucet)];
      faucetAddress := faucet;
      r := Pass;
    }

    method Mint(caller: Address, to: Address, amount: nat) returns (r: Outcome<TokenError>)
      requires Valid()
      modifies this
      ensures Valid()
      ensures var next := AfterMint(old(State()), caller, to, amount);
        r == Status(next) && State() == Commit(next, old(State()))
    {
      if caller != faucetAddress {
        return Fail(OnlyFaucetCanMint);
      }
      if to == ZERO_ADDRESS {
        return Fail(MintToZeroAddress);
      }
      if totalSupply + amount > MAX_SUPPLY {
        return Fail(MaxSupplyExceeded);
      }
      MintKeepsSupplyInvariant(State(), caller, to, amount);
      totalSupply := totalSupply + amount;
      balances := balances[to := Lookup(balances, to) + amount];
      log := log + [TokenEvent.Transfer(ZERO_ADDRESS, to, amount)];
      r := Pass;
    }

    method Transfer(caller: Address, to: Address, value: nat) returns (r: Outcome<TokenError>)
      requires Valid()
      modifies this
      ensures Valid()
      ensures var next := AfterTransfer(old(State()), caller, to, value);
        r == Status(next) && State() == Commit(next, old(State()))
    {
      if caller == ZERO_ADDRESS {
        return Fail(ERC20InvalidSender(ZERO_ADDRESS));
      }
      if to == ZERO_ADDRESS {
        return Fail(ERC20InvalidReceiver(ZERO_ADDRESS));
      }
      var fromBalance := Lookup(balances, caller);
      if fromBalance < value {
        return Fail(ERC20InsufficientBalance(caller, fromBalance, value));
      }
      TransferConservesBalances(State(), caller, to, value);
      balances := balances[caller := fromBalance - value];
      balances := balances[to := Lookup(balances, to) + value];
      log := log + [TokenEvent.Transfer(caller, to, value)];
      r := Pass;
    }

    method Approve(caller: Address, spender: Address, value: nat) returns (r: Outcome<TokenError>)
      requires Valid()
      modifies this
      ensures Valid()
      ensures var next := AfterApprove(old(State()), caller, spender, value);
        r == Status(next) && State() == Commit(next, old(State()))
    {
      if caller == ZERO_ADDRESS {
        return Fail(ERC20InvalidApprover(ZERO_ADDRESS));
      }
      if spender == ZERO_ADDRESS {
        return Fail(ERC20InvalidSpender(ZERO_ADDRESS));
      }
      allowances := allowances[(caller, spender) := value];
      log := log + [Approval(caller, spender, value)];
      r := Pass;
    }

    method TransferFrom(caller: Address, from: Address, to: Address, value: nat) returns (r: Outcome<TokenError>)
      requires Valid()
      modifies this
      ensures Valid()
      ensures var next := AfterTransferFrom(old(State()), caller, from, to, value);
        r == Status(next) && State() == Commit(next, old(State()))
    {
      var allowed := Lookup(allowances, (from, caller));
      if allowed < value {
        return Fail(ERC20InsufficientAllowance(caller, allowed, value));
      }
      if from == ZERO_ADDRESS {
        return Fail(ERC20InvalidApprover(ZERO_ADDRESS));
      }
      if caller == ZERO_ADDRESS {
        return Fail(ERC20InvalidSpender(ZERO_ADDRESS));
      }
      if to == ZERO_ADDRESS {
        return Fail(ERC20InvalidReceiver(ZERO_ADDRESS));
      }
      var fromBalance := Lookup(balances, from);
      if fromBalance < value {
        return Fail(ERC20InsufficientBalance(from, fromBalance, value));
      }
      TransferFromConservesBalances(State(), caller, from, to, value);
      allowances := allowances[(from, caller) := allowed - value];
      balances := balances[from := fromBalance - value];
      balances := balances[to := Lookup(balances, to) + value];
      log := log + [TokenEvent.Transfer(from, to, value)];
      r := Pass;
    }
  }
}
