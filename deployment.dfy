/**
 * The two contracts as they are deployed together: the token, the faucet, and the faucet's
 * address, which the token's owner names as the only minter. Every transaction an account can
 * send is one Call; a call that reverts leaves both contracts as they were.
 */
module Deployment {
  import opened Chain
  import opened Sums
  import T = MyToken
  import F = TokenFaucet

  datatype World = World(token: T.TokenState, faucet: F.FaucetState, faucetAt: Address)

  /** A transaction sent by the account `caller`. */
  datatype Call =
    | RequestTokens(caller: Address, now: nat)
    | SetPaused(caller: Address, pause: bool)
    | TransferAdmin(caller: Address, newAdmin: Address)
    | SetFaucetAddress(caller: Address, faucet: Address)
    | Mint(caller: Address, to: Address, amount: nat)
    | Transfer(caller: Address, to: Address, value: nat)
    | Approve(caller: Address, spender: Address, value: nat)
    | TransferFrom(caller: Address, from: Address, to: Address, value: nat)

  /** The world after one call. */
  function Step(w: World, c: Call): (w': World)
    ensures w'.faucetAt == w.faucetAt && w'.token.owner == w.token.owner
  {
    match c
    case RequestTokens(caller, now) =>
      (match F.AfterRequestTokens(w.faucet, w.token, w.faucetAt, caller, now)
       case Ok((f, t)) => w.(faucet := f, token := t)
       case Revert(_) => w)
    case SetPaused(caller, value) => w.(faucet := Commit(F.AfterSetPaused(w.faucet, caller, value), w.faucet))
    case TransferAdmin(caller, newAdmin) =>
      w.(faucet := Commit(F.AfterTransferAdmin(w.faucet, caller, newAdmin), w.faucet))
    case SetFaucetAddress(caller, faucet) =>
      w.(token := Commit(T.AfterSetFaucetAddress(w.token, caller, faucet), w.token))
    case Mint(caller, to, amount) => w.(token := Commit(T.AfterMint(w.token, caller, to, amount), w.token))
    case Transfer(caller, to, value) => w.(token := Commit(T.AfterTransfer(w.token, caller, to, value), w.token))
    case Approve(caller, spender, value) =>
      w.(token := Commit(T.AfterApprove(w.token, caller, spender, value), w.token))
    case TransferFrom(caller, from, to, value) =>
      w.(token := Commit(T.AfterTransferFrom(w.token, caller, from, to, value), w.token))
  }

  /** The world after a sequence of calls, in order. */
  function Run(w: World, calls: seq<Call>): World
    decreases |calls|
  {
    if calls == [] then w else Run(Step(w, calls[0]), calls[1..])
  }

  /**
   * The fixture both test suites start from: `owner` deploys the token at `tokenAt`, then the
   * faucet at `faucetAt`, then makes the faucet the token's minter.
   */
  function Deployed(owner: Address, tokenAt: Address, faucetAt: Address): World
    requires tokenAt != ZERO_ADDRESS && faucetAt != ZERO_ADDRESS
  {
    World(T.AfterSetFaucetAddress(T.TokenDeployed(owner), owner, faucetAt).value,
          F.FaucetDeployed(owner, tokenAt).value,
          faucetAt)
  }

  /** The accounting both contracts keep on their own. */
  ghost predicate Invariant(w: World)
  {
    T.SupplyInvariant(w.token) && F.ClaimsWithinCap(w.faucet)
  }

  /** The faucet is the token's minter and every unit in existence was handed out by a claim. */
  ghost predicate Linked(w: World)
  {
    w.token.faucetAddress == w.faucetAt && w.token.totalSupply == Sum(w.faucet.totalClaimed)
  }

  /** Each account holds exactly what it has claimed from the faucet. */
  ghost predicate BalancesAreClaims(w: World)
  {
    forall a :: T.BalanceOf(w.token, a) == F.TotalClaimed(w.faucet, a)
  }

  /** A call that leaves minting with the faucet: the faucet contract itself sends no
      transactions, and the owner does not name another non-zero minter (an attempt by anyone
      else, or one naming the zero address, reverts and is allowed). */
  predicate KeepsMinter(w: World, c: Call)
  {
    && c.caller != w.faucetAt
    && (c.SetFaucetAddress? && c.caller == w.token.owner && c.faucet != ZERO_ADDRESS ==> c.faucet == w.faucetAt)
  }

  /** A call that, if it is a transfer or transferFrom, leaves every balance as it was. */
  ghost predicate MovesNoUnits(w: World, c: Call)
  {
    (c.Transfer? || c.TransferFrom?) ==> forall a :: T.BalanceOf(Step(w, c).token, a) == T.BalanceOf(w.token, a)
  }

  /** Every call of the sequence moves no units, each in the world it is sent in. */
  ghost predicate MovesNoUnitsAlong(w: World, calls: seq<Call>)
    decreases |calls|
  {
    calls == [] || (MovesNoUnits(w, calls[0]) && MovesNoUnitsAlong(Step(w, calls[0]), calls[1..]))
  }

  /** A transfer or transferFrom moves no units exactly when it reverts, moves nothing, or moves
      units from an account to itself. */
  lemma TransfersThatMoveNothing(w: World, c: Call)
    requires c.Transfer? || c.TransferFrom?
    ensures c.Transfer? ==>
              (MovesNoUnits(w, c) <==>
                 T.AfterTransfer(w.token, c.caller, c.to, c.value).Revert? || c.value == 0 || c.caller == c.to)
    ensures c.TransferFrom? ==>
              (MovesNoUnits(w, c) <==>
                 T.AfterTransferFrom(w.token, c.caller, c.from, c.to, c.value).Revert? || c.value == 0 || c.from == c.to)
  {
    var from := if c.Transfer? then c.caller else c.from;
    var r := if c.Transfer? then T.AfterTransfer(w.token, c.caller, c.to, c.value)
             else T.AfterTransferFrom(w.token, c.caller, c.from, c.to, c.value);
    if r.Ok? {
      T.MoveEffect(w.token.balances, from, c.to, c.value);
      if c.value > 0 && from != c.to {
        assert T.BalanceOf(Step(w, c).token, from) != T.BalanceOf(w.token, from);
      }
    }
  }

  /** Right after deployment the faucet is the minter, nothing has been minted or claimed,
      the owner is the faucet's admin and claiming is open. */
  lemma DeployedIsLinked(owner: Address, tokenAt: Address, faucetAt: Address)
    requires tokenAt != ZERO_ADDRESS && faucetAt != ZERO_ADDRESS
    ensures var w := Deployed(owner, tokenAt, faucetAt);
      && Invariant(w) && Linked(w) && BalancesAreClaims(w)
      && w.token.owner == owner && w.faucet.admin == owner && !w.faucet.paused
      && w.token.totalSupply == 0
      && w.token.log == [T.FaucetAddressSet(ZERO_ADDRESS, faucetAt)]
  {
  }

  /** Every call, committed or reverted, keeps both contracts' accounting. */
  lemma StepKeepsInvariant(w: World, c: Call)
    requires Invariant(w)
    ensures Invariant(Step(w, c))
  {
    match c
    case RequestTokens(caller, now) =>
      T.MintKeepsSupplyInvariant(w.token, w.faucetAt, caller, F.FAUCET_AMOUNT);
      F.CallsKeepClaimsWithinCap(w.faucet, w.token, w.faucetAt, caller, now, false, ZERO_ADDRESS);
    case SetPaused(caller, value) =>
      F.CallsKeepClaimsWithinCap(w.faucet, w.token, w.faucetAt, caller, 0, value, ZERO_ADDRESS);
    case TransferAdmin(caller, newAdmin) =>
      F.CallsKeepClaimsWithinCap(w.faucet, w.token, w.faucetAt, caller, 0, false, newAdmin);
    case SetFaucetAddress(_, _) =>
    case Mint(caller, to, amount) => T.MintKeepsSupplyInvariant(w.token, caller, to, amount);
    case Transfer(caller, to, value) => T.TransferConservesBalances(w.token, caller, to, value);
    case Approve(_, _, _) =>
    case TransferFrom(caller, from, to, value) => T.TransferFromConservesBalances(w.token, caller, from, to, value);
  }

  /** The accounting holds after any sequence of calls: no account ever holds more than
      MAX_CLAIM_AMOUNT of claims and the supply never passes MAX_SUPPLY. */
  lemma {:induction false} RunKeepsInvariant(w: World, calls: seq<Call>)
    requires Invariant(w)
    ensures Invariant(Run(w, calls))
    ensures forall a :: F.TotalClaimed(Run(w, calls).faucet, a) <= F.MAX_CLAIM_AMOUNT
    ensures Run(w, calls).token.totalSupply <= T.MAX_SUPPLY
    decreases |calls|
  {
    if calls != [] {
      StepKeepsInvariant(w, calls[0]);
      RunKeepsInvariant(Step(w, calls[0]), calls[1..]);
    }
    var w' := Run(w, calls);
    forall a ensures F.TotalClaimed(w'.faucet, a) <= F.MAX_CLAIM_AMOUNT {
      if a in w'.faucet.totalClaimed {
        assert w'.faucet.totalClaimed[a] <= F.MAX_CLAIM_AMOUNT;
      }
    }
  }

  /** Claimed totals and the total supply only ever grow. */
  lemma StepNeverTakesBack(w: World, c: Call, a: Address)
    ensures F.TotalClaimed(Step(w, c).faucet, a) >= F.TotalClaimed(w.faucet, a)
    ensures Step(w, c).token.totalSupply >= w.token.totalSupply
  {
  }

  lemma {:induction false} RunNeverTakesBack(w: World, calls: seq<Call>, a: Address)
    ensures F.TotalClaimed(Run(w, calls).faucet, a) >= F.TotalClaimed(w.faucet, a)
    ensures Run(w, calls).token.totalSupply >= w.token.totalSupply
    decreases |calls|
  {
    if calls != [] {
      StepNeverTakesBack(w, calls[0], a);
      RunNeverTakesBack(Step(w, calls[0]), calls[1..], a);
    }
  }

  /** While the faucet stays the minter, the supply is exactly what the faucet has handed out. */
  lemma StepKeepsLinked(w: World, c: Call)
    requires Invariant(w) && Linked(w) && KeepsMinter(w, c)
    ensures Linked(Step(w, c))
  {
    match c
    case RequestTokens(caller, now) =>
      SumUpdate(w.faucet.totalClaimed, caller, F.TotalClaimed(w.faucet, caller) + F.FAUCET_AMOUNT);
    case SetPaused(caller, value) =>
    case TransferAdmin(caller, newAdmin) =>
    case SetFaucetAddress(_, _) =>
    case Mint(caller, to, amount) =>
    case Transfer(caller, to, value) =>
    case Approve(_, _, _) =>
    case TransferFrom(caller, from, to, value) =>
  }

  /** When no units move between accounts, every balance is exactly that account's claims. */
  lemma StepKeepsBalancesAreClaims(w: World, c: Call)
    requires BalancesAreClaims(w) && w.token.faucetAddress == w.faucetAt && KeepsMinter(w, c) && MovesNoUnits(w, c)
    ensures BalancesAreClaims(Step(w, c))
  {
    if c.RequestTokens? {
      var r := F.AfterRequestTokens(w.faucet, w.token, w.faucetAt, c.caller, c.now);
      if r.Ok? {
        forall a ensures T.BalanceOf(r.value.1, a) == F.TotalClaimed(r.value.0, a) {
          if a != c.caller {
            assert T.BalanceOf(w.token, a) == F.TotalClaimed(w.faucet, a);
          }
        }
      }
    }
  }

  /**
   * From deployment on, as long as the faucet stays the minter: the total supply equals the sum
   * of all claimed totals, and if no units were moved between accounts, each account's balance
   * equals its claimed total.
   */
  lemma {:induction false} MintedSupplyIsClaimed(w: World, calls: seq<Call>)
    requires Invariant(w) && Linked(w)
    requires forall i :: 0 <= i < |calls| ==> KeepsMinter(w, calls[i])
    ensures Linked(Run(w, calls))
    ensures BalancesAreClaims(w) && MovesNoUnitsAlong(w, calls) ==>
              BalancesAreClaims(Run(w, calls))
    decreases |calls|
  {
    if calls != [] {
      StepKeepsInvariant(w, calls[0]);
      StepKeepsLinked(w, calls[0]);
      if BalancesAreClaims(w) && MovesNoUnits(w, calls[0]) {
        StepKeepsBalancesAreClaims(w, calls[0]);
      }
      var w1 := Step(w, calls[0]);
      assert forall i :: 0 <= i < |calls[1..]| ==> KeepsMinter(w1, calls[1..][i]) by {
        forall i | 0 <= i < |calls[1..]| ensures KeepsMinter(w1, calls[1..][i]) {
          assert calls[1..][i] == calls[i + 1];
        }
      }
      MintedSupplyIsClaimed(w1, calls[1..]);
    }
  }
}
