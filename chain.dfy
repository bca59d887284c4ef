/** Vocabulary shared by the two contracts: addresses, token units and the outcome of a call. */
module Chain {

  /** An account or contract address. The zero address stands for "no address". */
  type Address = nat

  const ZERO_ADDRESS: Address := 0

  /** Amounts are counted in the smallest unit; one whole token is 10^18 units (18 decimals). */
  const ONE_TOKEN: nat := 1_000_000_000_000_000_000

  /** A transaction either commits with a value or reverts with an error and changes nothing. */
  datatype Result<+T, +E> = Ok(value: T) | Revert(error: E)

  /** What a caller learns from a transaction: it committed, or it reverted with an error. */
  datatype Outcome<+E> = Pass | Fail(error: E)

  /** The outcome of a result, forgetting the committed value. */
  function Status<T, E>(r: Result<T, E>): (o: Outcome<E>)
    ensures o.Pass? <==> r.Ok?
    ensures r.Revert? ==> o == Fail(r.error)
  {
    match r
    case Ok(_) => Pass
    case Revert(e) => Fail(e)
  }

  /** The state after a call: the committed one, or the state before it when the call reverted. */
  function Commit<T, E>(r: Result<T, E>, before: T): (after: T)
    ensures r.Ok? ==> after == r.value
    ensures r.Revert? ==> after == before
  {
    match r
    case Ok(s) => s
    case Revert(_) => before
  }

  /** A storage mapping read the way the chain reads it: a key never written holds 0. */
  function Lookup<K>(m: map<K, nat>, k: K): (v: nat)
    ensures k in m ==> v == m[k]
    ensures k !in m ==> v == 0
  {
    if k in m then m[k] else 0
  }
}
