/** What every contract of the model shares: addresses, machine words, reverts, and
    Solidity mappings. */
module Evm {

  type Address = nat

  const ZERO_ADDRESS: Address := 0

  // The number of values of a uint256: checked arithmetic reverts at this bound,
  // unchecked arithmetic wraps at it.
  const WORD: nat := 0x1_0000000000000000_0000000000000000_0000000000000000_0000000000000000
  const MAX_WORD: nat := WORD - 1

  function TwoTo(n: nat): nat {
    if n == 0 then 1 else 2 * TwoTo(n - 1)
  }

  lemma {:induction false} TwoToSum(m: nat, n: nat)
    ensures TwoTo(m + n) == TwoTo(m) * TwoTo(n)
  {
    if m > 0 {
      TwoToSum(m - 1, n);
      Associates(2, TwoTo(m - 1), TwoTo(n));
    }
  }

  lemma Associates(a: nat, b: nat, c: nat)
    ensures a * (b * c) == a * b * c
  {
  }

  lemma Doubled(n: nat, v: nat)
    requires TwoTo(n) == v
    ensures TwoTo(n + n) == v * v
  {
    TwoToSum(n, n);
  }

  lemma FourTimes(n: nat, v: nat)
    requires TwoTo(n) == v
    ensures TwoTo(4 * n) == v * v * (v * v)
  {
    Doubled(n, v);
    Doubled(n + n, v * v);
  }

  /** A word has 256 bits. */
  lemma WordHas256Bits()
    ensures WORD == TwoTo(256)
  {
    assert TwoTo(4) == 2 * TwoTo(3) == 16;
    FourTimes(4, 16);
    FourTimes(16, 0x1_0000);
    FourTimes(64, 0x1_0000000000000000);
  }

  /** Why a call reverted. */
  datatype Error =
    | NotOwner | Paused | ZeroAddress | NotRegistered | Registered | AlreadyAdded
    | AddressNotValid | NotValid | NotAuthorized | LengthMismatch | NoMasterContract
    | InitFailed | Failed | Panic | CallFailed
    | NoContract | ApproveFailed | ApproveFromNonZero | TransferFailed
    | WhitelistError | NotEnough | SwapFailed | SellGlpFailed | BadData

  /** A call either returns a value or reverts; a revert leaves no trace in storage. */
  datatype Result<+T> = Ok(value: T) | Revert(error: Error) {

    predicate IsFailure() {
      Revert?
    }

    function PropagateFailure<U>(): Result<U>
      requires Revert?
    {
      Revert(error)
    }

    function Extract(): T
      requires Ok?
    {
      value
    }
  }

  /** A Solidity mapping to words. A key that was never written, or was deleted, reads
      as 0, so the two are one state: no key is stored with the value 0. */
  type Words<K(==)> = m: map<K, nat> | forall k :: k in m ==> m[k] != 0

  function Load<K(==)>(m: Words<K>, k: K): nat {
    if k in m then m[k] else 0
  }

  function Store<K(==,!new)>(m: Words<K>, k: K, v: nat): (n: Words<K>)
    ensures Load(n, k) == v
    ensures forall j :: j != k ==> Load(n, j) == Load(m, j)
    ensures v == Load(m, k) ==> n == m
  {
    if v == 0 then m - {k} else m[k := v]
  }

  /** Two writes to one key: the second wins. */
  lemma StoreTwice<K(!new)>(m: Words<K>, k: K, v: nat, w: nat)
    ensures Store(Store(m, k, v), k, w) == Store(m, k, w)
  {
  }

  /** Mappings that read alike are equal. */
  lemma SameWords<K(!new)>(m: Words<K>, n: Words<K>)
    requires forall k :: Load(m, k) == Load(n, k)
    ensures m == n
  {
    assert forall k :: k in m ==> Load(m, k) == Load(n, k);
    assert forall k :: k in n ==> Load(m, k) == Load(n, k);
  }

  /** A Solidity mapping to dynamic arrays, an absent key reading as the empty array. */
  type Arrays = m: map<Address, seq<Address>> | forall k :: k in m ==> m[k] != []

  function LoadArray(m: Arrays, k: Address): seq<Address> {
    if k in m then m[k] else []
  }

  function StoreArray(m: Arrays, k: Address, s: seq<Address>): (n: Arrays)
    ensures LoadArray(n, k) == s
    ensures forall j :: j != k ==> LoadArray(n, j) == LoadArray(m, j)
    ensures s == LoadArray(m, k) ==> n == m
  {
    if s == [] then m - {k} else m[k := s]
  }

  lemma StoreArrayTwice(m: Arrays, k: Address, s: seq<Address>, t: seq<Address>)
    ensures StoreArray(StoreArray(m, k, s), k, t) == StoreArray(m, k, t)
  {
  }
}
