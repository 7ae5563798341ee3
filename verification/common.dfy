/** Machine widths, account keys and the error type shared by every component. */
module Common {

  const U16_MAX: nat := 0xFFFF
  const U64_MAX: nat := 0xFFFF_FFFF_FFFF_FFFF
  const U128_MAX: nat := 0xFFFF_FFFF_FFFF_FFFF_FFFF_FFFF_FFFF_FFFF

  type U16 = n: nat | n <= U16_MAX
  type U64 = n: nat | n <= U64_MAX
  type U128 = n: nat | n <= U128_MAX

  const MAX_OPERATORS: nat := 256
  const MAX_VAULTS: nat := 64
  const MAX_ST_MINTS: nat := 64
  const FEE_GROUP_COUNT: nat := 8
  const MAX_BPS: nat := 10_000

  /** A public key. The default key marks an empty slot in every fixed-size table. */
  type Key = nat
  const DEFAULT_KEY: Key := 0

  /** A 32-byte hash, read as the big-endian number its bytes spell, so that byte-wise
      comparison of hashes is comparison of numbers. The all-zero hash is 0. */
  type Digest = n: nat | n < 0x1_0000_0000_0000_0000_0000_0000_0000_0000_0000_0000_0000_0000_0000_0000_0000_0000

  datatype Error =
    | AccountExists
    | AccountMissing
    | ArithmeticOverflow
    | ArithmeticUnderflow
    | BadBallot
    | BallotTallyFull
    | BallotTallyNotFound
    | CannotCloseEarly
    | CannotCloseEpochState
    | CastToU64
    | CheckedMath
    | ConsensusAlreadyReached
    | ConsensusNotReached
    | DefaultDaoWallet
    | DenominatorIsZero
    | DuplicateVaultOperatorDelegation
    | EpochIsClosingDown
    | EpochSnapshotNotFinalized
    | FeeCapExceeded
    | FeeNotActive
    | IndexOutOfBounds
    | InsufficientFunds
    | InvalidMint
    | MerkleRootAssertion
    | MerkleRootError
    | MerkleValidationError
    | NoOperators
    | OperatorFinalized
    | OperatorIsNotInSnapshot
    | OperatorRewardListFull
    | OperatorRewardNotFound
    | OperatorVotesFull
    | RegistryNotInitialized
    | RouterStillRouting
    | TableNotInitialized
    | TieBreakerNotInPriorVotes
    | TooManyVaultOperatorDelegations
    | TotalFeesCannotBeZero
    | VaultOperatorDelegationFinalized
    | VaultNotInRegistry
    | VotingIsNotOver
    | VotingNotFinalized
    | VotingNotValid
    | WeightTableAlreadyInitialized
    | WeightTableFinalized
    | WeightTableNotFinalized

  datatype Option<+T> = None | Some(value: T)

  datatype Result<+T> = Ok(value: T) | Err(error: Error) {
    predicate IsFailure() {
      Err?
    }

    function PropagateFailure<U>(): Result<U>
      requires Err?
    {
      Err(error)
    }

    function Extract(): T
      requires Ok?
    {
      value
    }
  }

  function CheckedAdd64(a: U64, b: U64): Result<U64> {
    if a + b <= U64_MAX then Ok(a + b) else Err(ArithmeticOverflow)
  }

  function CheckedAdd128(a: U128, b: U128): Result<U128> {
    if a + b <= U128_MAX then Ok(a + b) else Err(ArithmeticOverflow)
  }

  /** `checked_sub`; callers report different errors. */
  function CheckedSub(a: nat, b: nat, error: Error): Result<nat> {
    if b <= a then Ok(a - b) else Err(error)
  }

  /** A table with the same entry in every slot. */
  function Filled<T>(n: nat, x: T): (s: seq<T>)
    ensures |s| == n
    ensures forall i :: 0 <= i < n ==> s[i] == x
  {
    seq(n, i => x)
  }
}
