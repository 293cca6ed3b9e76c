# Koins ledger, modelled in Dafny

Koins is an ink! smart contract that keeps a points/coin balance per account.
The account that deploys it becomes its owner. Only the owner may credit
(`add_coins`, `increment`) or debit (`decrement`) a balance, and anyone may
read one (`get_coins`). Balances are `u32`. A credit that would overflow
clamps at `u32::MAX`, a debit that would underflow clamps at zero, and an
account never seen reads as zero.

The model has four modules, one per file:

- `UInt32` (`uint32.dfy`): the `u32` range as the subset type `U32`. It also
  holds Rust's `checked_add` and `checked_sub`, which return an `Option`, and
  the saturating forms the contract builds from them with `unwrap_or`.
  Because every balance has type `U32`, the verifier checks that no write
  leaves the range `[0, u32::MAX]` and that nothing wraps around.
- `Koins` (`koins.dfy`) has three parts:
  - The ledger as a value: `State`, `Message` and the transition function `Exec`.
  - The hash map's `entry(..).and_modify(..).or_insert(..)` as `Entry`.
  - The class `Koins`, with a constant `owner` field and a `store` map field that
    its methods update in place. Each method is proved to take exactly the step
    `Exec` describes.

  The ownership check returns the typed failure `Unauthorized` instead of
  panicking. The failure comes before any write, so the store is left
  untouched. The caller's identity is an explicit parameter of each method.
- `KoinsTrace` (`trace.dfy`): a history of calls, run one at a time in order,
  and properties that hold for every history.
- `KoinsScenarios` (`scenarios.dfy`): the contract's four unit tests, plus a
  saturation scenario built from the overflow notes on `add_coins` and
  `increment`. They are written as client methods of the class. Each
  postcondition lists the values the scenario expects. Where the unit test
  expects a panic, the method returns the `Unauthorized` failure instead.

## Model

| member | source | states |
|---|---|---|
| `UInt32.CheckedAdd` | lib.rs:113 | the sum is returned exactly when it fits in 32 bits, and `None` is returned exactly on overflow |
| `UInt32.CheckedSub` | lib.rs:162 | the difference is returned exactly when it is not negative, and `None` is returned exactly on underflow |
| `UInt32.SaturatingAdd` | lib.rs:113 | `checked_add(..).unwrap_or(u32::MAX)` equals `min(a + b, u32::MAX)`, is at least each operand, and is the exact sum below the bound |
| `UInt32.SaturatingSub` | lib.rs:162 | `checked_sub(..).unwrap_or(0)` equals `max(a - b, 0)`, never exceeds `a`, and is the exact difference above zero |
| `UInt32.SaturatingAddAssociative` | lib.rs:113 | two saturating additions clamp once: grouping does not matter and the result is `min(a + b + c, u32::MAX)` |
| `Koins.EntryMatchesDefaultZero` | lib.rs:110-114 | when the `or_insert` value equals the `and_modify` function applied to 0, the entry update equals reading the default-zero balance, modifying it and writing it back |
| `Koins.OwnerMutation` | lib.rs:108-166 | every owner mutation returns and stores the independently stated clamped balance (`min(b + coins, MAX)`, `min(b + 1, MAX)`, `max(b - 1, 0)`) and changes only its account's entry |
| `Koins.GetCoinsReadsBalance` | lib.rs:123-127 | `get_coins` succeeds for any caller, leaves the state unchanged, returns the stored value when there is one and 0 otherwise |
| `Koins.AddCoinsByOwner` | lib.rs:108-117 | `add_coins` by the owner returns `min(old + coins, u32::MAX)`; a following `get_coins` returns the same value; an account without an entry gets one holding `coins` |
| `Koins.IncrementIsAddOne` | lib.rs:138-147 | for every caller and state, `increment` returns and leaves exactly what `add_coins(account, 1)` would; on an account without an entry the owner's call returns 1 and creates an entry holding 1 |
| `Koins.DecrementByOwner` | lib.rs:157-166 | `decrement` by the owner returns and stores `max(old - 1, 0)`; on an account without an entry it stores and returns 0, and a second call again returns 0 |
| `Koins.UnauthorizedChangesNothing` | lib.rs:168-174 | every mutation by a non-owner fails with `Unauthorized`, leaves the whole state as it was and changes no balance |
| `Koins.OtherAccountsUnchanged` | lib.rs:110-114 | a call leaves the owner and every other account's entry (present or absent) and balance unchanged |
| `Koins.Koins.constructor` | lib.rs:89-94 | `new` makes the caller the owner and starts with an empty store, where every balance reads 0 |
| `Koins.Koins.EnsureOwnership` | lib.rs:168-174 | the check passes exactly when the caller is the owner, and fails with `Unauthorized` otherwise |
| `Koins.Koins.AddCoins` | lib.rs:108-117 | the in-place update takes the `Exec` step: the owner gets the saturated sum, stored under the account; anyone else gets `Unauthorized` and the store is unchanged |
| `Koins.Koins.GetCoins` | lib.rs:123-127 | returns the stored value, or 0 for an account without an entry; changes nothing |
| `Koins.Koins.Increment` | lib.rs:138-147 | the in-place update takes the `Exec` step: the owner gets the balance plus one, saturated and stored; anyone else gets `Unauthorized` and the store is unchanged |
| `Koins.Koins.Decrement` | lib.rs:157-166 | the in-place update takes the `Exec` step: the owner gets the balance minus one, floored at 0 and stored; anyone else gets `Unauthorized` and the store is unchanged |
| `KoinsTrace.OwnerNeverChanges` | lib.rs:74-94 | after any history of calls the owner is still the one set by the constructor |
| `KoinsTrace.EntriesNeverRemoved` | lib.rs:110-114 | after any history of calls every account that had an entry still has one |
| `KoinsTrace.StrangersChangeNothing` | lib.rs:168-174 | a history in which the owner sends nothing leaves the ledger exactly as it was |
| `KoinsTrace.UntouchedAccountKeepsBalance` | lib.rs:110-114 | an account that no call in a history names keeps its balance and its entry, or its lack of one |
| `KoinsTrace.RepeatedIncrements` | lib.rs:138-147 | `n` owner increments raise a balance to `min(b + n, u32::MAX)` |
| `KoinsTrace.RepeatedDecrements` | lib.rs:157-166 | `n` owner decrements lower a balance to `max(b - n, 0)` |
| `KoinsTrace.ConsecutiveAddsCombine` | lib.rs:108-117 | two owner credits in a row return and leave the same as one credit of their saturating sum |
| `KoinsScenarios.HappyPath` | lib.rs:186-197 | a fresh ledger reads 0, a credit of 42 returns and reads back 42, and another account still reads 0 |
| `KoinsScenarios.AddCoinsAccumulate` | lib.rs:200-211 | crediting 100 then 50 returns 100 then 150, and each value reads back |
| `KoinsScenarios.IncrementDecrement` | lib.rs:214-232 | returns the sequence 1, 1, 101, 101, 100, 100, 0, 0 expected by the unit test |
| `KoinsScenarios.NotTheOwner` | lib.rs:234-250 | the owner's reads and credit give 0, 42, 42; a later credit by a non-owner is refused with `Unauthorized`, and the owner's 42 is still there |
| `KoinsScenarios.Saturation` | lib.rs:96-147 | scenario built from the overflow notes (not a unit test): crediting `u32::MAX`, then crediting more, then incrementing all give `u32::MAX`; a decrement then gives `u32::MAX - 1` |

## Left out

- The ink! contract machinery (`#[ink::contract]`, the storage and message attributes, message dispatch) is not modelled. Only the ledger logic is.
- `Self::env().caller()` is not modelled. The caller identity is an explicit parameter of every mutator.
- The persistence and serialisation of `ink_storage::collections::HashMap` are not modelled. The store is a Dafny `map`, and `Entry` models the entry API.
- The chain's rollback of a panicking call is not modelled. The ownership check comes before any write, so a refused call is proved to change nothing without it.
- A non-owner call panics in the contract, with the message "unauthorized caller". Here it returns `Err(Unauthorized)` and leaves the state unchanged. For this reason `KoinsScenarios.NotTheOwner` checks the refusal and the unchanged balance, where the unit test expects a panic.
- `AccountId` is 32 opaque bytes compared only for equality. Its hashing and encoding are not modelled.
- The test-environment helpers (`set_sender`, `push_execution_context`, `default_accounts`) are not modelled. They only set up the environment. The scenario methods take the accounts as parameters instead.
- The module documentation about Owlchat, fees and key management is not modelled. It describes no behaviour.
