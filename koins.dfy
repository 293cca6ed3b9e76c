/**
 The Koins ledger: one owner, fixed when the ledger is created, may credit and
 debit 32-bit balances keyed by account; anyone may read a balance, and an
 account never seen reads as zero. Arithmetic saturates at `u32::MAX` and at
 zero instead of wrapping.

 `Exec` is the ledger as a state-transition function; the class `Koins` is the
 ledger as the source writes it, an object whose `store` field its methods
 update in place, and every method is proved to take exactly the step `Exec`
 describes.
 */
module Koins {
  import opened UInt32

  type Byte = bv8

  /** An account identity: 32 opaque bytes, only ever compared for equality. */
  type AccountId = s: seq<Byte> | |s| == 32 witness seq(32, _ => 0)

  /** The one failure of the ledger: a mutation asked for by someone other than the owner. */
  datatype Error = Unauthorized

  datatype Result<T> = Ok(value: T) | Err(error: Error)

  /** The balance map. */
  type Store = map<AccountId, U32>

  datatype State = State(owner: AccountId, store: Store)

  /** The balance of `account`: the stored value, or zero for an account without an entry. */
  function Balance(store: Store, account: AccountId): (r: U32)
  {
    if account in store then store[account] else 0
  }

  /** The hash map's `entry(account).and_modify(andModify).or_insert(orInsert)`:
      the updated map and the value that is now stored for `account`. */
  function Entry(store: Store, account: AccountId, andModify: U32 -> U32, orInsert: U32): (r: (Store, U32))
  {
    var v := if account in store then andModify(store[account]) else orInsert;
    (store[account := v], v)
  }

  /** The ledger's messages. */
  datatype Message =
    | AddCoins(account: AccountId, coins: U32)
    | GetCoins(account: AccountId)
    | Increment(account: AccountId)
    | Decrement(account: AccountId)
  {
    /** Every message except `GetCoins` writes the store and is reserved to the owner. */
    predicate Mutates() { !GetCoins? }
  }

  /** The read-modify-write each mutating message performs on the store. */
  function Write(store: Store, m: Message): (r: (Store, U32))
    requires m.Mutates()
  {
    match m
    case AddCoins(a, coins) => Entry(store, a, v => SaturatingAdd(v, coins), coins)
    case Increment(a) => Entry(store, a, v => SaturatingAdd(v, 1), 1)
    case Decrement(a) => Entry(store, a, v => SaturatingSub(v, 1), 0)
  }

  /** The state after a call and what the call returns. */
  datatype Step = Step(state: State, result: Result<U32>)

  /** One call of message `m` by `caller`. A mutation by anyone but the owner fails
      before the store is touched, so the state is left as it was. */
  function Exec(s: State, caller: AccountId, m: Message): (t: Step)
  {
    if !m.Mutates() then
      Step(s, Ok(Balance(s.store, m.account)))
    else if caller != s.owner then
      Step(s, Err(Unauthorized))
    else
      var w := Write(s.store, m);
      Step(State(s.owner, w.0), Ok(w.1))
  }

  /** The new balance a mutating message is meant to leave, given the prior balance `b`,
      stated with unbounded integers and an explicit clamp. */
  function Effect(b: U32, m: Message): (r: int)
    requires m.Mutates()
  {
    match m
    case AddCoins(_, coins) => Min(b + coins, MAX)
    case Increment(_) => Min(b + 1, MAX)
    case Decrement(_) => Max(b - 1, 0)
  }

  /** The entry API with an `or_insert` value equal to `andModify(0)` behaves as a
      read of the default-zero balance followed by a write. */
  lemma EntryMatchesDefaultZero(store: Store, account: AccountId, andModify: U32 -> U32, orInsert: U32)
    requires orInsert == andModify(0)
    ensures Entry(store, account, andModify, orInsert)
         == (store[account := andModify(Balance(store, account))], andModify(Balance(store, account)))
  {
  }

  /** Every mutation by the owner stores and returns the clamped new balance of its account,
      and touches no other entry. */
  lemma OwnerMutation(s: State, m: Message)
    requires m.Mutates()
    ensures var b := Balance(s.store, m.account);
            Exec(s, s.owner, m) == Step(State(s.owner, s.store[m.account := Effect(b, m)]), Ok(Effect(b, m)))
  {
    match m
    case AddCoins(a, coins) =>
      EntryMatchesDefaultZero(s.store, a, v => SaturatingAdd(v, coins), coins);
    case Increment(a) =>
      EntryMatchesDefaultZero(s.store, a, v => SaturatingAdd(v, 1), 1);
    case Decrement(a) =>
      EntryMatchesDefaultZero(s.store, a, v => SaturatingSub(v, 1), 0);
  }

  /** `get_coins` answers anyone, never fails and changes nothing; an account without an
      entry reads as zero. */
  lemma GetCoinsReadsBalance(s: State, caller: AccountId, account: AccountId)
    ensures Exec(s, caller, GetCoins(account)) == Step(s, Ok(Balance(s.store, account)))
    ensures account !in s.store ==> Exec(s, caller, GetCoins(account)).result == Ok(0)
    ensures account in s.store ==> Exec(s, caller, GetCoins(account)).result == Ok(s.store[account])
  {
  }

  /** `add_coins` by the owner returns `min(old + coins, u32::MAX)`, a following read returns
      the same value, and an account without an entry gets one holding `coins`. */
  lemma AddCoinsByOwner(s: State, account: AccountId, coins: U32)
    ensures var t := Exec(s, s.owner, AddCoins(account, coins));
            && t.result == Ok(Min(Balance(s.store, account) + coins, MAX))
            && Exec(t.state, s.owner, GetCoins(account)).result == t.result
            && (account !in s.store ==> account in t.state.store && t.state.store[account] == coins)
  {
    OwnerMutation(s, AddCoins(account, coins));
  }

  /** `increment` takes exactly the step `add_coins(account, 1)` takes, for every caller and
      state, including the saturation at `u32::MAX` and the new entry holding 1. */
  lemma IncrementIsAddOne(s: State, caller: AccountId, account: AccountId)
    ensures Exec(s, caller, Increment(account)) == Exec(s, caller, AddCoins(account, 1))
    ensures caller == s.owner && account !in s.store ==>
              var t := Exec(s, caller, Increment(account));
              && t.result == Ok(1) && account in t.state.store && t.state.store[account] == 1
  {
    if caller == s.owner {
      OwnerMutation(s, Increment(account));
      OwnerMutation(s, AddCoins(account, 1));
    }
  }

  /** `decrement` by the owner returns and stores `max(old - 1, 0)`; on an account without an
      entry it stores and returns 0, and a second call still returns 0. */
  lemma DecrementByOwner(s: State, account: AccountId)
    ensures var t := Exec(s, s.owner, Decrement(account));
            && t.result == Ok(Max(Balance(s.store, account) - 1, 0))
            && Exec(t.state, s.owner, GetCoins(account)).result == t.result
    ensures account !in s.store ==>
              var t := Exec(s, s.owner, Decrement(account));
              && t.result == Ok(0) && account in t.state.store && t.state.store[account] == 0
              && Exec(t.state, s.owner, Decrement(account)).result == Ok(0)
  {
    var t := Exec(s, s.owner, Decrement(account));
    OwnerMutation(s, Decrement(account));
    OwnerMutation(t.state, Decrement(account));
  }

  /** A mutation by anyone but the owner fails with `Unauthorized` and leaves every balance,
      and the whole state, as it was. */
  lemma UnauthorizedChangesNothing(s: State, caller: AccountId, m: Message)
    requires m.Mutates() && caller != s.owner
    ensures Exec(s, caller, m) == Step(s, Err(Unauthorized))
    ensures forall a :: Balance(Exec(s, caller, m).state.store, a) == Balance(s.store, a)
  {
  }

  /** A call changes at most the entry of its own account: every other account keeps its
      entry (or its lack of one), and the owner never changes. */
  lemma OtherAccountsUnchanged(s: State, caller: AccountId, m: Message, other: AccountId)
    requires other != m.account
    ensures var s' := Exec(s, caller, m).state;
            && s'.owner == s.owner
            && (other in s'.store <==> other in s.store)
            && Balance(s'.store, other) == Balance(s.store, other)
  {
  }

  /** The ledger contract. `owner` is a constant field: it is set by the constructor and
      cannot be written afterwards. */
  class Koins {
    const owner: AccountId
    var store: Store

    /** The ledger's state as a value. */
    function Model(): State
      reads this
    {
      State(owner, store)
    }

    /** `new`: the caller becomes the owner and the store starts empty. */
    constructor (caller: AccountId)
      ensures owner == caller && store == map[]
      ensures forall a :: Balance(store, a) == 0
    {
      owner := caller;
      store := map[];
    }

    /** `ensure_ownership`: passes exactly when the caller is the owner. */
    method EnsureOwnership(caller: AccountId) returns (o: Result<()>)
      ensures o.Ok? <==> caller == owner
      ensures o.Err? ==> o.error == Unauthorized
    {
      if owner == caller {
        o := Ok(());
      } else {
        o := Err(Unauthorized);
      }
    }

    /** `add_coins`: owner-only saturating credit of `coins`. */
    method AddCoins(caller: AccountId, account: AccountId, coins: U32) returns (r: Result<U32>)
      modifies this
      ensures Step(Model(), r) == Exec(old(Model()), caller, Message.AddCoins(account, coins))
      ensures r.Ok? <==> caller == owner
      ensures r.Ok? ==> (r.value == SaturatingAdd(Balance(old(store), account), coins)
                         && store == old(store)[account := r.value])
      ensures r.Err? ==> r.error == Unauthorized && store == old(store)
    {
      var auth := EnsureOwnership(caller);
      if auth.Err? {
        return Err(auth.error);
      }
      var v: U32;
      if account in store {
        v := SaturatingAdd(store[account], coins);
      } else {
        v := coins;
      }
      store := store[account := v];
      r := Ok(v);
    }

    /** `get_coins`: the stored balance, or zero for an account never seen; changes nothing. */
    method GetCoins(account: AccountId) returns (r: U32)
      ensures r == Balance(store, account)
      ensures account in store ==> r == store[account]
      ensures account !in store ==> r == 0
    {
      if account in store {
        r := store[account];
      } else {
        r := 0;
      }
    }

    /** `increment`: owner-only saturating credit of one coin. */
    method Increment(caller: AccountId, account: AccountId) returns (r: Result<U32>)
      modifies this
      ensures Step(Model(), r) == Exec(old(Model()), caller, Message.Increment(account))
      ensures r.Ok? <==> caller == owner
      ensures r.Ok? ==> (r.value == SaturatingAdd(Balance(old(store), account), 1)
                         && store == old(store)[account := r.value])
      ensures r.Err? ==> r.error == Unauthorized && store == old(store)
    {
      var auth := EnsureOwnership(caller);
      if auth.Err? {
        return Err(auth.error);
      }
      var v: U32;
      if account in store {
        v := SaturatingAdd(store[account], 1);
      } else {
        v := 1;
      }
      store := store[account := v];
      r := Ok(v);
    }

    /** `decrement`: owner-only debit of one coin that stops at zero. */
    method Decrement(caller: AccountId, account: AccountId) returns (r: Result<U32>)
      modifies this
      ensures Step(Model(), r) == Exec(old(Model()), caller, Message.Decrement(account))
      ensures r.Ok? <==> caller == owner
      ensures r.Ok? ==> (r.value == SaturatingSub(Balance(old(store), account), 1)
                         && store == old(store)[account := r.value])
      ensures r.Err? ==> r.error == Unauthorized && store == old(store)
    {
      var auth := EnsureOwnership(caller);
      if auth.Err? {
        return Err(auth.error);
      }
      var v: U32;
      if account in store {
        v := SaturatingSub(store[account], 1);
      } else {
        v := 0;
      }
      store := store[account := v];
      r := Ok(v);
    }
  }
}
