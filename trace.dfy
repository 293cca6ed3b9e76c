/**
 Sequences of calls on the ledger. The execution environment runs one call at a
 time to completion, so a history of calls is a fold of `Exec` over the list;
 a failed call leaves the state as it was. The lemmas state what holds of every
 history, not just of one call.
 */
module KoinsTrace {
  import opened UInt32
  import opened Koins

  /** One invocation: who sent it and which message. */
  datatype Call = Call(caller: AccountId, message: Message)

  /** The state after running `calls` in order from `s`. */
  function Run(s: State, calls: seq<Call>): (r: State)
    decreases |calls|
  {
    if calls == [] then s
    else Run(Exec(s, calls[0].caller, calls[0].message).state, calls[1..])
  }

  /** `n` copies of the same call. */
  function Repeat(c: Call, n: nat): (r: seq<Call>)
    ensures |r| == n
  {
    if n == 0 then [] else [c] + Repeat(c, n - 1)
  }

  /** Nothing ever writes the owner. */
  lemma {:induction false} OwnerNeverChanges(s: State, calls: seq<Call>)
    ensures Run(s, calls).owner == s.owner
    decreases |calls|
  {
    if calls != [] {
      OwnerNeverChanges(Exec(s, calls[0].caller, calls[0].message).state, calls[1..]);
    }
  }

  /** Entries are never removed: every account with an entry keeps one. */
  lemma {:induction false} EntriesNeverRemoved(s: State, calls: seq<Call>)
    ensures s.store.Keys <= Run(s, calls).store.Keys
    decreases |calls|
  {
    if calls != [] {
      EntriesNeverRemoved(Exec(s, calls[0].caller, calls[0].message).state, calls[1..]);
    }
  }

  /** A history in which the owner sends nothing leaves the ledger exactly as it was. */
  lemma {:induction false} StrangersChangeNothing(s: State, calls: seq<Call>)
    requires forall i :: 0 <= i < |calls| ==> calls[i].caller != s.owner
    ensures Run(s, calls) == s
    decreases |calls|
  {
    if calls != [] {
      assert calls[0].caller != s.owner;
      StrangersChangeNothing(s, calls[1..]);
    }
  }

  /** An account that no call names keeps its balance and its entry (or lack of one). */
  lemma {:induction false} UntouchedAccountKeepsBalance(s: State, calls: seq<Call>, a: AccountId)
    requires forall i :: 0 <= i < |calls| ==> calls[i].message.account != a
    ensures Balance(Run(s, calls).store, a) == Balance(s.store, a)
    ensures a in Run(s, calls).store <==> a in s.store
    decreases |calls|
  {
    if calls != [] {
      var s1 := Exec(s, calls[0].caller, calls[0].message).state;
      OtherAccountsUnchanged(s, calls[0].caller, calls[0].message, a);
      UntouchedAccountKeepsBalance(s1, calls[1..], a);
    }
  }

  /** `n` increments by the owner raise a balance by `n`, clamped at `u32::MAX`. */
  lemma {:induction false} RepeatedIncrements(s: State, a: AccountId, n: nat)
    ensures Balance(Run(s, Repeat(Call(s.owner, Increment(a)), n)).store, a)
         == Min(Balance(s.store, a) + n, MAX)
    decreases n
  {
    if n > 0 {
      var c := Call(s.owner, Increment(a));
      var s1 := Exec(s, s.owner, Increment(a)).state;
      OwnerMutation(s, Increment(a));
      assert Repeat(c, n)[1..] == Repeat(c, n - 1);
      RepeatedIncrements(s1, a, n - 1);
    }
  }

  /** `n` decrements by the owner lower a balance by `n`, stopping at zero. */
  lemma {:induction false} RepeatedDecrements(s: State, a: AccountId, n: nat)
    ensures Balance(Run(s, Repeat(Call(s.owner, Decrement(a)), n)).store, a)
         == Max(Balance(s.store, a) - n, 0)
    decreases n
  {
    if n > 0 {
      var c := Call(s.owner, Decrement(a));
      var s1 := Exec(s, s.owner, Decrement(a)).state;
      OwnerMutation(s, Decrement(a));
      assert Repeat(c, n)[1..] == Repeat(c, n - 1);
      RepeatedDecrements(s1, a, n - 1);
    }
  }

  /** Two credits by the owner, one after the other, return and leave what one credit of
      their saturating sum returns and leaves. */
  lemma ConsecutiveAddsCombine(s: State, a: AccountId, c1: U32, c2: U32)
    ensures Exec(Exec(s, s.owner, AddCoins(a, c1)).state, s.owner, AddCoins(a, c2))
         == Exec(s, s.owner, AddCoins(a, SaturatingAdd(c1, c2)))
  {
    var b := Balance(s.store, a);
    var s1 := Exec(s, s.owner, AddCoins(a, c1)).state;
    OwnerMutation(s, AddCoins(a, c1));
    OwnerMutation(s1, AddCoins(a, c2));
    OwnerMutation(s, AddCoins(a, SaturatingAdd(c1, c2)));
    SaturatingAddAssociative(b, c1, c2);
    assert s1.store[a := SaturatingAdd(SaturatingAdd(b, c1), c2)]
        == s.store[a := SaturatingAdd(b, SaturatingAdd(c1, c2))];
  }
}
