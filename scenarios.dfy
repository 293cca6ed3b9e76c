/**
 The contract's four unit tests, plus a saturation scenario built from the
 overflow notes on `add_coins` and `increment`, as clients of the `Koins` class.
 Each method returns, in order, the values the scenario reads back, and its
 postcondition lists the values the scenario expects. Where the unit test
 expects a panic, the method returns the `Unauthorized` failure instead.
 */
module KoinsScenarios {
  import opened UInt32
  import opened Koins

  /** `happy_path`: a fresh ledger reads zero, a credit of 42 is read back, and an
      unrelated account still reads zero. */
  method HappyPath(alice: AccountId, bob: AccountId, eve: AccountId) returns (seen: seq<int>)
    requires bob != eve
    ensures seen == [0, 42, 42, 0]
  {
    var koins := new Koins(alice);
    var b0 := koins.GetCoins(bob);
    var added := koins.AddCoins(alice, bob, 42);
    var b1 := koins.GetCoins(bob);
    var e0 := koins.GetCoins(eve);
    seen := [b0, added.value, b1, e0];
  }

  /** `add_coins`: credits accumulate, 100 then 50 gives 150. */
  method AddCoinsAccumulate(alice: AccountId, bob: AccountId) returns (seen: seq<int>)
    ensures seen == [0, 100, 100, 150, 150]
  {
    var koins := new Koins(alice);
    var b0 := koins.GetCoins(bob);
    var r1 := koins.AddCoins(alice, bob, 100);
    var b1 := koins.GetCoins(bob);
    var r2 := koins.AddCoins(alice, bob, 50);
    var b2 := koins.GetCoins(bob);
    seen := [b0, r1.value, b1, r2.value, b2];
  }

  /** `increment_decrement`: an unseen account increments to 1; decrementing an unseen
      account gives 0, twice in a row. */
  method IncrementDecrement(alice: AccountId, bob: AccountId, eve: AccountId) returns (seen: seq<int>)
    requires bob != eve
    ensures seen == [1, 1, 101, 101, 100, 100, 0, 0]
  {
    var koins := new Koins(alice);
    var i := koins.Increment(alice, bob);
    var b1 := koins.GetCoins(bob);
    var a := koins.AddCoins(alice, bob, 100);
    var b2 := koins.GetCoins(bob);
    var d := koins.Decrement(alice, bob);
    var b3 := koins.GetCoins(bob);
    var e1 := koins.Decrement(alice, eve);
    var e2 := koins.Decrement(alice, eve);
    seen := [i.value, b1, a.value, b2, d.value, b3, e1.value, e2.value];
  }

  /** `not_the_owner`: a credit sent by someone other than the owner is refused with
      `Unauthorized`, and the balance the owner set is still there. */
  method NotTheOwner(alice: AccountId, bob: AccountId, django: AccountId)
    returns (seen: seq<int>, refused: Result<U32>, after: int)
    requires django != alice
    ensures seen == [0, 42, 42]
    ensures refused == Err(Unauthorized)
    ensures after == 42
  {
    var koins := new Koins(alice);
    var b0 := koins.GetCoins(bob);
    var added := koins.AddCoins(alice, bob, 42);
    var b1 := koins.GetCoins(bob);
    seen := [b0, added.value, b1];
    refused := koins.AddCoins(django, bob, 100);
    after := koins.GetCoins(bob);
  }

  /** Saturation at the top: a credit or an increment of a balance at `u32::MAX` leaves it
      there, and a decrement then lowers it by one. */
  method Saturation(alice: AccountId, bob: AccountId) returns (seen: seq<int>)
    ensures seen == [MAX, MAX, MAX, MAX - 1, MAX - 1]
  {
    var koins := new Koins(alice);
    var full := koins.AddCoins(alice, bob, MAX);
    var more := koins.AddCoins(alice, bob, 7);
    var inc := koins.Increment(alice, bob);
    var dec := koins.Decrement(alice, bob);
    var after := koins.GetCoins(bob);
    seen := [full.value, more.value, inc.value, dec.value, after];
  }
}
