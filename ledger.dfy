/** Balance adjustments made by the transaction endpoint. A transaction adds
    a signed amount to one user's balance with no floor, so a run of
    transactions on one user depends only on the amounts, not on their order. */
module Ledger {
  import opened Entities

  /** The user after one transaction of `amount` cents. */
  function Credited(u: User, amount: int): (v: User)
    ensures v.balance - u.balance == amount
    ensures v.id == u.id && v.name == u.name && v.netid == u.netid
  {
    u.(balance := u.balance + amount)
  }

  /** The user after the transactions `amounts`, applied first to last. */
  function AfterTransactions(u: User, amounts: seq<int>): User
    decreases |amounts|
  {
    if amounts == [] then u else AfterTransactions(Credited(u, amounts[0]), amounts[1..])
  }

  /** The total of a run of amounts. */
  function Sum(amounts: seq<int>): int
  {
    if amounts == [] then 0 else amounts[0] + Sum(amounts[1..])
  }

  /** A run of transactions changes only the balance, by the total of the amounts. */
  lemma {:induction false} AfterTransactionsAddsSum(u: User, amounts: seq<int>)
    ensures AfterTransactions(u, amounts) == u.(balance := u.balance + Sum(amounts))
    decreases |amounts|
  {
    if amounts != [] {
      AfterTransactionsAddsSum(Credited(u, amounts[0]), amounts[1..]);
    }
  }

  /** Taking one element out of a run leaves the rest summing to the remainder. */
  lemma {:induction false} SumWithout(amounts: seq<int>, i: nat)
    requires i < |amounts|
    ensures Sum(amounts) == amounts[i] + Sum(amounts[..i] + amounts[i + 1..])
    decreases i
  {
    if i == 0 {
      assert amounts[..0] + amounts[1..] == amounts[1..];
    } else {
      var tail := amounts[1..];
      SumWithout(tail, i - 1);
      var rest := amounts[..i] + amounts[i + 1..];
      assert rest[0] == amounts[0];
      assert rest[1..] == tail[..i - 1] + tail[i..];
    }
  }

  /** Taking one element out of a run takes it out of the run's multiset. */
  lemma MultisetWithout(amounts: seq<int>, i: nat)
    requires i < |amounts|
    ensures multiset(amounts[..i] + amounts[i + 1..]) == multiset(amounts) - multiset{amounts[i]}
  {
    assert amounts == amounts[..i] + [amounts[i]] + amounts[i + 1..];
  }

  /** Runs holding the same amounts have the same total. */
  lemma {:induction false} SumOfPermutation(xs: seq<int>, ys: seq<int>)
    requires multiset(xs) == multiset(ys)
    ensures Sum(xs) == Sum(ys)
    decreases |xs|
  {
    if xs == [] {
      assert |ys| == |multiset(ys)| == 0;
    } else {
      assert xs[0] in multiset(ys);
      var i :| 0 <= i < |ys| && ys[i] == xs[0];
      MultisetWithout(xs, 0);
      MultisetWithout(ys, i);
      assert xs[..0] + xs[1..] == xs[1..];
      SumOfPermutation(xs[1..], ys[..i] + ys[i + 1..]);
      SumWithout(ys, i);
    }
  }

  /** Applying the same transactions to one user in any order gives the same user. */
  lemma TransactionOrderIrrelevant(u: User, xs: seq<int>, ys: seq<int>)
    requires multiset(xs) == multiset(ys)
    ensures AfterTransactions(u, xs) == AfterTransactions(u, ys)
  {
    AfterTransactionsAddsSum(u, xs);
    AfterTransactionsAddsSum(u, ys);
    SumOfPermutation(xs, ys);
  }
}
