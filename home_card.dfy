/** The home screen card's grand totals over the user's wallets. */
module HomeCard {
  import opened Records

  datatype Totals = Totals(balance: int, income: int, expenses: int)

  const Zero := Totals(0, 0, 0)

  function Plus(a: Totals, b: Totals): Totals {
    Totals(a.balance + b.balance, a.income + b.income, a.expenses + b.expenses)
  }

  /** What one wallet contributes: its balance and its two totals. */
  function Of(w: Wallet): Totals {
    Totals(w.amount, w.totalIncome, w.totalExpenses)
  }

  predicate EveryWalletBalanced(wallets: seq<Wallet>) {
    forall i :: 0 <= i < |wallets| ==> Balanced(wallets[i])
  }

  /** getTotals: the `reduce` from zero, adding each wallet in list order. */
  function GetTotals(wallets: seq<Wallet>): (t: Totals)
    ensures wallets == [] ==> t == Zero
    ensures EveryWalletBalanced(wallets) ==> t.balance == t.income - t.expenses
  {
    if wallets == [] then Zero
    else Plus(GetTotals(wallets[..|wallets| - 1]), Of(wallets[|wallets| - 1]))
  }

  /** The plain sums of the three fields, head first. */
  function Sum(wallets: seq<Wallet>): Totals {
    if wallets == [] then Zero else Plus(Of(wallets[0]), Sum(wallets[1..]))
  }

  /** The totals of a concatenation are the totals of its parts added. */
  lemma {:induction false} GetTotalsConcat(a: seq<Wallet>, b: seq<Wallet>)
    ensures GetTotals(a + b) == Plus(GetTotals(a), GetTotals(b))
  {
    if b != [] {
      var last := |b| - 1;
      var ab := a + b;
      assert ab[..|ab| - 1] == a + b[..last];
      assert ab[|ab| - 1] == b[last];
      assert GetTotals(ab) == Plus(GetTotals(a + b[..last]), Of(b[last]));
      GetTotalsConcat(a, b[..last]);
      assert GetTotals(b) == Plus(GetTotals(b[..last]), Of(b[last]));
    } else {
      assert a + b == a;
    }
  }

  /** Each total is the sum of the corresponding wallet field. */
  lemma {:induction false} GetTotalsIsSum(wallets: seq<Wallet>)
    ensures GetTotals(wallets) == Sum(wallets)
  {
    if wallets != [] {
      GetTotalsConcat([wallets[0]], wallets[1..]);
      assert [wallets[0]] + wallets[1..] == wallets;
      GetTotalsIsSum(wallets[1..]);
    }
  }

  /** The totals do not depend on the order in which the wallets are listed. */
  lemma GetTotalsOrderIndependent(a: seq<Wallet>, b: seq<Wallet>)
    ensures GetTotals(a + b) == GetTotals(b + a)
  {
    GetTotalsConcat(a, b);
    GetTotalsConcat(b, a);
  }

  /** Taking one wallet out of the list takes its share out of the totals. */
  lemma GetTotalsWithout(left: seq<Wallet>, x: Wallet, right: seq<Wallet>)
    ensures GetTotals(left + [x] + right) == Plus(GetTotals(left + right), Of(x))
  {
    assert (left + [x])[..|left|] == left;
    GetTotalsConcat(left + [x], right);
    GetTotalsConcat(left, right);
  }

  /** Taking the element at `i` out of a list takes one copy of it out of its multiset. */
  lemma MultisetWithout(b: seq<Wallet>, i: nat)
    requires i < |b|
    ensures multiset(b[..i] + b[i + 1..]) == multiset(b) - multiset{b[i]}
  {
    var left, x, right := b[..i], b[i], b[i + 1..];
    assert b == left + [x] + right;
    assert multiset(b) == multiset(left) + multiset{x} + multiset(right);
  }

  /** Listing the same wallets in any order gives the same totals. */
  lemma {:induction false} GetTotalsPermutation(a: seq<Wallet>, b: seq<Wallet>)
    requires multiset(a) == multiset(b)
    ensures GetTotals(a) == GetTotals(b)
  {
    if a == [] {
      assert |b| == |multiset(b)| == 0;
    } else {
      var n := |a| - 1;
      assert a == a[..n] + [a[n]];
      assert multiset(a[..n]) == multiset(a) - multiset{a[n]};
      assert a[n] in multiset(b);
      var i :| 0 <= i < |b| && b[i] == a[n];
      assert b == b[..i] + [b[i]] + b[i + 1..];
      GetTotalsWithout(b[..i], b[i], b[i + 1..]);
      MultisetWithout(b, i);
      GetTotalsPermutation(a[..n], b[..i] + b[i + 1..]);
    }
  }
}
