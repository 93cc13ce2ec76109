/**
 The read side of the transaction service: the weekly, monthly and yearly
 statistics. The three share one shape, modelled once: every fetched
 transaction is listed, and its amount is added to the first bucket whose
 key equals the transaction's key; the buckets are then flattened into
 income/expense bar pairs. Keys are abstract: `keyOf` stands for the date
 formatting that names a transaction's day, month or year.
 */
module TransactionStats {
  import opened Records

  /** One period of the chart: its key, its caption, and the sums so far. */
  datatype Bucket<K> = Bucket(key: K, caption: string, income: int, expense: int)

  /** A fetched document: the id is copied onto the transaction it carries. */
  datatype Fetched = Fetched(id: TxId, tx: Transaction)

  /** One bar of the chart: the income bar carries the period's caption, the expense bar none. */
  datatype Bar = Bar(value: int, caption: Option<string>)

  /** `Array.prototype.find` on the buckets: the first one with the given key. */
  function FindBucket<K(==)>(buckets: seq<Bucket<K>>, key: K): (r: Option<nat>)
    ensures r.Some? ==> r.value < |buckets| && buckets[r.value].key == key
    ensures r.Some? ==> forall j :: 0 <= j < r.value ==> buckets[j].key != key
    ensures r.None? ==> forall j :: 0 <= j < |buckets| ==> buckets[j].key != key
  {
    if buckets == [] then None
    else if buckets[0].key == key then Some(0)
    else match FindBucket(buckets[1..], key)
      case None => None
      case Some(i) => Some(i + 1)
  }

  /** Which bucket finds a key depends on the bucket keys alone. */
  lemma {:induction false} FindBucketByKeys<K>(a: seq<Bucket<K>>, b: seq<Bucket<K>>, key: K)
    requires |a| == |b|
    requires forall i :: 0 <= i < |a| ==> a[i].key == b[i].key
    ensures FindBucket(a, key) == FindBucket(b, key)
  {
    if a != [] && a[0].key != key {
      FindBucketByKeys(a[1..], b[1..], key);
    }
  }

  /**
   What the fetched documents add to bucket `i` for transactions of `kind`:
   the amounts of those whose key the bucket is the first to match.
   */
  function Added<K(==)>(docs: seq<Fetched>, keyOf: Transaction -> K, buckets: seq<Bucket<K>>,
                        i: nat, kind: Kind): int
  {
    if docs == [] then 0
    else
      var d := docs[|docs| - 1].tx;
      Added(docs[..|docs| - 1], keyOf, buckets, i, kind) +
        (if d.kind == kind && FindBucket(buckets, keyOf(d)) == Some(i) then d.amount else 0)
  }

  /** A document whose key no bucket has, or whose type is neither income nor expense, adds nothing. */
  lemma UnmatchedAddsNothing<K>(docs: seq<Fetched>, d: Fetched, keyOf: Transaction -> K,
                                buckets: seq<Bucket<K>>, i: nat)
    requires FindBucket(buckets, keyOf(d.tx)) == None || d.tx.kind.Other?
    ensures Added(docs + [d], keyOf, buckets, i, Income) == Added(docs, keyOf, buckets, i, Income)
    ensures Added(docs + [d], keyOf, buckets, i, Expense) == Added(docs, keyOf, buckets, i, Expense)
  {
    assert (docs + [d])[..|docs|] == docs;
  }

  /** One step of the `forEach`: add a document's amount to the first bucket with its key. */
  function Credit<K(==)>(buckets: seq<Bucket<K>>, keyOf: Transaction -> K, d: Fetched): seq<Bucket<K>>
  {
    match FindBucket(buckets, keyOf(d.tx))
    case None => buckets
    case Some(i) =>
      if d.tx.kind == Income then buckets[i := buckets[i].(income := buckets[i].income + d.tx.amount)]
      else if d.tx.kind == Expense then buckets[i := buckets[i].(expense := buckets[i].expense + d.tx.amount)]
      else buckets
  }

  /**
   A step keeps every bucket's key and caption, and adds the document's
   amount to the first bucket with its key, in the column of its type.
   */
  lemma CreditAdds<K>(buckets: seq<Bucket<K>>, keyOf: Transaction -> K, d: Fetched)
    ensures |Credit(buckets, keyOf, d)| == |buckets|
    ensures forall i :: 0 <= i < |buckets| ==>
      var b := Credit(buckets, keyOf, d)[i];
      && b.key == buckets[i].key && b.caption == buckets[i].caption
      && b.income == buckets[i].income +
           (if d.tx.kind == Income && FindBucket(buckets, keyOf(d.tx)) == Some(i) then d.tx.amount else 0)
      && b.expense == buckets[i].expense +
           (if d.tx.kind == Expense && FindBucket(buckets, keyOf(d.tx)) == Some(i) then d.tx.amount else 0)
  {
  }

  /** The buckets after the `forEach` has seen `docs`, in query order. */
  function Tally<K(==)>(docs: seq<Fetched>, keyOf: Transaction -> K, initial: seq<Bucket<K>>): seq<Bucket<K>> {
    if docs == [] then initial
    else Credit(Tally(docs[..|docs| - 1], keyOf, initial), keyOf, docs[|docs| - 1])
  }

  /**
   After the `forEach`, each bucket keeps its key and caption and holds its
   starting sums plus exactly the amounts it was the first match for.
   */
  lemma {:induction false} TallyAdds<K>(docs: seq<Fetched>, keyOf: Transaction -> K, initial: seq<Bucket<K>>)
    ensures |Tally(docs, keyOf, initial)| == |initial|
    ensures forall i :: 0 <= i < |initial| ==>
      var b := Tally(docs, keyOf, initial)[i];
      && b.key == initial[i].key && b.caption == initial[i].caption
      && b.income == initial[i].income + Added(docs, keyOf, initial, i, Income)
      && b.expense == initial[i].expense + Added(docs, keyOf, initial, i, Expense)
  {
    if docs != [] {
      var prefix, d := docs[..|docs| - 1], docs[|docs| - 1];
      TallyAdds(prefix, keyOf, initial);
      var before := Tally(prefix, keyOf, initial);
      FindBucketByKeys(before, initial, keyOf(d.tx));
      CreditAdds(before, keyOf, d);
    }
  }

  /** The `forEach` over the query result: list every document and add its amount to its bucket. */
  method Accumulate<K(==)>(docs: seq<Fetched>, keyOf: Transaction -> K, initial: seq<Bucket<K>>)
    returns (transactions: seq<Fetched>, buckets: seq<Bucket<K>>)
    ensures transactions == docs
    ensures buckets == Tally(docs, keyOf, initial)
    ensures |buckets| == |initial|
    ensures forall i :: 0 <= i < |buckets| ==>
      && buckets[i].key == initial[i].key && buckets[i].caption == initial[i].caption
      && buckets[i].income == initial[i].income + Added(docs, keyOf, initial, i, Income)
      && buckets[i].expense == initial[i].expense + Added(docs, keyOf, initial, i, Expense)
  {
    transactions := [];
    buckets := initial;
    var n := 0;
    while n < |docs|
      invariant 0 <= n <= |docs|
      invariant transactions == docs[..n]
      invariant buckets == Tally(docs[..n], keyOf, initial)
    {
      assert docs[..n + 1][..n] == docs[..n];
      ghost var before := buckets;
      var transaction := docs[n].tx;
      transactions := transactions + [docs[n]];
      var found := FindBucket(buckets, keyOf(transaction));
      if found.Some? {
        var i := found.value;
        if transaction.kind == Income {
          buckets := buckets[i := buckets[i].(income := buckets[i].income + transaction.amount)];
        } else if transaction.kind == Expense {
          buckets := buckets[i := buckets[i].(expense := buckets[i].expense + transaction.amount)];
        }
      }
      assert buckets == Credit(before, keyOf, docs[n]);
      n := n + 1;
    }
    assert docs[..n] == docs;
    TallyAdds(docs, keyOf, initial);
  }

  /** The `flatMap` into bars: an income bar then an expense bar per bucket. */
  function Flatten<K>(buckets: seq<Bucket<K>>): (bars: seq<Bar>)
    ensures |bars| == 2 * |buckets|
    ensures forall i :: 0 <= i < |buckets| ==>
      bars[2 * i] == Bar(buckets[i].income, Some(buckets[i].caption)) &&
      bars[2 * i + 1] == Bar(buckets[i].expense, None)
  {
    if buckets == [] then []
    else
      var rest := Flatten(buckets[1..]);
      assert forall i :: 1 <= i < |buckets| ==> buckets[i] == buckets[1..][i - 1];
      [Bar(buckets[0].income, Some(buckets[0].caption)), Bar(buckets[0].expense, None)] + rest
  }

  /**
   One statistics call after its query: the chart bars and the listed
   transactions. `initial` is the period list (the last seven days, the last
   twelve months, or the years from the earliest transaction to now).
   */
  method CollectStats<K(==)>(docs: seq<Fetched>, keyOf: Transaction -> K, initial: seq<Bucket<K>>)
    returns (stats: seq<Bar>, transactions: seq<Fetched>)
    ensures transactions == docs
    ensures |stats| == 2 * |initial|
    ensures forall i :: 0 <= i < |initial| ==>
      && stats[2 * i] == Bar(initial[i].income + Added(docs, keyOf, initial, i, Income), Some(initial[i].caption))
      && stats[2 * i + 1] == Bar(initial[i].expense + Added(docs, keyOf, initial, i, Expense), None)
  {
    var buckets;
    transactions, buckets := Accumulate(docs, keyOf, initial);
    stats := Flatten(buckets);
  }

  /**
   The `reduce` that finds the first year: the earliest document date,
   starting from now.
   */
  function Earliest(dates: seq<int>, now: int): (e: int)
    ensures e <= now
    ensures forall i :: 0 <= i < |dates| ==> e <= dates[i]
    ensures e == now || exists i :: 0 <= i < |dates| && e == dates[i]
  {
    if dates == [] then now
    else
      var earliest := Earliest(dates[..|dates| - 1], now);
      var d := dates[|dates| - 1];
      if d < earliest then d else earliest
  }
}
