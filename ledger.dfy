/**
 The link between the two collections: a wallet's `totalIncome` and
 `totalExpenses` are the sums of the amounts of the transactions booked
 against it, income and everything else, and its balance is their
 difference. Successful saves keep this link, and so does a deletion
 against the transaction's own wallet; the lemmas at the end show three
 paths of the services that break it.
 */
module Ledger {
  import opened Records
  import opened TransactionService

  /** What transaction `t` books on wallet `w`, in the income column or in the other one. */
  function Share(t: Transaction, w: WalletId, income: bool): int {
    if t.walletId == w && (t.kind == Income) == income then t.amount else 0
  }

  /** The sum of the shares of the transactions whose ids are in `keys`. */
  ghost function BookedOn(txs: map<TxId, Transaction>, keys: set<TxId>, w: WalletId, income: bool): int
    requires keys <= txs.Keys
    decreases keys
  {
    if keys == {} then 0
    else
      var k :| k in keys;
      Share(txs[k], w, income) + BookedOn(txs, keys - {k}, w, income)
  }

  /** The sum of the shares of every transaction. */
  ghost function Booked(txs: map<TxId, Transaction>, w: WalletId, income: bool): int {
    BookedOn(txs, txs.Keys, w, income)
  }

  /** Every wallet's totals are what its transactions book, and its balance is their difference. */
  ghost predicate InStep(s: Stores) {
    forall w :: w in s.wallets ==>
      && s.wallets[w].totalIncome == Booked(s.transactions, w, true)
      && s.wallets[w].totalExpenses == Booked(s.transactions, w, false)
      && Balanced(s.wallets[w])
  }

  /** The sum does not depend on which transaction is taken first. */
  lemma {:induction false} BookedOnRemove(txs: map<TxId, Transaction>, keys: set<TxId>, k: TxId,
                                          w: WalletId, income: bool)
    requires keys <= txs.Keys && k in keys
    ensures BookedOn(txs, keys, w, income) == Share(txs[k], w, income) + BookedOn(txs, keys - {k}, w, income)
    decreases keys
  {
    var j :| j in keys && BookedOn(txs, keys, w, income) ==
                          Share(txs[j], w, income) + BookedOn(txs, keys - {j}, w, income);
    if j != k {
      BookedOnRemove(txs, keys - {j}, k, w, income);
      BookedOnRemove(txs, keys - {k}, j, w, income);
      assert keys - {j} - {k} == keys - {k} - {j};
    }
  }

  /** The sum over `keys` reads only the records under those keys. */
  lemma {:induction false} BookedOnFrame(txs: map<TxId, Transaction>, txs': map<TxId, Transaction>,
                                         keys: set<TxId>, w: WalletId, income: bool)
    requires keys <= txs.Keys && keys <= txs'.Keys
    requires forall k :: k in keys ==> txs[k] == txs'[k]
    ensures BookedOn(txs, keys, w, income) == BookedOn(txs', keys, w, income)
    decreases keys
  {
    if keys != {} {
      var k :| k in keys;
      BookedOnRemove(txs, keys, k, w, income);
      BookedOnRemove(txs', keys, k, w, income);
      BookedOnFrame(txs, txs', keys - {k}, w, income);
    }
  }

  /** Writing a record under `id` replaces what the old record there booked by what the new one books. */
  lemma BookedAfterWrite(txs: map<TxId, Transaction>, id: TxId, t: Transaction, w: WalletId, income: bool)
    ensures Booked(txs[id := t], w, income) ==
      Booked(txs, w, income) - (if id in txs then Share(txs[id], w, income) else 0) + Share(t, w, income)
  {
    var txs' := txs[id := t];
    var rest := txs.Keys - {id};
    assert txs'.Keys - {id} == rest;
    BookedOnRemove(txs', txs'.Keys, id, w, income);
    BookedOnFrame(txs', txs, rest, w, income);
    if id in txs {
      BookedOnRemove(txs, txs.Keys, id, w, income);
    } else {
      assert rest == txs.Keys;
    }
  }

  /** Removing the record under `id` removes what it booked. */
  lemma BookedAfterDelete(txs: map<TxId, Transaction>, id: TxId, w: WalletId, income: bool)
    requires id in txs
    ensures Booked(txs - {id}, w, income) == Booked(txs, w, income) - Share(txs[id], w, income)
  {
    var rest := txs.Keys - {id};
    assert (txs - {id}).Keys == rest;
    BookedOnFrame(txs - {id}, txs, rest, w, income);
    BookedOnRemove(txs, txs.Keys, id, w, income);
  }

  /** Applying a transaction to its own wallet adds exactly its shares; other wallets gain nothing. */
  lemma ApplyBooksShares(x: Wallet, t: Transaction, w: WalletId)
    requires t.walletId == w
    ensures Apply(x, t.kind, t.amount).totalIncome == x.totalIncome + Share(t, w, true)
    ensures Apply(x, t.kind, t.amount).totalExpenses == x.totalExpenses + Share(t, w, false)
  {
  }

  /** A successful create keeps every wallet in step with its transactions. */
  lemma CreateKeepsLedgerInStep(s: Stores, req: TransactionRequest, uploadOk: bool, url: string, freshId: TxId)
    requires !IsUpdate(req) && freshId !in s.transactions
    requires InStep(s)
    ensures var o := SaveTransactionOutcome(s, req, uploadOk, url, freshId);
      o.response.Saved? ==> InStep(o.stores)
  {
    var o := SaveTransactionOutcome(s, req, uploadOk, url, freshId);
    if o.response.Saved? {
      var t := o.stores.transactions[freshId];
      assert o.stores.transactions == s.transactions[freshId := t];
      var wid := req.walletId.value;
      assert o.stores.wallets == s.wallets[wid := Apply(s.wallets[wid], t.kind, t.amount)];
      forall w | w in o.stores.wallets
        ensures o.stores.wallets[w].totalIncome == Booked(o.stores.transactions, w, true)
        ensures o.stores.wallets[w].totalExpenses == Booked(o.stores.transactions, w, false)
        ensures Balanced(o.stores.wallets[w])
      {
        BookedAfterWrite(s.transactions, freshId, t, w, true);
        BookedAfterWrite(s.transactions, freshId, t, w, false);
        if w == wid {
          ApplyBooksShares(s.wallets[w], t, w);
        }
      }
    }
  }

  /** An edit that keeps type, amount and wallet books the same shares as the record it replaces. */
  lemma KeptEditKeepsLedgerInStep(s: Stores, req: TransactionRequest, uploadOk: bool, url: string)
    requires IsUpdate(req) && ValidRequest(req) && req.id.value in s.transactions
    requires !ChangesLedger(s.transactions[req.id.value], req)
    requires InStep(s)
    ensures var o := SaveTransactionOutcome(s, req, uploadOk, url, req.id.value);
      o.response.Saved? ==> InStep(o.stores)
  {
    var id: TxId := req.id.value;
    var o := SaveTransactionOutcome(s, req, uploadOk, url, id);
    if o.response.Saved? {
      var t := o.stores.transactions[id];
      assert o.stores.transactions == s.transactions[id := t];
      forall w | w in o.stores.wallets
        ensures o.stores.wallets[w].totalIncome == Booked(o.stores.transactions, w, true)
        ensures o.stores.wallets[w].totalExpenses == Booked(o.stores.transactions, w, false)
        ensures Balanced(o.stores.wallets[w])
      {
        BookedAfterWrite(s.transactions, id, t, w, true);
        BookedAfterWrite(s.transactions, id, t, w, false);
      }
    }
  }

  /**
   The wallets after a successful revert-and-apply: each one's totals move by
   what the new record books on it minus what the original booked.
   */
  lemma RevertApplyRebooks(s: Stores, original: Transaction, t: Transaction, w: WalletId)
    requires original.walletId in s.wallets && t.walletId in s.wallets
    requires w in s.wallets
    ensures var reverted := s.wallets[original.walletId :=
                              Revert(s.wallets[original.walletId], original.kind, original.amount)];
      var after := reverted[t.walletId := Apply(reverted[t.walletId], t.kind, t.amount)];
      && after[w].totalIncome == s.wallets[w].totalIncome - Share(original, w, true) + Share(t, w, true)
      && after[w].totalExpenses == s.wallets[w].totalExpenses - Share(original, w, false) + Share(t, w, false)
  {
    var reverted := s.wallets[original.walletId :=
                      Revert(s.wallets[original.walletId], original.kind, original.amount)];
    if w == original.walletId {
      ApplyBooksShares(reverted[w], original, w);
    }
    if w == t.walletId {
      ApplyBooksShares(reverted[w], t, w);
    }
  }

  /** An edit that changes type, amount or wallet keeps the link when it succeeds. */
  lemma ChangedEditKeepsLedgerInStep(s: Stores, req: TransactionRequest, uploadOk: bool, url: string)
    requires IsUpdate(req) && ValidRequest(req) && req.id.value in s.transactions
    requires ChangesLedger(s.transactions[req.id.value], req)
    requires InStep(s)
    ensures var o := SaveTransactionOutcome(s, req, uploadOk, url, req.id.value);
      o.response.Saved? ==> InStep(o.stores)
  {
    var id: TxId := req.id.value;
    var original := s.transactions[id];
    var o := SaveTransactionOutcome(s, req, uploadOk, url, id);
    if o.response.Saved? {
      var t := o.stores.transactions[id];
      assert o.stores.transactions == s.transactions[id := t];
      var staged := RevertOutcome(s, original, t.amount, t.kind, t.walletId);
      assert staged.response == Done;
      var reverted := s.wallets[original.walletId :=
                        Revert(s.wallets[original.walletId], original.kind, original.amount)];
      assert o.stores.wallets == reverted[t.walletId := Apply(reverted[t.walletId], t.kind, t.amount)];
      forall w | w in o.stores.wallets
        ensures o.stores.wallets[w].totalIncome == Booked(o.stores.transactions, w, true)
        ensures o.stores.wallets[w].totalExpenses == Booked(o.stores.transactions, w, false)
        ensures Balanced(o.stores.wallets[w])
      {
        BookedAfterWrite(s.transactions, id, t, w, true);
        BookedAfterWrite(s.transactions, id, t, w, false);
        RevertApplyRebooks(s, original, t, w);
      }
    }
  }

  /** Every successful save of createOrUpdateTransaction keeps the wallets in step with the transactions. */
  lemma SaveKeepsLedgerInStep(s: Stores, req: TransactionRequest, uploadOk: bool, url: string, freshId: TxId)
    requires !IsUpdate(req) ==> freshId !in s.transactions
    requires InStep(s)
    ensures var o := SaveTransactionOutcome(s, req, uploadOk, url, freshId);
      o.response.Saved? ==> InStep(o.stores)
  {
    var o := SaveTransactionOutcome(s, req, uploadOk, url, freshId);
    if o.response.Saved? {
      if !IsUpdate(req) {
        CreateKeepsLedgerInStep(s, req, uploadOk, url, freshId);
      } else {
        assert o == SaveTransactionOutcome(s, req, uploadOk, url, req.id.value);
        if ChangesLedger(s.transactions[req.id.value], req) {
          ChangedEditKeepsLedgerInStep(s, req, uploadOk, url);
        } else {
          KeptEditKeepsLedgerInStep(s, req, uploadOk, url);
        }
      }
    }
  }

  /** Deleting a transaction against its own wallet keeps the link, whether it succeeds or is refused. */
  lemma DeleteKeepsLedgerInStep(s: Stores, transactionId: TxId, walletId: WalletId)
    requires transactionId in s.transactions ==> s.transactions[transactionId].walletId == walletId
    requires InStep(s)
    ensures InStep(DeleteOutcome(s, transactionId, walletId).stores)
  {
    var o := DeleteOutcome(s, transactionId, walletId);
    if o.response == Done {
      var t := s.transactions[transactionId];
      forall w | w in o.stores.wallets
        ensures o.stores.wallets[w].totalIncome == Booked(o.stores.transactions, w, true)
        ensures o.stores.wallets[w].totalExpenses == Booked(o.stores.transactions, w, false)
        ensures Balanced(o.stores.wallets[w])
      {
        BookedAfterDelete(s.transactions, transactionId, w, true);
        BookedAfterDelete(s.transactions, transactionId, w, false);
        if w == walletId {
          ApplyBooksShares(o.stores.wallets[w], t, w);
        }
      }
    }
  }

  // ---------------------------------------------------------------------
  // Three paths that break the link
  // ---------------------------------------------------------------------

  /** One wallet holding one income of 100. */
  const Funded: Stores :=
    Stores(map["W" := Wallet(100, 100, 0, None, None, None)],
           map["t" := Transaction(Income, 100, "W", None, None, None, None)])

  lemma FundedInStep()
    ensures InStep(Funded)
  {
    BookedOnRemove(Funded.transactions, {"t"}, "t", "W", true);
    BookedOnRemove(Funded.transactions, {"t"}, "t", "W", false);
  }

  /** A receipt upload that fails after the wallet write leaves the wallet credited with no transaction. */
  lemma UploadFailureBreaksLedger()
    ensures var req := TransactionRequest(None, Some(Income), Some("W"), Some(50), None, None, None, Some("receipt"));
      var o := SaveTransactionOutcome(Funded, req, false, "", "u");
      && o == Outcome(Stores(map["W" := Wallet(150, 150, 0, None, None, None)], Funded.transactions),
                      Failed(UploadFailed))
      && !InStep(o.stores)
  {
    var req := TransactionRequest(None, Some(Income), Some("W"), Some(50), None, None, None, Some("receipt"));
    var after := Stores(map["W" := Wallet(150, 150, 0, None, None, None)], Funded.transactions);
    assert WalletStage(Funded, req) == Outcome(after, Done);
    assert SaveTransactionOutcome(Funded, req, false, "", "u") == Outcome(after, Failed(UploadFailed));
    FundedInStep();
    assert after.wallets["W"].totalIncome == 150;
  }

  /** An income edit aimed at a missing wallet reverts the origin and keeps the record booked there. */
  lemma MissingDestinationBreaksLedger()
    ensures var req := TransactionRequest(Some("t"), Some(Income), Some("X"), Some(100), None, None, None, None);
      var o := SaveTransactionOutcome(Funded, req, true, "", "u");
      && o == Outcome(Stores(map["W" := Wallet(0, 0, 0, None, None, None)], Funded.transactions),
                      Failed(MissingDocument))
      && !InStep(o.stores)
  {
    var req := TransactionRequest(Some("t"), Some(Income), Some("X"), Some(100), None, None, None, None);
    var original := Funded.transactions["t"];
    var after := Stores(map["W" := Wallet(0, 0, 0, None, None, None)], Funded.transactions);
    assert ValidRequest(req) && IsUpdate(req) && ChangesLedger(original, req);
    assert RevertOutcome(Funded, original, 100, Income, "X") == Outcome(after, Failed(MissingDocument));
    assert WalletStage(Funded, req) == Outcome(after, Failed(MissingDocument));
    FundedInStep();
    assert after.wallets["W"].totalIncome == 0;
  }

  /** The funded wallet beside an empty one. */
  const TwoWallets: Stores :=
    Stores(map["W" := Wallet(100, 100, 0, None, None, None), "V" := Wallet(0, 0, 0, None, None, None)],
           map["t" := Transaction(Income, 100, "W", None, None, None, None)])

  /** Deleting against another wallet reverts that wallet and leaves the own wallet's totals unbacked. */
  lemma DeleteAgainstOtherWalletBreaksLedger()
    ensures var o := DeleteOutcome(TwoWallets, "t", "V");
      && o == Outcome(Stores(map["W" := Wallet(100, 100, 0, None, None, None),
                                 "V" := Wallet(-100, -100, 0, None, None, None)], map[]), Done)
      && !InStep(o.stores)
  {
    var after := Stores(map["W" := Wallet(100, 100, 0, None, None, None),
                            "V" := Wallet(-100, -100, 0, None, None, None)], map[]);
    assert DeleteOutcome(TwoWallets, "t", "V") == Outcome(after, Done);
    assert after.transactions.Keys == {};
    assert Booked(after.transactions, "W", true) == 0;
    assert after.wallets["W"].totalIncome == 100;
  }
}
