/**
 The wallet store operations: saving a wallet (create or merge), deleting it,
 and the cascade that removes the wallet's transactions.
 */
module WalletService {
  import opened Records
  import opened Store

  /** The partial wallet the caller asks to save; `None` means the field is not supplied. */
  datatype WalletRequest = WalletRequest(
    id: Option<string>,
    name: Option<string>,
    image: Option<string>,
    amount: Option<int>,
    totalIncome: Option<int>,
    totalExpenses: Option<int>)

  function Or(given: Option<int>, kept: int): int {
    if given.Some? then given.value else kept
  }

  /**
   The record a `{merge: true}` write of `save` leaves over `prev`. A numeric
   field that neither the patch nor an existing record supplies reads as 0.
   */
  function Merge(prev: Option<Wallet>, save: WalletRequest, created: Option<int>): (w: Wallet)
    // a supplied field overwrites the stored one
    ensures save.amount.Some? ==> w.amount == save.amount.value
    ensures save.totalIncome.Some? ==> w.totalIncome == save.totalIncome.value
    ensures save.totalExpenses.Some? ==> w.totalExpenses == save.totalExpenses.value
    ensures save.name.Some? ==> w.name == save.name
    ensures save.image.Some? ==> w.image == save.image
    ensures created.Some? ==> w.created == created
    // an unsupplied one is kept
    ensures prev.Some? && save.amount.None? ==> w.amount == prev.value.amount
    ensures prev.Some? && save.totalIncome.None? ==> w.totalIncome == prev.value.totalIncome
    ensures prev.Some? && save.totalExpenses.None? ==> w.totalExpenses == prev.value.totalExpenses
    ensures prev.Some? && save.name.None? ==> w.name == prev.value.name
    ensures prev.Some? && save.image.None? ==> w.image == prev.value.image
    ensures prev.Some? && created.None? ==> w.created == prev.value.created
  {
    var base := if prev.Some? then prev.value else Wallet(0, 0, 0, None, None, None);
    Wallet(
      Or(save.amount, base.amount),
      Or(save.totalIncome, base.totalIncome),
      Or(save.totalExpenses, base.totalExpenses),
      Pick(save.name, base.name),
      Pick(save.image, base.image),
      Pick(created, base.created))
  }

  /** Writing the same patch a second time changes nothing. */
  lemma MergeIdempotent(prev: Option<Wallet>, save: WalletRequest, created: Option<int>)
    ensures Merge(Some(Merge(prev, save, created)), save, created) == Merge(prev, save, created)
  {
  }

  /**
   What saving a wallet does to the stores. `uploadOk`/`url` stand for the
   image upload, `now` for the clock, `freshId` for the id the store mints
   for a new document.
   */
  function SaveWalletOutcome(s: Stores, req: WalletRequest, uploadOk: bool, url: string,
                             now: int, freshId: WalletId): (o: Outcome)
    requires !Present(req.id) ==> freshId !in s.wallets
    ensures o.stores.transactions == s.transactions
    // an icon upload failure writes nothing
    ensures Present(req.image) && !uploadOk ==> o == Outcome(s, Failed(UploadFailed))
    ensures !(Present(req.image) && !uploadOk) ==>
      var id := if Present(req.id) then req.id.value else freshId;
      && o.response == Saved(id)
      && o.stores.wallets.Keys == s.wallets.Keys + {id}
      && (forall k :: k in s.wallets && k != id ==> o.stores.wallets[k] == s.wallets[k])
      && o.stores.wallets[id].name == Pick(req.name, if id in s.wallets then s.wallets[id].name else None)
      && o.stores.wallets[id].image ==
           if Present(req.image) then Some(url)
           else Pick(req.image, if id in s.wallets then s.wallets[id].image else None)
    // creation: a new id, balance and totals reset whatever was supplied
    ensures !Present(req.id) && !(Present(req.image) && !uploadOk) ==>
      && o.response == Saved(freshId) && freshId !in s.wallets
      && var w := o.stores.wallets[freshId];
      && w.amount == 0 && w.totalIncome == 0 && w.totalExpenses == 0
      && w.created == Some(now) && Balanced(w)
    // update of an existing wallet: a merge that keeps every unsupplied field
    ensures Present(req.id) && req.id.value in s.wallets && !(Present(req.image) && !uploadOk) ==>
      var before, after := s.wallets[req.id.value], o.stores.wallets[req.id.value];
      && after.amount == Or(req.amount, before.amount)
      && after.totalIncome == Or(req.totalIncome, before.totalIncome)
      && after.totalExpenses == Or(req.totalExpenses, before.totalExpenses)
      && after.created == before.created
  {
    if Present(req.image) && !uploadOk then
      Outcome(s, Failed(UploadFailed))
    else
      var withImage := if Present(req.image) then req.(image := Some(url)) else req;
      var toSave := if Present(req.id) then withImage
                    else withImage.(amount := Some(0), totalIncome := Some(0), totalExpenses := Some(0));
      var created := if Present(req.id) then None else Some(now);
      var id: WalletId := if Present(req.id) then req.id.value else freshId;
      Outcome(s.(wallets := s.wallets[id := Merge(Lookup(s.wallets, id), toSave, created)]), Saved(id))
  }

  /** createOrUpdateWallet: upload the icon, reset a new wallet's figures, then merge-write. */
  method CreateOrUpdateWallet(db: Database, req: WalletRequest, uploadOk: bool, url: string,
                              now: int, freshId: WalletId) returns (r: Response)
    requires !Present(req.id) ==> freshId !in db.wallets
    modifies db
    ensures Outcome(db.Snapshot(), r) == SaveWalletOutcome(old(db.Snapshot()), req, uploadOk, url, now, freshId)
  {
    var toSave := req;
    if Present(req.image) {
      if !uploadOk {
        return Failed(UploadFailed);
      }
      toSave := toSave.(image := Some(url));
    }
    var created: Option<int> := None;
    if !Present(req.id) {
      toSave := toSave.(amount := Some(0), totalIncome := Some(0), totalExpenses := Some(0));
      created := Some(now);
    }
    var id: WalletId := if Present(req.id) then req.id.value else freshId;
    db.wallets := db.wallets[id := Merge(Lookup(db.wallets, id), toSave, created)];
    return Saved(id);
  }

  /** The ids of the transactions recorded against `walletId`: the cascade's query. */
  function Linked(txs: map<TxId, Transaction>, walletId: WalletId): (ids: set<TxId>)
    ensures forall k :: k in ids <==> k in txs && txs[k].walletId == walletId
  {
    set k | k in txs && txs[k].walletId == walletId
  }

  /** The transaction store once every transaction of `walletId` is gone. */
  function Unlinked(txs: map<TxId, Transaction>, walletId: WalletId): (r: map<TxId, Transaction>)
    ensures forall k :: k in r <==> k in txs && txs[k].walletId != walletId
    ensures forall k :: k in r ==> r[k] == txs[k]
    ensures Linked(txs, walletId) == {} ==> r == txs
  {
    map k | k in txs && txs[k].walletId != walletId :: txs[k]
  }

  /**
   deleteTransactionsByWalletId: query the wallet's transactions and
   batch-delete them until a query comes back empty.
   */
  method DeleteTransactionsByWalletId(db: Database, walletId: WalletId) returns (r: Response)
    modifies db
    ensures db.wallets == old(db.wallets)
    ensures db.transactions == Unlinked(old(db.transactions), walletId)
    ensures Linked(db.transactions, walletId) == {}
    ensures r == Done
  {
    var hasMoreTransactions := true;
    while hasMoreTransactions
      invariant db.wallets == old(db.wallets)
      invariant forall k :: k in db.transactions ==>
        k in old(db.transactions) && db.transactions[k] == old(db.transactions)[k]
      invariant forall k :: k in old(db.transactions) && old(db.transactions)[k].walletId != walletId ==>
        k in db.transactions
      invariant !hasMoreTransactions ==> Linked(db.transactions, walletId) == {}
      decreases |Linked(db.transactions, walletId)|, hasMoreTransactions
    {
      var snapshot := Linked(db.transactions, walletId);
      if |snapshot| == 0 {
        hasMoreTransactions := false;
        break;
      }
      // the batch holds one delete per queried document; the commit applies them all
      db.transactions := db.transactions - snapshot;
      assert Linked(db.transactions, walletId) == {};
    }
    assert db.transactions == Unlinked(old(db.transactions), walletId);
    return Done;
  }

  /**
   deleteWallet: remove the wallet record, then run the cascade (which the
   source starts without awaiting; here it runs to completion).
   */
  method DeleteWallet(db: Database, walletId: WalletId) returns (r: Response)
    modifies db
    ensures db.wallets == old(db.wallets) - {walletId}
    ensures db.transactions == Unlinked(old(db.transactions), walletId)
    ensures r == Done
  {
    db.wallets := db.wallets - {walletId};
    var cascade := DeleteTransactionsByWalletId(db, walletId);
    return Done;
  }
}
