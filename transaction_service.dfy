/**
 The wallet-ledger engine: creating, editing and deleting transactions while
 keeping each wallet's balance (`amount`), `totalIncome` and `totalExpenses`
 in step with them.

 Each service method reads and writes the stores in the order the service
 does; its postcondition ties the new stores and the response to an outcome
 function, and the properties are stated about those functions.
 */
module TransactionService {
  import opened Records
  import opened Store
  import WalletService

  // ---------------------------------------------------------------------
  // The effect of one transaction on one wallet
  // ---------------------------------------------------------------------

  /** The signed change a transaction makes to a balance: only "income" adds. */
  function Signed(kind: Kind, amount: int): int {
    if kind == Income then amount else -amount
  }

  /** Recording a transaction against a wallet. */
  function Apply(w: Wallet, kind: Kind, amount: int): (r: Wallet)
    ensures r.amount == w.amount + Signed(kind, amount)
    ensures kind == Income ==> r.totalIncome == w.totalIncome + amount && r.totalExpenses == w.totalExpenses
    ensures kind != Income ==> r.totalExpenses == w.totalExpenses + amount && r.totalIncome == w.totalIncome
    ensures r.name == w.name && r.image == w.image && r.created == w.created
    ensures Balanced(w) ==> Balanced(r)
  {
    if kind == Income then w.(amount := w.amount + amount, totalIncome := w.totalIncome + amount)
    else w.(amount := w.amount - amount, totalExpenses := w.totalExpenses + amount)
  }

  /** Taking a transaction's effect back out of a wallet. */
  function Revert(w: Wallet, kind: Kind, amount: int): (r: Wallet)
    ensures Apply(r, kind, amount) == w
    ensures Balanced(w) ==> Balanced(r)
  {
    if kind == Income then w.(amount := w.amount - amount, totalIncome := w.totalIncome - amount)
    else w.(amount := w.amount + amount, totalExpenses := w.totalExpenses - amount)
  }

  lemma RevertUndoesApply(w: Wallet, kind: Kind, amount: int)
    ensures Revert(Apply(w, kind, amount), kind, amount) == w
  {
  }

  /**
   The patch `{id, amount, [updateType]: total}` the ledger hands to the
   wallet service: the balance and the one total the kind selects.
   */
  function TotalsPatch(id: WalletId, w: Wallet, kind: Kind): (p: WalletService.WalletRequest)
    ensures p.id.Some? && p.id.value == id && p.amount == Some(w.amount)
    ensures p.name == None && p.image == None
    ensures kind == Income ==> p.totalIncome == Some(w.totalIncome) && p.totalExpenses == None
    ensures kind != Income ==> p.totalExpenses == Some(w.totalExpenses) && p.totalIncome == None
  {
    WalletService.WalletRequest(
      Some(id), None, None, Some(w.amount),
      if kind == Income then Some(w.totalIncome) else None,
      if kind == Income then None else Some(w.totalExpenses))
  }

  /**
   Merging that patch over a wallet that differs from `w'` only in the
   balance and the kind's total yields exactly `w'`.
   */
  lemma PatchWrites(w: Wallet, w': Wallet, kind: Kind)
    requires w'.name == w.name && w'.image == w.image && w'.created == w.created
    requires kind == Income ==> w'.totalExpenses == w.totalExpenses
    requires kind != Income ==> w'.totalIncome == w.totalIncome
    ensures forall id :: WalletService.Merge(Some(w), TotalsPatch(id, w', kind), None) == w'
  {
  }

  // ---------------------------------------------------------------------
  // updateWalletForNewTransaction (create path)
  // ---------------------------------------------------------------------

  function NewTransactionOutcome(s: Stores, walletId: WalletId, amount: int, kind: Kind): (o: Outcome)
    ensures o.stores.transactions == s.transactions
    ensures o.response == Done || o.response.Failed?
    ensures walletId !in s.wallets ==> o == Outcome(s, Failed(WalletNotFound))
    // an expense is refused exactly when it exceeds the balance
    ensures walletId in s.wallets ==>
      (o.response == Failed(NotEnoughBalance) <==> kind == Expense && amount > s.wallets[walletId].amount)
    // and otherwise the wallet is adjusted
    ensures walletId in s.wallets && !(kind == Expense && amount > s.wallets[walletId].amount) ==>
      o.response == Done
    ensures o.response.Failed? ==> o.stores == s
    ensures o.response == Done ==>
      o.stores.wallets == s.wallets[walletId := Apply(s.wallets[walletId], kind, amount)]
    // spending the whole balance is allowed and leaves it at zero
    ensures walletId in s.wallets && kind == Expense && amount == s.wallets[walletId].amount ==>
      o.response == Done && o.stores.wallets[walletId].amount == 0
    ensures AllBalanced(s.wallets) ==> AllBalanced(o.stores.wallets)
  {
    if walletId !in s.wallets then Outcome(s, Failed(WalletNotFound))
    else
      var w := s.wallets[walletId];
      if kind == Expense && w.amount - amount < 0 then Outcome(s, Failed(NotEnoughBalance))
      else Outcome(s.(wallets := s.wallets[walletId := Apply(w, kind, amount)]), Done)
  }

  method UpdateWalletForNewTransaction(db: Database, walletId: WalletId, amount: int, kind: Kind)
    returns (r: Response)
    modifies db
    ensures Outcome(db.Snapshot(), r) == NewTransactionOutcome(old(db.Snapshot()), walletId, amount, kind)
  {
    var wallet := Lookup(db.wallets, walletId);
    if wallet.None? {
      return Failed(WalletNotFound);
    }
    if kind == Expense && wallet.value.amount - amount < 0 {
      return Failed(NotEnoughBalance);
    }
    db.wallets := db.wallets[walletId := Apply(wallet.value, kind, amount)];
    return Done;
  }

  // ---------------------------------------------------------------------
  // revertAndUpdateWallets (update path)
  // ---------------------------------------------------------------------

  /**
   Both funds checks of an edit to an expense: against the reverted origin
   when the wallet stays the same, and against the destination's balance as
   read before anything was reverted.
   */
  predicate FundsRefused(s: Stores, original: Transaction, amount: int, kind: Kind, newWalletId: WalletId)
    requires original.walletId in s.wallets && newWalletId in s.wallets
  {
    kind == Expense &&
    ((original.walletId == newWalletId &&
      Revert(s.wallets[original.walletId], original.kind, original.amount).amount < amount) ||
     s.wallets[newWalletId].amount < amount)
  }

  function RevertOutcome(s: Stores, original: Transaction, amount: int, kind: Kind, newWalletId: WalletId)
    : (o: Outcome)
    ensures o.stores.transactions == s.transactions
    ensures o.response == Done || o.response.Failed?
    ensures original.walletId !in s.wallets ==> o == Outcome(s, Failed(MissingDocument))
    // the funds checks: a refusal writes nothing
    ensures original.walletId in s.wallets && newWalletId in s.wallets ==>
      (o.response == Failed(NotEnoughBalance) <==> FundsRefused(s, original, amount, kind, newWalletId))
    ensures kind == Expense && o.response.Failed? ==> o.stores == s
    // an edit aimed at a missing wallet is the TypeError of reading its snapshot
    ensures original.walletId in s.wallets && newWalletId !in s.wallets ==>
      o.response == Failed(MissingDocument)
    // an income edit aimed at a missing wallet fails after the origin was reverted
    ensures original.walletId in s.wallets && newWalletId !in s.wallets && kind != Expense ==>
      o == Outcome(
        s.(wallets := s.wallets[original.walletId :=
             Revert(s.wallets[original.walletId], original.kind, original.amount)]),
        Failed(MissingDocument))
    // success: revert on the origin, then the new effect on the re-read destination
    ensures o.response == Done <==>
      original.walletId in s.wallets && newWalletId in s.wallets &&
      !FundsRefused(s, original, amount, kind, newWalletId)
    ensures o.response == Done ==>
      var reverted := s.wallets[original.walletId :=
                         Revert(s.wallets[original.walletId], original.kind, original.amount)];
      o.stores.wallets == reverted[newWalletId := Apply(reverted[newWalletId], kind, amount)]
    ensures AllBalanced(s.wallets) ==> AllBalanced(o.stores.wallets)
  {
    if original.walletId !in s.wallets then Outcome(s, Failed(MissingDocument))
    else
      var reverted := Revert(s.wallets[original.walletId], original.kind, original.amount);
      if kind == Expense && original.walletId == newWalletId && reverted.amount < amount then
        Outcome(s, Failed(NotEnoughBalance))
      else if kind == Expense && newWalletId !in s.wallets then
        Outcome(s, Failed(MissingDocument))
      else if kind == Expense && s.wallets[newWalletId].amount < amount then
        Outcome(s, Failed(NotEnoughBalance))
      else
        var afterRevert := s.wallets[original.walletId := reverted];
        if newWalletId !in afterRevert then
          Outcome(s.(wallets := afterRevert), Failed(MissingDocument))
        else
          Outcome(s.(wallets := afterRevert[newWalletId := Apply(afterRevert[newWalletId], kind, amount)]), Done)
  }

  method RevertAndUpdateWallets(db: Database, original: Transaction, amount: int, kind: Kind,
                                newWalletId: WalletId) returns (r: Response)
    modifies db
    ensures Outcome(db.Snapshot(), r) == RevertOutcome(old(db.Snapshot()), original, amount, kind, newWalletId)
  {
    var originalWallet := Lookup(db.wallets, original.walletId);
    var newWallet := Lookup(db.wallets, newWalletId);
    if originalWallet.None? {
      return Failed(MissingDocument);
    }
    var reverted := Revert(originalWallet.value, original.kind, original.amount);
    if kind == Expense {
      if original.walletId == newWalletId && reverted.amount < amount {
        return Failed(NotEnoughBalance);
      }
      if newWallet.None? {
        return Failed(MissingDocument);
      }
      if newWallet.value.amount < amount {
        return Failed(NotEnoughBalance);
      }
    }
    // no image and an id: the wallet service merges the patch and consults no oracle
    PatchWrites(originalWallet.value, reverted, original.kind);
    var saved := WalletService.CreateOrUpdateWallet(
      db, TotalsPatch(original.walletId, reverted, original.kind), true, "", 0, original.walletId);

    newWallet := Lookup(db.wallets, newWalletId);
    if newWallet.None? {
      return Failed(MissingDocument);
    }
    var applied := Apply(newWallet.value, kind, amount);
    PatchWrites(newWallet.value, applied, kind);
    saved := WalletService.CreateOrUpdateWallet(
      db, TotalsPatch(newWalletId, applied, kind), true, "", 0, newWalletId);
    return Done;
  }

  // ---------------------------------------------------------------------
  // createOrUpdateTransaction
  // ---------------------------------------------------------------------

  /**
   The partial transaction the caller submits; `None` means the field is not
   supplied. A `type` string arrives as the kind `KindOf` reads from it, and
   an empty one, being falsy, as `None`.
   */
  datatype TransactionRequest = TransactionRequest(
    id: Option<string>,
    kind: Option<TxKind>,
    walletId: Option<string>,
    amount: Option<int>,
    category: Option<string>,
    description: Option<string>,
    date: Option<int>,
    image: Option<string>)

  /**
   The validation of line 28: a positive amount, a truthy wallet id and a
   type (an empty `type` string arrives as `None`); the category is not
   looked at.
   */
  predicate ValidRequest(req: TransactionRequest) {
    && req.amount.Some? && req.amount.value > 0
    && Present(req.walletId)
    && req.kind.Some?
  }

  /** A truthy id selects the update path. */
  predicate IsUpdate(req: TransactionRequest) {
    Present(req.id)
  }

  /** Whether an edit touches anything the wallets depend on. */
  predicate ChangesLedger(original: Transaction, req: TransactionRequest)
    requires ValidRequest(req)
  {
    original.kind != req.kind.value || original.amount != req.amount.value ||
    original.walletId != req.walletId.value
  }

  /** Comparing kinds is comparing the stored and the submitted `type` strings. */
  lemma ChangesLedgerComparesStrings(original: Transaction, req: TransactionRequest)
    requires ValidRequest(req)
    ensures ChangesLedger(original, req) <==>
      TypeName(original.kind) != TypeName(req.kind.value) || original.amount != req.amount.value ||
      original.walletId != req.walletId.value
  {
    KindOfInjective(TypeName(original.kind), TypeName(req.kind.value));
  }

  /**
   The transaction record a merge write of the request leaves over `prev`
   (the record already stored under the id, if any); `image` is the value
   written for the receipt.
   */
  function Record(prev: Option<Transaction>, req: TransactionRequest, image: Option<string>): (t: Transaction)
    requires ValidRequest(req)
    // type, amount and wallet always come from the request
    ensures t.kind == req.kind.value && t.amount == req.amount.value && t.walletId == req.walletId.value
    // a supplied field overwrites the stored one; an unsupplied one keeps it, or stays unset
    ensures req.category.Some? ==> t.category == req.category
    ensures req.category.None? ==> t.category == (if prev.Some? then prev.value.category else None)
    ensures req.description.Some? ==> t.description == req.description
    ensures req.description.None? ==> t.description == (if prev.Some? then prev.value.description else None)
    ensures req.date.Some? ==> t.date == req.date
    ensures req.date.None? ==> t.date == (if prev.Some? then prev.value.date else None)
    ensures image.Some? ==> t.image == image
    ensures image.None? ==> t.image == (if prev.Some? then prev.value.image else None)
  {
    var kept := if prev.Some? then prev.value
                else Transaction(req.kind.value, req.amount.value, req.walletId.value, None, None, None, None);
    Transaction(
      req.kind.value, req.amount.value, req.walletId.value,
      Pick(req.category, kept.category),
      Pick(req.description, kept.description),
      Pick(req.date, kept.date),
      Pick(image, kept.image))
  }

  /** The wallet side of a save (lines 32-56): the create or the update adjustment. */
  function WalletStage(s: Stores, req: TransactionRequest): (o: Outcome)
    requires ValidRequest(req)
    ensures o.stores.transactions == s.transactions
    ensures o.response == Done || o.response.Failed?
    // create: the adjustment of updateWalletForNewTransaction
    ensures !IsUpdate(req) ==>
      o == NewTransactionOutcome(s, req.walletId.value, req.amount.value, req.kind.value)
    // update of an id with no stored record: the TypeError of reading its `.data()`, no writes
    ensures IsUpdate(req) && req.id.value !in s.transactions ==> o == Outcome(s, Failed(MissingDocument))
    // update: revert and re-apply only when type, amount or wallet changed
    ensures IsUpdate(req) && req.id.value in s.transactions ==>
      var original := s.transactions[req.id.value];
      && (ChangesLedger(original, req) ==>
            o == RevertOutcome(s, original, req.amount.value, req.kind.value, req.walletId.value))
      && (!ChangesLedger(original, req) ==> o == Outcome(s, Done))
    ensures AllBalanced(s.wallets) ==> AllBalanced(o.stores.wallets)
  {
    if IsUpdate(req) then
      if req.id.value !in s.transactions then Outcome(s, Failed(MissingDocument))
      else
        var original := s.transactions[req.id.value];
        if ChangesLedger(original, req) then
          RevertOutcome(s, original, req.amount.value, req.kind.value, req.walletId.value)
        else Outcome(s, Done)
    else
      NewTransactionOutcome(s, req.walletId.value, req.amount.value, req.kind.value)
  }

  function SaveTransactionOutcome(s: Stores, req: TransactionRequest, uploadOk: bool, url: string,
                                  freshId: TxId): (o: Outcome)
    requires !IsUpdate(req) ==> freshId !in s.transactions
    // validation comes first and writes nothing; category is not part of it
    ensures o.response == Failed(InvalidTransaction) <==> !ValidRequest(req)
    ensures !ValidRequest(req) ==> o.stores == s
    // an edit that keeps type, amount and wallet writes no wallet
    ensures ValidRequest(req) && IsUpdate(req) && req.id.value in s.transactions &&
            !ChangesLedger(s.transactions[req.id.value], req) ==>
      o.stores.wallets == s.wallets
    // a refused wallet stage is the answer, and what it wrote stays written
    ensures ValidRequest(req) && WalletStage(s, req).response.Failed? ==> o == WalletStage(s, req)
    // after the wallet stage only the receipt upload can fail
    ensures ValidRequest(req) && WalletStage(s, req).response == Done ==>
      && (o.response == Failed(UploadFailed) <==> Present(req.image) && !uploadOk)
      && (!(Present(req.image) && !uploadOk) ==> o.response.Saved?)
    // a failed upload keeps the wallet writes and records no transaction
    ensures o.response == Failed(UploadFailed) ==>
      && o.stores.transactions == s.transactions
      && o.stores.wallets == WalletStage(s, req).stores.wallets
    // success: the record under its id, every other transaction untouched
    ensures o.response.Saved? ==>
      && ValidRequest(req)
      && o.response.id == (if IsUpdate(req) then req.id.value else freshId)
      && o.stores.wallets == WalletStage(s, req).stores.wallets
      && o.stores.transactions.Keys == s.transactions.Keys + {o.response.id}
      && (forall k :: k in s.transactions && k != o.response.id ==> o.stores.transactions[k] == s.transactions[k])
      && (IsUpdate(req) <==> o.response.id in s.transactions)
      && var t := o.stores.transactions[o.response.id];
      && t.kind == req.kind.value && t.amount == req.amount.value && t.walletId == req.walletId.value
      // the other fields are merged over the stored record; an uploaded receipt is its url
      && t == Record(Lookup(s.transactions, o.response.id), req,
                     if Present(req.image) then Some(url) else req.image)
    ensures AllBalanced(s.wallets) ==> AllBalanced(o.stores.wallets)
  {
    if !ValidRequest(req) then Outcome(s, Failed(InvalidTransaction))
    else
      var staged := WalletStage(s, req);
      if staged.response.Failed? then staged
      else if Present(req.image) && !uploadOk then Outcome(staged.stores, Failed(UploadFailed))
      else
        var image := if Present(req.image) then Some(url) else req.image;
        var id: TxId := if IsUpdate(req) then req.id.value else freshId;
        var txs := staged.stores.transactions;
        Outcome(staged.stores.(transactions := txs[id := Record(Lookup(txs, id), req, image)]), Saved(id))
  }

  /**
   createOrUpdateTransaction. `uploadOk`/`url` stand for the receipt upload
   and `freshId` for the id the store mints for a new document.
   */
  method CreateOrUpdateTransaction(db: Database, req: TransactionRequest, uploadOk: bool, url: string,
                                   freshId: TxId) returns (r: Response)
    requires !IsUpdate(req) ==> freshId !in db.transactions
    modifies db
    ensures Outcome(db.Snapshot(), r) == SaveTransactionOutcome(old(db.Snapshot()), req, uploadOk, url, freshId)
  {
    if !ValidRequest(req) {
      return Failed(InvalidTransaction);
    }
    var kind, walletId, amount := req.kind.value, req.walletId.value, req.amount.value;
    if IsUpdate(req) {
      var original := Lookup(db.transactions, req.id.value);
      if original.None? {
        return Failed(MissingDocument);
      }
      if original.value.kind != kind || original.value.amount != amount || original.value.walletId != walletId {
        var res := RevertAndUpdateWallets(db, original.value, amount, kind, walletId);
        if res.Failed? {
          return res;
        }
      }
    } else {
      var res := UpdateWalletForNewTransaction(db, walletId, amount, kind);
      if res.Failed? {
        return res;
      }
    }

    var image := req.image;
    if Present(req.image) {
      if !uploadOk {
        return Failed(UploadFailed);
      }
      image := Some(url);
    }

    var id: TxId := if IsUpdate(req) then req.id.value else freshId;
    db.transactions := db.transactions[id := Record(Lookup(db.transactions, id), req, image)];
    return Saved(id);
  }

  // ---------------------------------------------------------------------
  // deleteTransaction
  // ---------------------------------------------------------------------

  /** Deleting `transactionId`, whose effect is reverted on the wallet the caller names. */
  function DeleteOutcome(s: Stores, transactionId: TxId, walletId: WalletId): (o: Outcome)
    ensures o.response == Done || o.response.Failed?
    ensures transactionId !in s.transactions ==> o == Outcome(s, Failed(TransactionNotFound))
    ensures transactionId in s.transactions && walletId !in s.wallets ==>
      o == Outcome(s, Failed(MissingDocument))
    ensures o.response.Failed? ==> o.stores == s
    // refused only for an expense whose reversal leaves a negative balance
    ensures transactionId in s.transactions && walletId in s.wallets ==>
      var t := s.transactions[transactionId];
      && (o.response == Failed(CannotDelete) <==>
            t.kind == Expense && s.wallets[walletId].amount + t.amount < 0)
      && (!(t.kind == Expense && s.wallets[walletId].amount + t.amount < 0) ==> o.response == Done)
      && (o.response == Done ==>
            o.stores == Stores(s.wallets[walletId := Revert(s.wallets[walletId], t.kind, t.amount)],
                               s.transactions - {transactionId}))
    ensures AllBalanced(s.wallets) ==> AllBalanced(o.stores.wallets)
  {
    if transactionId !in s.transactions then Outcome(s, Failed(TransactionNotFound))
    else if walletId !in s.wallets then Outcome(s, Failed(MissingDocument))
    else
      var t := s.transactions[transactionId];
      var reverted := Revert(s.wallets[walletId], t.kind, t.amount);
      if t.kind == Expense && reverted.amount < 0 then Outcome(s, Failed(CannotDelete))
      else Outcome(Stores(s.wallets[walletId := reverted], s.transactions - {transactionId}), Done)
  }

  method DeleteTransaction(db: Database, transactionId: TxId, walletId: WalletId) returns (r: Response)
    modifies db
    ensures Outcome(db.Snapshot(), r) == DeleteOutcome(old(db.Snapshot()), transactionId, walletId)
  {
    var transaction := Lookup(db.transactions, transactionId);
    if transaction.None? {
      return Failed(TransactionNotFound);
    }
    var t := transaction.value;
    var wallet := Lookup(db.wallets, walletId);
    if wallet.None? {
      return Failed(MissingDocument);
    }
    var reverted := Revert(wallet.value, t.kind, t.amount);
    if t.kind == Expense && reverted.amount < 0 {
      return Failed(CannotDelete);
    }
    PatchWrites(wallet.value, reverted, t.kind);
    var saved := WalletService.CreateOrUpdateWallet(db, TotalsPatch(walletId, reverted, t.kind), true, "", 0, walletId);
    db.transactions := db.transactions - {transactionId};
    return Done;
  }

  // ---------------------------------------------------------------------
  // Properties that relate several operations
  // ---------------------------------------------------------------------

  /** Creating a transaction and then deleting it restores both stores exactly. */
  lemma CreateThenDeleteRestores(s: Stores, req: TransactionRequest, uploadOk: bool,
                                   url: string, freshId: TxId)
    requires ValidRequest(req) && !IsUpdate(req) && freshId !in s.transactions
    requires SaveTransactionOutcome(s, req, uploadOk, url, freshId).response.Saved?
    ensures DeleteOutcome(SaveTransactionOutcome(s, req, uploadOk, url, freshId).stores, freshId,
                          req.walletId.value) == Outcome(s, Done)
  {
    // the wallet is restored because reverting undoes applying, and an accepted
    // expense never exceeded the balance, so its reversal passes the delete guard
  }

  /** Editing within one wallet composes the revert and the new effect on that wallet. */
  lemma SameWalletEditComposes(s: Stores, original: Transaction, amount: int, kind: Kind)
    requires RevertOutcome(s, original, amount, kind, original.walletId).response == Done
    ensures original.walletId in s.wallets
    ensures var w := s.wallets[original.walletId];
      RevertOutcome(s, original, amount, kind, original.walletId).stores.wallets ==
        s.wallets[original.walletId := Apply(Revert(w, original.kind, original.amount), kind, amount)]
    ensures var w := s.wallets[original.walletId];
      RevertOutcome(s, original, amount, kind, original.walletId).stores.wallets[original.walletId].amount ==
        w.amount - Signed(original.kind, original.amount) + Signed(kind, amount)
  {
  }

  /**
   The stale funds check: raising an expense within its wallet above the
   current balance is refused even when the reverted balance covers it.
   */
  lemma StaleFundsCheckRefuses(s: Stores, original: Transaction, amount: int)
    requires original.walletId in s.wallets && original.kind == Expense
    requires s.wallets[original.walletId].amount < amount
    requires amount <= s.wallets[original.walletId].amount + original.amount
    ensures Revert(s.wallets[original.walletId], original.kind, original.amount).amount >= amount
    ensures RevertOutcome(s, original, amount, Expense, original.walletId) == Outcome(s, Failed(NotEnoughBalance))
  {
  }

  /** Moving a transaction to another wallet, type and amount unchanged, keeps the two balances' sum. */
  lemma MoveKeepsCombinedBalance(s: Stores, original: Transaction, destination: WalletId)
    requires original.walletId != destination
    requires RevertOutcome(s, original, original.amount, original.kind, destination).response == Done
    ensures var from, after := original.walletId, RevertOutcome(s, original, original.amount, original.kind, destination).stores.wallets;
      && from in s.wallets && destination in s.wallets
      && after[from] == Revert(s.wallets[from], original.kind, original.amount)
      && after[destination] == Apply(s.wallets[destination], original.kind, original.amount)
      && after[from].amount + after[destination].amount == s.wallets[from].amount + s.wallets[destination].amount
      && after[from].totalIncome + after[destination].totalIncome == s.wallets[from].totalIncome + s.wallets[destination].totalIncome
      && after[from].totalExpenses + after[destination].totalExpenses == s.wallets[from].totalExpenses + s.wallets[destination].totalExpenses
      && (forall k :: k in s.wallets && k != from && k != destination ==> after[k] == s.wallets[k])
  {
  }

  /** Deletion reverts the wallet the caller names; the transaction's own wallet is not consulted. */
  lemma DeleteAdjustsNamedWallet(s: Stores, transactionId: TxId, walletId: WalletId)
    requires DeleteOutcome(s, transactionId, walletId).response == Done
    ensures transactionId in s.transactions
    ensures var own := s.transactions[transactionId].walletId;
      own != walletId && own in s.wallets ==>
        DeleteOutcome(s, transactionId, walletId).stores.wallets[own] == s.wallets[own]
  {
  }

  /** Deleting an income is never refused, and can leave the balance negative. */
  lemma IncomeDeletionMayLeaveNegativeBalance()
    ensures var s := Stores(map["w" := Wallet(50, 100, 50, None, None, None)],
                            map["t" := Transaction(Income, 100, "w", None, None, None, None)]);
      DeleteOutcome(s, "t", "w") == Outcome(Stores(map["w" := Wallet(-50, 0, 50, None, None, None)], map[]), Done)
  {
  }

  /*
   A scenario on one wallet: an income of 1000, then an expense of 300, then
   an edit of that expense to 800, then deleting the expense. The edit is
   refused, because the wallet's balance before the edit (700) is below 800.
   */
  const ExampleStart: Stores := Stores(map["W" := Wallet(0, 0, 0, None, None, None)], map[])
  const ExampleIncome: TransactionRequest :=
    TransactionRequest(None, Some(Income), Some("W"), Some(1000), None, None, None, None)
  const ExampleExpense: TransactionRequest :=
    TransactionRequest(None, Some(Expense), Some("W"), Some(300), Some("dining"), None, None, None)
  const ExampleEdit: TransactionRequest := ExampleExpense.(id := Some("t2"), amount := Some(800))
  const AfterIncome: Stores :=
    Stores(map["W" := Wallet(1000, 1000, 0, None, None, None)],
           map["t1" := Transaction(Income, 1000, "W", None, None, None, None)])
  const AfterExpense: Stores :=
    Stores(map["W" := Wallet(700, 1000, 300, None, None, None)],
           map["t1" := Transaction(Income, 1000, "W", None, None, None, None),
               "t2" := Transaction(Expense, 300, "W", Some("dining"), None, None, None)])

  lemma WorkedExampleIncome()
    ensures SaveTransactionOutcome(ExampleStart, ExampleIncome, true, "", "t1") == Outcome(AfterIncome, Saved("t1"))
  {
    assert NewTransactionOutcome(ExampleStart, "W", 1000, Income) == Outcome(AfterIncome.(transactions := map[]), Done);
    assert WalletStage(ExampleStart, ExampleIncome) == Outcome(AfterIncome.(transactions := map[]), Done);
    assert Record(None, ExampleIncome, None) == AfterIncome.transactions["t1"];
  }

  lemma WorkedExampleExpense()
    ensures SaveTransactionOutcome(AfterIncome, ExampleExpense, true, "", "t2") == Outcome(AfterExpense, Saved("t2"))
  {
    assert WalletStage(AfterIncome, ExampleExpense).stores == AfterExpense.(transactions := AfterIncome.transactions);
  }

  lemma WorkedExampleEditRefused()
    ensures SaveTransactionOutcome(AfterExpense, ExampleEdit, true, "", "t3") ==
      Outcome(AfterExpense, Failed(NotEnoughBalance))
  {
  }

  lemma WorkedExampleDelete()
    ensures DeleteOutcome(AfterExpense, "t2", "W") == Outcome(AfterIncome, Done)
  {
  }
}
