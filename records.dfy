/**
 The records kept in the two document collections ("wallets" and
 "transactions") and the results the services hand back to the UI.
 */
module Records {

  /** Firestore document ids are non-empty strings. */
  type Id = s: string | s != "" witness "id"
  type WalletId = Id
  type TxId = Id

  datatype Option<T> = None | Some(value: T)

  /** JavaScript truthiness of an optional string field: absent and "" are both falsy. */
  predicate Present(o: Option<string>) {
    o.Some? && o.value != ""
  }

  /**
   The `type` string of a transaction. Only "income" and "expense" are named
   by the services; any other string is kept as `Other`.
   */
  datatype Kind = Income | Expense | Other(name: string)

  /**
   The kinds a non-empty `type` string stands for: `Other` never carries the
   empty string or one of the two names the services test for.
   */
  type TxKind = k: Kind | !k.Other? || (k.name != "" && k.name != "income" && k.name != "expense")
    witness Income

  /** The kind a truthy `type` string names. */
  function KindOf(t: string): (k: TxKind)
    requires t != ""
    ensures k == Income <==> t == "income"
    ensures k == Expense <==> t == "expense"
    ensures k.Other? ==> k.name == t
  {
    if t == "income" then Income else if t == "expense" then Expense else Other(t)
  }

  /** The `type` string a kind is stored as; `KindOf` reads it back. */
  function TypeName(k: TxKind): (t: string)
    ensures t != "" && KindOf(t) == k
  {
    match k
    case Income => "income"
    case Expense => "expense"
    case Other(name) => name
  }

  /** Two `type` strings name the same kind exactly when they are equal. */
  lemma KindOfInjective(a: string, b: string)
    requires a != "" && b != ""
    ensures KindOf(a) == KindOf(b) <==> a == b
  {
  }

  /** A wallet document: `amount` is its balance. */
  datatype Wallet = Wallet(
    amount: int,
    totalIncome: int,
    totalExpenses: int,
    name: Option<string>,
    image: Option<string>,
    created: Option<int>)

  /** The balance identity every ledger write is meant to keep. */
  predicate Balanced(w: Wallet) {
    w.amount == w.totalIncome - w.totalExpenses
  }

  predicate AllBalanced(wallets: map<WalletId, Wallet>) {
    forall id :: id in wallets ==> Balanced(wallets[id])
  }

  /** A transaction document; amounts are in minor units. */
  datatype Transaction = Transaction(
    kind: TxKind,
    amount: int,
    walletId: WalletId,
    category: Option<string>,
    description: Option<string>,
    date: Option<int>,
    image: Option<string>)

  /**
   Failures reported to the caller. `MissingDocument` stands for the
   TypeError raised when a field of a snapshot's undefined `.data()` is read;
   the service's catch block turns it into a failure response.
   */
  datatype Error =
    | InvalidTransaction   // "Invalid transaction data!"
    | WalletNotFound       // "Wallet not found!"
    | NotEnoughBalance     // "Selected wallet don't have enough balance!"
    | TransactionNotFound  // "Transaction not found!"
    | CannotDelete         // "You can't delete this transaction!"
    | UploadFailed         // the upload's message or its default text
    | MissingDocument      // the caught TypeError

  /** `{success: true}`, `{success: true, data: {..., id}}` or `{success: false, msg}`. */
  datatype Response = Done | Saved(id: Id) | Failed(error: Error)

  /** The contents of both collections at one moment. */
  datatype Stores = Stores(wallets: map<WalletId, Wallet>, transactions: map<TxId, Transaction>)

  /** What an operation leaves in the stores, and what it answers. */
  datatype Outcome = Outcome(stores: Stores, response: Response)

  /** A snapshot's `.data()`: the record, or undefined. */
  function Lookup<K, V>(m: map<K, V>, k: K): (r: Option<V>)
    ensures r.Some? <==> k in m
    ensures r.Some? ==> r.value == m[k]
  {
    if k in m then Some(m[k]) else None
  }

  /** A merge write keeps a field the patch does not supply. */
  function Pick<T>(given: Option<T>, kept: Option<T>): Option<T> {
    if given.Some? then given else kept
  }
}

/** The backing document store, passed explicitly to every service operation. */
module Store {
  import opened Records

  class Database {
    var wallets: map<WalletId, Wallet>
    var transactions: map<TxId, Transaction>

    function Snapshot(): Stores
      reads this
    {
      Stores(wallets, transactions)
    }
  }
}
