# Wallet ledger of the expense tracker, in Dafny

This project models the wallet-ledger engine of a React Native expense
tracker. Users keep several wallets. Each wallet has a balance (`amount`),
a `totalIncome` and a `totalExpenses`. Income and expense transactions are
recorded against a wallet. The services adjust the three wallet figures as
transactions are created, edited (amount, type or wallet changed) and
deleted. Module `Ledger` states the link between the two collections: each
wallet's totals are the sums of its transactions' amounts by type, and its
balance is their difference. It proves that every successful save, and every
deletion against the transaction's own wallet, keeps that link. Three paths
of the code break it; they are listed below. The project also models the wallet store operations
(create, merge, delete and the cascade that removes a deleted wallet's
transactions), the bucket accumulation behind the weekly, monthly and
yearly statistics, and the home card's grand totals.

Layout:

- `records.dfy`: module `Records` holds the wallet and transaction records, the error and
  response values and the `Stores` value. Module `Store` holds class `Database`, which owns
  the two collections as `wallets: map<WalletId, Wallet>` and
  `transactions: map<TxId, Transaction>`.
- `wallet_service.dfy`: module `WalletService`.
- `transaction_service.dfy`: module `TransactionService`, the ledger.
- `transaction_stats.dfy`: module `TransactionStats`, the read side of the transaction service.
- `home_card.dfy`: module `HomeCard`, the `getTotals` fold.
- `ledger.dfy`: module `Ledger`, the sums of the transactions booked on each
  wallet and the lemmas that tie the wallet figures to them.

Every operation that writes to the store is a module-level method that takes
it as a parameter `db: Database` and `modifies db`. The statistics functions
`Accumulate` and `CollectStats` do not touch the store: they take the query
result as a sequence of transactions. It reads, checks and writes the
two maps in the order the service does, and returns early where the service
does. Five of them (`UpdateWalletForNewTransaction`, `RevertAndUpdateWallets`,
`CreateOrUpdateTransaction`, `DeleteTransaction`, `CreateOrUpdateWallet`)
have a postcondition that equates the new stores and the response with an
outcome function (`NewTransactionOutcome`, `RevertOutcome`,
`SaveTransactionOutcome`, `DeleteOutcome`, `SaveWalletOutcome`). Those
functions carry the properties, and the lemmas relate several calls. The
wallet-delete methods `DeleteTransactionsByWalletId` and `DeleteWallet`
state their effect on the maps directly, in terms of `Unlinked` and `Linked`,
with no outcome function.

Modelling choices:

- Amounts are integers (minor units). `Number(...)` is the identity.
- A thrown exception becomes a `Failed` response. Reading a field of a missing
  document's `.data()` raises a TypeError, shown as `Failed(MissingDocument)`.
  Writes made before the throw stay in place.
- The transaction `type` is `Income`, `Expense` or `Other(name)`, because the
  source compares strings. Any other type moves money like an expense.
  Only `"expense"` triggers a funds check, and only `"income"` and
  `"expense"` reach a statistics bucket. Stored and submitted kinds have the
  type `TxKind`, which rules out `Other("")`, `Other("income")` and
  `Other("expense")`. So each non-empty `type` string has exactly one kind
  (`KindOf`), and back again (`TypeName`). A request's empty `type` string is
  falsy and arrives as `None`.
- The image upload is an oracle. `uploadOk` says whether it succeeds and
  `url` is what it returns. The clock is a parameter `now`. The id the store
  mints for a new document is a parameter `freshId`, required to be unused.
- Document ids are non-empty strings (type `Id`). Optional request fields
  are `Option`s. `Present` is JavaScript truthiness, so absent and `""` are
  both falsy.

Some behaviour of the code is easy to miss on a first reading. The model
follows the code:

- Editing an expense is checked against the destination wallet's balance as
  read before the origin is reverted (services/transactionService.ts:137, :162).
  So raising an expense within one wallet above its current balance is
  refused even when the reverted balance would cover it
  (`StaleFundsCheckRefuses`). Take a wallet credited with an income of 1000,
  then charged an expense of 300. Editing that expense to 800 is refused,
  because the wallet holds 700 before the edit (`WorkedExampleEditRefused`).
- Validation does not look at the category (line 28).
- The receipt upload happens after the wallet writes
  (services/transactionService.ts:58-64). A failed upload leaves the wallet
  adjusted and no transaction written, so the wallet's totals no longer match
  its transactions (`UploadFailureBreaksLedger`).
- An edit of type income aimed at a missing wallet fails after the origin
  wallet has been reverted (:170, :186). It is not a failure without writes:
  the record stays booked on the origin, whose totals no longer count it
  (`MissingDestinationBreaksLedger`).
- Deletion reverts the wallet whose id the caller passes, not the
  transaction's own `walletId` (:221). Deleting against another wallet leaves
  the own wallet's totals counting a record that is gone
  (`DeleteAgainstOtherWalletBreaksLedger`).

## Model

| member | source | states |
|---|---|---|
| `TransactionService.Apply` | services/transactionService.ts:105-113 | income adds the amount to the balance and to `totalIncome`; any other type subtracts it from the balance and adds it to `totalExpenses`; the other total and the metadata are unchanged; the balance identity is kept |
| `TransactionService.Revert` | services/transactionService.ts:140-150 | reverting is the exact inverse of applying (applying the same transaction afterwards gives back the wallet); keeps the balance identity |
| `TransactionService.RevertUndoesApply` | services/transactionService.ts:224-229 | applying then reverting a transaction gives back the wallet exactly |
| `Records.KindOf` | services/transactionService.ts:98-111 | the kind a non-empty `type` string names: `Income` exactly for `"income"`, `Expense` exactly for `"expense"`, and otherwise `Other` carrying the string |
| `Records.TypeName` | services/transactionService.ts:36 | the `type` string a kind is stored as is non-empty and reads back as that kind |
| `TransactionService.PatchWrites` | services/transactionService.ts:170-174 | the `{id, amount, [updateType]}` merge write through the wallet service stores exactly the computed wallet |
| `TransactionService.TotalsPatch` | services/transactionService.ts:170-174 | the patch the ledger hands to the wallet service carries the wallet id, the new balance and exactly the one total the type selects (`totalIncome` for income, `totalExpenses` otherwise), and no name or image |
| `TransactionService.NewTransactionOutcome` | services/transactionService.ts:84-124 | unknown wallet gives `WalletNotFound`; with the wallet present, an expense is refused exactly when the amount exceeds the balance, and every other request succeeds (an amount equal to the balance is accepted and leaves it at 0); a refusal writes nothing; a success changes only that wallet, by `Apply`; the transactions are untouched; balance identity preserved |
| `TransactionService.UpdateWalletForNewTransaction` | services/transactionService.ts:84-124 | the create-path wallet read, funds check and `updateDoc`; new stores and response equal `NewTransactionOutcome` |
| `TransactionService.FundsRefused` | services/transactionService.ts:152-168 | both funds checks of an edit to an expense: same-wallet reverted balance below the new amount, or destination pre-update balance below it |
| `TransactionService.RevertOutcome` | services/transactionService.ts:126-202 | missing origin fails with no writes; with both wallets present, refused for funds exactly when `FundsRefused`, and a refusal of an expense writes nothing; an edit to a missing wallet with the origin present fails with the caught TypeError, and for an income it fails with the origin already reverted; success happens exactly when both wallets exist and no funds check refuses, and gives the origin reverted and then the re-read destination applied; balance identity preserved |
| `TransactionService.RevertAndUpdateWallets` | services/transactionService.ts:126-202 | both reads first, the checks, the origin write, the re-read and the destination write, in that order; new stores and response equal `RevertOutcome` |
| `TransactionService.ValidRequest` | services/transactionService.ts:28 | a request is valid when its amount is present and positive, its wallet id is truthy and its type is present; the category is not looked at |
| `TransactionService.ChangesLedger` | services/transactionService.ts:33-38 | an edit must revert the original when the stored type, amount or wallet id differs from the request's |
| `TransactionService.ChangesLedgerComparesStrings` | services/transactionService.ts:35-38 | comparing kinds is the same as comparing the stored and submitted `type` strings, as the source does |
| `TransactionService.Record` | services/transactionService.ts:58-72 | the merge write of the request over the stored record: type, amount and wallet come from the request; a supplied category, description, date or receipt overwrites the stored one, and an unsupplied one is kept (or stays unset on a new record) |
| `TransactionService.WalletStage` | services/transactionService.ts:32-56 | the wallet side of a save: a create is `NewTransactionOutcome` on the request's wallet, amount and type; an edit of a missing transaction fails with the caught TypeError and no writes; an edit that changes type, amount or wallet is `RevertOutcome` against the stored original, and one that changes none of them succeeds with no writes; it never touches the transactions and keeps the balance identity |
| `TransactionService.SaveTransactionOutcome` | services/transactionService.ts:22-82 | `InvalidTransaction` exactly when amount is missing or not positive, wallet id or type is missing (no category check), with no writes; an edit keeping type, amount and wallet writes no wallet; a refused wallet stage (create or update) is the whole outcome; after a successful wallet stage the save fails with `UploadFailed` exactly when a receipt is given and its upload fails, and is saved otherwise; a failed upload keeps the wallet writes and records no transaction; success stores the record under the request's id (which exists) or the fresh id (which did not), as the merge of the request over the stored record with an uploaded receipt replaced by its url, and leaves every other transaction alone; balance identity preserved |
| `TransactionService.CreateOrUpdateTransaction` | services/transactionService.ts:22-82 | validation, the update or create adjustment, the upload, then the merge write of the record; new stores and response equal `SaveTransactionOutcome` |
| `TransactionService.DeleteOutcome` | services/transactionService.ts:204-248 | missing transaction gives `TransactionNotFound`, missing wallet a caught TypeError, both without writes; with both present, refused exactly when the transaction is an expense and the reverted balance is negative, and successful otherwise (so an income deletion is never refused); a success reverts the named wallet and removes the record; balance identity preserved |
| `TransactionService.DeleteTransaction` | services/transactionService.ts:204-248 | the delete's reads, guard, wallet write and record delete; new stores and response equal `DeleteOutcome` |
| `TransactionService.CreateThenDeleteRestores` | services/transactionService.ts:98-118 | a successful create followed by deleting the new transaction against its wallet restores both stores exactly |
| `TransactionService.SameWalletEditComposes` | services/transactionService.ts:170-195 | an edit within one wallet leaves it as the old effect reverted and then the new effect applied |
| `TransactionService.StaleFundsCheckRefuses` | services/transactionService.ts:137-168 | raising an expense in its own wallet above the current balance is refused with no writes even when the reverted balance covers it |
| `TransactionService.MoveKeepsCombinedBalance` | services/transactionService.ts:140-195 | moving a transaction between wallets with type and amount kept reverts it on one and applies it on the other, leaving the sums of the two balances and totals and all other wallets unchanged |
| `TransactionService.DeleteAdjustsNamedWallet` | services/transactionService.ts:221-239 | a deletion against another wallet id leaves the transaction's own wallet unchanged |
| `TransactionService.IncomeDeletionMayLeaveNegativeBalance` | services/transactionService.ts:226-233 | deleting an income of 100 from a wallet holding 50 succeeds and leaves a balance of -50 |
| `TransactionService.WorkedExampleIncome` | services/transactionService.ts:105-118 | an income of 1000 on an empty wallet gives balance 1000 and `totalIncome` 1000 |
| `TransactionService.WorkedExampleExpense` | services/transactionService.ts:98-118 | an expense of 300 then gives balance 700 and `totalExpenses` 300 |
| `TransactionService.WorkedExampleEditRefused` | services/transactionService.ts:152-167 | editing that expense to 800 is refused with no writes, because the pre-edit balance is 700 |
| `TransactionService.WorkedExampleDelete` | services/transactionService.ts:224-241 | deleting the expense gives back balance 1000 and `totalExpenses` 0 and removes its record |
| `WalletService.Merge` | services/walletService.ts:45 | a `{merge: true}` write: every field the patch supplies overwrites the stored one, every field it leaves out keeps the stored value |
| `WalletService.MergeIdempotent` | services/walletService.ts:45 | writing the same merge patch twice leaves the same record as writing it once |
| `WalletService.SaveWalletOutcome` | services/walletService.ts:15-47 | an icon upload failure writes nothing; otherwise the wallet is stored under its id or a fresh one and no other wallet or transaction changes; a new wallet has balance and totals 0 whatever was supplied and the creation time; saving with an existing id is a merge that keeps every unsupplied field, so balance and totals are not reset |
| `WalletService.CreateOrUpdateWallet` | services/walletService.ts:15-52 | upload, reset of a new wallet, merge write; new stores and response equal `SaveWalletOutcome` |
| `WalletService.Linked` | services/walletService.ts:74-79 | the cascade's query: exactly the transactions whose `walletId` is the given id |
| `WalletService.Unlinked` | services/walletService.ts:71-93 | exactly the transactions of other wallets, unchanged; equal to the store when nothing matches |
| `WalletService.DeleteTransactionsByWalletId` | services/walletService.ts:67-98 | the query-and-batch-delete loop ends with no transaction of that wallet and every other transaction untouched; the number of matching transactions decreases; wallets unchanged; reports success |
| `WalletService.DeleteWallet` | services/walletService.ts:54-60 | removes the wallet record, then the cascade removes its transactions; reports success |
| `TransactionStats.FindBucket` | services/transactionService.ts:278 | the first bucket whose key equals the given key, or none when no bucket has it |
| `TransactionStats.FindBucketByKeys` | services/transactionService.ts:338-340 | which bucket is found depends only on the bucket keys, so adding to the buckets never changes where later transactions go |
| `TransactionStats.UnmatchedAddsNothing` | services/transactionService.ts:280-286 | a transaction whose key no bucket has, or whose type is neither income nor expense, adds nothing to any bucket |
| `TransactionStats.CreditAdds` | services/transactionService.ts:278-286 | one step of the loop keeps every bucket's key and caption, and adds the transaction's amount to the first bucket with its key, in the income column for income and the expense column for expense, and nowhere else |
| `TransactionStats.TallyAdds` | services/transactionService.ts:278-286 | after the loop has seen the documents, each bucket keeps its key and caption and holds its starting income and expense plus exactly the amounts of the income (expense) documents it was the first match for |
| `TransactionStats.Accumulate` | services/transactionService.ts:268-287 | every fetched transaction is listed in query order; the bucket list is the in-order fold of the one-document step; each bucket keeps its key and caption and ends with its starting income and expense plus the amounts of exactly those income (expense) transactions whose first matching bucket it is |
| `TransactionStats.Flatten` | services/transactionService.ts:289-301 | exactly two bars per bucket, in bucket order: the income bar with the bucket's caption, then the expense bar |
| `TransactionStats.CollectStats` | services/transactionService.ts:264-303 | the bars of one statistics call are the accumulated income and expense per bucket, and the transactions list is the query result |
| `TransactionStats.Earliest` | services/transactionService.ts:383-386 | the fold's result is at most now and at most every date, and is now or one of the dates |
| `HomeCard.GetTotals` | components/HomeCard.tsx:22-31 | an empty wallet list gives zero totals; if every wallet has balance equal to income minus expenses, so do the totals |
| `HomeCard.GetTotalsIsSum` | components/HomeCard.tsx:22-31 | balance, income and expenses are the sums of `amount`, `totalIncome` and `totalExpenses` over the wallets |
| `HomeCard.GetTotalsConcat` | components/HomeCard.tsx:23-29 | the totals of a concatenation are the totals of its parts added |
| `HomeCard.GetTotalsOrderIndependent` | components/HomeCard.tsx:23-29 | the totals of `a + b` and `b + a` agree |
| `HomeCard.GetTotalsPermutation` | components/HomeCard.tsx:22-31 | two wallet lists holding the same wallets, in any order, give the same totals |
| `Ledger.BookedAfterWrite` | services/transactionService.ts:72 | writing a record under an id changes what every wallet has booked by the new record's share minus the share of the record it replaces |
| `Ledger.BookedAfterDelete` | services/transactionService.ts:241 | removing a record takes its share off what its wallet has booked, and changes no other wallet's sums |
| `Ledger.ApplyBooksShares` | services/transactionService.ts:105-113 | applying a transaction to its own wallet adds to each total exactly what the transaction books in that column |
| `Ledger.CreateKeepsLedgerInStep` | services/transactionService.ts:84-124 | from stores where every wallet's totals are the sums of its transactions, a successful create keeps that so |
| `Ledger.KeptEditKeepsLedgerInStep` | services/transactionService.ts:33-38 | a successful edit that keeps type, amount and wallet keeps every wallet's totals equal to the sums of its transactions |
| `Ledger.RevertApplyRebooks` | services/transactionService.ts:140-195 | reverting the original on its wallet and applying the edited record on its own wallet changes each wallet's totals by exactly the difference of the two records' shares |
| `Ledger.ChangedEditKeepsLedgerInStep` | services/transactionService.ts:126-202 | a successful edit that changes type, amount or wallet keeps every wallet's totals equal to the sums of its transactions |
| `Ledger.SaveKeepsLedgerInStep` | services/transactionService.ts:22-82 | every successful save, create or edit, keeps every wallet's totals equal to the sums of its transactions and its balance their difference |
| `Ledger.DeleteKeepsLedgerInStep` | services/transactionService.ts:204-248 | a deletion against the transaction's own wallet keeps every wallet's totals equal to the sums of its transactions, whether it succeeds or is refused |
| `Ledger.FundedInStep` | services/transactionService.ts:105-118 | a wallet holding one income of 100, with that record stored, is in step |
| `Ledger.UploadFailureBreaksLedger` | services/transactionService.ts:58-64 | a create whose receipt upload fails credits the wallet with 50 and stores no record, so the wallet's totals no longer match its transactions |
| `Ledger.MissingDestinationBreaksLedger` | services/transactionService.ts:170-186 | moving an income to a missing wallet reverts the origin to 0 and fails, while the record stays on the origin, so the origin no longer counts its own record |
| `Ledger.DeleteAgainstOtherWalletBreaksLedger` | services/transactionService.ts:221-239 | deleting an income against another wallet succeeds, drives that wallet negative, and leaves the own wallet's totals counting a record that is gone |

## Left out

- Firestore and Cloudinary I/O: reads and writes are map operations, and write failures and the network are not modelled.
- The image service is not modelled beyond the upload oracle. This covers string-or-file dispatch, the form data and the HTTP call.
- Concurrency is not modelled. The wallet-delete cascade is started without being awaited in the source; here it runs to completion before `DeleteWallet` returns. Races between concurrent read-modify-write sequences are not represented.
- Floating-point behaviour of JavaScript numbers, `NaN` from `Number(...)`, and `toFixed` formatting on the home card are not modelled. Amounts are unbounded integers.
- Error texts are typed `Error` values rather than strings. The TypeError message and the upload's own message are not represented.
- Date handling in the statistics is replaced by the abstract `keyOf` and the given `initial` bucket list. This covers the query windows (including the monthly query subtracting 12 days), the `uid` filter, the descending date order, `toISOString`, `toLocaleString`, `getFullYear` and the `Timestamp` conversion. The query result is a parameter in the order the query returned it. `getLast7Days`, `getLast12Months` and `getYearsRange` are not part of this model.
- The chart styling fields of the bars (`spacing`, `labelWidth`, `frontColor`) are left out.
- The owner `uid` of wallets and transactions is not modelled. Neither is the `id` field that some writes store inside the document itself: the transaction update path's record write, the `{id, amount, [type]}` wallet patches of the ledger (services/transactionService.ts:170-174, :191-195, :235-239) and the `{...walletData}` write of `createOrUpdateWallet`. None of these affects the ledger's figures.
- Empty document ids are excluded by the `Id` type. Firestore refuses them when the document reference is built, and that error path is not represented.
- Logging through `console.error` is left out.
- `contexts/authContext.tsx`, `services/userService.ts`, `hooks/useFetchData.ts`, `config/cloudinaryConfig.ts`, `constants/data.ts` and the screens and components other than the home card's `getTotals` are UI or wrappers, and are not part of this model.
- WalletService.SaveWalletOutcome: a merge write to a wallet id that has no record reads the numeric fields the patch does not supply as 0, whereas the source would create a document without them. The ledger never does this, because it only writes wallets it has just read.
