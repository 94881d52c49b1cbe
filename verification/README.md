# Budgeting ledger — a Dafny model

This project models the account-balance ledger of a small budgeting backend
(`server.js`). The server keeps four collections in a document store:
accounts (a name and a running balance, the *saldo*), spending categories,
expenses and incomes. Expenses and incomes are ledger entries that refer to
an account, and an expense also refers to a category. Recording an entry
first saves it. Then `calculation` loads the referenced account, adds the
signed amount to its saldo and saves the account again. An expense adds
`-amount` and an income adds `amount`.

The model is functional. A `State` holds the four collections and an
identifier generator. Each route is a pure function from a state to a new
state plus a reply. The reply is `Ok` (200), `Created` (201) or
`BadRequest` (400). A `BadRequest` names its cause: the store refused the
document, or the account lookup in `calculation` returned null.

Modules:

- `Store` (`store.dfy`): a generic document collection. It has `findById`,
  `find` (listing in insertion order, an assumption noted under
  "## Left out"), and `save` of a new or of a loaded
  document.
- `Ledger` (`ledger.dfy`): the schemas, the store invariant `Valid`, the
  list queries, `Calculation`, the four creation handlers, the route table
  `Handle`, and `Run` for a sequence of requests.
- `Balance` (`balance.dfy`): per-account income and expense totals and the
  ledger invariant. The invariant says saldo = opening saldo + Σ incomes −
  Σ expenses. It is proved for every step and for every run from the empty
  store.

Behaviours the proofs pin down:

- An expense or income whose account reference does not resolve stays in
  the ledger. No saldo changes, no account is created, and the reply is 400
  (`AccountNotFound`). The `TypeError` from reading `saldo` of null is
  thrown inside the handler's `try`, so its `catch` answers 400.
- The ledger invariant over all entries survives such orphaned entries only
  under an assumption: a client never refers to an identifier before the
  store generates it. In the model, `nextId` moves past every reference an
  entry carries (`Ledger.Past`), so an orphan can never be adopted by an
  account created later. See "## Left out" for what fails without it.
- The entry in a successful reply is populated *before* `calculation`
  runs. So the account embedded in the reply still shows the saldo from
  before the entry.

A failed account lookup in `calculation` throws inside the handler's `try`
(server.js:118 and 136, caught at 122-125 and 140-143), so the client gets
400, not a server error.

## Model

| member | source | states |
|---|---|---|
| Ledger.ListAccounts | server.js:62-64 | GET /accounts returns every stored account exactly once with its current name and saldo, and nothing else |
| Ledger.ListCategories | server.js:66-68 | GET /categories returns every stored category exactly once, and nothing else |
| Ledger.ListExpenses | server.js:70-72 | GET /expenses returns one view per stored expense, in order, with its fields. Its account and category are populated exactly when the reference names a stored document; otherwise they are empty |
| Ledger.ListIncomes | server.js:74-76 | GET /incomes returns one view per stored income, in order, with its account populated exactly when the reference resolves |
| Ledger.Calculation | server.js:149-154 | The balance update succeeds exactly when the account id resolves. It then moves that account's saldo by the signed amount and keeps its name. Every other account, the categories, both ledgers and the id generator are unchanged |
| Ledger.CreateAccount | server.js:80-93 | On a save the store accepts, it adds exactly one account under a never-seen id, with the supplied name and saldo. Listing afterwards gives the old listing plus that account. Categories and ledgers are unchanged. On a refused save the state is unchanged and the reply is 400 |
| Ledger.CreateCategory | server.js:95-108 | On an accepted save, it adds exactly one category under a never-seen id, with the supplied fields. No account or ledger entry changes in any case. A refused save changes nothing and answers 400 |
| Ledger.RecordExpense | server.js:110-127 | On an accepted save, it appends exactly one expense carrying the supplied fields and a never-seen id. If the account resolves, it lowers that account's saldo by the amount, changes nothing else and replies 201 with the populated expense. If the account does not resolve, the entry stays, accounts are untouched and the reply is 400. A refused save changes nothing |
| Ledger.RecordIncome | server.js:129-145 | The same as for expenses, with the account's saldo raised by the amount |
| Ledger.Handle | server.js:58-145 | Routes each request to its handler. Every reachable state stays valid, and the GET routes leave the state unchanged and answer 200 |
| Ledger.Run | server.js:80-145 | Over any sequence of requests, the ledgers only grow at the end (earlier entries are never changed) and no account disappears |
| Ledger.QueriesAreReadOnly | server.js:62-76 | A listing does not change the state, so two consecutive identical listings give identical replies |
| Ledger.ExpenseReplyPrecedesUpdate | server.js:116-120 | The account embedded in a successful expense reply shows the saldo from before the expense: the stored saldo plus the amount |
| Ledger.IncomeReplyPrecedesUpdate | server.js:134-138 | The account embedded in a successful income reply shows the saldo from before the income: the stored saldo minus the amount |
| Ledger.CheckingScenario | server.js:80-154 | Account "Checking" opened with 100 shows 70 after a 30 expense and 120 after a 50 income. An expense against a non-existent id then answers 400, keeps the entry and leaves the listing unchanged |
| Balance.ExpenseKeepsBalance | server.js:110-127 | Recording an expense keeps every account's saldo equal to opening + incomes − expenses, whether the account resolves, dangles or the save is refused |
| Balance.IncomeKeepsBalance | server.js:129-145 | Recording an income keeps the same ledger invariant in all three outcomes |
| Balance.AccountOpensBalanced | server.js:80-86 | A newly created account satisfies the ledger invariant with its supplied saldo as opening balance, because no existing entry refers to its id |
| Balance.HandleKeepsBalance | server.js:58-145 | Every request preserves the ledger invariant |
| Balance.RunKeepsBalance | server.js:80-154 | Every sequence of requests preserves the ledger invariant, with opening balances taken from the accounts it creates |
| Balance.LedgerInvariant | server.js:80-154 | Every state reachable from the empty store is valid and satisfies the ledger invariant |
| Balance.SaldoFollowsLedger | server.js:80-154 | After creating an account with saldo S, and after any later requests, its saldo is S plus the incomes minus the expenses recorded against it since its creation |

## Left out

- HTTP plumbing is not modelled: Express routing, CORS, JSON body parsing, status-code plumbing and `app.listen` (server.js:49-60, 157-159). A reply is only the abstract `Ok`/`Created`/`BadRequest` with a body.
- The 400 body's `errors` field is not modelled. The cause is kept only as `SaveRejected` (the store's field errors) or `AccountNotFound` (a `TypeError`, which has no `errors`).
- The MongoDB connection and the environment configuration are not modelled (server.js:6-8, 48).
- Mongoose schema casting and validation live in the library. Whether a new document's save succeeds is the parameter `stored`, and a refused save changes nothing.
- ObjectId generation is a counter, `nextId`. It also moves past every reference a saved entry carries. This encodes the assumption that a client never refers to an identifier before the store generates it. The source does not guarantee this: the client chooses `account` (server.js:112, 131), and ObjectIds are predictable. Without the assumption, an orphaned entry can be adopted by an account created later under that identifier, and `Balance.LedgerInvariant` (saldo = opening + all incomes − all expenses) fails for that account. The property `Balance.SaldoFollowsLedger` states would hold without the assumption, because it counts only the entries recorded after the account was created and an earlier orphan never moved any saldo. Its proof in the model, however, goes through the all-entries invariant.
- Listing order is modelled as insertion order, and in-place updates by `calculation` (server.js:151-153) keep a document's place. The store does not promise this order. The clause of `Ledger.CreateAccount` and `Ledger.CreateCategory` saying that a listing after creation is the old listing plus the new document depends on this assumption.
- Missing request fields cannot be represented, except the `account` and `category` references. The source stores `undefined` for a missing `name`, `saldo`, `date`, `description` or `amount` (server.js:82-83, 97-98, 112-113, 131-132). An account created without `saldo` would make `calculation` compute `undefined + amount`, which is NaN (server.js:151).
- `populate` is not distinguished by cause. A missing reference (undefined) and a dangling one (null) both show as `None` in a populated view.
- The save of the updated account (server.js:153) is assumed to succeed. With numeric saldos and amounts, as modelled, it can fail only for infrastructure reasons, which are out of scope. A NaN saldo from a missing field would instead depend on Mongoose's Number cast, which is not modelled.
- JavaScript `Number` semantics are not modelled. Amounts and saldos are unbounded integers, and dates are integers. There is no floating-point rounding, no `NaN` from a missing amount, and no string concatenation from a string amount.
- Concurrent requests are not modelled. In particular the lost-update race on the unlocked read-modify-write in `calculation` is out of scope, because the model answers requests one at a time.
- A store that is unavailable, and the resulting request failures, are not modelled.
