/**
 The budgeting ledger: four collections (accounts, categories, expenses,
 incomes), the request handlers that create and list them, and the balance
 update `calculation` that every recorded expense or income triggers.

 Every handler is a pure transition from one store state to the next plus a
 reply. Whether the document store accepts a new document (its schema
 casting and validation) is outside the model and arrives as the parameter
 `stored`.
 */
module Ledger {
  import opened Store

  /** Account schema: a name and a running balance ("saldo"). */
  datatype Account = Account(name: string, saldo: int)

  /** Category schema. */
  datatype Category = Category(name: string, description: string)

  /** Expense schema; `category` and `account` are references, None when absent from the request. */
  datatype Expense = Expense(id: Id, amount: int, date: int, description: string,
                             category: Option<Id>, account: Option<Id>)

  /** Income schema; `account` is a reference, None when absent from the request. */
  datatype Income = Income(id: Id, amount: int, date: int, description: string, account: Option<Id>)

  /** An expense with its references populated: a missing or dangling reference shows as None. */
  datatype ExpenseView = ExpenseView(id: Id, amount: int, date: int, description: string,
                                     category: Option<Doc<Category>>, account: Option<Doc<Account>>)

  /** An income with its account reference populated. */
  datatype IncomeView = IncomeView(id: Id, amount: int, date: int, description: string,
                                   account: Option<Doc<Account>>)

  /**
   The whole store. `nextId` stands for the identifier generator: every
   identifier the store holds or refers to lies below it.
   */
  datatype State = State(accounts: Collection<Account>, categories: Collection<Category>,
                         expenses: seq<Expense>, incomes: seq<Income>, nextId: Id)

  /** The requests the server answers, one per route. */
  datatype Request =
    | Root
    | GetAccounts
    | GetCategories
    | GetExpenses
    | GetIncomes
    | PostAccount(name: string, saldo: int)
    | PostCategory(name: string, description: string)
    | PostExpense(amount: int, date: int, description: string, category: Option<Id>, account: Option<Id>)
    | PostIncome(amount: int, date: int, description: string, account: Option<Id>)
  {
    predicate IsQuery() {
      Root? || GetAccounts? || GetCategories? || GetExpenses? || GetIncomes?
    }
  }

  /** Response bodies. */
  datatype Body =
    | Banner(text: string)
    | AccountList(accountDocs: seq<Doc<Account>>)
    | CategoryList(categoryDocs: seq<Doc<Category>>)
    | ExpenseList(expenseViews: seq<ExpenseView>)
    | IncomeList(incomeViews: seq<IncomeView>)
    | NewAccount(account: Doc<Account>)
    | NewCategory(category: Doc<Category>)
    | NewExpense(expense: ExpenseView)
    | NewIncome(income: IncomeView)

  /** Why a POST answered 400. */
  datatype Cause =
    | SaveRejected     // the store refused the new document; err.errors carries its field errors
    | AccountNotFound  // `calculation` read `saldo` of the null that `findById` returned

  /** Status 200, 201 or 400 with the corresponding body. */
  datatype Reply = Ok(body: Body) | Created(created: Body) | BadRequest(cause: Cause)

  datatype Step = Step(state: State, reply: Reply)

  const Empty: State := State(EmptyCollection(), EmptyCollection(), [], [], 0)

  ghost predicate Below(ref: Option<Id>, n: Id) {
    ref.Some? ==> ref.value < n
  }

  /** Store invariant: collections well formed; every identifier held or referred to is below `nextId`. */
  ghost predicate Valid(s: State) {
    && WellFormed(s.accounts)
    && WellFormed(s.categories)
    && (forall k :: k in s.accounts.docs ==> k < s.nextId)
    && (forall k :: k in s.categories.docs ==> k < s.nextId)
    && (forall i :: 0 <= i < |s.expenses| ==>
          s.expenses[i].id < s.nextId && Below(s.expenses[i].account, s.nextId) && Below(s.expenses[i].category, s.nextId))
    && (forall i :: 0 <= i < |s.incomes| ==>
          s.incomes[i].id < s.nextId && Below(s.incomes[i].account, s.nextId))
  }

  /** No document of `s` has identifier `id`, and no ledger entry refers to it. */
  ghost predicate Unseen(s: State, id: Id) {
    && id !in s.accounts.docs
    && id !in s.categories.docs
    && (forall i :: 0 <= i < |s.expenses| ==>
          s.expenses[i].id != id && s.expenses[i].account != Some(id) && s.expenses[i].category != Some(id))
    && (forall i :: 0 <= i < |s.incomes| ==> s.incomes[i].id != id && s.incomes[i].account != Some(id))
  }

  /** `ref` names a stored account. */
  ghost predicate Resolves(ref: Option<Id>, s: State) {
    ref.Some? && ref.value in s.accounts.docs
  }

  /** `after` is `before` with the saldo of account `id` moved by `delta`, and nothing else changed. */
  ghost predicate Moved(before: Collection<Account>, after: Collection<Account>, id: Id, delta: int)
    requires id in before.docs
  {
    && after.order == before.order
    && after.docs.Keys == before.docs.Keys
    && after.docs[id] == Account(before.docs[id].name, before.docs[id].saldo + delta)
    && (forall k :: k in before.docs && k != id ==> after.docs[k] == before.docs[k])
  }

  /** A populated reference shows exactly the stored document it names, if any. */
  ghost predicate Shows<T>(view: Option<Doc<T>>, ref: Option<Id>, c: Collection<T>) {
    && (view.Some? <==> ref.Some? && ref.value in c.docs)
    && (view.Some? ==> view.value == Doc(ref.value, c.docs[ref.value]))
  }

  /**
   The identifier generator moves past `ref`, so it never hands out an
   identifier an entry refers to. This encodes the assumption that a client
   never refers to an identifier before the store generates it.
   */
  function Past(n: Id, ref: Option<Id>): (r: Id)
    ensures n <= r && Below(ref, r)
  {
    if ref.Some? && ref.value >= n then ref.value + 1 else n
  }

  lemma UnseenAtNext(s: State)
    requires Valid(s)
    ensures Unseen(s, s.nextId)
  {
  }

  lemma EmptyIsValid()
    ensures Valid(Empty)
  {
  }

  // ---------------------------------------------------------------------------
  // Queries

  function PopulateExpense(s: State, e: Expense): ExpenseView {
    ExpenseView(e.id, e.amount, e.date, e.description,
                FindById(s.categories, e.category), FindById(s.accounts, e.account))
  }

  function PopulateIncome(s: State, e: Income): IncomeView {
    IncomeView(e.id, e.amount, e.date, e.description, FindById(s.accounts, e.account))
  }

  /** GET /accounts */
  function ListAccounts(s: State): (r: seq<Doc<Account>>)
    requires Valid(s)
    ensures |r| == |s.accounts.order|
    ensures forall k :: k in s.accounts.docs ==> Doc(k, s.accounts.docs[k]) in r
    ensures forall i :: 0 <= i < |r| ==> r[i].id in s.accounts.docs && r[i].body == s.accounts.docs[r[i].id]
    ensures forall i, j :: 0 <= i < j < |r| ==> r[i].id != r[j].id
  {
    ListHoldsExactlyTheDocuments(s.accounts);
    List(s.accounts)
  }

  /** GET /categories */
  function ListCategories(s: State): (r: seq<Doc<Category>>)
    requires Valid(s)
    ensures |r| == |s.categories.order|
    ensures forall k :: k in s.categories.docs ==> Doc(k, s.categories.docs[k]) in r
    ensures forall i :: 0 <= i < |r| ==> r[i].id in s.categories.docs && r[i].body == s.categories.docs[r[i].id]
    ensures forall i, j :: 0 <= i < j < |r| ==> r[i].id != r[j].id
  {
    ListHoldsExactlyTheDocuments(s.categories);
    List(s.categories)
  }

  /** GET /expenses: every expense, account and category populated. */
  function ListExpenses(s: State): (r: seq<ExpenseView>)
    ensures |r| == |s.expenses|
    ensures forall i :: 0 <= i < |r| ==>
      var e := s.expenses[i];
      && r[i].id == e.id && r[i].amount == e.amount && r[i].date == e.date && r[i].description == e.description
      && Shows(r[i].account, e.account, s.accounts)
      && Shows(r[i].category, e.category, s.categories)
  {
    seq(|s.expenses|, i requires 0 <= i < |s.expenses| => PopulateExpense(s, s.expenses[i]))
  }

  /** GET /incomes: every income, account populated. */
  function ListIncomes(s: State): (r: seq<IncomeView>)
    ensures |r| == |s.incomes|
    ensures forall i :: 0 <= i < |r| ==>
      var e := s.incomes[i];
      && r[i].id == e.id && r[i].amount == e.amount && r[i].date == e.date && r[i].description == e.description
      && Shows(r[i].account, e.account, s.accounts)
  {
    seq(|s.incomes|, i requires 0 <= i < |s.incomes| => PopulateIncome(s, s.incomes[i]))
  }

  // ---------------------------------------------------------------------------
  // Balance update

  /**
   `calculation(accountId, amount)`: load the account, add `amount` to its
   saldo and save it. None when `findById` yields null, where reading
   `saldo` throws.
   */
  function Calculation(s: State, accountId: Option<Id>, amount: int): (r: Option<State>)
    requires Valid(s)
    ensures r.Some? <==> Resolves(accountId, s)
    ensures r.Some? ==>
      && Valid(r.value)
      && Moved(s.accounts, r.value.accounts, accountId.value, amount)
      && r.value.categories == s.categories
      && r.value.expenses == s.expenses
      && r.value.incomes == s.incomes
      && r.value.nextId == s.nextId
  {
    match FindById(s.accounts, accountId)
    case None => None
    case Some(acc) =>
      Some(s.(accounts := Replace(s.accounts, acc.id, acc.body.(saldo := acc.body.saldo + amount))))
  }

  // ---------------------------------------------------------------------------
  // Creation handlers

  /** POST /accounts */
  function CreateAccount(s: State, name: string, saldo: int, stored: bool): (r: Step)
    requires Valid(s)
    ensures Valid(r.state)
    ensures !stored ==> r.state == s && r.reply == BadRequest(SaveRejected)
    ensures stored ==>
      && r.reply.Created? && r.reply.created.NewAccount?
      && var d := r.reply.created.account;
      && d.body == Account(name, saldo)
      && Unseen(s, d.id)
      && r.state.accounts.docs == s.accounts.docs[d.id := d.body]
      && ListAccounts(r.state) == ListAccounts(s) + [d]
      && r.state.categories == s.categories
      && r.state.expenses == s.expenses
      && r.state.incomes == s.incomes
  {
    if !stored then Step(s, BadRequest(SaveRejected))
    else
      var id := s.nextId;
      var acc := Account(name, saldo);
      UnseenAtNext(s);
      Step(s.(accounts := Insert(s.accounts, id, acc), nextId := id + 1), Created(NewAccount(Doc(id, acc))))
  }

  /** POST /categories */
  function CreateCategory(s: State, name: string, description: string, stored: bool): (r: Step)
    requires Valid(s)
    ensures Valid(r.state)
    ensures !stored ==> r.state == s && r.reply == BadRequest(SaveRejected)
    ensures stored ==>
      && r.reply.Created? && r.reply.created.NewCategory?
      && var d := r.reply.created.category;
      && d.body == Category(name, description)
      && Unseen(s, d.id)
      && r.state.categories.docs == s.categories.docs[d.id := d.body]
      && ListCategories(r.state) == ListCategories(s) + [d]
    ensures r.state.accounts == s.accounts
    ensures r.state.expenses == s.expenses && r.state.incomes == s.incomes
  {
    if !stored then Step(s, BadRequest(SaveRejected))
    else
      var id := s.nextId;
      var cat := Category(name, description);
      UnseenAtNext(s);
      Step(s.(categories := Insert(s.categories, id, cat), nextId := id + 1), Created(NewCategory(Doc(id, cat))))
  }

  /**
   POST /expenses: save the expense, populate it, then `calculation(account, -amount)`.
   The saved expense stays even when the balance update fails.
   */
  function RecordExpense(s: State, amount: int, date: int, description: string,
                         category: Option<Id>, account: Option<Id>, stored: bool): (r: Step)
    requires Valid(s)
    ensures Valid(r.state)
    ensures !stored ==> r.state == s && r.reply == BadRequest(SaveRejected)
    ensures stored ==>
      && |r.state.expenses| == |s.expenses| + 1
      && r.state.expenses == s.expenses + [r.state.expenses[|s.expenses|]]
      && var e := r.state.expenses[|s.expenses|];
      && e.amount == amount && e.date == date && e.description == description
      && e.category == category && e.account == account
      && Unseen(s, e.id)
      && r.state.categories == s.categories
      && r.state.incomes == s.incomes
    ensures stored && Resolves(account, s) ==>
      && Moved(s.accounts, r.state.accounts, account.value, -amount)
      && r.reply.Created? && r.reply.created.NewExpense?
      && var v := r.reply.created.expense;
      && v.id == r.state.expenses[|s.expenses|].id
      && v.amount == amount && v.date == date && v.description == description
      && Shows(v.account, account, s.accounts)
      && Shows(v.category, category, s.categories)
    ensures stored && !Resolves(account, s) ==>
      && r.state.accounts == s.accounts
      && r.reply == BadRequest(AccountNotFound)
  {
    if !stored then Step(s, BadRequest(SaveRejected))
    else
      var e := Expense(s.nextId, amount, date, description, category, account);
      var saved := s.(expenses := s.expenses + [e], nextId := Past(Past(s.nextId + 1, account), category));
      var view := PopulateExpense(saved, e);
      UnseenAtNext(s);
      match Calculation(saved, account, -amount)
      case None => Step(saved, BadRequest(AccountNotFound))
      case Some(updated) => Step(updated, Created(NewExpense(view)))
  }

  /**
   POST /incomes: save the income, populate it, then `calculation(account, amount)`.
   The saved income stays even when the balance update fails.
   */
  function RecordIncome(s: State, amount: int, date: int, description: string,
                        account: Option<Id>, stored: bool): (r: Step)
    requires Valid(s)
    ensures Valid(r.state)
    ensures !stored ==> r.state == s && r.reply == BadRequest(SaveRejected)
    ensures stored ==>
      && |r.state.incomes| == |s.incomes| + 1
      && r.state.incomes == s.incomes + [r.state.incomes[|s.incomes|]]
      && var e := r.state.incomes[|s.incomes|];
      && e.amount == amount && e.date == date && e.description == description && e.account == account
      && Unseen(s, e.id)
      && r.state.categories == s.categories
      && r.state.expenses == s.expenses
    ensures stored && Resolves(account, s) ==>
      && Moved(s.accounts, r.state.accounts, account.value, amount)
      && r.reply.Created? && r.reply.created.NewIncome?
      && var v := r.reply.created.income;
      && v.id == r.state.incomes[|s.incomes|].id
      && v.amount == amount && v.date == date && v.description == description
      && Shows(v.account, account, s.accounts)
    ensures stored && !Resolves(account, s) ==>
      && r.state.accounts == s.accounts
      && r.reply == BadRequest(AccountNotFound)
  {
    if !stored then Step(s, BadRequest(SaveRejected))
    else
      var e := Income(s.nextId, amount, date, description, account);
      var saved := s.(incomes := s.incomes + [e], nextId := Past(s.nextId + 1, account));
      var view := PopulateIncome(saved, e);
      UnseenAtNext(s);
      match Calculation(saved, account, amount)
      case None => Step(saved, BadRequest(AccountNotFound))
      case Some(updated) => Step(updated, Created(NewIncome(view)))
  }

  // ---------------------------------------------------------------------------
  // Routing

  /** The route table: one handler per request. */
  function Handle(s: State, req: Request, stored: bool): (r: Step)
    requires Valid(s)
    ensures Valid(r.state)
    ensures req.IsQuery() ==> r.state == s && r.reply.Ok?
    ensures s.expenses <= r.state.expenses && s.incomes <= r.state.incomes
    ensures s.accounts.docs.Keys <= r.state.accounts.docs.Keys
    ensures r.reply.Created? && r.reply.created.NewAccount? ==> r.reply.created.account.id !in s.accounts.docs
  {
    match req
    case Root => Step(s, Ok(Banner("Budget")))
    case GetAccounts => Step(s, Ok(AccountList(ListAccounts(s))))
    case GetCategories => Step(s, Ok(CategoryList(ListCategories(s))))
    case GetExpenses => Step(s, Ok(ExpenseList(ListExpenses(s))))
    case GetIncomes => Step(s, Ok(IncomeList(ListIncomes(s))))
    case PostAccount(name, saldo) => CreateAccount(s, name, saldo, stored)
    case PostCategory(name, description) => CreateCategory(s, name, description, stored)
    case PostExpense(amount, date, description, category, account) =>
      RecordExpense(s, amount, date, description, category, account, stored)
    case PostIncome(amount, date, description, account) =>
      RecordIncome(s, amount, date, description, account, stored)
  }

  /** One request together with the store's verdict on the document it would save. */
  datatype Call = Call(req: Request, stored: bool)

  /** Requests answered one after another. */
  function Run(s: State, calls: seq<Call>): (r: State)
    requires Valid(s)
    ensures Valid(r)
    ensures s.expenses <= r.expenses && s.incomes <= r.incomes
    ensures r.accounts.docs.Keys >= s.accounts.docs.Keys
    decreases |calls|
  {
    if calls == [] then s
    else Run(Handle(s, calls[0].req, calls[0].stored).state, calls[1..])
  }

  // ---------------------------------------------------------------------------
  // Properties relating several requests

  /** A listing changes nothing, so asking twice gives the same answer twice. */
  lemma QueriesAreReadOnly(s: State, req: Request, stored: bool, stored': bool)
    requires Valid(s) && req.IsQuery()
    ensures Handle(s, req, stored).state == s
    ensures Handle(Handle(s, req, stored).state, req, stored') == Handle(s, req, stored)
  {
  }

  /**
   The reply to a recorded expense is populated before the balance update,
   so the account it embeds still shows the saldo from before the expense.
   */
  lemma ExpenseReplyPrecedesUpdate(s: State, amount: int, date: int, description: string,
                                   category: Option<Id>, account: Option<Id>)
    requires Valid(s) && Resolves(account, s)
    ensures var r := RecordExpense(s, amount, date, description, category, account, true);
            var shown := r.reply.created.expense.account.value.body;
            shown.saldo == r.state.accounts.docs[account.value].saldo + amount
  {
  }

  /** The same for a recorded income: the embedded account misses the income just added. */
  lemma IncomeReplyPrecedesUpdate(s: State, amount: int, date: int, description: string, account: Option<Id>)
    requires Valid(s) && Resolves(account, s)
    ensures var r := RecordIncome(s, amount, date, description, account, true);
            var shown := r.reply.created.income.account.value.body;
            shown.saldo == r.state.accounts.docs[account.value].saldo - amount
  {
  }

  /**
   Account "Checking" opened with 100; an expense of 30 leaves 70; an
   income of 50 then leaves 120. An expense against an identifier no account
   has then keeps its entry, answers 400 and leaves the listing alone.
   */
  lemma CheckingScenario(date: int)
    ensures Valid(Empty)
    ensures var s1 := CreateAccount(Empty, "Checking", 100, true);
            var id := s1.reply.created.account.id;
            var s2 := RecordExpense(s1.state, 30, date, "lunch", None, Some(id), true);
            var s3 := RecordIncome(s2.state, 50, date, "salary", Some(id), true);
            var s4 := RecordExpense(s3.state, 5, date, "coffee", None, Some(id + 1), true);
            && ListAccounts(s2.state) == [Doc(id, Account("Checking", 70))]
            && ListAccounts(s3.state) == [Doc(id, Account("Checking", 120))]
            && s4.reply == BadRequest(AccountNotFound)
            && |s4.state.expenses| == 2
            && ListAccounts(s4.state) == ListAccounts(s3.state)
  {
    EmptyIsValid();
    var s1 := CreateAccount(Empty, "Checking", 100, true);
    var id := s1.reply.created.account.id;
    assert s1.state.accounts.docs == map[id := Account("Checking", 100)];
    assert s1.state.accounts.order == [id] by {
      assert ListAccounts(s1.state) == [Doc(id, Account("Checking", 100))];
    }
    var s2 := RecordExpense(s1.state, 30, date, "lunch", None, Some(id), true);
    OnlyAccountListing(s2.state, id);
    var s3 := RecordIncome(s2.state, 50, date, "salary", Some(id), true);
    OnlyAccountListing(s3.state, id);
    assert !Resolves(Some(id + 1), s3.state);
  }

  lemma OnlyAccountListing(s: State, id: Id)
    requires Valid(s) && s.accounts.order == [id]
    ensures id in s.accounts.docs && s.accounts.docs.Keys == {id}
    ensures ListAccounts(s) == [Doc(id, s.accounts.docs[id])]
  {
    assert s.accounts.order[0] == id;
  }
}
