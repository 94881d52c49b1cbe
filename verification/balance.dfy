/**
 The ledger invariant: every account's saldo equals the saldo it was
 created with, plus the incomes that refer to it, minus the expenses that
 refer to it. Recording an entry whose account reference does not resolve
 leaves the entry behind without touching any saldo; the invariant still
 holds because, in this model, no account can acquire that identifier
 afterwards (clients are assumed never to refer to an identifier before
 the store generates it; see `Ledger.Past`).
 */
module Balance {
  import opened Store
  import opened Ledger

  /** Sum of the amounts of the entries whose account reference is `id`. */
  function Total<E>(entries: seq<E>, account: E -> Option<Id>, amount: E -> int, id: Id): int
    decreases |entries|
  {
    if entries == [] then 0
    else
      var last := entries[|entries| - 1];
      Total(entries[..|entries| - 1], account, amount, id) + (if account(last) == Some(id) then amount(last) else 0)
  }

  function IncomeAccount(e: Income): Option<Id> { e.account }
  function IncomeAmount(e: Income): int { e.amount }
  function ExpenseAccount(e: Expense): Option<Id> { e.account }
  function ExpenseAmount(e: Expense): int { e.amount }

  /** Sum of the amounts of the incomes that refer to account `id`. */
  function IncomeTotal(incomes: seq<Income>, id: Id): int {
    Total(incomes, IncomeAccount, IncomeAmount, id)
  }

  /** Sum of the amounts of the expenses that refer to account `id`. */
  function ExpenseTotal(expenses: seq<Expense>, id: Id): int {
    Total(expenses, ExpenseAccount, ExpenseAmount, id)
  }

  /** Each account's saldo is its opening saldo plus its incomes minus its expenses. */
  ghost predicate Balanced(s: State, opening: map<Id, int>) {
    && opening.Keys == s.accounts.docs.Keys
    && forall id :: id in s.accounts.docs ==>
         s.accounts.docs[id].saldo == opening[id] + IncomeTotal(s.incomes, id) - ExpenseTotal(s.expenses, id)
  }

  /** The opening balances after a reply: a created account opens with the saldo it was created with. */
  function Opened(opening: map<Id, int>, reply: Reply): map<Id, int> {
    if reply.Created? && reply.created.NewAccount? then
      opening[reply.created.account.id := reply.created.account.body.saldo]
    else opening
  }

  /** The opening balances after a run of requests. */
  function Openings(s: State, opening: map<Id, int>, calls: seq<Call>): map<Id, int>
    requires Valid(s)
    decreases |calls|
  {
    if calls == [] then opening
    else
      var step := Handle(s, calls[0].req, calls[0].stored);
      Openings(step.state, Opened(opening, step.reply), calls[1..])
  }

  lemma {:induction false} TotalAppend<E>(entries: seq<E>, e: E, account: E -> Option<Id>, amount: E -> int, id: Id)
    ensures Total(entries + [e], account, amount, id)
            == Total(entries, account, amount, id) + (if account(e) == Some(id) then amount(e) else 0)
  {
    assert (entries + [e])[..|entries|] == entries;
  }

  /** Entries that do not refer to an account contribute nothing to its totals. */
  lemma {:induction false} UnreferencedTotalsAreZero(s: State, id: Id)
    requires Unseen(s, id)
    ensures IncomeTotal(s.incomes, id) == 0 && ExpenseTotal(s.expenses, id) == 0
  {
    TotalZero(s.incomes, IncomeAccount, IncomeAmount, id);
    TotalZero(s.expenses, ExpenseAccount, ExpenseAmount, id);
  }

  lemma {:induction false} TotalZero<E>(entries: seq<E>, account: E -> Option<Id>, amount: E -> int, id: Id)
    requires forall i :: 0 <= i < |entries| ==> account(entries[i]) != Some(id)
    ensures Total(entries, account, amount, id) == 0
    decreases |entries|
  {
    if entries != [] {
      TotalZero(entries[..|entries| - 1], account, amount, id);
    }
  }

  /** Recording an expense keeps the ledger balanced, whether or not its account resolves. */
  lemma ExpenseKeepsBalance(s: State, opening: map<Id, int>, amount: int, date: int, description: string,
                            category: Option<Id>, account: Option<Id>, stored: bool)
    requires Valid(s) && Balanced(s, opening)
    ensures Balanced(RecordExpense(s, amount, date, description, category, account, stored).state, opening)
  {
    var r := RecordExpense(s, amount, date, description, category, account, stored);
    if stored {
      var e := r.state.expenses[|s.expenses|];
      forall id | id in r.state.accounts.docs
        ensures r.state.accounts.docs[id].saldo
                == opening[id] + IncomeTotal(r.state.incomes, id) - ExpenseTotal(r.state.expenses, id)
      {
        TotalAppend(s.expenses, e, ExpenseAccount, ExpenseAmount, id);
        if Resolves(account, s) && id == account.value {
          assert r.state.accounts.docs[id].saldo == s.accounts.docs[id].saldo - amount;
        } else {
          assert r.state.accounts.docs[id] == s.accounts.docs[id];
        }
      }
    }
  }

  /** Recording an income keeps the ledger balanced, whether or not its account resolves. */
  lemma IncomeKeepsBalance(s: State, opening: map<Id, int>, amount: int, date: int, description: string,
                           account: Option<Id>, stored: bool)
    requires Valid(s) && Balanced(s, opening)
    ensures Balanced(RecordIncome(s, amount, date, description, account, stored).state, opening)
  {
    var r := RecordIncome(s, amount, date, description, account, stored);
    if stored {
      var e := r.state.incomes[|s.incomes|];
      forall id | id in r.state.accounts.docs
        ensures r.state.accounts.docs[id].saldo
                == opening[id] + IncomeTotal(r.state.incomes, id) - ExpenseTotal(r.state.expenses, id)
      {
        TotalAppend(s.incomes, e, IncomeAccount, IncomeAmount, id);
        if Resolves(account, s) && id == account.value {
          assert r.state.accounts.docs[id].saldo == s.accounts.docs[id].saldo + amount;
        } else {
          assert r.state.accounts.docs[id] == s.accounts.docs[id];
        }
      }
    }
  }

  /** A new account opens balanced: nothing in the ledger refers to its fresh identifier. */
  lemma AccountOpensBalanced(s: State, opening: map<Id, int>, name: string, saldo: int, stored: bool)
    requires Valid(s) && Balanced(s, opening)
    ensures var r := CreateAccount(s, name, saldo, stored);
            Balanced(r.state, Opened(opening, r.reply))
  {
    var r := CreateAccount(s, name, saldo, stored);
    if stored {
      UnreferencedTotalsAreZero(s, r.reply.created.account.id);
    }
  }

  /** Every request keeps the ledger balanced. */
  lemma HandleKeepsBalance(s: State, opening: map<Id, int>, req: Request, stored: bool)
    requires Valid(s) && Balanced(s, opening)
    ensures var r := Handle(s, req, stored);
            Balanced(r.state, Opened(opening, r.reply))
  {
    match req
    case PostAccount(name, saldo) => AccountOpensBalanced(s, opening, name, saldo, stored);
    case PostExpense(amount, date, description, category, account) =>
      ExpenseKeepsBalance(s, opening, amount, date, description, category, account, stored);
    case PostIncome(amount, date, description, account) =>
      IncomeKeepsBalance(s, opening, amount, date, description, account, stored);
    case _ =>
  }

  /** Any run of requests keeps the ledger balanced. */
  lemma {:induction false} RunKeepsBalance(s: State, opening: map<Id, int>, calls: seq<Call>)
    requires Valid(s) && Balanced(s, opening)
    ensures Balanced(Run(s, calls), Openings(s, opening, calls))
    decreases |calls|
  {
    if calls != [] {
      var step := Handle(s, calls[0].req, calls[0].stored);
      HandleKeepsBalance(s, opening, calls[0].req, calls[0].stored);
      RunKeepsBalance(step.state, Opened(opening, step.reply), calls[1..]);
    }
  }

  /** From the empty store, every reachable state is balanced. */
  lemma LedgerInvariant(calls: seq<Call>)
    ensures Valid(Run(Empty, calls))
    ensures Balanced(Run(Empty, calls), Openings(Empty, map[], calls))
  {
    EmptyIsValid();
    RunKeepsBalance(Empty, map[], calls);
  }

  lemma {:induction false} TotalConcat<E>(a: seq<E>, b: seq<E>, account: E -> Option<Id>, amount: E -> int, id: Id)
    ensures Total(a + b, account, amount, id) == Total(a, account, amount, id) + Total(b, account, amount, id)
    decreases |b|
  {
    if b == [] {
      assert a + b == a;
    } else {
      var last := b[|b| - 1];
      assert a + b == (a + b[..|b| - 1]) + [last];
      TotalAppend(a + b[..|b| - 1], last, account, amount, id);
      TotalConcat(a, b[..|b| - 1], account, amount, id);
    }
  }

  /** A later request never changes the opening balance of an account that already exists. */
  lemma {:induction false} OpeningsKeep(s: State, opening: map<Id, int>, calls: seq<Call>, id: Id)
    requires Valid(s) && id in s.accounts.docs && id in opening
    ensures var later := Openings(s, opening, calls);
            id in later && later[id] == opening[id]
    decreases |calls|
  {
    if calls != [] {
      var step := Handle(s, calls[0].req, calls[0].stored);
      assert Opened(opening, step.reply)[id] == opening[id];
      OpeningsKeep(step.state, Opened(opening, step.reply), calls[1..], id);
    }
  }

  /** An account with no ledger entries yet, followed by any run: its opening saldo plus the run's entries. */
  lemma {:induction false} SaldoAfterRun(t: State, opening: map<Id, int>, id: Id, calls: seq<Call>)
    requires Valid(t) && Balanced(t, opening)
    requires id in t.accounts.docs
    requires IncomeTotal(t.incomes, id) == 0 && ExpenseTotal(t.expenses, id) == 0
    ensures var after := Run(t, calls);
            && id in after.accounts.docs
            && after.accounts.docs[id].saldo
               == opening[id] + IncomeTotal(after.incomes[|t.incomes|..], id) - ExpenseTotal(after.expenses[|t.expenses|..], id)
  {
    var after := Run(t, calls);
    RunKeepsBalance(t, opening, calls);
    OpeningsKeep(t, opening, calls, id);
    PrefixSplit(t.incomes, after.incomes);
    PrefixSplit(t.expenses, after.expenses);
    TotalConcat(t.incomes, after.incomes[|t.incomes|..], IncomeAccount, IncomeAmount, id);
    TotalConcat(t.expenses, after.expenses[|t.expenses|..], ExpenseAccount, ExpenseAmount, id);
  }

  /**
   An account created with saldo `saldo`, followed by any run of requests,
   holds `saldo` plus the incomes minus the expenses recorded against it
   during that run.
   */
  lemma SaldoFollowsLedger(s: State, opening: map<Id, int>, name: string, saldo: int, calls: seq<Call>)
    requires Valid(s) && Balanced(s, opening)
    ensures var created := CreateAccount(s, name, saldo, true);
            var id := created.reply.created.account.id;
            var after := Run(created.state, calls);
            && id in after.accounts.docs
            && after.accounts.docs[id].saldo
               == saldo + IncomeTotal(after.incomes[|s.incomes|..], id) - ExpenseTotal(after.expenses[|s.expenses|..], id)
  {
    var created := CreateAccount(s, name, saldo, true);
    var id := created.reply.created.account.id;
    AccountOpensBalanced(s, opening, name, saldo, true);
    UnreferencedTotalsAreZero(s, id);
    SaldoAfterRun(created.state, Opened(opening, created.reply), id, calls);
  }

  lemma PrefixSplit<T>(a: seq<T>, b: seq<T>)
    requires a <= b
    ensures b == a + b[|a|..]
  {
    assert b[..|a|] == a;
    assert b == b[..|a|] + b[|a|..];
  }
}
