/**
 * The shared in-memory store of the application: trades, bank accounts,
 * expenses and todos, each a list that the store's operations replace with
 * an updated copy.
 */
module DataStore {
  import opened Options
  import opened Sequences

  datatype Side = Buy | Sell

  datatype Trade = Trade(
    id: string, date: string, symbol: string, side: Side, strategy: string,
    lotSize: real, entryPrice: real, exitPrice: real, pnl: real, notes: string)

  datatype Account = Account(
    id: string, name: string, bankName: string, accountNumber: string,
    ifsc: Option<string>, mobileAppKey: Option<string>, atmKey: Option<string>,
    balance: real)

  datatype ExpenseType = Credit | Debit

  datatype Expense = Expense(
    id: string, date: string, amount: real, category: string, description: string,
    accountId: string, expenseType: Option<ExpenseType>)

  datatype Priority = High | Medium | Low

  /** A todo; `dueDate` is the due instant as a timestamp. */
  datatype Todo = Todo(id: string, title: string, isComplete: bool, priority: Priority, dueDate: int)

  // ---------------------------------------------------------------- list updates

  /** The trades without those whose id is `id`. */
  function TradesWithout(trades: seq<Trade>, id: string): seq<Trade> {
    Filter(trades, (t: Trade) => t.id != id)
  }

  /** The accounts after an expense: every account with the expense's account id is debited. */
  function Debited(accounts: seq<Account>, accountId: string, amount: real): seq<Account> {
    Map(accounts, (a: Account) => if a.id == accountId then a.(balance := a.balance - amount) else a)
  }

  function TodosWithout(todos: seq<Todo>, id: string): seq<Todo> {
    Filter(todos, (t: Todo) => t.id != id)
  }

  function Toggled(todos: seq<Todo>, id: string): seq<Todo> {
    Map(todos, (t: Todo) => if t.id == id then t.(isComplete := !t.isComplete) else t)
  }

  function Replaced(todos: seq<Todo>, updated: Todo): seq<Todo> {
    Map(todos, (t: Todo) => if t.id == updated.id then updated else t)
  }

  /** The sum of all account balances. */
  function TotalBalance(accounts: seq<Account>): real {
    if accounts == [] then 0.0 else accounts[0].balance + TotalBalance(accounts[1..])
  }

  /** How many accounts carry the id `id`. */
  function CountId(accounts: seq<Account>, id: string): nat {
    if accounts == [] then 0
    else (if accounts[0].id == id then 1 else 0) + CountId(accounts[1..], id)
  }

  class Store {
    var trades: seq<Trade>
    var accounts: seq<Account>
    var expenses: seq<Expense>
    var todos: seq<Todo>

    /** The store starts from the lists saved by the previous session. */
    constructor (trades: seq<Trade>, accounts: seq<Account>, expenses: seq<Expense>, todos: seq<Todo>)
      ensures this.trades == trades && this.accounts == accounts
      ensures this.expenses == expenses && this.todos == todos
    {
      this.trades := trades;
      this.accounts := accounts;
      this.expenses := expenses;
      this.todos := todos;
    }

    /** `addTrade`: the new trade goes first. */
    method AddTrade(trade: Trade)
      modifies this`trades
      ensures trades == [trade] + old(trades)
    {
      trades := [trade] + trades;
    }

    /** `deleteTrade`. */
    method DeleteTrade(id: string)
      modifies this`trades
      ensures trades == TradesWithout(old(trades), id)
    {
      trades := TradesWithout(trades, id);
    }

    /** `addAccount`: the new account goes last. */
    method AddAccount(account: Account)
      modifies this`accounts
      ensures accounts == old(accounts) + [account]
    {
      accounts := accounts + [account];
    }

    /** `addExpense`: the expense goes first and its amount is taken off its account. */
    method AddExpense(expense: Expense)
      modifies this`expenses, this`accounts
      ensures expenses == [expense] + old(expenses)
      ensures accounts == Debited(old(accounts), expense.accountId, expense.amount)
    {
      expenses := [expense] + expenses;
      accounts := Debited(accounts, expense.accountId, expense.amount);
    }

    /** `addTodo`: the new todo goes first. */
    method AddTodo(todo: Todo)
      modifies this`todos
      ensures todos == [todo] + old(todos)
    {
      todos := [todo] + todos;
    }

    /** `toggleTodo`. */
    method ToggleTodo(id: string)
      modifies this`todos
      ensures todos == Toggled(old(todos), id)
    {
      todos := Toggled(todos, id);
    }

    /** `deleteTodo`. */
    method DeleteTodo(id: string)
      modifies this`todos
      ensures todos == TodosWithout(old(todos), id)
    {
      todos := TodosWithout(todos, id);
    }

    /** `updateTodo`. */
    method UpdateTodo(updated: Todo)
      modifies this`todos
      ensures todos == Replaced(old(todos), updated)
    {
      todos := Replaced(todos, updated);
    }
  }

  // ---------------------------------------------------------------- lemmas

  /** Deleting a trade removes every trade with that id and keeps each other trade, in order. */
  lemma {:induction false} DeleteTradeSpec(trades: seq<Trade>, id: string)
    ensures forall i :: 0 <= i < |TradesWithout(trades, id)| ==> TradesWithout(trades, id)[i].id != id
    ensures forall i :: 0 <= i < |trades| && trades[i].id != id ==> trades[i] in TradesWithout(trades, id)
    ensures (forall i :: 0 <= i < |trades| ==> trades[i].id != id) ==> TradesWithout(trades, id) == trades
    ensures forall a, b :: trades == a + b ==> TradesWithout(trades, id) == TradesWithout(a, id) + TradesWithout(b, id)
  {
    FilterKeepsAll(trades, (t: Trade) => t.id != id);
    forall a, b | trades == a + b
      ensures TradesWithout(trades, id) == TradesWithout(a, id) + TradesWithout(b, id)
    {
      FilterConcat(a, b, (t: Trade) => t.id != id);
    }
  }

  /** The same for todos. */
  lemma {:induction false} DeleteTodoSpec(todos: seq<Todo>, id: string)
    ensures forall i :: 0 <= i < |TodosWithout(todos, id)| ==> TodosWithout(todos, id)[i].id != id
    ensures forall i :: 0 <= i < |todos| && todos[i].id != id ==> todos[i] in TodosWithout(todos, id)
    ensures (forall i :: 0 <= i < |todos| ==> todos[i].id != id) ==> TodosWithout(todos, id) == todos
    ensures forall a, b :: todos == a + b ==> TodosWithout(todos, id) == TodosWithout(a, id) + TodosWithout(b, id)
  {
    FilterKeepsAll(todos, (t: Todo) => t.id != id);
    forall a, b | todos == a + b
      ensures TodosWithout(todos, id) == TodosWithout(a, id) + TodosWithout(b, id)
    {
      FilterConcat(a, b, (t: Todo) => t.id != id);
    }
  }

  /**
   * An expense changes only the balance of the accounts with its account id,
   * by exactly its amount, whatever its type; every other account and field stays.
   */
  lemma DebitedSpec(accounts: seq<Account>, accountId: string, amount: real)
    ensures |Debited(accounts, accountId, amount)| == |accounts|
    ensures forall i :: 0 <= i < |accounts| ==>
      Debited(accounts, accountId, amount)[i]
      == if accounts[i].id == accountId then accounts[i].(balance := accounts[i].balance - amount) else accounts[i]
    ensures CountId(accounts, accountId) == 0 ==> Debited(accounts, accountId, amount) == accounts
  {
    if CountId(accounts, accountId) == 0 {
      NoIdNowhere(accounts, accountId);
      MapIdentity(accounts, (a: Account) => if a.id == accountId then a.(balance := a.balance - amount) else a);
    }
  }

  lemma {:induction false} NoIdNowhere(accounts: seq<Account>, id: string)
    requires CountId(accounts, id) == 0
    ensures forall i :: 0 <= i < |accounts| ==> accounts[i].id != id
  {
    if accounts != [] {
      NoIdNowhere(accounts[1..], id);
      forall i | 1 <= i < |accounts| ensures accounts[i].id != id {
        assert accounts[i] == accounts[1..][i - 1];
      }
    }
  }

  /** The total balance drops by the amount once for each matching account. */
  lemma {:induction false} DebitedTotal(accounts: seq<Account>, accountId: string, amount: real)
    ensures TotalBalance(Debited(accounts, accountId, amount))
      == TotalBalance(accounts) - (CountId(accounts, accountId) as real) * amount
  {
    if accounts != [] {
      DebitedTotal(accounts[1..], accountId, amount);
    }
  }

  /** With exactly one matching account, the total balance drops by exactly the amount. */
  lemma DebitedTotalOne(accounts: seq<Account>, accountId: string, amount: real)
    requires CountId(accounts, accountId) == 1
    ensures TotalBalance(Debited(accounts, accountId, amount)) == TotalBalance(accounts) - amount
  {
    DebitedTotal(accounts, accountId, amount);
  }

  /** Toggling flips only the matching todos and keeps length, order and every other field. */
  lemma ToggledSpec(todos: seq<Todo>, id: string)
    ensures |Toggled(todos, id)| == |todos|
    ensures forall i :: 0 <= i < |todos| ==>
      Toggled(todos, id)[i] == if todos[i].id == id then todos[i].(isComplete := !todos[i].isComplete) else todos[i]
  {
  }

  /** Toggling the same id twice gives back the original list. */
  lemma ToggleTwice(todos: seq<Todo>, id: string)
    ensures Toggled(Toggled(todos, id), id) == todos
  {
    var flip := (t: Todo) => if t.id == id then t.(isComplete := !t.isComplete) else t;
    var same := (t: Todo) => t;
    MapMap(todos, flip, flip, same);
    MapIdentity(todos, same);
  }

  /** Updating replaces every todo with the updated one's id, keeps the others, and keeps the length. */
  lemma ReplacedSpec(todos: seq<Todo>, updated: Todo)
    ensures |Replaced(todos, updated)| == |todos|
    ensures forall i :: 0 <= i < |todos| ==>
      Replaced(todos, updated)[i] == if todos[i].id == updated.id then updated else todos[i]
    ensures Replaced(Replaced(todos, updated), updated) == Replaced(todos, updated)
  {
    var r := Replaced(todos, updated);
    var rr := Replaced(r, updated);
    assert |rr| == |r|;
    forall i | 0 <= i < |r| ensures rr[i] == r[i] { }
  }
}
