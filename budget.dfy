/**
 * src/context/BudgetContext.tsx: budgets split into spending categories, the reducer that
 * edits them and `setCurrentBudget`. Amounts are whole peso values.
 */
module Budgets {
  import opened Wrappers
  import opened Seqs

  datatype Category = Category(name: string, amount: int, spent: int)

  datatype Period = Weekly | Monthly

  datatype Budget = Budget(
    id: string,
    name: string,
    amount: int,
    period: Period,
    startDate: nat,
    endDate: nat,
    categories: seq<Category>)

  /** `Partial<Budget>` */
  datatype BudgetPatch = BudgetPatch(
    name: Option<string>,
    amount: Option<int>,
    period: Option<Period>,
    startDate: Option<nat>,
    endDate: Option<nat>,
    categories: Option<seq<Category>>)

  datatype State = State(
    budgets: seq<Budget>,
    currentBudget: Option<Budget>,
    totalSpent: int,
    loading: bool,
    error: Option<string>)

  /** The provider starts from a simulated 52000 already spent. */
  const InitialState := State([], None, 52000, false, None)

  datatype Action =
    | SetLoading(loading: bool)
    | SetError(message: Option<string>)
    | SetBudgets(all: seq<Budget>)
    | SetCurrentBudget(chosen: Option<Budget>)
    | AddBudget(added: Budget)
    | UpdateBudget(budgetId: string, updates: BudgetPatch)
    | DeleteBudget(deleted: string)
    | AddExpense(categoryName: string, expense: int)
    | SetTotalSpent(total: int)

  function O<T>(patched: Option<T>, current: T): T
  {
    if patched.Some? then patched.value else current
  }

  /** `{ ...budget, ...updates }` */
  function Patch(b: Budget, p: BudgetPatch): Budget
  {
    b.(name := O(p.name, b.name), amount := O(p.amount, b.amount), period := O(p.period, b.period),
       startDate := O(p.startDate, b.startDate), endDate := O(p.endDate, b.endDate),
       categories := O(p.categories, b.categories))
  }

  /** `budgets.map(b => b.id === id ? { ...b, ...updates } : b)` */
  function PatchBudgets(bs: seq<Budget>, id: string, p: BudgetPatch): seq<Budget>
  {
    SetWhere(bs, (b: Budget) => b.id == id, (b: Budget) => Patch(b, p))
  }

  /** `budgets.map(b => b.id === updated.id ? updated : b)` */
  function ReplaceBudget(bs: seq<Budget>, updated: Budget): seq<Budget>
  {
    SetWhere(bs, (b: Budget) => b.id == updated.id, (b: Budget) => updated)
  }

  /** `budgets.filter(b => b.id !== id)` */
  function DropBudgets(bs: seq<Budget>, id: string): seq<Budget>
  {
    Filter(bs, (b: Budget) => b.id != id)
  }

  /** Every category named `name` gets `amount` more spent. */
  function Spend(cs: seq<Category>, name: string, amount: int): seq<Category>
  {
    SetWhere(cs, (c: Category) => c.name == name, (c: Category) => c.(spent := c.spent + amount))
  }

  /** `budgetReducer` */
  function Reduce(s: State, a: Action): (r: State)
    ensures a.AddExpense? && s.currentBudget.None? ==> r == s
    ensures a.AddExpense? && s.currentBudget.Some? ==>
              && r.totalSpent == s.totalSpent + a.expense
              && r.currentBudget == Some(s.currentBudget.value.(categories := Spend(s.currentBudget.value.categories, a.categoryName, a.expense)))
              && r.budgets == ReplaceBudget(s.budgets, r.currentBudget.value)
    ensures a.AddBudget? ==> r.budgets == s.budgets + [a.added] && r.currentBudget == s.currentBudget
    ensures a.DeleteBudget? ==> forall b :: b in r.budgets <==> b in s.budgets && b.id != a.deleted
    ensures a.DeleteBudget? ==> (r.currentBudget.None? <==> s.currentBudget.None? || s.currentBudget.value.id == a.deleted)
    ensures a.UpdateBudget? ==> r.budgets == PatchBudgets(s.budgets, a.budgetId, a.updates)
    ensures a.UpdateBudget? && s.currentBudget.Some? && s.currentBudget.value.id == a.budgetId ==>
              r.currentBudget == Some(Patch(s.currentBudget.value, a.updates))
    ensures a.UpdateBudget? && (s.currentBudget.None? || s.currentBudget.value.id != a.budgetId) ==>
              r.currentBudget == s.currentBudget
  {
    match a
    case SetLoading(loading) => s.(loading := loading)
    case SetError(message) => s.(error := message)
    case SetBudgets(all) => s.(budgets := all)
    case SetCurrentBudget(chosen) => s.(currentBudget := chosen)
    case AddBudget(b) => s.(budgets := s.budgets + [b])
    case UpdateBudget(id, p) =>
      s.(budgets := PatchBudgets(s.budgets, id, p),
         currentBudget := if s.currentBudget.Some? && s.currentBudget.value.id == id
                          then Some(Patch(s.currentBudget.value, p)) else s.currentBudget)
    case DeleteBudget(id) =>
      s.(budgets := DropBudgets(s.budgets, id),
         currentBudget := if s.currentBudget.Some? && s.currentBudget.value.id == id then None else s.currentBudget)
    case AddExpense(name, amount) =>
      if s.currentBudget.None? then s
      else
        var updated := s.currentBudget.value.(categories := Spend(s.currentBudget.value.categories, name, amount));
        s.(currentBudget := Some(updated), totalSpent := s.totalSpent + amount, budgets := ReplaceBudget(s.budgets, updated))
    case SetTotalSpent(total) => s.(totalSpent := total)
  }

  /** Sum of `spent` over the categories. */
  function SpentSum(cs: seq<Category>): int
  {
    if cs == [] then 0 else cs[0].spent + SpentSum(cs[1..])
  }

  function CountNamed(cs: seq<Category>, name: string): nat
  {
    if cs == [] then 0 else (if cs[0].name == name then 1 else 0) + CountNamed(cs[1..], name)
  }

  /**
   * The per-category total grows by the amount once for every category with the name, so an
   * expense under an unknown name raises `totalSpent` without reaching any category.
   */
  lemma {:induction false} SpendSum(cs: seq<Category>, name: string, amount: int)
    ensures SpentSum(Spend(cs, name, amount)) == SpentSum(cs) + CountNamed(cs, name) * amount
  {
    if cs != [] {
      assert Spend(cs, name, amount)[1..] == Spend(cs[1..], name, amount);
      SpendSum(cs[1..], name, amount);
    }
  }

  /** An expense under a name no category has leaves the categories as they were. */
  lemma UnmatchedExpense(s: State, name: string, amount: int)
    requires s.currentBudget.Some? && forall c :: c in s.currentBudget.value.categories ==> c.name != name
    ensures Reduce(s, AddExpense(name, amount)).currentBudget == s.currentBudget
    ensures Reduce(s, AddExpense(name, amount)).totalSpent == s.totalSpent + amount
  {
    var cs := s.currentBudget.value.categories;
    assert Spend(cs, name, amount) == cs;
  }

  /** The first budget with the id, as `find` returns it. */
  function FindBudget(bs: seq<Budget>, id: string): (r: Option<Budget>)
    ensures r.Some? ==> r.value in bs && r.value.id == id
    ensures r.None? ==> forall b :: b in bs ==> b.id != id
  {
    if bs == [] then None else if bs[0].id == id then Some(bs[0]) else FindBudget(bs[1..], id)
  }

  /** The provider's state, changed only through `dispatch`. */
  class BudgetProvider {
    var state: State

    constructor()
      ensures state == InitialState
    {
      state := InitialState;
    }

    method Dispatch(a: Action)
      modifies this
      ensures state == Reduce(old(state), a)
    {
      state := Reduce(state, a);
    }

    /** `setCurrentBudget`: only a budget that exists becomes current. */
    method SelectBudget(id: string)
      modifies this
      ensures FindBudget(old(state.budgets), id).None? ==> state == old(state)
      ensures FindBudget(old(state.budgets), id).Some? ==>
                && state.currentBudget == FindBudget(old(state.budgets), id)
                && state.currentBudget.value.id == id
                && state == old(state).(currentBudget := state.currentBudget)
    {
      var b := FindBudget(state.budgets, id);
      if b.Some? {
        Dispatch(SetCurrentBudget(b));
      }
    }
  }
}
