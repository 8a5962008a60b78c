/**
 * lib/data-store.ts: the in-memory tables behind the admin screens (products, budgets,
 * shopping lists and expenses), their create/update/delete services and the report queries.
 * Times are millisecond counts passed in by the caller; amounts are whole peso values.
 */
module DataStore {
  import opened Wrappers
  import opened Seqs
  import opened Text

  // ----------------------------------------------------------------- records

  datatype Product = Product(
    id: int,
    name: string,
    category: string,
    brand: Option<string>,
    description: Option<string>,
    barcode: Option<string>,
    createdAt: nat,
    updatedAt: nat)

  /** `Omit<Product, "id" | "createdAt" | "updatedAt">` */
  datatype ProductDraft = ProductDraft(
    name: string,
    category: string,
    brand: Option<string>,
    description: Option<string>,
    barcode: Option<string>)

  /** `Partial<Omit<Product, "id" | "createdAt">>` (its `updatedAt` is always overwritten) */
  datatype ProductPatch = ProductPatch(
    name: Option<string>,
    category: Option<string>,
    brand: Option<string>,
    description: Option<string>,
    barcode: Option<string>)

  datatype Period = Weekly | Monthly | Yearly

  datatype BudgetCategory = BudgetCategory(category: string, amount: int, spent: int)

  datatype Budget = Budget(
    id: int,
    name: string,
    period: Period,
    amount: int,
    categories: seq<BudgetCategory>,
    startDate: nat,
    endDate: nat,
    active: bool)

  /** `Omit<Budget, "id">` */
  datatype BudgetDraft = BudgetDraft(
    name: string,
    period: Period,
    amount: int,
    categories: seq<BudgetCategory>,
    startDate: nat,
    endDate: nat,
    active: bool)

  /** `Partial<Omit<Budget, "id">>` */
  datatype BudgetPatch = BudgetPatch(
    name: Option<string>,
    period: Option<Period>,
    amount: Option<int>,
    categories: Option<seq<BudgetCategory>>,
    startDate: Option<nat>,
    endDate: Option<nat>,
    active: Option<bool>)

  datatype ListItem = ListItem(
    id: int,
    productId: int,
    quantity: int,
    estimatedPrice: int,
    actualPrice: Option<int>,
    supermarket: Option<string>,
    purchased: bool)

  datatype ListStatus = Draft | Completed | Cancelled

  datatype ShoppingList = ShoppingList(
    id: int,
    name: string,
    items: seq<ListItem>,
    totalEstimated: int,
    totalActual: Option<int>,
    status: ListStatus,
    createdAt: nat,
    completedAt: Option<nat>)

  /** `Omit<ShoppingList, "id" | "createdAt">` */
  datatype ListDraft = ListDraft(
    name: string,
    items: seq<ListItem>,
    totalEstimated: int,
    totalActual: Option<int>,
    status: ListStatus,
    completedAt: Option<nat>)

  /** `Partial<Omit<ShoppingList, "id" | "createdAt">>` */
  datatype ListPatch = ListPatch(
    name: Option<string>,
    items: Option<seq<ListItem>>,
    totalEstimated: Option<int>,
    totalActual: Option<int>,
    status: Option<ListStatus>,
    completedAt: Option<nat>)

  datatype Expense = Expense(
    id: int,
    productId: int,
    amount: int,
    quantity: int,
    supermarket: string,
    category: string,
    date: nat,
    shoppingListId: Option<int>)

  // ----------------------------------------------------------------- merges

  function O<T>(patched: Option<T>, current: T): T
  {
    if patched.Some? then patched.value else current
  }

  function Or<T>(patched: Option<T>, current: Option<T>): Option<T>
  {
    if patched.Some? then patched else current
  }

  /** `{ ...product, ...updates, updatedAt: now }` */
  function PatchProduct(p: Product, u: ProductPatch, now: nat): Product
  {
    p.(name := O(u.name, p.name), category := O(u.category, p.category), brand := Or(u.brand, p.brand),
       description := Or(u.description, p.description), barcode := Or(u.barcode, p.barcode), updatedAt := now)
  }

  /** `{ ...budget, ...updates }` */
  function PatchBudget(b: Budget, u: BudgetPatch): Budget
  {
    b.(name := O(u.name, b.name), period := O(u.period, b.period), amount := O(u.amount, b.amount),
       categories := O(u.categories, b.categories), startDate := O(u.startDate, b.startDate),
       endDate := O(u.endDate, b.endDate), active := O(u.active, b.active))
  }

  /** `{ ...list, ...updates }` */
  function PatchList(l: ShoppingList, u: ListPatch): ShoppingList
  {
    l.(name := O(u.name, l.name), items := O(u.items, l.items), totalEstimated := O(u.totalEstimated, l.totalEstimated),
       totalActual := Or(u.totalActual, l.totalActual), status := O(u.status, l.status),
       completedAt := Or(u.completedAt, l.completedAt))
  }

  // ----------------------------------------------------------------- ids and positions

  /** The ids of a table, in table order. */
  function Ids<T>(xs: seq<T>, id: T -> int): (r: seq<int>)
    ensures |r| == |xs| && forall i :: 0 <= i < |xs| ==> r[i] == id(xs[i])
  {
    seq(|xs|, i requires 0 <= i < |xs| => id(xs[i]))
  }

  /** `Math.max(...ids, 0) + 1` */
  function NextId(ids: seq<int>): (r: int)
    ensures r >= 1
    ensures forall i :: 0 <= i < |ids| ==> ids[i] < r
    ensures r == 1 || r - 1 in ids
  {
    if ids == [] then 1
    else
      var rest := NextId(ids[..|ids| - 1]);
      var last := ids[|ids| - 1];
      assert forall i :: 0 <= i < |ids| - 1 ==> ids[i] == ids[..|ids| - 1][i];
      if last + 1 > rest then last + 1 else rest
  }

  /** `findIndex`: the first position holding `key`, or -1. */
  function IndexOf<T>(xs: seq<T>, id: T -> int, key: int): (r: int)
    ensures -1 <= r < |xs|
    ensures r == -1 <==> forall i :: 0 <= i < |xs| ==> id(xs[i]) != key
    ensures r >= 0 ==> id(xs[r]) == key && forall i :: 0 <= i < r ==> id(xs[i]) != key
  {
    if xs == [] then -1
    else if id(xs[0]) == key then 0
    else
      var k := IndexOf(xs[1..], id, key);
      if k == -1 then -1 else k + 1
  }

  /** `find`: the first element holding `key`. */
  function Find<T>(xs: seq<T>, id: T -> int, key: int): (r: Option<T>)
    ensures r.None? <==> forall i :: 0 <= i < |xs| ==> id(xs[i]) != key
    ensures r.Some? ==> r.value in xs && id(r.value) == key
  {
    var k := IndexOf(xs, id, key);
    if k == -1 then None else Some(xs[k])
  }

  /** `splice(i, 1)` */
  function RemoveAt<T>(xs: seq<T>, i: nat): (r: seq<T>)
    requires i < |xs|
    ensures |r| == |xs| - 1
    ensures forall j :: 0 <= j < i ==> r[j] == xs[j]
    ensures forall j :: i <= j < |r| ==> r[j] == xs[j + 1]
  {
    xs[..i] + xs[i + 1..]
  }

  function ProductId(p: Product): int { p.id }
  function BudgetId(b: Budget): int { b.id }
  function ListId(l: ShoppingList): int { l.id }

  // ----------------------------------------------------------------- the tables

  /** The module-level arrays and the three CRUD services over them. */
  class MemoryStore {
    var products: seq<Product>
    var budgets: seq<Budget>
    var shoppingLists: seq<ShoppingList>
    var expenses: seq<Expense>

    constructor(products: seq<Product>, budgets: seq<Budget>, shoppingLists: seq<ShoppingList>, expenses: seq<Expense>)
      ensures this.products == products && this.budgets == budgets
      ensures this.shoppingLists == shoppingLists && this.expenses == expenses
    {
      this.products := products;
      this.budgets := budgets;
      this.shoppingLists := shoppingLists;
      this.expenses := expenses;
    }

    /** `productService.create`: a fresh id above every existing one, appended. */
    method CreateProduct(d: ProductDraft, now: nat) returns (p: Product)
      modifies this
      ensures p == Product(NextId(Ids(old(products), ProductId)), d.name, d.category, d.brand, d.description, d.barcode, now, now)
      ensures forall q :: q in old(products) ==> q.id < p.id
      ensures products == old(products) + [p]
      ensures budgets == old(budgets) && shoppingLists == old(shoppingLists) && expenses == old(expenses)
    {
      var ids := Ids(products, ProductId);
      p := Product(NextId(ids), d.name, d.category, d.brand, d.description, d.barcode, now, now);
      forall q | q in products ensures q.id < p.id {
        var i :| 0 <= i < |products| && products[i] == q;
        assert ids[i] == q.id;
      }
      products := products + [p];
    }

    /** `productService.update`: merged in place, `updatedAt` refreshed; null for an unknown id. */
    method UpdateProduct(id: int, u: ProductPatch, now: nat) returns (r: Option<Product>)
      modifies this
      ensures var i := IndexOf(old(products), ProductId, id);
              && (i == -1 ==> r.None? && products == old(products))
              && (i >= 0 ==> r == Some(PatchProduct(old(products)[i], u, now)) && products == old(products)[i := r.value])
      ensures r.Some? ==> r.value.id == id && r.value.updatedAt == now
      ensures budgets == old(budgets) && shoppingLists == old(shoppingLists) && expenses == old(expenses)
    {
      var i := IndexOf(products, ProductId, id);
      if i == -1 {
        return None;
      }
      products := products[i := PatchProduct(products[i], u, now)];
      r := Some(products[i]);
    }

    /** `productService.delete`: false for an unknown id, otherwise the first match is spliced out. */
    method DeleteProduct(id: int) returns (deleted: bool)
      modifies this
      ensures deleted <==> exists i :: 0 <= i < |old(products)| && old(products)[i].id == id
      ensures !deleted ==> products == old(products)
      ensures deleted ==> products == RemoveAt(old(products), IndexOf(old(products), ProductId, id))
      ensures budgets == old(budgets) && shoppingLists == old(shoppingLists) && expenses == old(expenses)
    {
      var i := IndexOf(products, ProductId, id);
      if i == -1 {
        return false;
      }
      products := RemoveAt(products, i);
      return true;
    }

    /** `budgetService.create` */
    method CreateBudget(d: BudgetDraft) returns (b: Budget)
      modifies this
      ensures b == Budget(NextId(Ids(old(budgets), BudgetId)), d.name, d.period, d.amount, d.categories, d.startDate, d.endDate, d.active)
      ensures forall c :: c in old(budgets) ==> c.id < b.id
      ensures budgets == old(budgets) + [b]
      ensures products == old(products) && shoppingLists == old(shoppingLists) && expenses == old(expenses)
    {
      var ids := Ids(budgets, BudgetId);
      b := Budget(NextId(ids), d.name, d.period, d.amount, d.categories, d.startDate, d.endDate, d.active);
      forall c | c in budgets ensures c.id < b.id {
        var i :| 0 <= i < |budgets| && budgets[i] == c;
        assert ids[i] == c.id;
      }
      budgets := budgets + [b];
    }

    /** `budgetService.update` */
    method UpdateBudget(id: int, u: BudgetPatch) returns (r: Option<Budget>)
      modifies this
      ensures var i := IndexOf(old(budgets), BudgetId, id);
              && (i == -1 ==> r.None? && budgets == old(budgets))
              && (i >= 0 ==> r == Some(PatchBudget(old(budgets)[i], u)) && budgets == old(budgets)[i := r.value])
      ensures r.Some? ==> r.value.id == id
      ensures products == old(products) && shoppingLists == old(shoppingLists) && expenses == old(expenses)
    {
      var i := IndexOf(budgets, BudgetId, id);
      if i == -1 {
        return None;
      }
      budgets := budgets[i := PatchBudget(budgets[i], u)];
      r := Some(budgets[i]);
    }

    /** `budgetService.delete` */
    method DeleteBudget(id: int) returns (deleted: bool)
      modifies this
      ensures deleted <==> exists i :: 0 <= i < |old(budgets)| && old(budgets)[i].id == id
      ensures !deleted ==> budgets == old(budgets)
      ensures deleted ==> budgets == RemoveAt(old(budgets), IndexOf(old(budgets), BudgetId, id))
      ensures products == old(products) && shoppingLists == old(shoppingLists) && expenses == old(expenses)
    {
      var i := IndexOf(budgets, BudgetId, id);
      if i == -1 {
        return false;
      }
      budgets := RemoveAt(budgets, i);
      return true;
    }

    /** `shoppingListService.create` */
    method CreateList(d: ListDraft, now: nat) returns (l: ShoppingList)
      modifies this
      ensures l == ShoppingList(NextId(Ids(old(shoppingLists), ListId)), d.name, d.items, d.totalEstimated, d.totalActual, d.status, now, d.completedAt)
      ensures forall m :: m in old(shoppingLists) ==> m.id < l.id
      ensures shoppingLists == old(shoppingLists) + [l]
      ensures products == old(products) && budgets == old(budgets) && expenses == old(expenses)
    {
      var ids := Ids(shoppingLists, ListId);
      l := ShoppingList(NextId(ids), d.name, d.items, d.totalEstimated, d.totalActual, d.status, now, d.completedAt);
      forall m | m in shoppingLists ensures m.id < l.id {
        var i :| 0 <= i < |shoppingLists| && shoppingLists[i] == m;
        assert ids[i] == m.id;
      }
      shoppingLists := shoppingLists + [l];
    }

    /** `shoppingListService.update` */
    method UpdateList(id: int, u: ListPatch) returns (r: Option<ShoppingList>)
      modifies this
      ensures var i := IndexOf(old(shoppingLists), ListId, id);
              && (i == -1 ==> r.None? && shoppingLists == old(shoppingLists))
              && (i >= 0 ==> r == Some(PatchList(old(shoppingLists)[i], u)) && shoppingLists == old(shoppingLists)[i := r.value])
      ensures r.Some? ==> r.value.id == id
      ensures products == old(products) && budgets == old(budgets) && expenses == old(expenses)
    {
      var i := IndexOf(shoppingLists, ListId, id);
      if i == -1 {
        return None;
      }
      shoppingLists := shoppingLists[i := PatchList(shoppingLists[i], u)];
      r := Some(shoppingLists[i]);
    }

    /** `shoppingListService.delete` */
    method DeleteList(id: int) returns (deleted: bool)
      modifies this
      ensures deleted <==> exists i :: 0 <= i < |old(shoppingLists)| && old(shoppingLists)[i].id == id
      ensures !deleted ==> shoppingLists == old(shoppingLists)
      ensures deleted ==> shoppingLists == RemoveAt(old(shoppingLists), IndexOf(old(shoppingLists), ListId, id))
      ensures products == old(products) && budgets == old(budgets) && expenses == old(expenses)
    {
      var i := IndexOf(shoppingLists, ListId, id);
      if i == -1 {
        return false;
      }
      shoppingLists := RemoveAt(shoppingLists, i);
      return true;
    }
  }

  /** Creating then deleting by the new id gives back the table it started from. */
  lemma CreateThenDelete(ps: seq<Product>, p: Product)
    requires forall q :: q in ps ==> q.id < p.id
    ensures IndexOf(ps + [p], ProductId, p.id) == |ps|
    ensures RemoveAt(ps + [p], |ps|) == ps
  {
    var xs := ps + [p];
    forall i | 0 <= i < |ps| ensures ProductId(xs[i]) != p.id {
      assert xs[i] == ps[i] && ps[i] in ps;
    }
    assert ProductId(xs[|ps|]) == p.id;
    assert xs[..|ps|] == ps && xs[|ps| + 1..] == [];
  }

  /** Ids handed out by `create` stay distinct: a table with distinct ids keeps them distinct. */
  predicate DistinctIds<T>(xs: seq<T>, id: T -> int)
  {
    forall i, j :: 0 <= i < j < |xs| ==> id(xs[i]) != id(xs[j])
  }

  lemma CreateKeepsIdsDistinct(ps: seq<Product>, p: Product)
    requires DistinctIds(ps, ProductId)
    requires forall q :: q in ps ==> q.id < p.id
    ensures DistinctIds(ps + [p], ProductId)
  {
    var xs := ps + [p];
    forall i, j | 0 <= i < j < |xs| ensures ProductId(xs[i]) != ProductId(xs[j]) {
      if j == |ps| {
        assert xs[i] == ps[i] && ps[i] in ps;
      }
    }
  }

  // ----------------------------------------------------------------- queries

  /** `productService.search`'s test for one product. */
  predicate Matches(p: Product, query: string, category: Option<string>)
  {
    var q := ToLower(query);
    && (|| Contains(ToLower(p.name), q)
        || (p.brand.Some? && Contains(ToLower(p.brand.value), q))
        || (p.description.Some? && Contains(ToLower(p.description.value), q)))
    && (category.None? || category.value == "" || p.category == category.value)
  }

  /** `productService.search` */
  function Search(products: seq<Product>, query: string, category: Option<string>): (r: seq<Product>)
    ensures forall p :: p in r <==> p in products && Matches(p, query, category)
  {
    Filter(products, (p: Product) => Matches(p, query, category))
  }

  /** The empty query with no category keeps every product. */
  lemma SearchEverything(products: seq<Product>)
    ensures Search(products, "", None) == products
  {
    forall p | p in products ensures Matches(p, "", None) {
      assert OccursAt(ToLower(p.name), "", 0);
    }
    FilterAll(products, (p: Product) => Matches(p, "", None));
  }

  /** The query is compared without regard to letter case. */
  lemma SearchIgnoresCase(products: seq<Product>, query: string, category: Option<string>)
    ensures Search(products, ToLower(query), category) == Search(products, query, category)
  {
    ToLowerIdempotent(query);
    FilterAgree(products, (p: Product) => Matches(p, ToLower(query), category), (p: Product) => Matches(p, query, category));
  }

  /** A non-empty category keeps only products of that category. */
  lemma SearchByCategory(products: seq<Product>, query: string, category: string)
    requires category != ""
    ensures forall p :: p in Search(products, query, Some(category)) ==> p.category == category
  {
  }

  /** `budgetService.getActive`: the first active budget. */
  function GetActive(budgets: seq<Budget>): (r: Option<Budget>)
    ensures r.None? <==> forall b :: b in budgets ==> !b.active
    ensures r.Some? ==> r.value in budgets && r.value.active
    ensures r.Some? ==> exists i :: 0 <= i < |budgets| && budgets[i] == r.value && forall j :: 0 <= j < i ==> !budgets[j].active
  {
    if budgets == [] then None
    else if budgets[0].active then Some(budgets[0])
    else
      var r := GetActive(budgets[1..]);
      assert r.Some? ==> exists i :: 0 <= i < |budgets[1..]| && budgets[1..][i] == r.value && forall j :: 0 <= j < i ==> !budgets[1..][j].active;
      if r.Some? then
        var i :| 0 <= i < |budgets[1..]| && budgets[1..][i] == r.value && forall j :: 0 <= j < i ==> !budgets[1..][j].active;
        assert budgets[i + 1] == r.value && forall j :: 0 <= j < i + 1 ==> !budgets[j].active;
        r
      else r
  }

  // ----------------------------------------------------------------- reports

  /** The expenses dated inside `[start, end]`. */
  function InRange(expenses: seq<Expense>, start: nat, end: nat): seq<Expense>
  {
    Filter(expenses, (e: Expense) => start <= e.date <= end)
  }

  /** The `reduce` of `getExpensesByCategory`: amounts added up under their category. */
  function ByCategory(es: seq<Expense>): map<string, int>
  {
    if es == [] then map[]
    else
      var acc := ByCategory(es[..|es| - 1]);
      var e := es[|es| - 1];
      acc[e.category := (if e.category in acc then acc[e.category] else 0) + e.amount]
  }

  /** `reportService.getExpensesByCategory` */
  function ExpensesByCategory(expenses: seq<Expense>, start: nat, end: nat): map<string, int>
  {
    ByCategory(InRange(expenses, start, end))
  }

  /** What one category adds up to, expense by expense. */
  function AmountOf(es: seq<Expense>, category: string): int
  {
    if es == [] then 0
    else AmountOf(es[..|es| - 1], category) + (if es[|es| - 1].category == category then es[|es| - 1].amount else 0)
  }

  function AmountTotal(es: seq<Expense>): int
  {
    if es == [] then 0 else AmountTotal(es[..|es| - 1]) + es[|es| - 1].amount
  }

  /** Each category present in the report is one some expense carries, and its entry is that category's sum. */
  lemma {:induction false} ByCategoryCorrect(es: seq<Expense>)
    ensures forall c :: c in ByCategory(es) <==> exists e :: e in es && e.category == c
    ensures forall c :: c in ByCategory(es) ==> ByCategory(es)[c] == AmountOf(es, c)
  {
    if es != [] {
      var init := es[..|es| - 1];
      ByCategoryCorrect(init);
      assert es == init + [es[|es| - 1]];
      assert forall e :: e in es <==> e in init || e == es[|es| - 1];
      forall c | c in ByCategory(es) && c !in ByCategory(init) ensures AmountOf(init, c) == 0 {
        AmountOfAbsent(init, c);
      }
    }
  }

  lemma {:induction false} AmountOfAbsent(es: seq<Expense>, c: string)
    requires forall e :: e in es ==> e.category != c
    ensures AmountOf(es, c) == 0
  {
    if es != [] {
      assert es[|es| - 1] in es;
      assert forall e :: e in es[..|es| - 1] ==> e in es;
      AmountOfAbsent(es[..|es| - 1], c);
    }
  }

  /** The sum of a report's entries. */
  ghost function SumValues(m: map<string, int>): int
    decreases |m.Keys|
  {
    if m == map[] then 0
    else
      var k :| k in m;
      m[k] + SumValues(m - {k})
  }

  lemma {:induction false} SumValuesWithout(m: map<string, int>, k: string)
    requires k in m
    ensures SumValues(m) == m[k] + SumValues(m - {k})
    decreases |m.Keys|
  {
    var j :| j in m && SumValues(m) == m[j] + SumValues(m - {j});
    if j != k {
      assert (m - {j}) - {k} == (m - {k}) - {j};
      assert |(m - {j}).Keys| < |m.Keys| by { assert m.Keys == (m - {j}).Keys + {j}; }
      assert |(m - {k}).Keys| < |m.Keys| by { assert m.Keys == (m - {k}).Keys + {k}; }
      SumValuesWithout(m - {j}, k);
      SumValuesWithout(m - {k}, j);
    }
  }

  lemma SumValuesSet(m: map<string, int>, k: string, v: int)
    ensures SumValues(m[k := v]) == SumValues(m) - (if k in m then m[k] else 0) + v
  {
    SumValuesWithout(m[k := v], k);
    assert m[k := v] - {k} == m - {k};
    if k in m {
      SumValuesWithout(m, k);
    } else {
      assert m - {k} == m;
    }
  }

  /** The report's grand total equals the total of the in-range expenses. */
  lemma {:induction false} ByCategoryTotal(es: seq<Expense>)
    ensures SumValues(ByCategory(es)) == AmountTotal(es)
  {
    if es != [] {
      var acc := ByCategory(es[..|es| - 1]);
      var e := es[|es| - 1];
      ByCategoryTotal(es[..|es| - 1]);
      SumValuesSet(acc, e.category, (if e.category in acc then acc[e.category] else 0) + e.amount);
    }
  }

  /** One product's total quantity over a run of expenses. */
  datatype Tally = Tally(productId: int, count: int)

  function QuantityOf(es: seq<Expense>, productId: int): int
  {
    if es == [] then 0
    else QuantityOf(es[..|es| - 1], productId) + (if es[|es| - 1].productId == productId then es[|es| - 1].quantity else 0)
  }

  /** The per-product counts, listed as `Object.entries` lists integer keys: by ascending id. */
  predicate Ascending(xs: seq<Tally>)
  {
    forall i, j :: 0 <= i < j < |xs| ==> xs[i].productId < xs[j].productId
  }

  function CountOf(xs: seq<Tally>, productId: int): int
  {
    if xs == [] then 0 else if xs[0].productId == productId then xs[0].count else CountOf(xs[1..], productId)
  }

  /** `acc[id] = (acc[id] || 0) + quantity` on the entry list. */
  function Bump(xs: seq<Tally>, productId: int, quantity: int): seq<Tally>
  {
    if xs == [] then [Tally(productId, quantity)]
    else if xs[0].productId == productId then [xs[0].(count := xs[0].count + quantity)] + xs[1..]
    else if productId < xs[0].productId then [Tally(productId, quantity)] + xs
    else [xs[0]] + Bump(xs[1..], productId, quantity)
  }

  /** The ids an entry list holds. */
  function Keys(xs: seq<Tally>): set<int>
  {
    if xs == [] then {} else {xs[0].productId} + Keys(xs[1..])
  }

  lemma {:induction false} KeysMember(xs: seq<Tally>, t: Tally)
    requires t in xs
    ensures t.productId in Keys(xs)
  {
    if xs[0] != t {
      KeysMember(xs[1..], t);
    }
  }

  lemma AscendingCons(a: Tally, rest: seq<Tally>)
    requires Ascending(rest)
    requires forall t :: t in rest ==> a.productId < t.productId
    ensures Ascending([a] + rest)
  {
    var r := [a] + rest;
    forall i, j | 0 <= i < j < |r| ensures r[i].productId < r[j].productId {
      assert r[j] == rest[j - 1] && rest[j - 1] in rest;
      if i > 0 {
        assert r[i] == rest[i - 1];
      }
    }
  }

  lemma {:induction false} BumpMembers(xs: seq<Tally>, productId: int, quantity: int)
    ensures forall t :: t in Bump(xs, productId, quantity) ==> t.productId == productId || t in xs
  {
    if xs == [] {
    } else if xs[0].productId == productId {
      assert Bump(xs, productId, quantity)[1..] == xs[1..];
      assert forall t :: t in xs[1..] ==> t in xs;
    } else if productId < xs[0].productId {
    } else {
      BumpMembers(xs[1..], productId, quantity);
      assert Bump(xs, productId, quantity) == [xs[0]] + Bump(xs[1..], productId, quantity);
      assert forall t :: t in xs[1..] ==> t in xs;
    }
  }

  lemma {:induction false} BumpAscending(xs: seq<Tally>, productId: int, quantity: int)
    requires Ascending(xs)
    ensures Ascending(Bump(xs, productId, quantity))
  {
    if xs == [] {
    } else if xs[0].productId == productId {
      assert xs[1..] == xs[1..];
      AscendingCons(xs[0].(count := xs[0].count + quantity), xs[1..]);
    } else if productId < xs[0].productId {
      AscendingCons(Tally(productId, quantity), xs);
    } else {
      var rest := Bump(xs[1..], productId, quantity);
      BumpAscending(xs[1..], productId, quantity);
      BumpMembers(xs[1..], productId, quantity);
      forall t | t in rest ensures xs[0].productId < t.productId {
        if t.productId != productId {
          var i :| 0 <= i < |xs[1..]| && xs[1..][i] == t;
          assert xs[i + 1] == t;
        }
      }
      AscendingCons(xs[0], rest);
    }
  }

  lemma {:induction false} BumpCount(xs: seq<Tally>, productId: int, quantity: int, k: int)
    requires Ascending(xs)
    ensures CountOf(Bump(xs, productId, quantity), k) == CountOf(xs, k) + (if k == productId then quantity else 0)
  {
    if xs == [] {
    } else if xs[0].productId == productId {
      assert Bump(xs, productId, quantity)[1..] == xs[1..];
    } else if productId < xs[0].productId {
      assert Bump(xs, productId, quantity)[1..] == xs;
      if k == productId {
        CountOfBelow(xs, k);
      }
    } else {
      assert Bump(xs, productId, quantity)[1..] == Bump(xs[1..], productId, quantity);
      BumpCount(xs[1..], productId, quantity, k);
    }
  }

  lemma {:induction false} BumpKeys(xs: seq<Tally>, productId: int, quantity: int)
    ensures Keys(Bump(xs, productId, quantity)) == Keys(xs) + {productId}
  {
    if xs == [] {
    } else if xs[0].productId == productId {
      assert Bump(xs, productId, quantity)[1..] == xs[1..];
    } else if productId < xs[0].productId {
      assert Bump(xs, productId, quantity)[1..] == xs;
    } else {
      assert Bump(xs, productId, quantity)[1..] == Bump(xs[1..], productId, quantity);
      BumpKeys(xs[1..], productId, quantity);
    }
  }

  lemma {:induction false} CountOfBelow(xs: seq<Tally>, k: int)
    requires Ascending(xs)
    requires xs == [] || k < xs[0].productId
    ensures CountOf(xs, k) == 0
  {
    if xs != [] {
      CountOfBelow(xs[1..], k);
    }
  }

  /** The `reduce` of `getTopProducts`. */
  function Counts(es: seq<Expense>): seq<Tally>
  {
    if es == [] then []
    else Bump(Counts(es[..|es| - 1]), es[|es| - 1].productId, es[|es| - 1].quantity)
  }

  /** The ids of the products the expenses name. */
  function ExpenseIds(es: seq<Expense>): set<int>
  {
    if es == [] then {} else ExpenseIds(es[..|es| - 1]) + {es[|es| - 1].productId}
  }

  /**
   * The counts are listed by ascending id, carry each product's total quantity and list
   * exactly the products the expenses name.
   */
  lemma {:induction false} CountsCorrect(es: seq<Expense>)
    ensures Ascending(Counts(es))
    ensures forall k :: CountOf(Counts(es), k) == QuantityOf(es, k)
    ensures Keys(Counts(es)) == ExpenseIds(es)
  {
    if es != [] {
      var init := es[..|es| - 1];
      var e := es[|es| - 1];
      CountsCorrect(init);
      BumpAscending(Counts(init), e.productId, e.quantity);
      BumpKeys(Counts(init), e.productId, e.quantity);
      forall k ensures CountOf(Counts(es), k) == QuantityOf(es, k) {
        BumpCount(Counts(init), e.productId, e.quantity, k);
      }
    }
  }

  /** In an ascending list, an entry's count is the one `CountOf` reports for its id. */
  lemma {:induction false} CountOfMember(xs: seq<Tally>, t: Tally)
    requires Ascending(xs) && t in xs
    ensures CountOf(xs, t.productId) == t.count
  {
    if xs[0] != t {
      assert t in xs[1..];
      CountOfMember(xs[1..], t);
    }
  }

  /** Ordered by non-increasing count. */
  predicate ByCount(xs: seq<Tally>)
  {
    forall i, j :: 0 <= i < j < |xs| ==> xs[i].count >= xs[j].count
  }

  /** `sort(([, a], [, b]) => b - a)`, stable: larger counts first, ties in their earlier order. */
  function SortByCount(xs: seq<Tally>): seq<Tally>
  {
    if xs == [] then [] else InsertByCount(xs[0], SortByCount(xs[1..]))
  }

  function InsertByCount(x: Tally, ys: seq<Tally>): seq<Tally>
  {
    if ys == [] || x.count >= ys[0].count then [x] + ys else [ys[0]] + InsertByCount(x, ys[1..])
  }

  lemma ByCountCons(a: Tally, rest: seq<Tally>)
    requires ByCount(rest)
    requires forall t :: t in rest ==> a.count >= t.count
    ensures ByCount([a] + rest)
  {
    var r := [a] + rest;
    forall i, j | 0 <= i < j < |r| ensures r[i].count >= r[j].count {
      assert r[j] == rest[j - 1] && rest[j - 1] in rest;
      if i > 0 {
        assert r[i] == rest[i - 1];
      }
    }
  }

  lemma {:induction false} InsertByCountCorrect(x: Tally, ys: seq<Tally>)
    requires ByCount(ys)
    ensures multiset(InsertByCount(x, ys)) == multiset(ys) + multiset{x}
    ensures forall t :: t in InsertByCount(x, ys) <==> t in ys || t == x
    ensures ByCount(InsertByCount(x, ys))
  {
    if ys == [] || x.count >= ys[0].count {
      forall t | t in ys ensures x.count >= t.count {
        var k :| 0 <= k < |ys| && ys[k] == t;
        if k > 0 {
          assert ys[0].count >= ys[k].count;
        }
      }
      ByCountCons(x, ys);
    } else {
      var rest := InsertByCount(x, ys[1..]);
      InsertByCountCorrect(x, ys[1..]);
      assert ys == [ys[0]] + ys[1..];
      forall t | t in rest ensures ys[0].count >= t.count {
        if t != x {
          var k :| 0 <= k < |ys[1..]| && ys[1..][k] == t;
          assert ys[k + 1] == t;
        }
      }
      assert ByCount(ys[1..]) by {
        forall i, j | 0 <= i < j < |ys[1..]| ensures ys[1..][i].count >= ys[1..][j].count {
          assert ys[1..][i] == ys[i + 1] && ys[1..][j] == ys[j + 1];
        }
      }
      ByCountCons(ys[0], rest);
    }
  }

  /** The sort is a permutation, by non-increasing count. */
  lemma {:induction false} SortByCountCorrect(xs: seq<Tally>)
    ensures multiset(SortByCount(xs)) == multiset(xs)
    ensures ByCount(SortByCount(xs))
  {
    if xs != [] {
      SortByCountCorrect(xs[1..]);
      InsertByCountCorrect(xs[0], SortByCount(xs[1..]));
      assert xs == [xs[0]] + xs[1..];
    }
  }

  /** `slice(0, limit)`, negative limits counting from the end. */
  function Take<T>(xs: seq<T>, limit: int): (r: seq<T>)
    ensures limit >= 0 ==> |r| == if limit < |xs| then limit else |xs|
    ensures limit < 0 ==> |r| == if |xs| + limit > 0 then |xs| + limit else 0
    ensures r == xs[..|r|]
  {
    if limit >= 0 then (if limit < |xs| then xs[..limit] else xs)
    else if |xs| + limit > 0 then xs[..|xs| + limit] else []
  }

  const DefaultTopLimit := 10

  datatype TopEntry = TopEntry(product: Option<Product>, count: int)

  /** `reportService.getTopProducts`, before the lookup of each product. */
  function Ranking(es: seq<Expense>, limit: int): seq<Tally>
  {
    Take(SortByCount(Counts(es)), limit)
  }

  /** `reportService.getTopProducts` */
  function TopProducts(es: seq<Expense>, products: seq<Product>, limit: int): (r: seq<TopEntry>)
    ensures |r| == |Ranking(es, limit)|
    ensures forall i :: 0 <= i < |r| ==> r[i] == TopEntry(Find(products, ProductId, Ranking(es, limit)[i].productId), Ranking(es, limit)[i].count)
  {
    var ranked := Ranking(es, limit);
    seq(|ranked|, i requires 0 <= i < |ranked| => TopEntry(Find(products, ProductId, ranked[i].productId), ranked[i].count))
  }

  /** The ranking is a prefix of the sorted counts, so it lists counts and keeps their order. */
  lemma RankingFromCounts(es: seq<Expense>, limit: int)
    ensures forall t :: t in Ranking(es, limit) ==> t in Counts(es)
    ensures ByCount(Ranking(es, limit))
  {
    var all := SortByCount(Counts(es));
    var top := Ranking(es, limit);
    SortByCountCorrect(Counts(es));
    assert top == all[..|top|];
    forall t | t in top ensures t in Counts(es) {
      var i :| 0 <= i < |top| && top[i] == t;
      assert all[i] == t;
      assert t in multiset(all);
    }
    forall i, j | 0 <= i < j < |top| ensures top[i].count >= top[j].count {
      assert top[i] == all[i] && top[j] == all[j];
    }
  }

  /**
   * At most `limit` entries, by non-increasing count, each a product some expense names,
   * with its total quantity.
   */
  lemma TopProductsRanked(es: seq<Expense>, limit: nat)
    ensures |Ranking(es, limit)| <= limit
    ensures ByCount(Ranking(es, limit))
    ensures forall t :: t in Ranking(es, limit) ==> t.count == QuantityOf(es, t.productId) && t.productId in ExpenseIds(es)
  {
    CountsCorrect(es);
    RankingFromCounts(es, limit);
    forall t | t in Ranking(es, limit) ensures t.count == QuantityOf(es, t.productId) && t.productId in ExpenseIds(es) {
      CountOfMember(Counts(es), t);
      KeysMember(Counts(es), t);
    }
  }

  /** No product left out of the ranking outranks one in it. */
  lemma RankingIsTop(es: seq<Expense>, limit: int)
    ensures forall t, u :: t in Counts(es) && t !in Ranking(es, limit) && u in Ranking(es, limit) ==> t.count <= u.count
  {
    var all := SortByCount(Counts(es));
    var top := Ranking(es, limit);
    SortByCountCorrect(Counts(es));
    assert top == all[..|top|];
    forall t, u | t in Counts(es) && t !in top && u in top ensures t.count <= u.count {
      assert t in multiset(Counts(es));
      assert t in multiset(all);
      var j :| 0 <= j < |all| && all[j] == t;
      var i :| 0 <= i < |top| && top[i] == u;
      assert all[i] == u;
    }
  }

  datatype CategoryAnalysis = CategoryAnalysis(category: string, amount: int, spent: int, remaining: int)

  datatype Analysis = Analysis(
    budget: Budget,
    totalSpent: int,
    totalBudget: int,
    remaining: int,
    categoryAnalysis: seq<CategoryAnalysis>)

  function SpentTotal(cs: seq<BudgetCategory>): int
  {
    if cs == [] then 0 else SpentTotal(cs[..|cs| - 1]) + cs[|cs| - 1].spent
  }

  function AmountSum(cs: seq<BudgetCategory>): int
  {
    if cs == [] then 0 else AmountSum(cs[..|cs| - 1]) + cs[|cs| - 1].amount
  }

  function RemainingSum(cs: seq<CategoryAnalysis>): int
  {
    if cs == [] then 0 else RemainingSum(cs[..|cs| - 1]) + cs[|cs| - 1].remaining
  }

  function Analyse(cs: seq<BudgetCategory>): (r: seq<CategoryAnalysis>)
    ensures |r| == |cs|
    ensures forall i :: 0 <= i < |cs| ==> r[i] == CategoryAnalysis(cs[i].category, cs[i].amount, cs[i].spent, cs[i].amount - cs[i].spent)
  {
    seq(|cs|, i requires 0 <= i < |cs| => CategoryAnalysis(cs[i].category, cs[i].amount, cs[i].spent, cs[i].amount - cs[i].spent))
  }

  /** `reportService.getBudgetAnalysis`, without its percentages. */
  function BudgetAnalysis(budgets: seq<Budget>): (r: Option<Analysis>)
    ensures r.None? <==> forall b :: b in budgets ==> !b.active
    ensures r.Some? ==> r.value.budget.active && r.value.budget in budgets
    ensures r.Some? ==> Some(r.value.budget) == GetActive(budgets)
    ensures r.Some? ==> && r.value.totalBudget == r.value.budget.amount
                        && r.value.totalSpent == SpentTotal(r.value.budget.categories)
                        && r.value.remaining == r.value.totalBudget - r.value.totalSpent
                        && r.value.categoryAnalysis == Analyse(r.value.budget.categories)
  {
    var active := GetActive(budgets);
    if active.None? then None
    else
      var b := active.value;
      var spent := SpentTotal(b.categories);
      Some(Analysis(b, spent, b.amount, b.amount - spent, Analyse(b.categories)))
  }

  /** The category remainders add up to the budget's remainder when the categories split the whole amount. */
  lemma {:induction false} RemainingAddsUp(cs: seq<BudgetCategory>)
    ensures RemainingSum(Analyse(cs)) == AmountSum(cs) - SpentTotal(cs)
  {
    if cs != [] {
      var init := cs[..|cs| - 1];
      assert Analyse(cs)[..|cs| - 1] == Analyse(init);
      RemainingAddsUp(init);
    }
  }

  lemma BudgetAnalysisRemaining(budgets: seq<Budget>)
    requires BudgetAnalysis(budgets).Some?
    requires AmountSum(BudgetAnalysis(budgets).value.budget.categories) == BudgetAnalysis(budgets).value.totalBudget
    ensures BudgetAnalysis(budgets).value.remaining == RemainingSum(BudgetAnalysis(budgets).value.categoryAnalysis)
    ensures BudgetAnalysis(budgets).value.totalSpent == SpentTotal(BudgetAnalysis(budgets).value.budget.categories)
  {
    RemainingAddsUp(BudgetAnalysis(budgets).value.budget.categories);
  }
}
