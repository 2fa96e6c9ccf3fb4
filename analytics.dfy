/**
 * AnalyticsFacade: period reports over the operations the repository serves.
 */
module Analytics {
  import opened Models
  import opened Keyed
  import opened ProxyStore

  /** validatePeriod: an end before the start is refused. */
  function ValidatePeriod(from: int, to: int): (r: Outcome)
    ensures r.Pass? <==> from <= to
    ensures r.Fail? ==> r.error == Rejected(PeriodEndBeforeStart)
  {
    if to < from then Fail(Rejected(PeriodEndBeforeStart)) else Pass
  }

  /** inPeriod: at or after the start, and at or before the end. */
  function InPeriod(date: int, from: int, to: int): (b: bool)
    ensures b <==> from <= date <= to
  {
    (date == from || date > from) && (date == to || date < to)
  }

  /** What an operation adds to the income total of a period. */
  function IncomeIn(from: int, to: int): Operation -> real {
    (o: Operation) => if InPeriod(o.date, from, to) && o.kind == INCOME then o.amount else 0.0
  }

  /** What an operation adds to the expense total of a period. */
  function ExpenseIn(from: int, to: int): Operation -> real {
    (o: Operation) => if InPeriod(o.date, from, to) && o.kind == EXPENSE then o.amount else 0.0
  }

  /** In-period income minus in-period expense over the served operations, in any order. */
  ghost function Net(ops: map<string, Operation>, from: int, to: int): real {
    SumMap(ops, IncomeIn(from, to)) - SumMap(ops, ExpenseIn(from, to))
  }

  /** One more operation moves the difference by its signed amount when it falls in the
      period, and not at all otherwise. */
  lemma NetAdd(ops: map<string, Operation>, o: Operation, from: int, to: int)
    requires o.id !in ops
    ensures Net(ops[o.id := o], from, to) == Net(ops, from, to) + (if InPeriod(o.date, from, to) then Signed(o) else 0.0)
  {
    SumMapUpdate(ops, IncomeIn(from, to), o.id, o);
    SumMapUpdate(ops, ExpenseIn(from, to), o.id, o);
  }

  /** The two accumulators of Difference over a listing of operations. */
  method Totals(ops: seq<Operation>, from: int, to: int) returns (income: real, expense: real)
    ensures income == SumOf(ops, IncomeIn(from, to))
    ensures expense == SumOf(ops, ExpenseIn(from, to))
  {
    income, expense := 0.0, 0.0;
    for i := 0 to |ops|
      invariant income == SumOf(ops[..i], IncomeIn(from, to))
      invariant expense == SumOf(ops[..i], ExpenseIn(from, to))
    {
      assert ops[..i + 1] == ops[..i] + [ops[i]];
      SumOfAppend(ops[..i], IncomeIn(from, to), ops[i]);
      SumOfAppend(ops[..i], ExpenseIn(from, to), ops[i]);
      var op := ops[i];
      if !InPeriod(op.date, from, to) {
        continue;
      }
      if op.kind == INCOME {
        income := income + op.amount;
      } else if op.kind == EXPENSE {
        expense := expense + op.amount;
      }
    }
    assert ops[..|ops|] == ops;
  }

  /** Per-category totals of a report. */
  datatype CategoryTotals = CategoryTotals(income: real, expense: real)

  const NO_TOTALS := CategoryTotals(0.0, 0.0)

  /** The entry of a report under a name; zero totals when there is none. */
  function Entry(totals: map<string, CategoryTotals>, name: string): CategoryTotals {
    if name in totals then totals[name] else NO_TOTALS
  }

  /** An operation counts for a category name: it is in the period and its category is
      known under that name. */
  predicate Grouped(o: Operation, categories: map<string, Category>, from: int, to: int, name: string) {
    InPeriod(o.date, from, to) && o.categoryId in categories && categories[o.categoryId].name == name
  }

  function IncomeFor(categories: map<string, Category>, from: int, to: int, name: string): Operation -> real {
    (o: Operation) => if Grouped(o, categories, from, to, name) && o.kind == INCOME then o.amount else 0.0
  }

  function ExpenseFor(categories: map<string, Category>, from: int, to: int, name: string): Operation -> real {
    (o: Operation) => if Grouped(o, categories, from, to, name) && o.kind == EXPENSE then o.amount else 0.0
  }

  /** One pass of GroupByCategory's loop. An operation outside the period or with an
      unknown category is skipped; otherwise the entry under the category's name is
      created if need be and its income or expense grows. */
  function Tally(totals: map<string, CategoryTotals>, categories: map<string, Category>, o: Operation,
                 from: int, to: int): map<string, CategoryTotals> {
    if !InPeriod(o.date, from, to) || o.categoryId !in categories then totals
    else
      var name := categories[o.categoryId].name;
      var entry := Entry(totals, name);
      var entry' :=
        if o.kind == INCOME then entry.(income := entry.income + o.amount)
        else if o.kind == EXPENSE then entry.(expense := entry.expense + o.amount)
        else entry;
      totals[name := entry']
  }

  /** The totals GroupByCategory's loop builds from a listing of operations. */
  function GroupOf(ops: seq<Operation>, categories: map<string, Category>, from: int, to: int): map<string, CategoryTotals> {
    if ops == [] then map[]
    else Tally(GroupOf(ops[..|ops| - 1], categories, from, to), categories, ops[|ops| - 1], from, to)
  }

  /** One pass creates the entry under `name` exactly when the operation counts for it,
      and adds the operation's income and expense share to it. */
  lemma TallyEntry(totals: map<string, CategoryTotals>, categories: map<string, Category>, o: Operation,
                   from: int, to: int, name: string)
    ensures name in Tally(totals, categories, o, from, to) <==> name in totals || Grouped(o, categories, from, to, name)
    ensures Entry(Tally(totals, categories, o, from, to), name)
         == CategoryTotals(Entry(totals, name).income + IncomeFor(categories, from, to, name)(o),
                           Entry(totals, name).expense + ExpenseFor(categories, from, to, name)(o))
  {
  }

  /** A name has an entry exactly when some listed operation counts for it, and the entry
      holds the sums of the income and expense amounts of the operations that do. */
  lemma {:induction false} GroupOfSums(ops: seq<Operation>, categories: map<string, Category>, from: int, to: int, name: string)
    ensures name in GroupOf(ops, categories, from, to) <==> exists i :: 0 <= i < |ops| && Grouped(ops[i], categories, from, to, name)
    ensures Entry(GroupOf(ops, categories, from, to), name)
         == CategoryTotals(SumOf(ops, IncomeFor(categories, from, to, name)), SumOf(ops, ExpenseFor(categories, from, to, name)))
  {
    if ops != [] {
      var n := |ops| - 1;
      var p, o := ops[..n], ops[n];
      assert ops == p + [o];
      GroupOfSums(p, categories, from, to, name);
      TallyEntry(GroupOf(p, categories, from, to), categories, o, from, to, name);
      SumOfAppend(p, IncomeFor(categories, from, to, name), o);
      SumOfAppend(p, ExpenseFor(categories, from, to, name), o);
      if exists i :: 0 <= i < |p| && Grouped(p[i], categories, from, to, name) {
        var i :| 0 <= i < |p| && Grouped(p[i], categories, from, to, name);
        assert ops[i] == p[i];
      }
      if exists i :: 0 <= i < |ops| && Grouped(ops[i], categories, from, to, name) {
        var i :| 0 <= i < |ops| && Grouped(ops[i], categories, from, to, name);
        if i < n {
          assert p[i] == ops[i];
        }
      }
    }
  }

  /** Two categories that share a name share one entry: an income of each, both in the
      period, add up under that name. */
  lemma SameNameMerges(categories: map<string, Category>, o1: Operation, o2: Operation, from: int, to: int)
    requires o1.categoryId in categories && o2.categoryId in categories
    requires categories[o1.categoryId].name == categories[o2.categoryId].name
    requires o1.kind == INCOME && o2.kind == INCOME
    requires InPeriod(o1.date, from, to) && InPeriod(o2.date, from, to)
    ensures GroupOf([o1, o2], categories, from, to)
         == map[categories[o1.categoryId].name := CategoryTotals(o1.amount + o2.amount, 0.0)]
  {
    var name := categories[o1.categoryId].name;
    assert [o1, o2][..1] == [o1];
    assert [o1][..0] == [];
    assert GroupOf([o1], categories, from, to) == map[name := CategoryTotals(o1.amount, 0.0)];
  }

  /** The loop of GroupByCategory over a listing of operations. */
  method Group(ops: seq<Operation>, categories: map<string, Category>, from: int, to: int)
    returns (totals: map<string, CategoryTotals>)
    ensures totals == GroupOf(ops, categories, from, to)
  {
    totals := map[];
    for i := 0 to |ops|
      invariant totals == GroupOf(ops[..i], categories, from, to)
    {
      assert ops[..i + 1][..i] == ops[..i];
      var op := ops[i];
      if !InPeriod(op.date, from, to) {
        continue;
      }
      if op.categoryId !in categories {
        continue;
      }
      var category := categories[op.categoryId];
      var entry := if category.name in totals then totals[category.name] else NO_TOTALS;
      if op.kind == INCOME {
        entry := entry.(income := entry.income + op.amount);
      } else if op.kind == EXPENSE {
        entry := entry.(expense := entry.expense + op.amount);
      }
      totals := totals[category.name := entry];
    }
    assert ops[..|ops|] == ops;
  }

  /** Some served operation counts for the name. */
  ghost predicate GroupedIn(t: Tables, from: int, to: int, name: string) {
    exists k :: k in t.operations && Grouped(t.operations[k], t.categories, from, to, name)
  }

  class AnalyticsFacade {
    const repo: ProxyRepository

    constructor (repo: ProxyRepository)
      ensures this.repo == repo
    {
      this.repo := repo;
    }

    /** Difference: in-period income minus in-period expense; a bad period is refused
        before anything is read. */
    method Difference(from: int, to: int) returns (r: Result<real>)
      requires repo.Valid()
      modifies repo
      ensures repo.Valid() && repo.Untouched()
      ensures to < from ==> r == Err(Rejected(PeriodEndBeforeStart)) && unchanged(repo)
      ensures from <= to ==> (r.Ok? <==> repo.View().Ok?) && (r.Err? ==> r.error == repo.View().error)
      ensures from <= to && r.Ok? ==> r.value == Net(repo.View().value.operations, from, to)
    {
      var valid := ValidatePeriod(from, to);
      if valid.Fail? {
        return Err(valid.error);
      }
      var operations := repo.ListOperations();
      if operations.Err? {
        return Err(operations.error);
      }
      var ops := operations.value;
      SumOfEnumerates(ops, repo.View().value.operations, OperationId, IncomeIn(from, to));
      SumOfEnumerates(ops, repo.View().value.operations, OperationId, ExpenseIn(from, to));
      var income, expense := Totals(ops, from, to);
      r := Ok(income - expense);
    }

    /** GroupByCategory: per category name, the in-period income and expense of the
        operations whose category is served; a bad period is refused before any read. */
    method GroupByCategory(from: int, to: int) returns (r: Result<map<string, CategoryTotals>>)
      requires repo.Valid()
      modifies repo
      ensures repo.Valid() && repo.Untouched()
      ensures to < from ==> r == Err(Rejected(PeriodEndBeforeStart)) && unchanged(repo)
      ensures from <= to ==> (r.Ok? <==> repo.View().Ok?) && (r.Err? ==> r.error == repo.View().error)
      ensures from <= to && r.Ok? ==>
        (forall name :: name in r.value <==> GroupedIn(repo.View().value, from, to, name))
      ensures from <= to && r.Ok? ==>
        forall name :: name in r.value ==>
          r.value[name] == CategoryTotals(SumMap(repo.View().value.operations, IncomeFor(repo.View().value.categories, from, to, name)),
                                          SumMap(repo.View().value.operations, ExpenseFor(repo.View().value.categories, from, to, name)))
    {
      var valid := ValidatePeriod(from, to);
      if valid.Fail? {
        return Err(valid.error);
      }
      var operations := repo.ListOperations();
      if operations.Err? {
        return Err(operations.error);
      }
      var categories := repo.ListCategories();
      if categories.Err? {
        // The operations were just served from the same tables.
        assert false;
      }
      ghost var t := repo.View().value;
      var categoryMap := BuildIndex(categories.value, CategoryId);
      EnumeratesIndex(categories.value, t.categories, CategoryId);
      var ops := operations.value;
      var totals := Group(ops, categoryMap, from, to);
      forall name | true
        ensures name in totals <==> GroupedIn(t, from, to, name)
        ensures name in totals ==>
          totals[name] == CategoryTotals(SumMap(t.operations, IncomeFor(t.categories, from, to, name)),
                                         SumMap(t.operations, ExpenseFor(t.categories, from, to, name)))
      {
        GroupOfSums(ops, t.categories, from, to, name);
        EnumeratesSome(ops, t.operations, OperationId, (o: Operation) => Grouped(o, t.categories, from, to, name));
        SumOfEnumerates(ops, t.operations, OperationId, IncomeFor(t.categories, from, to, name));
        SumOfEnumerates(ops, t.operations, OperationId, ExpenseFor(t.categories, from, to, name));
      }
      r := Ok(totals);
    }
  }
}
