/**
 * OperationFacade: booking, editing and deleting operations, each kept in step with the
 * balance of the account it belongs to.
 */
module Operations {
  import opened Models
  import opened Keyed
  import opened FileStore
  import opened ProxyStore
  import opened Accounts
  import Factory

  /** ensureCategoryMatchesOperation on a fetched category: an income category admits only
      income, an expense category only expense, and any other category type nothing. */
  function CategoryAdmits(c: Category, kind: string): (r: Outcome)
    ensures r.Pass? <==> IsKnownType(c.kind) && kind == c.kind
    ensures c.kind == INCOME && kind != INCOME ==> r == Fail(Rejected(CategoryIsIncome(c.name, kind)))
    ensures c.kind == EXPENSE && kind != EXPENSE ==> r == Fail(Rejected(CategoryIsExpense(c.name, kind)))
    ensures !IsKnownType(c.kind) ==> r == Fail(Rejected(UnsupportedCategoryType(c.kind)))
  {
    if c.kind == INCOME then
      (if kind != INCOME then Fail(Rejected(CategoryIsIncome(c.name, kind))) else Pass)
    else if c.kind == EXPENSE then
      (if kind != EXPENSE then Fail(Rejected(CategoryIsExpense(c.name, kind))) else Pass)
    else Fail(Rejected(UnsupportedCategoryType(c.kind)))
  }

  /** ensureCategoryMatchesOperation: the category must be served and admit the type. */
  function Admission(view: Result<Tables>, categoryId: string, kind: string): Outcome {
    match ServeLookup(view, CategoryMap, categoryId, CategoryEntity)
    case Err(e) => Fail(e)
    case Ok(c) => CategoryAdmits(c, kind)
  }

  /** The balance after applying (or reverting) an operation; None for an unknown type. */
  function Shift(balance: real, o: Operation, apply: bool): (r: Option<real>)
    ensures r.Some? <==> IsKnownType(o.kind)
    ensures r.Some? && apply ==> r.value == balance + Signed(o)
    ensures r.Some? && !apply ==> r.value == balance - Signed(o)
  {
    var coef := if apply then 1.0 else -1.0;
    if o.kind == INCOME then Some(balance + coef * o.amount)
    else if o.kind == EXPENSE then Some(balance - coef * o.amount)
    else None
  }

  /** Reverting an operation undoes applying it, and the other way round. */
  lemma ShiftUndo(balance: real, o: Operation)
    requires IsKnownType(o.kind)
    ensures Shift(Shift(balance, o, true).value, o, false) == Some(balance)
    ensures Shift(Shift(balance, o, false).value, o, true) == Some(balance)
  {
  }

  /** applyOperationEffect on the served accounts: the account write it makes, or why it
      makes none (the account is not served, or the type is unknown). */
  function Effect(accounts: map<string, BankAccount>, o: Operation, apply: bool): (r: Result<Mutation>)
    ensures r.Ok? <==> o.accountId in accounts && IsKnownType(o.kind)
    ensures r.Ok? ==> r.value == Mutation.UpdateAccount(
      accounts[o.accountId].(balance := Shift(accounts[o.accountId].balance, o, apply).value))
    ensures o.accountId !in accounts ==> r == Err(NotFound(AccountEntity, o.accountId))
    ensures o.accountId in accounts && !IsKnownType(o.kind) ==> r == Err(Rejected(UnknownOperationType(o.kind)))
  {
    match FindKey(accounts, o.accountId, AccountEntity)
    case Err(e) => Err(e)
    case Ok(a) =>
      match Shift(a.balance, o, apply)
      case None => Err(Rejected(UnknownOperationType(o.kind)))
      case Some(b) => Ok(Mutation.UpdateAccount(a.(balance := b)))
  }

  /** The tables after the effect is written, or as they were when it cannot be. */
  function Settle(t: Tables, o: Operation, apply: bool): Tables {
    match Effect(t.accounts, o, apply)
    case Ok(m) => CacheWrite(t, m)
    case Err(_) => t
  }

  /** The checks AddOperation makes before writing: category, account, then the factory. */
  function AddCheck(view: Result<Tables>, kind: string, accountId: string, categoryId: string, amount: real,
                    date: int, description: string, newId: Result<string>): (r: Result<Operation>)
    ensures r.Ok? ==> view.Ok? && r.value.accountId in view.value.accounts && IsKnownType(r.value.kind)
  {
    match Admission(view, categoryId, kind)
    case Fail(e) => Err(e)
    case Pass =>
      match ServeLookup(view, AccountMap, accountId, AccountEntity)
      case Err(e) => Err(e)
      case Ok(_) => Factory.CreateOperation(kind, accountId, categoryId, amount, date, description, newId)
  }

  /** The tables after AddOperation books `o`: the operation is stored, then its effect. */
  function Booked(t: Tables, o: Operation): Tables {
    Settle(CacheWrite(t, Mutation.CreateOperation(o)), o, true)
  }

  /** The facts AddOperation's second write relies on. */
  lemma BookStep(t: Tables, o: Operation)
    requires KeyedTables(t) && o.accountId in t.accounts && IsKnownType(o.kind)
    ensures CacheWrite(t, Mutation.CreateOperation(o)).accounts == t.accounts
    ensures Effect(t.accounts, o, true).Ok?
    ensures Accepts(CacheWrite(t, Mutation.CreateOperation(o)), Effect(t.accounts, o, true).value) == Pass
    ensures Booked(t, o) == CacheWrite(CacheWrite(t, Mutation.CreateOperation(o)), Effect(t.accounts, o, true).value)
  {
  }

  /** The checks UpdateOperation makes before its first write; the stored operation. */
  function EditCheck(view: Result<Tables>, id: string, kind: string, accountId: string,
                     categoryId: string): (r: Result<Operation>)
    ensures r.Ok? ==> view.Ok? && id in view.value.operations && accountId in view.value.accounts
  {
    match ServeLookup(view, OperationMap, id, OperationEntity)
    case Err(e) => Err(e)
    case Ok(prev) =>
      match Admission(view, categoryId, kind)
      case Fail(e) => Err(e)
      case Pass =>
        match ServeLookup(view, AccountMap, accountId, AccountEntity)
        case Err(e) => Err(e)
        case Ok(_) => Ok(prev)
  }

  /** The tables after UpdateOperation replaces `prev` by `u`: revert, store, apply. */
  function Edited(t: Tables, prev: Operation, u: Operation): Tables {
    Settle(CacheWrite(Settle(t, prev, false), Mutation.UpdateOperation(u)), u, true)
  }

  /** The facts UpdateOperation's later writes rely on. */
  lemma EditStep(t: Tables, prev: Operation, u: Operation)
    requires Effect(t.accounts, prev, false).Ok?
    requires u.accountId in t.accounts && IsKnownType(u.kind) && u.id in t.operations
    ensures Settle(t, prev, false).operations == t.operations
    ensures Accepts(Settle(t, prev, false), Mutation.UpdateOperation(u)) == Pass
    ensures CacheWrite(Settle(t, prev, false), Mutation.UpdateOperation(u)).accounts == Settle(t, prev, false).accounts
    ensures Effect(Settle(t, prev, false).accounts, u, true).Ok?
  {
  }

  /** The tables after DeleteOperation removes `o`: remove, then revert. */
  function Dropped(t: Tables, o: Operation): Tables {
    Settle(CacheWrite(t, Mutation.DeleteOperation(o.id)), o, false)
  }

  /** Every served account's balance is what RecalculateBalance would derive. */
  ghost predicate Reconciled(t: Tables) {
    forall k :: k in t.accounts ==> t.accounts[k].balance == Recalculated(t.operations, k)
  }

  /** Booking an operation with a new ID keeps balances reconciled. */
  lemma BookedReconciled(t: Tables, o: Operation)
    requires KeyedTables(t) && Reconciled(t)
    requires o.id !in t.operations && Effect(t.accounts, o, true).Ok?
    ensures Reconciled(Booked(t, o))
  {
    var t' := Booked(t, o);
    forall k | k in t'.accounts
      ensures t'.accounts[k].balance == Recalculated(t'.operations, k)
    {
      RecalculatedAdd(t.operations, k, o);
    }
  }

  /** Deleting an operation, with its effect reverted, keeps balances reconciled. */
  lemma DroppedReconciled(t: Tables, o: Operation)
    requires KeyedTables(t) && Reconciled(t)
    requires o.id in t.operations && t.operations[o.id] == o && Effect(t.accounts, o, false).Ok?
    ensures Reconciled(Dropped(t, o))
  {
    var t' := Dropped(t, o);
    var rest := t.operations - {o.id};
    assert t.operations == rest[o.id := o];
    forall k | k in t'.accounts
      ensures t'.accounts[k].balance == Recalculated(t'.operations, k)
    {
      RecalculatedAdd(rest, k, o);
    }
  }

  /** An edit is a delete of the stored operation followed by booking its replacement. */
  lemma EditIsDropThenBook(t: Tables, prev: Operation, u: Operation)
    requires u.id == prev.id && prev.id in t.operations
    ensures Edited(t, prev, u) == Booked(Dropped(t, prev), u)
  {
    var t1 := Settle(t, prev, false);
    var d := CacheWrite(t, Mutation.DeleteOperation(prev.id));
    assert Settle(d, prev, false).accounts == t1.accounts;
    assert (t1.operations[u.id := u]) == (t.operations - {prev.id})[u.id := u];
  }

  /** Editing an operation keeps balances reconciled. */
  lemma EditedReconciled(t: Tables, prev: Operation, u: Operation)
    requires KeyedTables(t) && Reconciled(t)
    requires u.id == prev.id && prev.id in t.operations && t.operations[prev.id] == prev
    requires Effect(t.accounts, prev, false).Ok? && Effect(Settle(t, prev, false).accounts, u, true).Ok?
    ensures Reconciled(Edited(t, prev, u))
  {
    DroppedReconciled(t, prev);
    var d := Dropped(t, prev);
    assert d.accounts == Settle(t, prev, false).accounts;
    CacheWriteKeyed(t, Mutation.DeleteOperation(prev.id));
    CacheWriteKeyed(CacheWrite(t, Mutation.DeleteOperation(prev.id)), Effect(t.accounts, prev, false).value);
    BookedReconciled(d, u);
    EditIsDropThenBook(t, prev, u);
  }

  /** Deleting a freshly booked operation restores the tables exactly. */
  lemma BookThenDropRestores(t: Tables, o: Operation)
    requires KeyedTables(t)
    requires o.id !in t.operations && Effect(t.accounts, o, true).Ok?
    ensures Dropped(Booked(t, o), o) == t
  {
    var a := t.accounts[o.accountId];
    ShiftUndo(a.balance, o);
    assert t.operations[o.id := o] - {o.id} == t.operations;
    assert t.accounts[o.accountId := a] == t.accounts;
  }

  /** Where a run of facade steps over served tables stands: the outcome so far, what
      the file holds and what reads serve. */
  datatype Run = Run(outcome: Outcome, disk: Disk, tables: Tables)

  /** A run that has done nothing yet, from what callers observe. */
  function Start(s: Observed): Run
    requires s.view.Ok?
  {
    Run(Pass, s.disk, s.view.value)
  }

  /** One more step of a run. Once a step failed nothing more happens. A refused check
      stops the run with its error. A write goes to the file first; when the file takes
      it the served tables absorb it, otherwise the run stops with the file's error. */
  function Then(run: Run, writable: bool, step: Result<Mutation>): (r: Run)
    ensures run.outcome.Fail? ==> r == run
    ensures r.outcome.Pass? <==> run.outcome.Pass? && step.Ok? && Commit(run.disk, writable, step.value).0.Pass?
    ensures r.outcome.Pass? ==> Decode(r.disk) == Mutate(Decode(run.disk).value, step.value)
                                && r.tables == CacheWrite(run.tables, step.value)
    ensures r.outcome.Fail? ==> r.disk == run.disk && r.tables == run.tables
    ensures run.outcome.Pass? && step.Err? ==> r.outcome == Fail(step.error)
  {
    if run.outcome.Fail? then run
    else
      match step
      case Err(e) => run.(outcome := Fail(e))
      case Ok(m) =>
        var (c, d) := Commit(run.disk, writable, m);
        if c.Fail? then run.(outcome := c) else Run(Pass, d, CacheWrite(run.tables, m))
  }

  /** applyOperationEffect as a step: the account write worked out on the tables served
      at that point. */
  function ThenEffect(run: Run, writable: bool, o: Operation, apply: bool): Run {
    Then(run, writable, Effect(run.tables.accounts, o, apply))
  }

  /** AddOperation's writes: store the operation, then apply its effect. */
  function Booking(s: Observed, o: Operation): Run
    requires s.view.Ok?
  {
    ThenEffect(Then(Start(s), s.writable, Ok(Mutation.CreateOperation(o))), s.writable, o, true)
  }

  /** UpdateOperation's steps once the lookups passed: revert the old effect, let the
      factory check the new values, store the edited operation under the old ID, apply
      its effect. */
  function Editing(s: Observed, prev: Operation, made: Result<Operation>, id: string): Run
    requires s.view.Ok?
  {
    var reverted := ThenEffect(Start(s), s.writable, prev, false);
    match made
    case Err(e) => Then(reverted, s.writable, Err(e))
    case Ok(o) =>
      var u := o.(id := id);
      ThenEffect(Then(reverted, s.writable, Ok(Mutation.UpdateOperation(u))), s.writable, u, true)
  }

  /** DeleteOperation's writes: remove the operation, then revert its effect. */
  function Dropping(s: Observed, o: Operation): Run
    requires s.view.Ok?
  {
    ThenEffect(Then(Start(s), s.writable, Ok(Mutation.DeleteOperation(o.id))), s.writable, o, false)
  }

  /** A booking that runs to the end leaves the tables Booked; one whose effect write the
      file refuses leaves the operation stored and every balance as it was. */
  lemma BookingOrder(s: Observed, o: Operation)
    requires s.view.Ok?
    ensures Booking(s, o).outcome.Pass? ==> Booking(s, o).tables == Booked(s.view.value, o)
    ensures var stored := Commit(s.disk, s.writable, Mutation.CreateOperation(o));
      stored.0.Pass? && Booking(s, o).outcome.Fail? ==>
        && Booking(s, o).disk == stored.1
        && Booking(s, o).tables.operations == s.view.value.operations[o.id := o]
        && Booking(s, o).tables.accounts == s.view.value.accounts
  {
  }

  /** An edit that runs to the end leaves the tables Edited; one the factory refuses
      leaves the old effect reverted and the operation as it was. */
  lemma EditingOrder(s: Observed, prev: Operation, made: Result<Operation>, id: string)
    requires s.view.Ok?
    ensures Editing(s, prev, made, id).outcome.Pass? ==>
      made.Ok? && Editing(s, prev, made, id).tables == Edited(s.view.value, prev, made.value.(id := id))
    ensures made.Err? ==>
      var reverted := ThenEffect(Start(s), s.writable, prev, false);
      && Editing(s, prev, made, id).outcome.Fail?
      && Editing(s, prev, made, id).disk == reverted.disk
      && Editing(s, prev, made, id).tables == if reverted.outcome.Pass? then Settle(s.view.value, prev, false) else s.view.value
  {
  }

  /** A delete that runs to the end leaves the tables Dropped; one whose revert the file
      refuses leaves the operation removed and every balance as it was. */
  lemma DroppingOrder(s: Observed, o: Operation)
    requires s.view.Ok?
    ensures Dropping(s, o).outcome.Pass? ==> Dropping(s, o).tables == Dropped(s.view.value, o)
    ensures var removed := Commit(s.disk, s.writable, Mutation.DeleteOperation(o.id));
      removed.0.Pass? && Dropping(s, o).outcome.Fail? ==>
        && Dropping(s, o).disk == removed.1
        && Dropping(s, o).tables.operations == s.view.value.operations - {o.id}
        && Dropping(s, o).tables.accounts == s.view.value.accounts
  {
  }

  /** The proxy ended where the run did, with the same writability it started with. */
  ghost predicate Lands(repo: ProxyRepository, run: Run, writable: bool)
    reads repo, repo.base
  {
    repo.base.disk == run.disk && repo.base.writable == writable && repo.View() == Ok(run.tables)
  }

  /** A proxy write observed from tables a run has reached is one more step of that run. */
  lemma AfterIsThen(repo: ProxyRepository, run: Run, s: Observed, m: Mutation, r: Outcome)
    requires run.outcome.Pass? && s.view == Ok(run.tables) && s.disk == run.disk
    requires repo.After(s, m, r)
    ensures Lands(repo, Then(run, s.writable, Ok(m)), s.writable) && r == Then(run, s.writable, Ok(m)).outcome
  {
  }

  class OperationFacade {
    const repo: ProxyRepository

    constructor (repo: ProxyRepository)
      ensures this.repo == repo
    {
      this.repo := repo;
    }

    /** ensureCategoryMatchesOperation. */
    method EnsureCategoryMatches(categoryId: string, kind: string) returns (r: Outcome)
      requires repo.Valid()
      modifies repo
      ensures repo.Valid() && repo.Untouched()
      ensures old(repo.Coherent()) ==> repo.Coherent()
      ensures r == Admission(repo.View(), categoryId, kind)
    {
      var category := repo.GetCategory(categoryId);
      if category.Err? {
        return Fail(category.error);
      }
      var c := category.value;
      if c.kind == INCOME {
        if kind != INCOME {
          return Fail(Rejected(CategoryIsIncome(c.name, kind)));
        }
      } else if c.kind == EXPENSE {
        if kind != EXPENSE {
          return Fail(Rejected(CategoryIsExpense(c.name, kind)));
        }
      } else {
        return Fail(Rejected(UnsupportedCategoryType(c.kind)));
      }
      r := Pass;
    }

    /** applyOperationEffect: the account's balance moves by the signed amount (against it
        when reverting) and is written back; an unknown type writes nothing. */
    method ApplyEffect(o: Operation, apply: bool) returns (r: Outcome)
      requires repo.Valid()
      modifies repo, repo.base
      ensures repo.Valid()
      ensures old(repo.View()).Err? ==> r == Fail(old(repo.View()).error) && repo.Untouched()
      ensures old(repo.View()).Ok? && Effect(old(repo.View()).value.accounts, o, apply).Err? ==>
        r == Fail(Effect(old(repo.View()).value.accounts, o, apply).error) && repo.Untouched()
      ensures old(repo.View()).Ok? && Effect(old(repo.View()).value.accounts, o, apply).Ok? ==>
        repo.Applied(Effect(old(repo.View()).value.accounts, o, apply).value, r)
      ensures old(repo.InStep()) && Effect(old(repo.View()).value.accounts, o, apply).Ok? ==> r == Pass
      ensures old(repo.Healthy()) ==> repo.Healthy()
      ensures old(repo.View()).Ok? ==>
        var done := ThenEffect(Start(old(repo.Now())), old(repo.base.writable), o, apply);
        Lands(repo, done, old(repo.base.writable)) && r == done.outcome
    {
      repo.ViewKeyed();
      var account := repo.GetAccount(o.accountId);
      if account.Err? {
        return Fail(account.error);
      }
      ghost var accounts := repo.View().value.accounts;
      assert account.value == accounts[o.accountId];
      var coef := if apply then 1.0 else -1.0;
      var balance := account.value.balance;
      if o.kind == INCOME {
        balance := balance + coef * o.amount;
      } else if o.kind == EXPENSE {
        balance := balance - coef * o.amount;
      } else {
        return Fail(Rejected(UnknownOperationType(o.kind)));
      }
      assert Shift(account.value.balance, o, apply) == Some(balance);
      ghost var m := Mutation.UpdateAccount(account.value.(balance := balance));
      assert FindKey(accounts, o.accountId, AccountEntity) == Ok(account.value);
      assert Effect(accounts, o, apply) == Ok(m);
      ghost var s := repo.Now();
      r := repo.UpdateAccount(account.value.(balance := balance));
      AfterIsThen(repo, Start(s), s, m, r);
    }
  
    /** AddOperation: the category and the account are checked and the factory builds the
        operation before anything is written; then the operation is stored and its effect
        applied to the account, in that order. */
    method AddOperation(kind: string, accountId: string, categoryId: string, amount: real, date: int,
                        description: string, newId: Result<string>) returns (r: Result<Operation>)
      requires repo.Valid()
      modifies repo, repo.base
      ensures repo.Valid()
      ensures AddCheck(old(repo.View()), kind, accountId, categoryId, amount, date, description, newId).Err? ==>
        r == AddCheck(old(repo.View()), kind, accountId, categoryId, amount, date, description, newId)
        && repo.Untouched()
      ensures r.Ok? ==>
        && AddCheck(old(repo.View()), kind, accountId, categoryId, amount, date, description, newId) == r
        && repo.View() == Ok(Booked(old(repo.View()).value, r.value))
      ensures old(repo.Healthy())
              && AddCheck(old(repo.View()), kind, accountId, categoryId, amount, date, description, newId).Ok? ==>
        var o := AddCheck(old(repo.View()), kind, accountId, categoryId, amount, date, description, newId).value;
        r == Ok(o) && (o.id !in old(repo.View()).value.operations ==> repo.Healthy())
      ensures AddCheck(old(repo.View()), kind, accountId, categoryId, amount, date, description, newId).Ok? ==>
        var o := AddCheck(old(repo.View()), kind, accountId, categoryId, amount, date, description, newId).value;
        var done := Booking(old(repo.Now()), o);
        && Lands(repo, done, old(repo.base.writable))
        && r == (if done.outcome.Pass? then Ok(o) else Err(done.outcome.error))
    {
      ghost var s0 := repo.Now();
      ghost var healthy := repo.Healthy();
      var admitted := EnsureCategoryMatches(categoryId, kind);
      if admitted.Fail? {
        return Err(admitted.error);
      }
      ghost var t := repo.View().value;
      var account := repo.GetAccount(accountId);
      if account.Err? {
        return Err(account.error);
      }
      assert accountId in t.accounts;
      var operation := Factory.CreateOperation(kind, accountId, categoryId, amount, date, description, newId);
      if operation.Err? {
        return operation;
      }
      ghost var isNew := healthy && operation.value.id !in t.operations;
      repo.ViewKeyed();
      assert healthy ==> repo.Healthy();
      assert isNew ==> Fresh(repo.View().value, Mutation.CreateOperation(operation.value));
      ghost var s := repo.Now();
      assert s == s0;
      ghost var m1 := Mutation.CreateOperation(operation.value);
      var o := repo.CreateOperation(operation.value);
      AfterIsThen(repo, Start(s0), s, m1, o);
      assert healthy ==> o == Pass && repo.InStep();
      assert isNew ==> repo.Healthy();
      if o.Fail? {
        return Err(o.error);
      }
      ghost var t1 := CacheWrite(t, Mutation.CreateOperation(operation.value));
      assert repo.View() == Ok(t1);
      assert Start(repo.Now()) == Then(Start(s0), s0.writable, Ok(m1));
      BookStep(t, operation.value);
      o := ApplyEffect(operation.value, true);
      assert healthy ==> o == Pass;
      assert isNew ==> repo.Healthy();
      if o.Fail? {
        return Err(o.error);
      }
      r := operation;
    }

    /** UpdateOperation: the stored operation, the category and the account are checked;
        then the old effect is reverted and written before the factory validates the new
        values, so a refused edit leaves that revert in place. The edited operation keeps
        its ID, is stored, and its effect applied. */
    method UpdateOperation(id: string, kind: string, accountId: string, categoryId: string, amount: real,
                           date: int, description: string, newId: Result<string>) returns (r: Outcome)
      requires repo.Valid()
      modifies repo, repo.base
      ensures repo.Valid()
      ensures EditCheck(old(repo.View()), id, kind, accountId, categoryId).Err? ==>
        r == Fail(EditCheck(old(repo.View()), id, kind, accountId, categoryId).error) && repo.Untouched()
      ensures EditCheck(old(repo.View()), id, kind, accountId, categoryId).Ok? ==>
        var prev := EditCheck(old(repo.View()), id, kind, accountId, categoryId).value;
        Effect(old(repo.View()).value.accounts, prev, false).Err? ==>
          r == Fail(Effect(old(repo.View()).value.accounts, prev, false).error) && repo.Untouched()
      ensures r.Pass? ==>
        && EditCheck(old(repo.View()), id, kind, accountId, categoryId).Ok?
        && Factory.CreateOperation(kind, accountId, categoryId, amount, date, description, newId).Ok?
        && repo.View() == Ok(Edited(old(repo.View()).value,
                                    EditCheck(old(repo.View()), id, kind, accountId, categoryId).value,
                                    Factory.CreateOperation(kind, accountId, categoryId, amount, date, description, newId).value.(id := id)))
      ensures old(repo.Healthy()) && EditCheck(old(repo.View()), id, kind, accountId, categoryId).Ok? ==>
        var prev := EditCheck(old(repo.View()), id, kind, accountId, categoryId).value;
        var made := Factory.CreateOperation(kind, accountId, categoryId, amount, date, description, newId);
        Effect(old(repo.View()).value.accounts, prev, false).Ok? ==>
          && repo.Healthy()
          && (made.Ok? ==> r == Pass)
          && (made.Err? ==> r == Fail(made.error) && repo.View() == Ok(Settle(old(repo.View()).value, prev, false)))
      ensures EditCheck(old(repo.View()), id, kind, accountId, categoryId).Ok? ==>
        var prev := EditCheck(old(repo.View()), id, kind, accountId, categoryId).value;
        var made := Factory.CreateOperation(kind, accountId, categoryId, amount, date, description, newId);
        var done := Editing(old(repo.Now()), prev, made, id);
        Lands(repo, done, old(repo.base.writable)) && r == done.outcome
    {
      ghost var s0 := repo.Now();
      ghost var healthy := repo.Healthy();
      repo.ViewKeyed();
      var prev := repo.GetOperation(id);
      if prev.Err? {
        return Fail(prev.error);
      }
      ghost var t := repo.View().value;
      var admitted := EnsureCategoryMatches(categoryId, kind);
      if admitted.Fail? {
        return admitted;
      }
      var account := repo.GetAccount(accountId);
      if account.Err? {
        return Fail(account.error);
      }
      assert EditCheck(Ok(t), id, kind, accountId, categoryId) == Ok(prev.value);
      assert repo.Now() == s0;
      r := ApplyEffect(prev.value, false);
      ghost var reverted := ThenEffect(Start(s0), s0.writable, prev.value, false);
      if r.Fail? {
        return;
      }
      assert Start(repo.Now()) == reverted;
      ghost var t1 := Settle(t, prev.value, false);
      assert repo.View() == Ok(t1);
      assert healthy ==> repo.Healthy();
      var operation := Factory.CreateOperation(kind, accountId, categoryId, amount, date, description, newId);
      if operation.Err? {
        return Fail(operation.error);
      }
      var updated := operation.value.(id := id);
      assert id in t.operations;
      EditStep(t, prev.value, updated);
      ghost var pre := repo.View();
      assert healthy ==> repo.Healthy();
      assert Fresh(pre.value, Mutation.UpdateOperation(updated));
      ghost var s1 := repo.Now();
      r := repo.UpdateOperation(updated);
      AfterIsThen(repo, reverted, s1, Mutation.UpdateOperation(updated), r);
      assert healthy ==> r == Pass;
      assert healthy ==> repo.Healthy();
      if r.Fail? {
        return;
      }
      assert repo.View() == Ok(CacheWrite(t1, Mutation.UpdateOperation(updated)));
      assert Start(repo.Now()) == Then(reverted, s0.writable, Ok(Mutation.UpdateOperation(updated)));
      r := ApplyEffect(updated, true);
    }

    /** DeleteOperation: a missing operation fails before any write; otherwise the
        operation is deleted and then its effect reverted. */
    method DeleteOperation(id: string) returns (r: Outcome)
      requires repo.Valid()
      modifies repo, repo.base
      ensures repo.Valid()
      ensures ServeLookup(old(repo.View()), OperationMap, id, OperationEntity).Err? ==>
        r == Fail(ServeLookup(old(repo.View()), OperationMap, id, OperationEntity).error) && repo.Untouched()
      ensures r.Pass? ==>
        && ServeLookup(old(repo.View()), OperationMap, id, OperationEntity).Ok?
        && repo.View() == Ok(Dropped(old(repo.View()).value, old(repo.View()).value.operations[id]))
      ensures old(repo.Healthy()) && id in old(repo.View()).value.operations ==>
        var t := old(repo.View()).value;
        && repo.Healthy()
        && (Effect(t.accounts, t.operations[id], false).Ok? ==> r == Pass)
        && (Effect(t.accounts, t.operations[id], false).Err? ==>
              r == Fail(Effect(t.accounts, t.operations[id], false).error)
              && repo.View() == Ok(CacheWrite(t, Mutation.DeleteOperation(id))))
      ensures ServeLookup(old(repo.View()), OperationMap, id, OperationEntity).Ok? ==>
        var done := Dropping(old(repo.Now()), old(repo.View()).value.operations[id]);
        Lands(repo, done, old(repo.base.writable)) && r == done.outcome
    {
      ghost var s0 := repo.Now();
      repo.ViewKeyed();
      var operation := repo.GetOperation(id);
      if operation.Err? {
        return Fail(operation.error);
      }
      ghost var s := repo.Now();
      assert s == s0;
      r := repo.DeleteOperation(id);
      AfterIsThen(repo, Start(s0), s, Mutation.DeleteOperation(id), r);
      if r.Fail? {
        return;
      }
      assert Start(repo.Now()) == Then(Start(s0), s0.writable, Ok(Mutation.DeleteOperation(operation.value.id)));
      r := ApplyEffect(operation.value, false);
    }

    /** ListOperations: the repository's listing as is. */
    method ListOperations() returns (r: Result<seq<Operation>>)
      requires repo.Valid()
      modifies repo
      ensures repo.Valid() && repo.Untouched()
      ensures r.Ok? <==> repo.View().Ok?
      ensures r.Ok? ==> Enumerates(r.value, repo.View().value.operations, OperationId)
      ensures r.Err? ==> r.error == repo.View().error
    {
      r := repo.ListOperations();
    }
  }
}
