/**
 * AccountFacade: account use cases over the proxy repository.
 */
module Accounts {
  import opened Models
  import opened Keyed
  import opened FileStore
  import opened ProxyStore
  import Factory

  function AccountRef(o: Operation): string { o.accountId }

  /** What one operation adds to the recomputed balance of account `id`. */
  function ShareOf(id: string): Operation -> real {
    (o: Operation) => if o.accountId == id then Signed(o) else 0.0
  }

  /** The balance RecalculateBalance derives for account `id` from the operations the
      repository serves, independent of their order. */
  ghost function Recalculated(ops: map<string, Operation>, id: string): real {
    SumMap(ops, ShareOf(id))
  }

  /** An operation of another account does not move the recomputed balance, and one of
      this account moves it by its signed amount. */
  lemma RecalculatedAdd(ops: map<string, Operation>, id: string, o: Operation)
    requires o.id !in ops
    ensures Recalculated(ops[o.id := o], id)
         == Recalculated(ops, id) + (if o.accountId == id then Signed(o) else 0.0)
  {
    SumMapUpdate(ops, ShareOf(id), o.id, o);
  }

  /** The accumulation loop of RecalculateBalance over a listing of operations. */
  method Rebalance(ops: seq<Operation>, id: string) returns (balance: real)
    ensures balance == SumOf(ops, ShareOf(id))
  {
    balance := 0.0;
    for i := 0 to |ops|
      invariant balance == SumOf(ops[..i], ShareOf(id))
    {
      assert ops[..i + 1] == ops[..i] + [ops[i]];
      SumOfAppend(ops[..i], ShareOf(id), ops[i]);
      if ops[i].accountId != id {
        continue;
      }
      if ops[i].kind == INCOME {
        balance := balance + ops[i].amount;
      } else if ops[i].kind == EXPENSE {
        balance := balance - ops[i].amount;
      }
    }
    assert ops[..|ops|] == ops;
  }

  class AccountFacade {
    const repo: ProxyRepository

    constructor (repo: ProxyRepository)
      ensures this.repo == repo
    {
      this.repo := repo;
    }

    /** CreateAccount: a factory refusal writes nothing; otherwise the new account is
        written through and returned when the write passes. */
    method CreateAccount(name: string, initialBalance: real, newId: Result<string>) returns (r: Result<BankAccount>)
      requires repo.Valid()
      modifies repo, repo.base
      ensures repo.Valid()
      ensures Factory.CreateBankAccount(name, initialBalance, newId).Err? ==>
        r == Factory.CreateBankAccount(name, initialBalance, newId) && repo.Untouched()
      ensures Factory.CreateBankAccount(name, initialBalance, newId).Ok? ==>
        var a := Factory.CreateBankAccount(name, initialBalance, newId).value;
        repo.Applied(Mutation.CreateAccount(a), if r.Ok? then Pass else Fail(r.error))
        && (r.Ok? ==> r.value == a)
    {
      var account := Factory.CreateBankAccount(name, initialBalance, newId);
      if account.Err? {
        return account;
      }
      var o := repo.CreateAccount(account.value);
      if o.Fail? {
        return Err(o.error);
      }
      r := account;
    }

    /** UpdateAccountName: a missing account is reported first; then only the exact empty
        name is refused; the write changes the name and nothing else. */
    method UpdateAccountName(id: string, newName: string) returns (r: Outcome)
      requires repo.Valid()
      modifies repo, repo.base
      ensures repo.Valid()
      ensures ServeLookup(old(repo.View()), AccountMap, id, AccountEntity).Err? ==>
        r == Fail(ServeLookup(old(repo.View()), AccountMap, id, AccountEntity).error) && repo.Untouched()
      ensures ServeLookup(old(repo.View()), AccountMap, id, AccountEntity).Ok? && newName == [] ==>
        r == Fail(Rejected(AccountNameEmpty)) && repo.Untouched()
      ensures ServeLookup(old(repo.View()), AccountMap, id, AccountEntity).Ok? && newName != [] ==>
        var a := ServeLookup(old(repo.View()), AccountMap, id, AccountEntity).value;
        repo.Applied(Mutation.UpdateAccount(a.(name := newName)), r)
      ensures old(repo.Healthy()) && id in old(repo.View()).value.accounts && newName != [] ==>
        r == Pass && repo.Healthy()
    {
      var account := repo.GetAccount(id);
      if account.Err? {
        return Fail(account.error);
      }
      if newName == "" {
        return Fail(Rejected(AccountNameEmpty));
      }
      r := repo.UpdateAccount(account.value.(name := newName));
    }

    /** DeleteAccount: refused, with nothing written, while any operation references the
        account; otherwise the delete goes through the repository. */
    method DeleteAccount(id: string) returns (r: Outcome)
      requires repo.Valid()
      modifies repo, repo.base
      ensures repo.Valid()
      ensures old(repo.View()).Err? ==> r == Fail(old(repo.View()).error) && repo.Untouched()
      ensures old(repo.View()).Ok? && Referenced(old(repo.View()).value.operations, AccountRef, id) ==>
        r == Fail(Rejected(AccountHasOperations)) && repo.Untouched()
      ensures old(repo.View()).Ok? && !Referenced(old(repo.View()).value.operations, AccountRef, id) ==>
        repo.Applied(Mutation.DeleteAccount(id), r)
    {
      var operations := repo.ListOperations();
      if operations.Err? {
        return Fail(operations.error);
      }
      var ops := operations.value;
      EnumeratesReferenced(ops, repo.View().value.operations, OperationId, AccountRef, id);
      for i := 0 to |ops|
        invariant forall j :: 0 <= j < i ==> ops[j].accountId != id
      {
        if ops[i].accountId == id {
          assert AccountRef(ops[i]) == id;
          return Fail(Rejected(AccountHasOperations));
        }
      }
      r := repo.DeleteAccount(id);
    }

    /** ListAccounts: the repository's listing as is. */
    method ListAccounts() returns (r: Result<seq<BankAccount>>)
      requires repo.Valid()
      modifies repo
      ensures repo.Valid() && repo.Untouched()
      ensures r.Ok? <==> repo.View().Ok?
      ensures r.Ok? ==> Enumerates(r.value, repo.View().value.accounts, AccountId)
      ensures r.Err? ==> r.error == repo.View().error
    {
      r := repo.ListAccounts();
    }

    /** RecalculateBalance: the account's balance becomes the sum of its income amounts
        minus its expense amounts, from zero; nothing else about the account changes. */
    method RecalculateBalance(id: string) returns (r: Outcome)
      requires repo.Valid()
      modifies repo, repo.base
      ensures repo.Valid()
      ensures ServeLookup(old(repo.View()), AccountMap, id, AccountEntity).Err? ==>
        r == Fail(ServeLookup(old(repo.View()), AccountMap, id, AccountEntity).error) && repo.Untouched()
      ensures ServeLookup(old(repo.View()), AccountMap, id, AccountEntity).Ok? ==>
        var t := old(repo.View()).value;
        repo.Applied(Mutation.UpdateAccount(t.accounts[id].(balance := Recalculated(t.operations, id))), r)
      ensures old(repo.Healthy()) && id in old(repo.View()).value.accounts ==> r == Pass && repo.Healthy()
    {
      var account := repo.GetAccount(id);
      if account.Err? {
        return Fail(account.error);
      }
      var operations := repo.ListOperations();
      if operations.Err? {
        // The account was just served from the same tables, so the listing cannot fail.
        assert false;
      }
      var ops := operations.value;
      SumOfEnumerates(ops, repo.View().value.operations, OperationId, ShareOf(id));
      var balance := Rebalance(ops, id);
      ghost var t := repo.View().value;
      var updated := account.value.(balance := balance);
      assert updated == t.accounts[id].(balance := Recalculated(t.operations, id));
      assert old(repo.View()) == repo.View();
      r := repo.UpdateAccount(updated);
    }
  }
}
