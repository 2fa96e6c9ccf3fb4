/**
 * CategoryFacade: category use cases over the proxy repository.
 */
module Categories {
  import opened Models
  import opened Keyed
  import opened FileStore
  import opened ProxyStore
  import Factory

  function CategoryRef(o: Operation): string { o.categoryId }

  class CategoryFacade {
    const repo: ProxyRepository

    constructor (repo: ProxyRepository)
      ensures this.repo == repo
    {
      this.repo := repo;
    }

    /** CreateCategory: a factory refusal writes nothing; otherwise the new category is
        written through and returned when the write passes. */
    method CreateCategory(name: string, kind: string, newId: Result<string>) returns (r: Result<Category>)
      requires repo.Valid()
      modifies repo, repo.base
      ensures repo.Valid()
      ensures Factory.CreateCategory(name, kind, newId).Err? ==>
        r == Factory.CreateCategory(name, kind, newId) && repo.Untouched()
      ensures Factory.CreateCategory(name, kind, newId).Ok? ==>
        var c := Factory.CreateCategory(name, kind, newId).value;
        repo.Applied(Mutation.CreateCategory(c), if r.Ok? then Pass else Fail(r.error))
        && (r.Ok? ==> r.value == c)
    {
      var category := Factory.CreateCategory(name, kind, newId);
      if category.Err? {
        return category;
      }
      var o := repo.CreateCategory(category.value);
      if o.Fail? {
        return Err(o.error);
      }
      r := category;
    }

    /** UpdateCategoryName: the empty name is refused before the lookup; a missing category
        is reported with nothing written; the write changes the name and nothing else. */
    method UpdateCategoryName(id: string, newName: string) returns (r: Outcome)
      requires repo.Valid()
      modifies repo, repo.base
      ensures repo.Valid()
      ensures newName == [] ==> r == Fail(Rejected(CategoryNameEmpty)) && unchanged(repo, repo.base)
      ensures newName != [] && ServeLookup(old(repo.View()), CategoryMap, id, CategoryEntity).Err? ==>
        r == Fail(ServeLookup(old(repo.View()), CategoryMap, id, CategoryEntity).error) && repo.Untouched()
      ensures newName != [] && ServeLookup(old(repo.View()), CategoryMap, id, CategoryEntity).Ok? ==>
        var c := ServeLookup(old(repo.View()), CategoryMap, id, CategoryEntity).value;
        repo.Applied(Mutation.UpdateCategory(c.(name := newName)), r)
      ensures old(repo.Healthy()) && id in old(repo.View()).value.categories && newName != [] ==>
        r == Pass && repo.Healthy()
    {
      if newName == "" {
        return Fail(Rejected(CategoryNameEmpty));
      }
      var category := repo.GetCategory(id);
      if category.Err? {
        return Fail(category.error);
      }
      r := repo.UpdateCategory(category.value.(name := newName));
    }

    /** DeleteCategory: refused, with nothing written, while any operation links to the
        category; otherwise the delete goes through the repository. */
    method DeleteCategory(id: string) returns (r: Outcome)
      requires repo.Valid()
      modifies repo, repo.base
      ensures repo.Valid()
      ensures old(repo.View()).Err? ==> r == Fail(old(repo.View()).error) && repo.Untouched()
      ensures old(repo.View()).Ok? && Referenced(old(repo.View()).value.operations, CategoryRef, id) ==>
        r == Fail(Rejected(CategoryHasOperations)) && repo.Untouched()
      ensures old(repo.View()).Ok? && !Referenced(old(repo.View()).value.operations, CategoryRef, id) ==>
        repo.Applied(Mutation.DeleteCategory(id), r)
    {
      var operations := repo.ListOperations();
      if operations.Err? {
        return Fail(operations.error);
      }
      var ops := operations.value;
      EnumeratesReferenced(ops, repo.View().value.operations, OperationId, CategoryRef, id);
      for i := 0 to |ops|
        invariant forall j :: 0 <= j < i ==> ops[j].categoryId != id
      {
        if ops[i].categoryId == id {
          assert CategoryRef(ops[i]) == id;
          return Fail(Rejected(CategoryHasOperations));
        }
      }
      r := repo.DeleteCategory(id);
    }

    /** ListCategories: the repository's listing as is. */
    method ListCategories() returns (r: Result<seq<Category>>)
      requires repo.Valid()
      modifies repo
      ensures repo.Valid() && repo.Untouched()
      ensures r.Ok? <==> repo.View().Ok?
      ensures r.Ok? ==> Enumerates(r.value, repo.View().value.categories, CategoryId)
      ensures r.Err? ==> r.error == repo.View().error
    {
      r := repo.ListCategories();
    }
  }
}
