/**
 * The durable store: one file holding the whole snapshot. Every read loads the whole
 * snapshot; every write loads it, changes one collection, and saves it back.
 */
module FileStore {
  import opened Models
  import opened Keyed

  /** What the storage file holds. `Unreadable`: it exists but cannot be opened;
      `Garbled`: it can be read but does not decode as a snapshot. */
  datatype Disk = Absent | Blank | Holds(data: StorageData) | Unreadable | Garbled

  /** The snapshot a load of `disk` yields: a missing or empty file is the empty snapshot,
      any other open or decode failure is an error. */
  function Decode(disk: Disk): (r: Result<StorageData>)
    ensures r.Err? <==> disk.Unreadable? || disk.Garbled?
    ensures disk.Unreadable? ==> r == Err(OpenFailed)
    ensures disk.Garbled? ==> r == Err(DecodeFailed)
    ensures r.Ok? ==> r.value == if disk.Holds? then disk.data else EMPTY
  {
    match disk
    case Absent => Ok(EMPTY)
    case Blank => Ok(EMPTY)
    case Holds(data) => Ok(data)
    case Unreadable => Err(OpenFailed)
    case Garbled => Err(DecodeFailed)
  }

  /** One single-entity write, as the repository's Create*, Update* and Delete* receive it. */
  datatype Mutation =
    | CreateAccount(account: BankAccount)
    | UpdateAccount(account: BankAccount)
    | DeleteAccount(id: string)
    | CreateCategory(category: Category)
    | UpdateCategory(category: Category)
    | DeleteCategory(id: string)
    | CreateOperation(operation: Operation)
    | UpdateOperation(operation: Operation)
    | DeleteOperation(id: string)

  /** Update of the first entry keyed like `x`, or NotFound. */
  function UpdateIn<T>(s: seq<T>, key: T -> string, x: T, entity: Entity): (r: Result<seq<T>>)
    ensures r.Ok? <==> HasKey(s, key, key(x))
    ensures r.Ok? ==> r.value == ReplaceFirst(s, key, x)
    ensures r.Err? ==> r.error == NotFound(entity, key(x))
  {
    FirstIndexFound(s, key, key(x));
    if FirstIndex(s, key, key(x)) < |s| then Ok(ReplaceFirst(s, key, x)) else Err(NotFound(entity, key(x)))
  }

  /** Removal of the first entry keyed `id`, or NotFound. */
  function DeleteIn<T>(s: seq<T>, key: T -> string, id: string, entity: Entity): (r: Result<seq<T>>)
    ensures r.Ok? <==> HasKey(s, key, id)
    ensures r.Ok? ==> r.value == RemoveFirst(s, key, id) && |r.value| == |s| - 1
    ensures r.Err? ==> r.error == NotFound(entity, id)
  {
    FirstIndexFound(s, key, id);
    if FirstIndex(s, key, id) < |s| then Ok(RemoveFirst(s, key, id)) else Err(NotFound(entity, id))
  }

  /** The change a mutation makes to a loaded snapshot: a create appends without any
      duplicate check, an update or delete acts on the first entry with the ID. Only the
      addressed collection changes. */
  function Mutate(d: StorageData, m: Mutation): (r: Result<StorageData>)
    ensures (m.CreateAccount? || m.CreateCategory? || m.CreateOperation?) ==> r.Ok?
    ensures r.Ok? && m.CreateAccount? ==> r.value.accounts == d.accounts + [m.account]
    ensures r.Ok? && m.CreateCategory? ==> r.value.categories == d.categories + [m.category]
    ensures r.Ok? && m.CreateOperation? ==> r.value.operations == d.operations + [m.operation]
    ensures r.Ok? && !(m.CreateAccount? || m.UpdateAccount? || m.DeleteAccount?) ==> r.value.accounts == d.accounts
    ensures r.Ok? && !(m.CreateCategory? || m.UpdateCategory? || m.DeleteCategory?) ==> r.value.categories == d.categories
    ensures r.Ok? && !(m.CreateOperation? || m.UpdateOperation? || m.DeleteOperation?) ==> r.value.operations == d.operations
  {
    match m
    case CreateAccount(a) => Ok(d.(accounts := d.accounts + [a]))
    case UpdateAccount(a) =>
      var s :- UpdateIn(d.accounts, AccountId, a, AccountEntity); Ok(d.(accounts := s))
    case DeleteAccount(id) =>
      var s :- DeleteIn(d.accounts, AccountId, id, AccountEntity); Ok(d.(accounts := s))
    case CreateCategory(c) => Ok(d.(categories := d.categories + [c]))
    case UpdateCategory(c) =>
      var s :- UpdateIn(d.categories, CategoryId, c, CategoryEntity); Ok(d.(categories := s))
    case DeleteCategory(id) =>
      var s :- DeleteIn(d.categories, CategoryId, id, CategoryEntity); Ok(d.(categories := s))
    case CreateOperation(o) => Ok(d.(operations := d.operations + [o]))
    case UpdateOperation(o) =>
      var s :- UpdateIn(d.operations, OperationId, o, OperationEntity); Ok(d.(operations := s))
    case DeleteOperation(id) =>
      var s :- DeleteIn(d.operations, OperationId, id, OperationEntity); Ok(d.(operations := s))
  }

  /** withData: load, mutate, and save only when both succeeded. Yields the returned
      outcome and what the file holds afterwards. */
  function Commit(disk: Disk, writable: bool, m: Mutation): (r: (Outcome, Disk))
    ensures r.0.Fail? ==> r.1 == disk
    ensures r.0.Pass? <==> Decode(disk).Ok? && Mutate(Decode(disk).value, m).Ok? && writable
    ensures r.0.Pass? ==> Decode(r.1) == Mutate(Decode(disk).value, m)
    ensures Decode(disk).Err? ==> r.0 == Fail(Decode(disk).error)
    ensures Decode(disk).Ok? && Mutate(Decode(disk).value, m).Err? ==> r.0 == Fail(Mutate(Decode(disk).value, m).error)
    ensures Decode(disk).Ok? && Mutate(Decode(disk).value, m).Ok? && !writable ==> r.0 == Fail(CreateFailed)
  {
    match Decode(disk)
    case Err(e) => (Fail(e), disk)
    case Ok(d) =>
      match Mutate(d, m)
      case Err(e) => (Fail(e), disk)
      case Ok(d') => if writable then (Pass, Holds(d')) else (Fail(CreateFailed), disk)
  }

  /** Every collection of the snapshot has unique IDs. */
  predicate UniqueIds(d: StorageData) {
    UniqueKeys(d.accounts, AccountId) && UniqueKeys(d.categories, CategoryId)
    && UniqueKeys(d.operations, OperationId)
  }

  /** The ID a mutation creates, if it is a create. */
  predicate CreatesFresh(d: StorageData, m: Mutation) {
    match m
    case CreateAccount(a) => !HasKey(d.accounts, AccountId, a.id)
    case CreateCategory(c) => !HasKey(d.categories, CategoryId, c.id)
    case CreateOperation(o) => !HasKey(d.operations, OperationId, o.id)
    case _ => true
  }

  /** Updates and deletes keep IDs unique; a create keeps them unique when its ID is new. */
  lemma MutatePreservesUniqueIds(d: StorageData, m: Mutation)
    requires UniqueIds(d) && CreatesFresh(d, m)
    requires Mutate(d, m).Ok?
    ensures UniqueIds(Mutate(d, m).value)
  {
    match m
    case CreateAccount(a) => UniqueAppend(d.accounts, AccountId, a);
    case UpdateAccount(a) => UniqueReplaceFirst(d.accounts, AccountId, a);
    case DeleteAccount(id) => UniqueRemoveFirst(d.accounts, AccountId, id);
    case CreateCategory(c) => UniqueAppend(d.categories, CategoryId, c);
    case UpdateCategory(c) => UniqueReplaceFirst(d.categories, CategoryId, c);
    case DeleteCategory(id) => UniqueRemoveFirst(d.categories, CategoryId, id);
    case CreateOperation(o) => UniqueAppend(d.operations, OperationId, o);
    case UpdateOperation(o) => UniqueReplaceFirst(d.operations, OperationId, o);
    case DeleteOperation(id) => UniqueRemoveFirst(d.operations, OperationId, id);
  }

  /** The first entry keyed `id`, or NotFound. */
  function FindIn<T>(s: seq<T>, key: T -> string, id: string, entity: Entity): (r: Result<T>)
    ensures r.Ok? <==> HasKey(s, key, id)
    ensures r.Ok? ==> key(r.value) == id && r.value == s[FirstIndex(s, key, id)]
    ensures r.Err? ==> r.error == NotFound(entity, id)
  {
    FirstIndexFound(s, key, id);
    var i := FirstIndex(s, key, id);
    if i < |s| then Ok(s[i]) else Err(NotFound(entity, id))
  }

  /** Result of a read of one collection of the stored snapshot. */
  function Collection<T>(stored: Result<StorageData>, pick: StorageData -> seq<T>): Result<seq<T>> {
    match stored
    case Ok(d) => Ok(pick(d))
    case Err(e) => Err(e)
  }

  /** Result of a lookup by ID in one collection of the stored snapshot. */
  function Lookup<T>(stored: Result<StorageData>, pick: StorageData -> seq<T>, key: T -> string, id: string, entity: Entity): Result<T> {
    match stored
    case Ok(d) => FindIn(pick(d), key, id, entity)
    case Err(e) => Err(e)
  }

  function Accounts(d: StorageData): seq<BankAccount> { d.accounts }
  function Categories(d: StorageData): seq<Category> { d.categories }
  function Operations(d: StorageData): seq<Operation> { d.operations }

  /** FileRepository: the file is `disk`; `writable` is false when the file cannot be
      created for writing. */
  class FileRepository {
    var disk: Disk
    var writable: bool

    constructor (disk: Disk, writable: bool)
      ensures this.disk == disk && this.writable == writable
    {
      this.disk := disk;
      this.writable := writable;
    }

    /** What a load returns right now. */
    function Stored(): Result<StorageData>
      reads this
    {
      Decode(disk)
    }

    /** loadUnsafe: reads the whole snapshot; never changes the file. */
    method LoadUnsafe() returns (r: Result<StorageData>)
      ensures r == Decode(disk)
    {
      match disk
      case Absent => r := Ok(EMPTY);
      case Blank => r := Ok(EMPTY);
      case Holds(data) => r := Ok(data);
      case Unreadable => r := Err(OpenFailed);
      case Garbled => r := Err(DecodeFailed);
    }

    /** saveUnsafe: overwrites the whole file, unless it cannot be created. */
    method SaveUnsafe(data: StorageData) returns (r: Outcome)
      modifies this`disk
      ensures r == if old(writable) then Pass else Fail(CreateFailed)
      ensures disk == if old(writable) then Holds(data) else old(disk)
    {
      if writable {
        disk := Holds(data);
        r := Pass;
      } else {
        r := Fail(CreateFailed);
      }
    }

    method ListAccounts() returns (r: Result<seq<BankAccount>>)
      ensures r == Collection(Stored(), Accounts)
    {
      var loaded := LoadUnsafe();
      if loaded.Err? {
        return Err(loaded.error);
      }
      r := Ok(loaded.value.accounts);
    }

    method GetAccount(id: string) returns (r: Result<BankAccount>)
      ensures r == Lookup(Stored(), Accounts, AccountId, id, AccountEntity)
    {
      var loaded := LoadUnsafe();
      if loaded.Err? {
        return Err(loaded.error);
      }
      var s := loaded.value.accounts;
      var i := FindFirst(s, AccountId, id);
      r := if i < |s| then Ok(s[i]) else Err(NotFound(AccountEntity, id));
    }

    method CreateAccount(account: BankAccount) returns (r: Outcome)
      modifies this`disk
      ensures (r, disk) == Commit(old(disk), writable, Mutation.CreateAccount(account))
    {
      var loaded := LoadUnsafe();
      if loaded.Err? {
        return Fail(loaded.error);
      }
      var data := loaded.value;
      data := data.(accounts := data.accounts + [account]);
      r := SaveUnsafe(data);
    }

    method UpdateAccount(account: BankAccount) returns (r: Outcome)
      modifies this`disk
      ensures (r, disk) == Commit(old(disk), writable, Mutation.UpdateAccount(account))
    {
      var loaded := LoadUnsafe();
      if loaded.Err? {
        return Fail(loaded.error);
      }
      var data := loaded.value;
      var i := FindFirst(data.accounts, AccountId, account.id);
      if i == |data.accounts| {
        return Fail(NotFound(AccountEntity, account.id));
      }
      data := data.(accounts := data.accounts[i := account]);
      r := SaveUnsafe(data);
    }

    method DeleteAccount(id: string) returns (r: Outcome)
      modifies this`disk
      ensures (r, disk) == Commit(old(disk), writable, Mutation.DeleteAccount(id))
    {
      var loaded := LoadUnsafe();
      if loaded.Err? {
        return Fail(loaded.error);
      }
      var data := loaded.value;
      var i := FindFirst(data.accounts, AccountId, id);
      if i == |data.accounts| {
        return Fail(NotFound(AccountEntity, id));
      }
      data := data.(accounts := data.accounts[..i] + data.accounts[i + 1..]);
      r := SaveUnsafe(data);
    }

    method ListCategories() returns (r: Result<seq<Category>>)
      ensures r == Collection(Stored(), Categories)
    {
      var loaded := LoadUnsafe();
      if loaded.Err? {
        return Err(loaded.error);
      }
      r := Ok(loaded.value.categories);
    }

    method GetCategory(id: string) returns (r: Result<Category>)
      ensures r == Lookup(Stored(), Categories, CategoryId, id, CategoryEntity)
    {
      var loaded := LoadUnsafe();
      if loaded.Err? {
        return Err(loaded.error);
      }
      var s := loaded.value.categories;
      var i := FindFirst(s, CategoryId, id);
      r := if i < |s| then Ok(s[i]) else Err(NotFound(CategoryEntity, id));
    }

    method CreateCategory(category: Category) returns (r: Outcome)
      modifies this`disk
      ensures (r, disk) == Commit(old(disk), writable, Mutation.CreateCategory(category))
    {
      var loaded := LoadUnsafe();
      if loaded.Err? {
        return Fail(loaded.error);
      }
      var data := loaded.value;
      data := data.(categories := data.categories + [category]);
      r := SaveUnsafe(data);
    }

    method UpdateCategory(category: Category) returns (r: Outcome)
      modifies this`disk
      ensures (r, disk) == Commit(old(disk), writable, Mutation.UpdateCategory(category))
    {
      var loaded := LoadUnsafe();
      if loaded.Err? {
        return Fail(loaded.error);
      }
      var data := loaded.value;
      var i := FindFirst(data.categories, CategoryId, category.id);
      if i == |data.categories| {
        return Fail(NotFound(CategoryEntity, category.id));
      }
      data := data.(categories := data.categories[i := category]);
      r := SaveUnsafe(data);
    }

    method DeleteCategory(id: string) returns (r: Outcome)
      modifies this`disk
      ensures (r, disk) == Commit(old(disk), writable, Mutation.DeleteCategory(id))
    {
      var loaded := LoadUnsafe();
      if loaded.Err? {
        return Fail(loaded.error);
      }
      var data := loaded.value;
      var i := FindFirst(data.categories, CategoryId, id);
      if i == |data.categories| {
        return Fail(NotFound(CategoryEntity, id));
      }
      data := data.(categories := data.categories[..i] + data.categories[i + 1..]);
      r := SaveUnsafe(data);
    }

    method ListOperations() returns (r: Result<seq<Operation>>)
      ensures r == Collection(Stored(), Operations)
    {
      var loaded := LoadUnsafe();
      if loaded.Err? {
        return Err(loaded.error);
      }
      r := Ok(loaded.value.operations);
    }

    method GetOperation(id: string) returns (r: Result<Operation>)
      ensures r == Lookup(Stored(), Operations, OperationId, id, OperationEntity)
    {
      var loaded := LoadUnsafe();
      if loaded.Err? {
        return Err(loaded.error);
      }
      var s := loaded.value.operations;
      var i := FindFirst(s, OperationId, id);
      r := if i < |s| then Ok(s[i]) else Err(NotFound(OperationEntity, id));
    }

    method CreateOperation(operation: Operation) returns (r: Outcome)
      modifies this`disk
      ensures (r, disk) == Commit(old(disk), writable, Mutation.CreateOperation(operation))
    {
      var loaded := LoadUnsafe();
      if loaded.Err? {
        return Fail(loaded.error);
      }
      var data := loaded.value;
      data := data.(operations := data.operations + [operation]);
      r := SaveUnsafe(data);
    }

    method UpdateOperation(operation: Operation) returns (r: Outcome)
      modifies this`disk
      ensures (r, disk) == Commit(old(disk), writable, Mutation.UpdateOperation(operation))
    {
      var loaded := LoadUnsafe();
      if loaded.Err? {
        return Fail(loaded.error);
      }
      var data := loaded.value;
      var i := FindFirst(data.operations, OperationId, operation.id);
      if i == |data.operations| {
        return Fail(NotFound(OperationEntity, operation.id));
      }
      data := data.(operations := data.operations[i := operation]);
      r := SaveUnsafe(data);
    }

    method DeleteOperation(id: string) returns (r: Outcome)
      modifies this`disk
      ensures (r, disk) == Commit(old(disk), writable, Mutation.DeleteOperation(id))
    {
      var loaded := LoadUnsafe();
      if loaded.Err? {
        return Fail(loaded.error);
      }
      var data := loaded.value;
      var i := FindFirst(data.operations, OperationId, id);
      if i == |data.operations| {
        return Fail(NotFound(OperationEntity, id));
      }
      data := data.(operations := data.operations[..i] + data.operations[i + 1..]);
      r := SaveUnsafe(data);
    }

    /** ReplaceAll: stores exactly `data`, whatever the file held; it does not load first. */
    method ReplaceAll(data: StorageData) returns (r: Outcome)
      modifies this`disk
      ensures r == if writable then Pass else Fail(CreateFailed)
      ensures disk == if writable then Holds(data) else old(disk)
      ensures r.Pass? ==> Stored() == Ok(data)
    {
      r := SaveUnsafe(data);
    }
  }
}
