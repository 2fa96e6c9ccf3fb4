/**
 * The write-through cache in front of the file store: three maps keyed by ID, filled
 * lazily by one load whose outcome is remembered for good.
 */
module ProxyStore {
  import opened Models
  import opened Keyed
  import opened FileStore

  /** The once-guard and its remembered error. */
  datatype LoadState = Unloaded | Loaded | Failed(error: Error)

  /** The three cache maps. */
  datatype Tables = Tables(
    accounts: map<string, BankAccount>,
    categories: map<string, Category>,
    operations: map<string, Operation>)

  /** The maps a load of snapshot `d` builds: later duplicates overwrite earlier ones. */
  function IndexSnapshot(d: StorageData): Tables {
    Tables(Index(d.accounts, AccountId), Index(d.categories, CategoryId), Index(d.operations, OperationId))
  }

  /** What reads through a proxy in load state `st` with cache `t` over a file holding
      `disk` yield: the cache once loaded, the remembered error after a failed load, and
      before any load what a load would produce. */
  function ViewFrom(st: LoadState, t: Tables, disk: Disk): Result<Tables> {
    match st
    case Loaded => Ok(t)
    case Failed(e) => Err(e)
    case Unloaded =>
      match Decode(disk)
      case Ok(d) => Ok(IndexSnapshot(d))
      case Err(e) => Err(LoadFailed(AccountEntity, e))
  }

  /** What callers can observe of a proxy and its file: what reads serve, what the file
      holds, and whether it can be written. */
  datatype Observed = Observed(view: Result<Tables>, disk: Disk, writable: bool)

  /** What the proxy serves is the index of what the file holds. */
  ghost predicate ServesFile(s: Observed) {
    s.view.Ok? ==> Decode(s.disk).Ok? && s.view.value == IndexSnapshot(Decode(s.disk).value)
  }

  /** The file holds a snapshot with unique IDs (or cannot be loaded). */
  ghost predicate FileUnique(s: Observed) {
    Decode(s.disk).Ok? ==> UniqueIds(Decode(s.disk).value)
  }

  /** The proxy serves tables that mirror a writable file: every write then behaves as
      Accepts says. */
  ghost predicate Steady(s: Observed) {
    s.view.Ok? && ServesFile(s) && s.writable
  }

  /** Steady over a file with unique IDs. */
  ghost predicate Sound(s: Observed) {
    Steady(s) && FileUnique(s)
  }

  /** Every map entry sits under its own ID. */
  ghost predicate KeyedTables(t: Tables) {
    KeyedBy(t.accounts, AccountId) && KeyedBy(t.categories, CategoryId) && KeyedBy(t.operations, OperationId)
  }

  /** What a successful write does to the cache: a create or update stores the entity
      under its ID, a delete removes the ID; the other maps are untouched. */
  function CacheWrite(t: Tables, m: Mutation): Tables {
    match m
    case CreateAccount(a) => t.(accounts := t.accounts[a.id := a])
    case UpdateAccount(a) => t.(accounts := t.accounts[a.id := a])
    case DeleteAccount(id) => t.(accounts := t.accounts - {id})
    case CreateCategory(c) => t.(categories := t.categories[c.id := c])
    case UpdateCategory(c) => t.(categories := t.categories[c.id := c])
    case DeleteCategory(id) => t.(categories := t.categories - {id})
    case CreateOperation(o) => t.(operations := t.operations[o.id := o])
    case UpdateOperation(o) => t.(operations := t.operations[o.id := o])
    case DeleteOperation(id) => t.(operations := t.operations - {id})
  }

  /** A cache lookup: the entry under `id`, or NotFound. */
  function FindKey<T>(m: map<string, T>, id: string, entity: Entity): (r: Result<T>)
    ensures r.Ok? <==> id in m
    ensures r.Ok? ==> r.value == m[id]
    ensures r.Err? ==> r.error == NotFound(entity, id)
  {
    if id in m then Ok(m[id]) else Err(NotFound(entity, id))
  }

  /** Result of a cache read of one map, given what the proxy serves. */
  function ServeLookup<T>(view: Result<Tables>, pick: Tables -> map<string, T>, id: string, entity: Entity): Result<T> {
    match view
    case Ok(t) => FindKey(pick(t), id, entity)
    case Err(e) => Err(e)
  }

  function AccountMap(t: Tables): map<string, BankAccount> { t.accounts }
  function CategoryMap(t: Tables): map<string, Category> { t.categories }
  function OperationMap(t: Tables): map<string, Operation> { t.operations }

  /** A write on tables that mirror the file: a create always lands; an update or a
      delete needs its ID present and is NotFound otherwise. */
  function Accepts(t: Tables, m: Mutation): (r: Outcome)
    ensures r.Pass? <==>
      && (m.UpdateAccount? ==> m.account.id in t.accounts)
      && (m.DeleteAccount? ==> m.id in t.accounts)
      && (m.UpdateCategory? ==> m.category.id in t.categories)
      && (m.DeleteCategory? ==> m.id in t.categories)
      && (m.UpdateOperation? ==> m.operation.id in t.operations)
      && (m.DeleteOperation? ==> m.id in t.operations)
  {
    match m
    case UpdateAccount(a) => Present(t.accounts, a.id, AccountEntity)
    case DeleteAccount(id) => Present(t.accounts, id, AccountEntity)
    case UpdateCategory(c) => Present(t.categories, c.id, CategoryEntity)
    case DeleteCategory(id) => Present(t.categories, id, CategoryEntity)
    case UpdateOperation(o) => Present(t.operations, o.id, OperationEntity)
    case DeleteOperation(id) => Present(t.operations, id, OperationEntity)
    case _ => Pass
  }

  function Present<T>(m: map<string, T>, id: string, entity: Entity): Outcome {
    if id in m then Pass else Fail(NotFound(entity, id))
  }

  /** A create whose ID is not served yet; every other write. */
  predicate Fresh(t: Tables, m: Mutation) {
    match m
    case CreateAccount(a) => a.id !in t.accounts
    case CreateCategory(c) => c.id !in t.categories
    case CreateOperation(o) => o.id !in t.operations
    case _ => true
  }

  /** The file store refuses a write on a snapshot exactly when the cache built from that
      snapshot would refuse it, with the same error; and a create is new to one exactly
      when it is new to the other. Duplicate IDs do not matter here. */
  lemma AcceptsMutate(d: StorageData, m: Mutation)
    ensures Mutate(d, m).Ok? <==> Accepts(IndexSnapshot(d), m).Pass?
    ensures Mutate(d, m).Err? ==> Accepts(IndexSnapshot(d), m) == Fail(Mutate(d, m).error)
    ensures CreatesFresh(d, m) <==> Fresh(IndexSnapshot(d), m)
  {
    match m
    case CreateAccount(a) => IndexKeys(d.accounts, AccountId, a.id);
    case UpdateAccount(a) => IndexKeys(d.accounts, AccountId, a.id);
    case DeleteAccount(id) => IndexKeys(d.accounts, AccountId, id);
    case CreateCategory(c) => IndexKeys(d.categories, CategoryId, c.id);
    case UpdateCategory(c) => IndexKeys(d.categories, CategoryId, c.id);
    case DeleteCategory(id) => IndexKeys(d.categories, CategoryId, id);
    case CreateOperation(o) => IndexKeys(d.operations, OperationId, o.id);
    case UpdateOperation(o) => IndexKeys(d.operations, OperationId, o.id);
    case DeleteOperation(id) => IndexKeys(d.operations, OperationId, id);
  }

  /** Writing the cache keeps every entry under its own ID. */
  lemma CacheWriteKeyed(t: Tables, m: Mutation)
    requires KeyedTables(t)
    ensures KeyedTables(CacheWrite(t, m))
  {
  }

  /** After a create or update, a lookup of the ID yields exactly the written entity;
      after a delete it yields NotFound; lookups of other IDs are unaffected. */
  lemma LookupAfterWrite(t: Tables, m: Mutation, id: string)
    ensures m.CreateAccount? || m.UpdateAccount? ==>
      FindKey(CacheWrite(t, m).accounts, id, AccountEntity)
      == if id == m.account.id then Ok(m.account) else FindKey(t.accounts, id, AccountEntity)
    ensures m.DeleteAccount? ==>
      FindKey(CacheWrite(t, m).accounts, id, AccountEntity)
      == if id == m.id then Err(NotFound(AccountEntity, id)) else FindKey(t.accounts, id, AccountEntity)
    ensures m.CreateCategory? || m.UpdateCategory? ==>
      FindKey(CacheWrite(t, m).categories, id, CategoryEntity)
      == if id == m.category.id then Ok(m.category) else FindKey(t.categories, id, CategoryEntity)
    ensures m.DeleteCategory? ==>
      FindKey(CacheWrite(t, m).categories, id, CategoryEntity)
      == if id == m.id then Err(NotFound(CategoryEntity, id)) else FindKey(t.categories, id, CategoryEntity)
    ensures m.CreateOperation? || m.UpdateOperation? ==>
      FindKey(CacheWrite(t, m).operations, id, OperationEntity)
      == if id == m.operation.id then Ok(m.operation) else FindKey(t.operations, id, OperationEntity)
    ensures m.DeleteOperation? ==>
      FindKey(CacheWrite(t, m).operations, id, OperationEntity)
      == if id == m.id then Err(NotFound(OperationEntity, id)) else FindKey(t.operations, id, OperationEntity)
  {
  }

  /** Re-applying a write to the index of the snapshot it produced gives the same tables
      as applying it to the index of the snapshot before: this holds for any snapshot,
      duplicate IDs included, and is why a first load after a write serves what an
      already-loaded cache would. */
  lemma CacheWriteAbsorbs(d: StorageData, m: Mutation)
    requires Mutate(d, m).Ok?
    ensures CacheWrite(IndexSnapshot(Mutate(d, m).value), m) == CacheWrite(IndexSnapshot(d), m)
  {
    if m.CreateAccount? || m.UpdateAccount? || m.DeleteAccount? {
      AbsorbAccounts(d, m);
    } else if m.CreateCategory? || m.UpdateCategory? || m.DeleteCategory? {
      AbsorbCategories(d, m);
    } else {
      AbsorbOperations(d, m);
    }
  }

  lemma AbsorbAccounts(d: StorageData, m: Mutation)
    requires m.CreateAccount? || m.UpdateAccount? || m.DeleteAccount?
    requires Mutate(d, m).Ok?
    ensures CacheWrite(IndexSnapshot(Mutate(d, m).value), m) == CacheWrite(IndexSnapshot(d), m)
  {
    match m
    case CreateAccount(a) =>
      IndexAppend(d.accounts, AccountId, a);
    case UpdateAccount(a) =>
      assert Mutate(d, m).value == d.(accounts := ReplaceFirst(d.accounts, AccountId, a));
      IndexReplaceFirstOverride(d.accounts, AccountId, a);
    case DeleteAccount(id) =>
      assert Mutate(d, m).value == d.(accounts := RemoveFirst(d.accounts, AccountId, id));
      IndexRemoveFirstOverride(d.accounts, AccountId, id);
  }

  lemma AbsorbCategories(d: StorageData, m: Mutation)
    requires m.CreateCategory? || m.UpdateCategory? || m.DeleteCategory?
    requires Mutate(d, m).Ok?
    ensures CacheWrite(IndexSnapshot(Mutate(d, m).value), m) == CacheWrite(IndexSnapshot(d), m)
  {
    match m
    case CreateCategory(c) =>
      IndexAppend(d.categories, CategoryId, c);
    case UpdateCategory(c) =>
      assert Mutate(d, m).value == d.(categories := ReplaceFirst(d.categories, CategoryId, c));
      IndexReplaceFirstOverride(d.categories, CategoryId, c);
    case DeleteCategory(id) =>
      assert Mutate(d, m).value == d.(categories := RemoveFirst(d.categories, CategoryId, id));
      IndexRemoveFirstOverride(d.categories, CategoryId, id);
  }

  lemma AbsorbOperations(d: StorageData, m: Mutation)
    requires m.CreateOperation? || m.UpdateOperation? || m.DeleteOperation?
    requires Mutate(d, m).Ok?
    ensures CacheWrite(IndexSnapshot(Mutate(d, m).value), m) == CacheWrite(IndexSnapshot(d), m)
  {
    match m
    case CreateOperation(o) =>
      IndexAppend(d.operations, OperationId, o);
    case UpdateOperation(o) =>
      assert Mutate(d, m).value == d.(operations := ReplaceFirst(d.operations, OperationId, o));
      IndexReplaceFirstOverride(d.operations, OperationId, o);
    case DeleteOperation(id) =>
      assert Mutate(d, m).value == d.(operations := RemoveFirst(d.operations, OperationId, id));
      IndexRemoveFirstOverride(d.operations, OperationId, id);
  }

  /** With unique IDs, the cache write of a mutation is exactly the index of the mutated
      snapshot: the cache keeps mirroring the store. */
  lemma IndexSnapshotMutate(d: StorageData, m: Mutation)
    requires UniqueIds(d)
    requires Mutate(d, m).Ok?
    ensures IndexSnapshot(Mutate(d, m).value) == CacheWrite(IndexSnapshot(d), m)
  {
    match m
    case CreateAccount(a) => IndexAppend(d.accounts, AccountId, a);
    case UpdateAccount(a) => IndexReplaceFirstUnique(d.accounts, AccountId, a);
    case DeleteAccount(id) => IndexRemoveFirstUnique(d.accounts, AccountId, id);
    case CreateCategory(c) => IndexAppend(d.categories, CategoryId, c);
    case UpdateCategory(c) => IndexReplaceFirstUnique(d.categories, CategoryId, c);
    case DeleteCategory(id) => IndexRemoveFirstUnique(d.categories, CategoryId, id);
    case CreateOperation(o) => IndexAppend(d.operations, OperationId, o);
    case UpdateOperation(o) => IndexReplaceFirstUnique(d.operations, OperationId, o);
    case DeleteOperation(id) => IndexRemoveFirstUnique(d.operations, OperationId, id);
  }

  /** With unique IDs, a cache lookup agrees with the store's first-match lookup. */
  lemma FindKeyIndex<T>(s: seq<T>, key: T -> string, id: string, entity: Entity)
    requires UniqueKeys(s, key)
    ensures FindKey(Index(s, key), id, entity) == FindIn(s, key, id, entity)
  {
    IndexKeys(s, key, id);
    FirstIndexFound(s, key, id);
    if HasKey(s, key, id) {
      IndexUnique(s, key, FirstIndex(s, key, id));
    }
  }

  /** With duplicate IDs the cache does not mirror the store: deleting the ID of two
      stored accounts removes the first from the file, yet the cache forgets both. */
  lemma DuplicateIdsBreakMirror(a1: BankAccount, a2: BankAccount)
    requires a1.id == a2.id
    ensures var d := StorageData([a1, a2], [], []);
            var m := Mutation.DeleteAccount(a1.id);
            && Mutate(d, m) == Ok(StorageData([a2], [], []))
            && CacheWrite(IndexSnapshot(d), m).accounts == map[]
            && IndexSnapshot(Mutate(d, m).value).accounts == map[a1.id := a2]
  {
    var s := [a1, a2];
    var d := StorageData(s, [], []);
    var m := Mutation.DeleteAccount(a1.id);
    assert HasKey(s, AccountId, a1.id) by {
      assert AccountId(s[0]) == a1.id;
    }
    RemoveFirstPair(a1, a2);
    assert DeleteIn(s, AccountId, a1.id, AccountEntity) == Ok([a2]);
    assert Mutate(d, m) == Ok(StorageData([a2], [], []));
    assert s[..1] == [a1];
    assert Index([a1], AccountId) == map[a1.id := a1];
    assert Index(s, AccountId) == map[a1.id := a2];
    assert IndexSnapshot(d).accounts == map[a1.id := a2];
    assert Index([a2], AccountId) == map[a1.id := a2];
  }

  lemma RemoveFirstPair(a1: BankAccount, a2: BankAccount)
    ensures RemoveFirst([a1, a2], AccountId, a1.id) == [a2]
  {
    assert FirstIndex([a1, a2], AccountId, a1.id) == 0;
  }

  /** The mutations one after the other on the store; the first failure stops the run. */
  function MutateAll(d: StorageData, ms: seq<Mutation>): Result<StorageData>
    decreases |ms|
  {
    if ms == [] then Ok(d)
    else match Mutate(d, ms[0])
      case Err(e) => Err(e)
      case Ok(d') => MutateAll(d', ms[1..])
  }

  /** The same mutations one after the other on the cache. */
  function CacheWriteAll(t: Tables, ms: seq<Mutation>): Tables
    decreases |ms|
  {
    if ms == [] then t else CacheWriteAll(CacheWrite(t, ms[0]), ms[1..])
  }

  /** Every create of the run introduces an ID not yet stored at its turn. */
  predicate FreshRun(d: StorageData, ms: seq<Mutation>)
    decreases |ms|
  {
    ms == [] || (CreatesFresh(d, ms[0]) && match Mutate(d, ms[0])
      case Err(_) => true
      case Ok(d') => FreshRun(d', ms[1..]))
  }

  /** Replaying a successful run of writes on a cache that indexes a unique-ID snapshot
      gives the index of the final snapshot, and the final snapshot still has unique IDs. */
  lemma {:induction false} ReplayMirrors(d: StorageData, ms: seq<Mutation>)
    requires UniqueIds(d)
    requires FreshRun(d, ms)
    requires MutateAll(d, ms).Ok?
    ensures UniqueIds(MutateAll(d, ms).value)
    ensures CacheWriteAll(IndexSnapshot(d), ms) == IndexSnapshot(MutateAll(d, ms).value)
    decreases |ms|
  {
    if ms != [] {
      var d' := Mutate(d, ms[0]).value;
      MutatePreservesUniqueIds(d, ms[0]);
      IndexSnapshotMutate(d, ms[0]);
      ReplayMirrors(d', ms[1..]);
    }
  }

  /** ProxyRepository over the file store it wraps. */
  class ProxyRepository {
    const base: FileRepository
    var state: LoadState
    var accounts: map<string, BankAccount>
    var categories: map<string, Category>
    var operations: map<string, Operation>

    /** The maps keep every entry under its own ID. */
    ghost predicate Valid()
      reads this
    {
      KeyedTables(Tables(accounts, categories, operations))
    }

    /** What reads through the proxy yield now: the cache once loaded, the remembered
        error after a failed load, and before any load what a load would produce. */
    function View(): Result<Tables>
      reads this, base
    {
      ViewFrom(state, Tables(accounts, categories, operations), base.disk)
    }

    /** What callers observe now. */
    function Now(): Observed
      reads this, base
    {
      Observed(View(), base.disk, base.writable)
    }

    /** Whatever the proxy serves is the index of what the file holds. */
    ghost predicate Coherent()
      reads this, base
    {
      ServesFile(Now())
    }

    /** The file holds a snapshot with unique IDs (or cannot be loaded). */
    ghost predicate StoreUnique()
      reads this, base
    {
      FileUnique(Now())
    }

    /** The proxy serves tables that mirror a writable file: every write then behaves as
        Accepts says. */
    ghost predicate InStep()
      reads this, base
    {
      Steady(Now())
    }

    /** InStep over a file with unique IDs, which every update and delete and every
        create of a new ID keeps so. */
    ghost predicate Healthy()
      reads this, base
    {
      Sound(Now())
    }

    /** Neither the file nor what the proxy serves changed (a first load may have run). */
    twostate predicate Untouched()
      reads this, base
    {
      Now() == old(Now())
    }

    /** Whatever the proxy serves keeps every entry under its own ID. */
    lemma ViewKeyed()
      requires Valid()
      ensures View().Ok? ==> KeyedTables(View().value)
    {
    }

    /** The contract of every single-entity write, from the observed state `s` it started
        in: the file store does `m` first; a base failure is returned as is and touches
        nothing else; otherwise the remembered load outcome decides, and on success the
        cache absorbs the write. */
    ghost predicate After(s: Observed, m: Mutation, r: Outcome)
      reads this, base
    {
      Committed(s, m, r) && Served(s, m, r) && Kept(s, m, r)
    }

    /** The file and the outcome: the base's commit of `m`, then the load outcome. */
    ghost predicate Committed(s: Observed, m: Mutation, r: Outcome)
      reads base
    {
      var (o, disk') := Commit(s.disk, s.writable, m);
      && base.disk == disk'
      && base.writable == s.writable
      && r == (if o.Fail? then o else if s.view.Err? then Fail(s.view.error) else Pass)
    }

    /** What reads serve afterwards: the cache with the write absorbed, or as before. */
    ghost predicate Served(s: Observed, m: Mutation, r: Outcome)
      reads this, base
    {
      && (r.Pass? ==> s.view.Ok? && state.Loaded? && View() == Ok(CacheWrite(s.view.value, m)))
      && (r.Fail? ==> View() == s.view)
    }

    /** The invariants a write keeps, and the outcome Accepts foretells. */
    ghost predicate Kept(s: Observed, m: Mutation, r: Outcome)
      reads this, base
    {
      && (ServesFile(s) && FileUnique(s) ==> Coherent())
      && (FileUnique(s) && (Decode(s.disk).Ok? ==> CreatesFresh(Decode(s.disk).value, m)) ==> StoreUnique())
      && (Steady(s) ==> r == Accepts(s.view.value, m))
      && (Sound(s) && Fresh(s.view.value, m) ==> Healthy())
    }

    /** After, from the state the call started in. */
    twostate predicate Applied(m: Mutation, r: Outcome)
      reads this, base
    {
      After(old(Now()), m, r)
    }

    /** What every single-entity write establishes, proved once for any mutation `m`
        from the observed state `s` it started in, with load state `st` and cache `t`:
        the base returned `o`; after a base success the remembered load outcome was
        consulted and, when it allowed, the cache took the write over `mid`, the tables
        served once loaded. */
    lemma WriteAfter(s: Observed, st: LoadState, t: Tables, m: Mutation, o: Outcome, r: Outcome, mid: Tables)
      requires s.view == ViewFrom(st, t, s.disk)
      requires (o, base.disk) == Commit(s.disk, s.writable, m)
      requires base.writable == s.writable
      requires o.Fail? ==> r == o && state == st && Tables(accounts, categories, operations) == t
      requires o.Pass? && st.Failed? ==> r == Fail(st.error) && state == st
      requires o.Pass? && !st.Failed? ==> r == Pass && state.Loaded?
      requires o.Pass? && !st.Failed? ==> Tables(accounts, categories, operations) == CacheWrite(mid, m)
      requires o.Pass? && st.Loaded? ==> mid == t
      requires o.Pass? && st.Unloaded? ==> base.Stored().Ok? && mid == IndexSnapshot(base.Stored().value)
      ensures After(s, m, r)
    {
      if o.Fail? {
        BaseRefused(s, st, t, m, r);
      } else if st.Failed? {
        LoadRefused(s, st, t, m, r);
      } else {
        Absorbed(s, st, t, m, r, mid);
      }
    }

    /** The file store refused the write: nothing changed. */
    lemma BaseRefused(s: Observed, st: LoadState, t: Tables, m: Mutation, r: Outcome)
      requires s.view == ViewFrom(st, t, s.disk)
      requires (r, base.disk) == Commit(s.disk, s.writable, m) && r.Fail?
      requires base.writable == s.writable
      requires state == st && Tables(accounts, categories, operations) == t
      ensures After(s, m, r)
    {
      if Decode(s.disk).Ok? {
        AcceptsMutate(Decode(s.disk).value, m);
      }
    }

    /** The file took the write, but the remembered load had failed: the cache is not
        touched and the load error is returned. */
    lemma LoadRefused(s: Observed, st: LoadState, t: Tables, m: Mutation, r: Outcome)
      requires s.view == ViewFrom(st, t, s.disk) && st.Failed?
      requires Commit(s.disk, s.writable, m).0.Pass? && base.disk == Commit(s.disk, s.writable, m).1
      requires base.writable == s.writable
      requires r == Fail(st.error) && state == st
      ensures After(s, m, r)
    {
      assert Served(s, m, r);
      WriteUnique(s, Now(), m);
    }

    /** The file took the write and the cache, loaded over `mid`, absorbed it. */
    lemma Absorbed(s: Observed, st: LoadState, t: Tables, m: Mutation, r: Outcome, mid: Tables)
      requires s.view == ViewFrom(st, t, s.disk) && !st.Failed?
      requires Commit(s.disk, s.writable, m).0.Pass? && base.disk == Commit(s.disk, s.writable, m).1
      requires base.writable == s.writable
      requires r == Pass && state.Loaded? && Tables(accounts, categories, operations) == CacheWrite(mid, m)
      requires st.Loaded? ==> mid == t
      requires st.Unloaded? ==> base.Stored().Ok? && mid == IndexSnapshot(base.Stored().value)
      ensures After(s, m, r)
    {
      var before := Decode(s.disk);
      Mirror(before, m);
      assert s.view == Ok(if st.Loaded? then t else IndexSnapshot(before.value));
      assert Served(s, m, r);
      AbsorbedKept(s, m);
    }

    /** Once the file took the write and the cache absorbed it, the invariants hold. */
    lemma AbsorbedKept(s: Observed, m: Mutation)
      requires s.view.Ok? && Decode(s.disk).Ok? && Mutate(Decode(s.disk).value, m).Ok?
      requires base.disk == Holds(Mutate(Decode(s.disk).value, m).value) && base.writable == s.writable
      requires Served(s, m, Pass)
      ensures Kept(s, m, Pass)
    {
      WriteKeeps(s, Now(), m);
    }

    constructor (base: FileRepository)
      ensures this.base == base && state == Unloaded
      ensures Valid() && Coherent()
    {
      this.base := base;
      state := Unloaded;
      accounts := map[];
      categories := map[];
      operations := map[];
    }

    /** ensureLoaded: the first call lists the three collections of the base and indexes
        them, or remembers the first failure; every later call returns the remembered
        outcome and reads nothing. */
    method EnsureLoaded() returns (r: Outcome)
      requires Valid()
      modifies this
      ensures Valid()
      ensures !state.Unloaded?
      ensures View() == old(View())
      ensures r == if View().Ok? then Pass else Fail(View().error)
      ensures !old(state).Unloaded? ==> unchanged(this)
      ensures old(state).Unloaded? ==> Coherent()
      ensures old(Coherent()) ==> Coherent()
    {
      if !state.Unloaded? {
        return if state.Failed? then Fail(state.error) else Pass;
      }
      var accs := base.ListAccounts();
      if accs.Err? {
        state := Failed(LoadFailed(AccountEntity, accs.error));
        return Fail(state.error);
      }
      // The same file was listed successfully just before and nothing ran since, so in
      // this sequential model the categories and operations listings cannot fail.
      var cats := base.ListCategories();
      if cats.Err? {
        assert false;
      }
      var ops := base.ListOperations();
      if ops.Err? {
        assert false;
      }
      accounts := BuildIndex(accs.value, AccountId);
      categories := BuildIndex(cats.value, CategoryId);
      operations := BuildIndex(ops.value, OperationId);
      state := Loaded;
      r := Pass;
    }

    method ListAccounts() returns (r: Result<seq<BankAccount>>)
      requires Valid()
      modifies this
      ensures Valid() && View() == old(View())
      ensures old(Coherent()) ==> Coherent()
      ensures r.Ok? <==> View().Ok?
      ensures r.Ok? ==> Enumerates(r.value, View().value.accounts, AccountId)
      ensures r.Err? ==> r.error == View().error
    {
      var loaded := EnsureLoaded();
      if loaded.Fail? {
        return Err(loaded.error);
      }
      var s := Values(accounts, AccountId);
      r := Ok(s);
    }

    method GetAccount(id: string) returns (r: Result<BankAccount>)
      requires Valid()
      modifies this
      ensures Valid() && View() == old(View())
      ensures old(Coherent()) ==> Coherent()
      ensures r == ServeLookup(View(), AccountMap, id, AccountEntity)
    {
      var loaded := EnsureLoaded();
      if loaded.Fail? {
        return Err(loaded.error);
      }
      r := if id in accounts then Ok(accounts[id]) else Err(NotFound(AccountEntity, id));
    }

    method CreateAccount(account: BankAccount) returns (r: Outcome)
      requires Valid()
      modifies this, base
      ensures Valid()
      ensures Applied(Mutation.CreateAccount(account), r)
    {
      ghost var s, st := Now(), state;
      r := base.CreateAccount(account);
      ghost var o := r;
      ghost var t := Tables(accounts, categories, operations);
      ghost var mid := t;
      if r.Pass? {
        r := EnsureLoaded();
        mid := Tables(accounts, categories, operations);
        if r.Pass? {
          accounts := accounts[account.id := account];
        }
      }
      WriteAfter(s, st, t, Mutation.CreateAccount(account), o, r, mid);
    }

    method UpdateAccount(account: BankAccount) returns (r: Outcome)
      requires Valid()
      modifies this, base
      ensures Valid()
      ensures Applied(Mutation.UpdateAccount(account), r)
    {
      ghost var s, st := Now(), state;
      r := base.UpdateAccount(account);
      ghost var o := r;
      ghost var t := Tables(accounts, categories, operations);
      ghost var mid := t;
      if r.Pass? {
        r := EnsureLoaded();
        mid := Tables(accounts, categories, operations);
        if r.Pass? {
          accounts := accounts[account.id := account];
        }
      }
      WriteAfter(s, st, t, Mutation.UpdateAccount(account), o, r, mid);
    }

    method DeleteAccount(id: string) returns (r: Outcome)
      requires Valid()
      modifies this, base
      ensures Valid()
      ensures Applied(Mutation.DeleteAccount(id), r)
    {
      ghost var s, st := Now(), state;
      r := base.DeleteAccount(id);
      ghost var o := r;
      ghost var t := Tables(accounts, categories, operations);
      ghost var mid := t;
      if r.Pass? {
        r := EnsureLoaded();
        mid := Tables(accounts, categories, operations);
        if r.Pass? {
          accounts := accounts - {id};
        }
      }
      WriteAfter(s, st, t, Mutation.DeleteAccount(id), o, r, mid);
    }

    method ListCategories() returns (r: Result<seq<Category>>)
      requires Valid()
      modifies this
      ensures Valid() && View() == old(View())
      ensures old(Coherent()) ==> Coherent()
      ensures r.Ok? <==> View().Ok?
      ensures r.Ok? ==> Enumerates(r.value, View().value.categories, CategoryId)
      ensures r.Err? ==> r.error == View().error
    {
      var loaded := EnsureLoaded();
      if loaded.Fail? {
        return Err(loaded.error);
      }
      var s := Values(categories, CategoryId);
      r := Ok(s);
    }

    method GetCategory(id: string) returns (r: Result<Category>)
      requires Valid()
      modifies this
      ensures Valid() && View() == old(View())
      ensures old(Coherent()) ==> Coherent()
      ensures r == ServeLookup(View(), CategoryMap, id, CategoryEntity)
    {
      var loaded := EnsureLoaded();
      if loaded.Fail? {
        return Err(loaded.error);
      }
      r := if id in categories then Ok(categories[id]) else Err(NotFound(CategoryEntity, id));
    }

    method CreateCategory(category: Category) returns (r: Outcome)
      requires Valid()
      modifies this, base
      ensures Valid()
      ensures Applied(Mutation.CreateCategory(category), r)
    {
      ghost var s, st := Now(), state;
      r := base.CreateCategory(category);
      ghost var o := r;
      ghost var t := Tables(accounts, categories, operations);
      ghost var mid := t;
      if r.Pass? {
        r := EnsureLoaded();
        mid := Tables(accounts, categories, operations);
        if r.Pass? {
          categories := categories[category.id := category];
        }
      }
      WriteAfter(s, st, t, Mutation.CreateCategory(category), o, r, mid);
    }

    method UpdateCategory(category: Category) returns (r: Outcome)
      requires Valid()
      modifies this, base
      ensures Valid()
      ensures Applied(Mutation.UpdateCategory(category), r)
    {
      ghost var s, st := Now(), state;
      r := base.UpdateCategory(category);
      ghost var o := r;
      ghost var t := Tables(accounts, categories, operations);
      ghost var mid := t;
      if r.Pass? {
        r := EnsureLoaded();
        mid := Tables(accounts, categories, operations);
        if r.Pass? {
          categories := categories[category.id := category];
        }
      }
      WriteAfter(s, st, t, Mutation.UpdateCategory(category), o, r, mid);
    }

    method DeleteCategory(id: string) returns (r: Outcome)
      requires Valid()
      modifies this, base
      ensures Valid()
      ensures Applied(Mutation.DeleteCategory(id), r)
    {
      ghost var s, st := Now(), state;
      r := base.DeleteCategory(id);
      ghost var o := r;
      ghost var t := Tables(accounts, categories, operations);
      ghost var mid := t;
      if r.Pass? {
        r := EnsureLoaded();
        mid := Tables(accounts, categories, operations);
        if r.Pass? {
          categories := categories - {id};
        }
      }
      WriteAfter(s, st, t, Mutation.DeleteCategory(id), o, r, mid);
    }

    method ListOperations() returns (r: Result<seq<Operation>>)
      requires Valid()
      modifies this
      ensures Valid() && View() == old(View())
      ensures old(Coherent()) ==> Coherent()
      ensures r.Ok? <==> View().Ok?
      ensures r.Ok? ==> Enumerates(r.value, View().value.operations, OperationId)
      ensures r.Err? ==> r.error == View().error
    {
      var loaded := EnsureLoaded();
      if loaded.Fail? {
        return Err(loaded.error);
      }
      var s := Values(operations, OperationId);
      r := Ok(s);
    }

    method GetOperation(id: string) returns (r: Result<Operation>)
      requires Valid()
      modifies this
      ensures Valid() && View() == old(View())
      ensures old(Coherent()) ==> Coherent()
      ensures r == ServeLookup(View(), OperationMap, id, OperationEntity)
    {
      var loaded := EnsureLoaded();
      if loaded.Fail? {
        return Err(loaded.error);
      }
      r := if id in operations then Ok(operations[id]) else Err(NotFound(OperationEntity, id));
    }

    method CreateOperation(operation: Operation) returns (r: Outcome)
      requires Valid()
      modifies this, base
      ensures Valid()
      ensures Applied(Mutation.CreateOperation(operation), r)
    {
      ghost var s, st := Now(), state;
      r := base.CreateOperation(operation);
      ghost var o := r;
      ghost var t := Tables(accounts, categories, operations);
      ghost var mid := t;
      if r.Pass? {
        r := EnsureLoaded();
        mid := Tables(accounts, categories, operations);
        if r.Pass? {
          operations := operations[operation.id := operation];
        }
      }
      WriteAfter(s, st, t, Mutation.CreateOperation(operation), o, r, mid);
    }

    method UpdateOperation(operation: Operation) returns (r: Outcome)
      requires Valid()
      modifies this, base
      ensures Valid()
      ensures Applied(Mutation.UpdateOperation(operation), r)
    {
      ghost var s, st := Now(), state;
      r := base.UpdateOperation(operation);
      ghost var o := r;
      ghost var t := Tables(accounts, categories, operations);
      ghost var mid := t;
      if r.Pass? {
        r := EnsureLoaded();
        mid := Tables(accounts, categories, operations);
        if r.Pass? {
          operations := operations[operation.id := operation];
        }
      }
      WriteAfter(s, st, t, Mutation.UpdateOperation(operation), o, r, mid);
    }

    method DeleteOperation(id: string) returns (r: Outcome)
      requires Valid()
      modifies this, base
      ensures Valid()
      ensures Applied(Mutation.DeleteOperation(id), r)
    {
      ghost var s, st := Now(), state;
      r := base.DeleteOperation(id);
      ghost var o := r;
      ghost var t := Tables(accounts, categories, operations);
      ghost var mid := t;
      if r.Pass? {
        r := EnsureLoaded();
        mid := Tables(accounts, categories, operations);
        if r.Pass? {
          operations := operations - {id};
        }
      }
      WriteAfter(s, st, t, Mutation.DeleteOperation(id), o, r, mid);
    }

    /** ReplaceAll: the base stores `data`; then, unless the remembered load failed, the
        three maps are rebuilt from `data` alone, discarding what the cache held. */
    method ReplaceAll(data: StorageData) returns (r: Outcome)
      requires Valid()
      modifies this, base
      ensures Valid()
      ensures base.writable == old(base.writable)
      ensures base.disk == if base.writable then Holds(data) else old(base.disk)
      ensures r == if !base.writable then Fail(CreateFailed)
                   else if old(state).Failed? then Fail(old(state).error) else Pass
      ensures r.Pass? ==> state.Loaded? && View() == Ok(IndexSnapshot(data)) && Coherent()
      ensures r.Fail? ==> View() == old(View())
    {
      r := base.ReplaceAll(data);
      if r.Fail? {
        return;
      }
      r := EnsureLoaded();
      if r.Fail? {
        return;
      }
      accounts := BuildIndex(data.accounts, AccountId);
      categories := BuildIndex(data.categories, CategoryId);
      operations := BuildIndex(data.operations, OperationId);
    }
  }

  /** A write the file took and the cache absorbed, from observed state `s` to `n`,
      keeps the invariants, and Accepts foretold its success. */
  lemma WriteKeeps(s: Observed, n: Observed, m: Mutation)
    requires s.view.Ok? && Decode(s.disk).Ok? && Mutate(Decode(s.disk).value, m).Ok?
    requires n.disk == Holds(Mutate(Decode(s.disk).value, m).value) && n.writable == s.writable
    requires n.view == Ok(CacheWrite(s.view.value, m))
    ensures ServesFile(s) && FileUnique(s) ==> ServesFile(n)
    ensures FileUnique(s) && CreatesFresh(Decode(s.disk).value, m) ==> FileUnique(n)
    ensures Steady(s) ==> Accepts(s.view.value, m) == Pass
    ensures Sound(s) && Fresh(s.view.value, m) ==> Sound(n)
  {
    var before := Decode(s.disk).value;
    assert Decode(n.disk) == Mutate(before, m);
    AcceptsMutate(before, m);
    Mirror(Decode(s.disk), m);
  }

  /** A write the file took keeps its IDs unique, unless it created a duplicate. */
  lemma WriteUnique(s: Observed, n: Observed, m: Mutation)
    requires Decode(s.disk).Ok? && Mutate(Decode(s.disk).value, m).Ok?
    requires n.disk == Holds(Mutate(Decode(s.disk).value, m).value)
    ensures FileUnique(s) && CreatesFresh(Decode(s.disk).value, m) ==> FileUnique(n)
  {
    if FileUnique(s) && CreatesFresh(Decode(s.disk).value, m) {
      MutatePreservesUniqueIds(Decode(s.disk).value, m);
    }
  }

  /** The facts a write needs about the snapshot it started from. */
  lemma Mirror(before: Result<StorageData>, m: Mutation)
    requires before.Ok? && Mutate(before.value, m).Ok?
    ensures CacheWrite(IndexSnapshot(Mutate(before.value, m).value), m) == CacheWrite(IndexSnapshot(before.value), m)
    ensures UniqueIds(before.value) ==> IndexSnapshot(Mutate(before.value, m).value) == CacheWrite(IndexSnapshot(before.value), m)
    ensures UniqueIds(before.value) && CreatesFresh(before.value, m) ==> UniqueIds(Mutate(before.value, m).value)
  {
    CacheWriteAbsorbs(before.value, m);
    if UniqueIds(before.value) {
      IndexSnapshotMutate(before.value, m);
      if CreatesFresh(before.value, m) {
        MutatePreservesUniqueIds(before.value, m);
      }
    }
  }
}
