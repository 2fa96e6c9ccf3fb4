/**
 * Domain entities of the ledger, the persisted snapshot, and the error values the
 * repository, the factory and the facades return.
 */
module Models {

  /** The two operation and category types the domain knows. Types are plain strings,
      as imported data may carry any other text. */
  const INCOME: string := "income"
  const EXPENSE: string := "expense"

  predicate IsKnownType(t: string) {
    t == INCOME || t == EXPENSE
  }

  /** A bank account with its current balance. */
  datatype BankAccount = BankAccount(id: string, name: string, balance: real)

  /** A category groups operations; its type is income or expense. */
  datatype Category = Category(id: string, kind: string, name: string)

  /** A single financial action; `date` is a timestamp, 0 is the zero time. */
  datatype Operation = Operation(
    id: string,
    kind: string,
    accountId: string,
    amount: real,
    date: int,
    description: string,
    categoryId: string)

  /** The snapshot persisted as one file: three ordered collections. */
  datatype StorageData = StorageData(
    accounts: seq<BankAccount>,
    categories: seq<Category>,
    operations: seq<Operation>)

  const EMPTY: StorageData := StorageData([], [], [])

  function AccountId(a: BankAccount): string { a.id }
  function CategoryId(c: Category): string { c.id }
  function OperationId(o: Operation): string { o.id }

  /** What an operation does to its account's balance: income adds the amount, expense
      subtracts it, any other type counts for nothing. */
  function Signed(o: Operation): real {
    if o.kind == INCOME then o.amount else if o.kind == EXPENSE then -o.amount else 0.0
  }

  /** Which collection an error or a lazy-load step refers to. */
  datatype Entity = AccountEntity | CategoryEntity | OperationEntity

  /** Validation failures of the factory and of the facades. */
  datatype Reason =
    | AccountNameRequired
    | NegativeInitialBalance
    | CategoryNameRequired
    | InvalidCategoryType
    | InvalidOperationType
    | AccountIdRequired
    | CategoryIdRequired
    | NonPositiveAmount
    | DateRequired
    | CategoryIsIncome(categoryName: string, opKind: string)
    | CategoryIsExpense(categoryName: string, opKind: string)
    | UnsupportedCategoryType(categoryKind: string)
    | UnknownOperationType(opKind: string)
    | AccountNameEmpty
    | CategoryNameEmpty
    | AccountHasOperations
    | CategoryHasOperations
    | PeriodEndBeforeStart

  datatype Error =
    | NotFound(entity: Entity, id: string)
      /** the storage file exists but cannot be opened */
    | OpenFailed
      /** the storage file holds something that is not a snapshot */
    | DecodeFailed
      /** the storage file cannot be created for writing */
    | CreateFailed
      /** the proxy's one-time load failed while listing `entity` */
    | LoadFailed(entity: Entity, cause: Error)
      /** the random source behind UUID generation failed */
    | RandomFailed
      /** the id generator failed while the factory built an `entity` */
    | IdFailed(entity: Entity, cause: Error)
    | Rejected(reason: Reason)

  datatype Result<+T> = Ok(value: T) | Err(error: Error) {
    predicate IsFailure() { Err? }
    function PropagateFailure<U>(): Result<U>
      requires Err?
    {
      Err(error)
    }
    function Extract(): T
      requires Ok?
    {
      value
    }
  }

  /** The result of a call that returns only an error or nothing. */
  datatype Outcome = Pass | Fail(error: Error)

  datatype Option<+T> = None | Some(value: T)

  /** The number and RFC 3339 time parsers the importers call; None stands for a syntax
      error, which the importers swallow. Go's float parser also yields NaN for "NaN",
      plus or minus infinity for "Inf" and for out-of-range text (a range error that is
      swallowed too); reals have no such values, so a parser here returns only finite
      numbers or None. */
  datatype Parsers = Parsers(number: string -> Option<real>, time: string -> Option<int>)

  /** The parsed number, or 0 on a syntax error (where Go's parser also returns 0). */
  function NumberOr0(p: Parsers, s: string): real {
    match p.number(s)
    case Some(x) => x
    case None => 0.0
  }

  /** The parsed timestamp, or the zero time when parsing fails. */
  function TimeOr0(p: Parsers, s: string): int {
    match p.time(s)
    case Some(t) => t
    case None => 0
  }
}
