# A verified model of the hw2 ledger core

The ledger keeps bank accounts, income/expense categories and operations. An operation
moves money into or out of one account under one category. This project models its core
in Dafny:

- **Storage.** `FileRepository` keeps the whole snapshot (accounts, categories,
  operations) in one file. Every write loads the file, changes one collection and saves it
  back. `ProxyRepository` sits in front of it. On first use it loads the three collections
  into ID-keyed maps. It serves reads from those maps. Each write goes to the file first
  and then to the maps.
- **Import.** The CSV importer turns the rows of an exported table into a snapshot. The
  YAML importer is a line-by-line reader with a current section and a current record.
- **Creation.** `DomainFactory` validates the inputs of each entity before it asks for a
  fresh ID. It formats version-4 UUIDs from 16 random bytes.
- **Facades.** The account, category, operation and analytics facades are the use cases
  on top of the proxy. Adding, editing and deleting an operation keeps the balance of the
  account in step. A delete is refused while operations still reference the entity. The
  analytics sum in-period amounts, grouped by category name.

## Modules

| file | module | models |
|---|---|---|
| `models.dfy` | `Models` | the entities, the snapshot, errors, the `Parsers` stand-in for number and date parsing |
| `text.dfy` | `Text` | Go's `strings.TrimSpace`, `strings.Split` on newlines, `strings.Index` |
| `keyed.dfy` | `Keyed` | first-match scans, the ID index of a slice, map listings, order-free sums |
| `file_repository.dfy` | `FileStore` | the file as a value, decode, the nine single-entity writes, `withData`, the `FileRepository` class |
| `proxy_repository.dfy` | `ProxyStore` | the lazy load, the cache maps, the store-then-cache writes, the `ProxyRepository` class |
| `csv_importer.dfy` | `CsvImport` | the row filter and the column mapping |
| `yaml_importer.dfy` | `YamlImport` | `splitKeyValue`, `unquote`, `flush` and the line loop |
| `factory.dfy` | `Factory`, `Uuid` | the three factory methods; UUID stamping and hexadecimal layout |
| `accounts.dfy`, `categories.dfy`, `operations.dfy`, `analytics.dfy` | `Accounts`, `Categories`, `Operations`, `Analytics` | the four facades |

### Modelling choices

- **Repositories.**
  - The file's contents are a `Disk` value: absent, blank, unreadable, garbled, or holding
    a snapshot. A flag says whether the file can be created for writing.
  - The repositories are classes. Their methods modify the file and the cache maps.
  - `withData` is the function `Commit`. Each `FileRepository` write is proved to leave
    exactly the result and the file that `Commit` gives.
  - Each `ProxyRepository` write is proved against `Applied`. That is the store's
    `Commit`, then the cache update only when both the store and the lazy load passed.
  - The proxy has an invariant for the case where the load passed and IDs are unique: the
    maps are the ID index of what the file holds.
- **Facades.** Each facade holds the concrete proxy, so a facade call can be stated over
  the proxy's tables. The tables are what the proxy serves: accounts, categories and
  operations keyed by ID.
- **Amounts and dates.** Amounts are `real`. Dates are `int` and the zero date is `0`.
- **Parsing.** `strconv.ParseFloat` and `time.Parse` are the `Parsers` parameter. A
  syntax error gives `0` (the zero time for dates), as the importers do. Out-of-range
  number text gives plus or minus infinity in the code, which the model cannot express.
- **ID generation.** The outcome of the ID generator is a parameter. The UUID generator is
  modelled separately, over the 16 bytes the random source gives.

### Behaviour worth knowing

- **Failed lazy load.** Once the lazy load has failed, reads return the remembered load
  error. Writes call the file repository first and only then consult the remembered
  outcome. So a write after a failed load still changes the file, then returns the load
  error. `ProxyStore.ProxyRepository.LoadRefused` states this.
- **No duplicate-ID check.** No create checks for a duplicate ID: the file repository
  appends, and the cache overwrites. Duplicates can come from a create with an existing ID
  or from `ReplaceAll`.
  - `ProxyStore.DuplicateIdsBreakMirror` exhibits two stored accounts sharing an ID. After
    a delete the file still serves the second account while the cache has forgotten it.
  - Every statement that the cache mirrors the file therefore assumes unique IDs and fresh
    creates.
- **Saving truncates first.** The model treats a save as all or nothing: it stores the
  whole snapshot or, when the file cannot be created, leaves the file as it was. The code
  instead creates (and so empties) the file before encoding. An encode that fails, as it
  does on a NaN or infinite amount, therefore leaves an empty file, which the next load
  reads as the empty snapshot while the proxy keeps serving its old maps. The model has no
  such amounts (see "## Left out"), so it does not reach this path.
- **`ReplaceAll` after a failed load.** The proxy's `ReplaceAll` replaces the file, then
  runs the lazy load. When a remembered load failure exists, the call returns it and the
  maps are not rebuilt.
- **Facade writes are not transactions.** The operation facade's writes run one after
  the other, and a refused later write leaves the earlier ones in the file and the cache.
  `Operations.Then`, `Booking`, `Editing` and `Dropping` describe each path.

## Model

| member | source | states |
|---|---|---|
| Text.TrimSpace | homework/hw2-lushenkov/internal/services/importers/yaml_importer.go:63 | the result is the input with its leading and trailing Go white space removed: a contiguous slice, empty exactly when the input is blank, otherwise starting and ending with a non-space |
| Text.TrimSpaceIdempotent | homework/hw2-lushenkov/internal/services/importers/yaml_importer.go:75 | trimming an already trimmed text changes nothing |
| Text.IndexOf | homework/hw2-lushenkov/internal/services/importers/yaml_importer.go:92 | the position of the first occurrence of the character, or the length when there is none |
| Text.SplitLines | homework/hw2-lushenkov/internal/services/importers/yaml_importer.go:23 | splitting at newlines always yields at least one line |
| Text.SplitLinesJoin | homework/hw2-lushenkov/internal/services/importers/yaml_importer.go:23 | joining the pieces of a split with newlines gives the text back, and no piece holds a newline |
| Text.JoinLinesSplit | homework/hw2-lushenkov/internal/services/importers/yaml_importer.go:23 | splitting a join of newline-free lines gives the lines back |
| Keyed.FindFirst | homework/hw2-lushenkov/internal/services/repository/file_repository.go:39-44 | the scan returns the position of the first entry with the ID, or the length when there is none |
| Keyed.ReplaceFirst | homework/hw2-lushenkov/internal/services/repository/file_repository.go:57-62 | same length and same IDs; only the first entry keyed like the new value is replaced by it, every other entry and the order are kept |
| Keyed.RemoveFirst | homework/hw2-lushenkov/internal/services/repository/file_repository.go:69-74 | with no match the sequence is unchanged; otherwise it is one shorter, the entries before the first match are kept and those after it move up by one |
| Keyed.Index | homework/hw2-lushenkov/internal/services/repository/proxy_repository.go:47-58 | every key of the map built by the load loop holds an entity carrying that key |
| Keyed.BuildIndex | homework/hw2-lushenkov/internal/services/repository/proxy_repository.go:47-58 | the loop `m[e.ID] = e` builds exactly the index of the listed entities, later duplicates overwriting earlier ones |
| Keyed.IndexAppend | homework/hw2-lushenkov/internal/services/repository/proxy_repository.go:47-58 | indexing one more entity is the old index updated at that entity's ID |
| Keyed.IndexKeys | homework/hw2-lushenkov/internal/services/repository/proxy_repository.go:47-58 | an ID is a key of the index exactly when some listed entity carries it |
| Keyed.IndexUnique | homework/hw2-lushenkov/internal/services/repository/proxy_repository.go:47-58 | with unique IDs every listed entity is what the index holds under its ID |
| Keyed.IndexReplaceFirstOverride | homework/hw2-lushenkov/internal/services/repository/proxy_repository.go:103-114 | replacing the first match in the store and writing the entity into the cache agree, whatever duplicates the store holds |
| Keyed.IndexRemoveFirstOverride | homework/hw2-lushenkov/internal/services/repository/proxy_repository.go:116-127 | removing the first match from the store and deleting the key from the cache agree on every other key, whatever duplicates the store holds |
| Keyed.IndexReplaceFirstUnique | homework/hw2-lushenkov/internal/services/repository/file_repository.go:55-65 | with unique IDs, replacing the first match changes the index only at that ID |
| Keyed.IndexRemoveFirstUnique | homework/hw2-lushenkov/internal/services/repository/file_repository.go:67-77 | with unique IDs, removing the first match removes exactly that key from the index |
| Keyed.UniqueReplaceFirst | homework/hw2-lushenkov/internal/services/repository/file_repository.go:55-65 | an update keeps IDs unique |
| Keyed.UniqueRemoveFirst | homework/hw2-lushenkov/internal/services/repository/file_repository.go:67-77 | a delete keeps IDs unique |
| Keyed.UniqueAppend | homework/hw2-lushenkov/internal/services/repository/file_repository.go:48-53 | a create keeps IDs unique when its ID is new |
| Keyed.Values | homework/hw2-lushenkov/internal/services/repository/proxy_repository.go:69-73 | the listing loop over a map returns each value exactly once, in some order |
| Keyed.EnumeratesLength | homework/hw2-lushenkov/internal/services/repository/proxy_repository.go:69-73 | a listing has one element per key |
| Keyed.EnumeratesMembers | homework/hw2-lushenkov/internal/services/repository/proxy_repository.go:69-73 | every listed element is the map's value under its ID, every value is listed, and no ID is listed twice |
| Keyed.EnumeratesIndex | homework/hw2-lushenkov/internal/services/analytics_facade.go:64-67 | re-indexing a listing of a map by ID gives the map back |
| Keyed.SumOfEnumerates | homework/hw2-lushenkov/internal/services/analytics_facade.go:36-47 | summing over any listing order of the operations gives the same order-free total |
| Keyed.SumMapUpdate | homework/hw2-lushenkov/internal/services/account_facade.go:76-87 | adding or replacing one value moves the order-free total by the difference of its contributions |
| Keyed.EnumeratesReferenced | homework/hw2-lushenkov/internal/services/account_facade.go:53-57 | scanning a listing finds an operation referencing the ID exactly when the served operations hold one |
| Keyed.EnumeratesSome | homework/hw2-lushenkov/internal/services/analytics_facade.go:70-86 | scanning a listing finds a value with a property exactly when the map holds one |
| FileStore.Decode | homework/hw2-lushenkov/internal/services/repository/file_repository.go:214-232 | a missing or empty file loads as the empty snapshot, a file that holds a snapshot loads as it; a file that cannot be opened or decoded is an error, and only those are |
| FileStore.UpdateIn | homework/hw2-lushenkov/internal/services/repository/file_repository.go:55-65 | succeeds exactly when some entry has the ID, then the first such entry is replaced; otherwise NotFound for that ID |
| FileStore.DeleteIn | homework/hw2-lushenkov/internal/services/repository/file_repository.go:67-77 | succeeds exactly when some entry has the ID, then the first such entry is removed and the collection is one shorter; otherwise NotFound |
| FileStore.Mutate | homework/hw2-lushenkov/internal/services/repository/file_repository.go:48-183 | a create always succeeds and appends at the end with no duplicate check; each write changes only its own collection |
| FileStore.Commit | homework/hw2-lushenkov/internal/services/repository/file_repository.go:192-206 | withData saves only when the load and the mutation both succeed and the file can be created; every failure leaves the file as it was and returns the first error; after a save the file loads as the mutated snapshot |
| FileStore.MutatePreservesUniqueIds | homework/hw2-lushenkov/internal/services/repository/file_repository.go:48-183 | updates and deletes keep IDs unique, and so does a create with a new ID |
| FileStore.FindIn | homework/hw2-lushenkov/internal/services/repository/file_repository.go:34-46 | returns the first entry with the ID exactly when there is one, otherwise NotFound |
| FileStore.FileRepository.constructor | homework/hw2-lushenkov/internal/services/repository/file_repository.go:21-24 | the repository is bound to the given file |
| FileStore.FileRepository.LoadUnsafe | homework/hw2-lushenkov/internal/services/repository/file_repository.go:214-232 | returns the decoded file and writes nothing |
| FileStore.FileRepository.SaveUnsafe | homework/hw2-lushenkov/internal/services/repository/file_repository.go:234-247 | overwrites the file with the snapshot when it can be created, otherwise fails and leaves the file |
| FileStore.FileRepository.ListAccounts | homework/hw2-lushenkov/internal/services/repository/file_repository.go:26-32 | the stored accounts in stored order, or the load error; storage untouched |
| FileStore.FileRepository.GetAccount | homework/hw2-lushenkov/internal/services/repository/file_repository.go:34-46 | the first stored account with the ID, NotFound, or the load error; storage untouched |
| FileStore.FileRepository.CreateAccount | homework/hw2-lushenkov/internal/services/repository/file_repository.go:48-53 | outcome and file are the commit of appending the account |
| FileStore.FileRepository.UpdateAccount | homework/hw2-lushenkov/internal/services/repository/file_repository.go:55-65 | outcome and file are the commit of replacing the first account with the ID |
| FileStore.FileRepository.DeleteAccount | homework/hw2-lushenkov/internal/services/repository/file_repository.go:67-77 | outcome and file are the commit of removing the first account with the ID |
| FileStore.FileRepository.ListCategories | homework/hw2-lushenkov/internal/services/repository/file_repository.go:79-85 | the stored categories in stored order, or the load error |
| FileStore.FileRepository.GetCategory | homework/hw2-lushenkov/internal/services/repository/file_repository.go:87-99 | the first stored category with the ID, NotFound, or the load error |
| FileStore.FileRepository.CreateCategory | homework/hw2-lushenkov/internal/services/repository/file_repository.go:101-106 | outcome and file are the commit of appending the category |
| FileStore.FileRepository.UpdateCategory | homework/hw2-lushenkov/internal/services/repository/file_repository.go:108-118 | outcome and file are the commit of replacing the first category with the ID |
| FileStore.FileRepository.DeleteCategory | homework/hw2-lushenkov/internal/services/repository/file_repository.go:120-130 | outcome and file are the commit of removing the first category with the ID |
| FileStore.FileRepository.ListOperations | homework/hw2-lushenkov/internal/services/repository/file_repository.go:132-138 | the stored operations in stored order, or the load error |
| FileStore.FileRepository.GetOperation | homework/hw2-lushenkov/internal/services/repository/file_repository.go:140-152 | the first stored operation with the ID, NotFound, or the load error |
| FileStore.FileRepository.CreateOperation | homework/hw2-lushenkov/internal/services/repository/file_repository.go:154-159 | outcome and file are the commit of appending the operation |
| FileStore.FileRepository.UpdateOperation | homework/hw2-lushenkov/internal/services/repository/file_repository.go:161-171 | outcome and file are the commit of replacing the first operation with the ID |
| FileStore.FileRepository.DeleteOperation | homework/hw2-lushenkov/internal/services/repository/file_repository.go:173-183 | outcome and file are the commit of removing the first operation with the ID |
| FileStore.FileRepository.ReplaceAll | homework/hw2-lushenkov/internal/services/repository/file_repository.go:185-190 | stores exactly the given snapshot whatever the file held, without loading it first, unless the file cannot be created |
| ProxyStore.FindKey | homework/hw2-lushenkov/internal/services/repository/proxy_repository.go:82-87 | a cache lookup yields the entry exactly when the ID is a key, otherwise NotFound |
| ProxyStore.Accepts | homework/hw2-lushenkov/internal/services/repository/proxy_repository.go:90-127 | on tables that mirror the file, a create always passes and an update or delete passes exactly when its ID is served |
| ProxyStore.AcceptsMutate | homework/hw2-lushenkov/internal/services/repository/file_repository.go:55-77 | the store refuses a write exactly when the cache built from the same snapshot lacks the ID, with the same NotFound error; a create is new in the store exactly when it is new in the cache |
| ProxyStore.CacheWriteKeyed | homework/hw2-lushenkov/internal/services/repository/proxy_repository.go:97-127 | writing the cache keeps every entry under its own ID |
| ProxyStore.LookupAfterWrite | homework/hw2-lushenkov/internal/services/repository/proxy_repository.go:76-127 | after a create or update a lookup of the ID yields exactly the written entity, after a delete NotFound; other keys are unaffected |
| ProxyStore.CacheWriteAbsorbs | homework/hw2-lushenkov/internal/services/repository/proxy_repository.go:90-101 | when the lazy load runs after the store took a write, applying the write again to the freshly loaded maps gives the same maps as applying it to the maps of the earlier snapshot |
| ProxyStore.IndexSnapshotMutate | homework/hw2-lushenkov/internal/services/repository/proxy_repository.go:90-127 | with unique IDs, the cache write of a mutation is exactly the index of the mutated snapshot |
| ProxyStore.FindKeyIndex | homework/hw2-lushenkov/internal/services/repository/proxy_repository.go:76-88 | with unique IDs a cache lookup returns what the store's first-match lookup returns |
| ProxyStore.DuplicateIdsBreakMirror | homework/hw2-lushenkov/internal/services/repository/proxy_repository.go:116-127 | with two stored accounts sharing an ID, a delete removes only the first from the file while the cache forgets the ID; the file still serves the second |
| ProxyStore.ReplayMirrors | homework/hw2-lushenkov/internal/services/repository/proxy_repository.go:90-259 | replaying any successful run of writes on a cache that indexes a unique-ID snapshot, with every create fresh, ends with the index of the resulting snapshot, whose IDs are still unique |
| ProxyStore.ProxyRepository.ViewKeyed | homework/hw2-lushenkov/internal/services/repository/proxy_repository.go:47-58 | whatever the proxy serves keeps every entry under its own ID |
| ProxyStore.ProxyRepository.WriteAfter | homework/hw2-lushenkov/internal/services/repository/proxy_repository.go:90-259 | every single-entity write, on every path, leaves the file, the outcome, the served tables and the invariants as the write contract says |
| ProxyStore.ProxyRepository.BaseRefused | homework/hw2-lushenkov/internal/services/repository/proxy_repository.go:91-93 | a write the store refused returns its error and changes neither the file nor what is served |
| ProxyStore.ProxyRepository.LoadRefused | homework/hw2-lushenkov/internal/services/repository/proxy_repository.go:94-96 | with a failed load the store still takes the write, yet the remembered load error is returned and what is served is unchanged |
| ProxyStore.ProxyRepository.Absorbed | homework/hw2-lushenkov/internal/services/repository/proxy_repository.go:97-100 | after the store took the write and the load passed, the served tables are the old ones with the write applied |
| ProxyStore.ProxyRepository.constructor | homework/hw2-lushenkov/internal/services/repository/proxy_repository.go:23-26 | a fresh proxy over the given store is unloaded and serves what the file holds |
| ProxyStore.ProxyRepository.EnsureLoaded | homework/hw2-lushenkov/internal/services/repository/proxy_repository.go:28-61 | the first call indexes the listed collections or remembers the failure; every later call returns the same remembered outcome and changes nothing; what is served never changes |
| ProxyStore.ProxyRepository.ListAccounts | homework/hw2-lushenkov/internal/services/repository/proxy_repository.go:63-74 | one element per cached account, in some order, or the load error; nothing served changes |
| ProxyStore.ProxyRepository.GetAccount | homework/hw2-lushenkov/internal/services/repository/proxy_repository.go:76-88 | the cached account under the ID, NotFound, or the load error |
| ProxyStore.ProxyRepository.CreateAccount | homework/hw2-lushenkov/internal/services/repository/proxy_repository.go:90-101 | store first; the cache is written only when the store and the load passed; coherence and unique IDs are kept for a fresh ID |
| ProxyStore.ProxyRepository.UpdateAccount | homework/hw2-lushenkov/internal/services/repository/proxy_repository.go:103-114 | store first; the cache entry becomes the account only when the store and the load passed; coherence is kept |
| ProxyStore.ProxyRepository.DeleteAccount | homework/hw2-lushenkov/internal/services/repository/proxy_repository.go:116-127 | store first; the cache key is deleted only when the store and the load passed; coherence is kept |
| ProxyStore.ProxyRepository.ListCategories | homework/hw2-lushenkov/internal/services/repository/proxy_repository.go:129-140 | one element per cached category, in some order, or the load error |
| ProxyStore.ProxyRepository.GetCategory | homework/hw2-lushenkov/internal/services/repository/proxy_repository.go:142-154 | the cached category under the ID, NotFound, or the load error |
| ProxyStore.ProxyRepository.CreateCategory | homework/hw2-lushenkov/internal/services/repository/proxy_repository.go:156-167 | store first, then the cache, as for accounts |
| ProxyStore.ProxyRepository.UpdateCategory | homework/hw2-lushenkov/internal/services/repository/proxy_repository.go:169-180 | store first, then the cache, as for accounts |
| ProxyStore.ProxyRepository.DeleteCategory | homework/hw2-lushenkov/internal/services/repository/proxy_repository.go:182-193 | store first, then the cache, as for accounts |
| ProxyStore.ProxyRepository.ListOperations | homework/hw2-lushenkov/internal/services/repository/proxy_repository.go:195-206 | one element per cached operation, in some order, or the load error |
| ProxyStore.ProxyRepository.GetOperation | homework/hw2-lushenkov/internal/services/repository/proxy_repository.go:208-220 | the cached operation under the ID, NotFound, or the load error |
| ProxyStore.ProxyRepository.CreateOperation | homework/hw2-lushenkov/internal/services/repository/proxy_repository.go:222-233 | store first, then the cache, as for accounts |
| ProxyStore.ProxyRepository.UpdateOperation | homework/hw2-lushenkov/internal/services/repository/proxy_repository.go:235-246 | store first, then the cache, as for accounts |
| ProxyStore.ProxyRepository.DeleteOperation | homework/hw2-lushenkov/internal/services/repository/proxy_repository.go:248-259 | store first, then the cache, as for accounts |
| ProxyStore.ProxyRepository.ReplaceAll | homework/hw2-lushenkov/internal/services/repository/proxy_repository.go:261-284 | the store holds the snapshot if the file can be created; then, unless the remembered load failed, the maps are rebuilt from the snapshot alone and mirror the file; on failure what is served is unchanged |
| CsvImport.RowsOf | homework/hw2-lushenkov/internal/services/importers/csv_importer.go:33-38 | keeps only the rows of one kind that have at least 10 fields; RowsOfConcat, RowsOfSingle and RowsOfKeeps give completeness and order |
| CsvImport.AccountsOf | homework/hw2-lushenkov/internal/services/importers/csv_importer.go:39-45 | one account per qualifying account row, in row order, from columns 1, 2 and 4 |
| CsvImport.CategoriesOf | homework/hw2-lushenkov/internal/services/importers/csv_importer.go:46-51 | one category per qualifying category row, in row order, from columns 1, 2 and 3 |
| CsvImport.OperationsOf | homework/hw2-lushenkov/internal/services/importers/csv_importer.go:52-63 | one operation per qualifying operation row, in row order, from columns 1, 3, 5, 6, 7, 8 and 9 |
| CsvImport.Import | homework/hw2-lushenkov/internal/services/importers/csv_importer.go:29-66 | no rows give the empty snapshot; otherwise the rows after the first become the three collections |
| CsvImport.ImportConcat | homework/hw2-lushenkov/internal/services/importers/csv_importer.go:33-65 | importing two runs of rows one after the other concatenates what each yields |
| CsvImport.HeaderIgnored | homework/hw2-lushenkov/internal/services/importers/csv_importer.go:33 | the first row is never read: any header gives the same snapshot |
| CsvImport.OtherRowsIgnored | homework/hw2-lushenkov/internal/services/importers/csv_importer.go:34-64 | a row shorter than 10 fields or of no known kind adds nothing |
| YamlImport.SplitKeyValueFirstColon | homework/hw2-lushenkov/internal/services/importers/yaml_importer.go:91-99 | only the first ':' splits; both parts are trimmed and the value keeps any further colons |
| YamlImport.SplitKeyValueNoColon | homework/hw2-lushenkov/internal/services/importers/yaml_importer.go:91-99 | a line without ':' yields the trimmed line and an empty value |
| YamlImport.SplitKeyValueRendered | homework/hw2-lushenkov/internal/services/importers/yaml_importer.go:91-99 | a `key: value` line splits back into its trimmed key and value |
| YamlImport.Unquote | homework/hw2-lushenkov/internal/services/importers/yaml_importer.go:101-107 | the trimmed value without one pair of matching surrounding quotes when it has at least two characters, otherwise the trimmed value |
| YamlImport.UnquoteQuoted | homework/hw2-lushenkov/internal/services/importers/yaml_importer.go:101-107 | quoting any text with either quote and unquoting it gives the text back |
| YamlImport.Flush | homework/hw2-lushenkov/internal/services/importers/yaml_importer.go:28-60 | with no open record or no section nothing changes; otherwise the record is closed and appended to the collection the section names, the other collections unchanged, ids and types as written, names and descriptions unquoted |
| YamlImport.Import | homework/hw2-lushenkov/internal/services/importers/yaml_importer.go:18-89 | the line loop followed by a final flush |
| YamlImport.RunIgnoresBlankLines | homework/hw2-lushenkov/internal/services/importers/yaml_importer.go:62-66 | dropping every blank or white-space-only line gives the same result |
| YamlImport.RunOnlyAppends | homework/hw2-lushenkov/internal/services/importers/yaml_importer.go:62-86 | entities are only appended: the data before any lines is a prefix of the data after them |
| YamlImport.StepOnlyAppends | homework/hw2-lushenkov/internal/services/importers/yaml_importer.go:62-86 | one line only ever appends to each collection |
| YamlImport.StepHeader | homework/hw2-lushenkov/internal/services/importers/yaml_importer.go:67-71 | a `name:` line flushes the open record and makes `name` the section |
| YamlImport.StepRecordStart | homework/hw2-lushenkov/internal/services/importers/yaml_importer.go:72-81 | a `- key: value` line flushes the open record and opens a new one holding that pair |
| YamlImport.StepKeyValue | homework/hw2-lushenkov/internal/services/importers/yaml_importer.go:82-85 | a `key: value` line is stored in the open record, overwriting an earlier value of the key; with no record open it changes nothing |
| YamlImport.EmptyValueKeyEndsRecord | homework/hw2-lushenkov/internal/services/importers/yaml_importer.go:67-71 | a key with an empty value inside a record is read as a section header: the record is flushed and later key/value lines are dropped |
| YamlImport.RecordBeforeHeaderJoinsNextSection | homework/hw2-lushenkov/internal/services/importers/yaml_importer.go:28-31 | a record opened before any header stays open across the first header and is filed under that section |
| Factory.CreateBankAccount | homework/hw2-lushenkov/internal/domain/factory/factory.go:38-50 | a blank name is refused first, then a generator failure, then a negative balance; on success the account keeps the untrimmed name and the balance under the generated ID |
| Factory.CreateCategory | homework/hw2-lushenkov/internal/domain/factory/factory.go:53-65 | a blank name, then a type other than income or expense, are refused before the generator is consulted; on success the category keeps name and type under the generated ID |
| Factory.OperationDefect | homework/hw2-lushenkov/internal/domain/factory/factory.go:69-83 | the checks in order: type, account ID, category ID, positive amount, non-zero date; the first failing one is reported |
| Factory.CreateOperation | homework/hw2-lushenkov/internal/domain/factory/factory.go:68-97 | the first defect wins, then a generator failure; on success every field is as given except the trimmed description |
| Factory.RefusalIgnoresGenerator | homework/hw2-lushenkov/internal/domain/factory/factory.go:39-41 | a refusal before the generator call is the same whatever the generator would return |
| Factory.OperationRefusalIgnoresGenerator | homework/hw2-lushenkov/internal/domain/factory/factory.go:69-83 | an operation defect is reported whatever the generator would return |
| Factory.GeneratorFailureMasksBalance | homework/hw2-lushenkov/internal/domain/factory/factory.go:42-48 | for a negative balance a generator failure is reported instead of the balance error |
| Uuid.HexDigit | homework/hw2-lushenkov/internal/domain/factory/factory.go:108-116 | a value below 16 becomes a lower-case hexadecimal digit |
| Uuid.DigitValue | homework/hw2-lushenkov/internal/domain/factory/factory.go:108-116 | reading a lower-case digit gives the value it encodes |
| Uuid.DigitRoundTrip | homework/hw2-lushenkov/internal/domain/factory/factory.go:108-116 | reading back a written digit gives its value |
| Uuid.Hex | homework/hw2-lushenkov/internal/domain/factory/factory.go:108-116 | two lower-case digits per byte, high nibble first |
| Uuid.ByteRoundTrip | homework/hw2-lushenkov/internal/domain/factory/factory.go:108-116 | the two digits of a byte read back as that byte |
| Uuid.UnhexHex | homework/hw2-lushenkov/internal/domain/factory/factory.go:108-116 | decoding the hexadecimal encoding gives the bytes back |
| Uuid.Stamp | homework/hw2-lushenkov/internal/domain/factory/factory.go:104-106 | the high nibble of byte 6 becomes 4 and the top two bits of byte 8 become 10; the other bits of those bytes and every other byte are kept |
| Uuid.UuidLayout | homework/hw2-lushenkov/internal/domain/factory/factory.go:107-117 | 36 characters with '-' at 8, 13, 18 and 23 only, lower-case hexadecimal digits elsewhere |
| Uuid.UuidVersionAndVariant | homework/hw2-lushenkov/internal/domain/factory/factory.go:104-106 | after stamping, character 14 is '4' and character 19 is one of 8, 9, a, b |
| Uuid.UuidRoundTrip | homework/hw2-lushenkov/internal/domain/factory/factory.go:107-117 | the bytes read back from the text are the bytes written |
| Uuid.EncodeHex | homework/hw2-lushenkov/internal/domain/factory/factory.go:108-116 | hex.Encode writes the digits of the source at the offset and leaves the rest of the buffer as it was |
| Uuid.WriteGroup | homework/hw2-lushenkov/internal/domain/factory/factory.go:108-116 | each group step extends the prefix of the buffer that agrees with the UUID text |
| Uuid.Format | homework/hw2-lushenkov/internal/domain/factory/factory.go:107-117 | the filled buffer is the UUID text of the bytes |
| Uuid.NewUuid | homework/hw2-lushenkov/internal/domain/factory/factory.go:99-118 | a random-source failure is an error; otherwise the text of the stamped bytes |
| Accounts.RecalculatedAdd | homework/hw2-lushenkov/internal/services/account_facade.go:76-87 | an operation of another account does not move the recomputed balance; one of the account moves it by its signed amount |
| Accounts.Rebalance | homework/hw2-lushenkov/internal/services/account_facade.go:76-87 | the loop total is the sum, over the listed operations of the account, of income amounts minus expense amounts, starting from 0 |
| Accounts.AccountFacade.constructor | homework/hw2-lushenkov/internal/services/account_facade.go:18-20 | the facade works on the given repository |
| Accounts.AccountFacade.CreateAccount | homework/hw2-lushenkov/internal/services/account_facade.go:23-32 | a factory refusal writes nothing; otherwise the account goes through the repository's create and is returned when it passes |
| Accounts.AccountFacade.UpdateAccountName | homework/hw2-lushenkov/internal/services/account_facade.go:35-45 | a missing account is reported first, then only the exact empty name is refused, both with nothing written; the write changes the name and nothing else |
| Accounts.AccountFacade.DeleteAccount | homework/hw2-lushenkov/internal/services/account_facade.go:48-59 | refused with nothing written while any served operation references the account; otherwise the repository's delete |
| Accounts.AccountFacade.ListAccounts | homework/hw2-lushenkov/internal/services/account_facade.go:61-64 | the repository's listing unchanged |
| Accounts.AccountFacade.RecalculateBalance | homework/hw2-lushenkov/internal/services/account_facade.go:67-90 | a missing account is reported with nothing written; otherwise only the balance changes, to the income-minus-expense sum of the account's operations |
| Categories.CategoryFacade.constructor | homework/hw2-lushenkov/internal/services/category_facade.go:18-20 | the facade works on the given repository |
| Categories.CategoryFacade.CreateCategory | homework/hw2-lushenkov/internal/services/category_facade.go:23-32 | a factory refusal writes nothing; otherwise the category goes through the repository's create and is returned when it passes |
| Categories.CategoryFacade.UpdateCategoryName | homework/hw2-lushenkov/internal/services/category_facade.go:35-45 | the empty name is refused before any lookup, a missing category next, both with nothing written; the write changes only the name |
| Categories.CategoryFacade.DeleteCategory | homework/hw2-lushenkov/internal/services/category_facade.go:48-59 | refused with nothing written while any served operation links to the category; otherwise the repository's delete |
| Operations.CategoryAdmits | homework/hw2-lushenkov/internal/services/operation_facade.go:94-105 | an income category admits only income, an expense category only expense, any other category type is an error |
| Operations.Shift | homework/hw2-lushenkov/internal/services/operation_facade.go:114-125 | applying income adds the amount and expense subtracts it, reverting does the opposite; an unknown type yields nothing |
| Operations.ShiftUndo | homework/hw2-lushenkov/internal/services/operation_facade.go:114-125 | reverting undoes applying, and the other way round |
| Operations.Effect | homework/hw2-lushenkov/internal/services/operation_facade.go:109-127 | the account write the effect makes exactly when the account is served and the type known, else NotFound or the unknown-type error |
| Operations.AddCheck | homework/hw2-lushenkov/internal/services/operation_facade.go:24-34 | the operation AddOperation would store, only once the category, the account and the factory all passed |
| Operations.BookStep | homework/hw2-lushenkov/internal/services/operation_facade.go:35-40 | storing the operation leaves the accounts alone, so the effect write that follows is accepted |
| Operations.EditCheck | homework/hw2-lushenkov/internal/services/operation_facade.go:45-55 | the stored operation, only once it, the category and the account are found |
| Operations.EditStep | homework/hw2-lushenkov/internal/services/operation_facade.go:57-69 | the revert leaves the operations alone and the update and re-apply that follow are accepted |
| Operations.BookedReconciled | homework/hw2-lushenkov/internal/services/operation_facade.go:24-42 | booking an operation with a new ID keeps every balance equal to its recalculated value |
| Operations.DroppedReconciled | homework/hw2-lushenkov/internal/services/operation_facade.go:73-82 | deleting an operation and reverting its effect keeps every balance equal to its recalculated value |
| Operations.EditIsDropThenBook | homework/hw2-lushenkov/internal/services/operation_facade.go:45-70 | an edit that keeps the ID is a delete of the stored operation followed by booking its replacement |
| Operations.EditedReconciled | homework/hw2-lushenkov/internal/services/operation_facade.go:45-70 | editing an operation keeps every balance equal to its recalculated value |
| Operations.BookThenDropRestores | homework/hw2-lushenkov/internal/services/operation_facade.go:24-82 | deleting a freshly booked operation restores the tables exactly |
| Operations.OperationFacade.constructor | homework/hw2-lushenkov/internal/services/operation_facade.go:19-21 | the facade works on the given repository |
| Operations.OperationFacade.EnsureCategoryMatches | homework/hw2-lushenkov/internal/services/operation_facade.go:89-107 | the category must be served and admit the type; reads only |
| Operations.OperationFacade.ApplyEffect | homework/hw2-lushenkov/internal/services/operation_facade.go:109-127 | the account's balance moves by the signed amount, against it when reverting, and is written back; an unknown type or a missing account writes nothing; the proxy ends where the ThenEffect step does |
| Operations.OperationFacade.AddOperation | homework/hw2-lushenkov/internal/services/operation_facade.go:24-42 | any failed check writes nothing; otherwise proxy and file end exactly where Booking does on every path: a refused store write changes nothing, a refused effect write leaves the operation stored and the balances as they were, success books it with balances reconciled |
| Operations.OperationFacade.UpdateOperation | homework/hw2-lushenkov/internal/services/operation_facade.go:45-70 | failed lookups write nothing; otherwise proxy and file end exactly where Editing does: the old effect is reverted before the factory validates, so a refused edit leaves the revert persisted; every refused write keeps the earlier ones; the edited operation keeps its ID |
| Operations.OperationFacade.DeleteOperation | homework/hw2-lushenkov/internal/services/operation_facade.go:73-82 | a missing operation fails before any write; otherwise proxy and file end exactly where Dropping does: a refused delete changes nothing, a refused revert leaves the operation removed and the balances as they were |
| Analytics.ValidatePeriod | homework/hw2-lushenkov/internal/services/analytics_facade.go:115-120 | a period passes exactly when its end is not before its start |
| Analytics.InPeriod | homework/hw2-lushenkov/internal/services/analytics_facade.go:122-124 | inclusive at both ends |
| Analytics.NetAdd | homework/hw2-lushenkov/internal/services/analytics_facade.go:36-48 | one more operation moves the difference by its signed amount when it lies in the period, and not at all otherwise |
| Analytics.Totals | homework/hw2-lushenkov/internal/services/analytics_facade.go:36-47 | the loop's accumulators are the in-period income and expense sums of the listing |
| Analytics.TallyEntry | homework/hw2-lushenkov/internal/services/analytics_facade.go:70-86 | one pass creates the entry under a name exactly when the operation counts for it and adds its income and expense share |
| Analytics.GroupOfSums | homework/hw2-lushenkov/internal/services/analytics_facade.go:69-87 | a name has an entry exactly when some listed operation counts for it, and the entry holds the sums of those operations' income and expense amounts |
| Analytics.SameNameMerges | homework/hw2-lushenkov/internal/services/analytics_facade.go:78-85 | two categories sharing a name share one entry |
| Analytics.Group | homework/hw2-lushenkov/internal/services/analytics_facade.go:69-87 | the loop builds the per-name totals of the listing |
| Analytics.AnalyticsFacade.constructor | homework/hw2-lushenkov/internal/services/analytics_facade.go:23-25 | the facade works on the given repository |
| Analytics.AnalyticsFacade.Difference | homework/hw2-lushenkov/internal/services/analytics_facade.go:28-49 | a bad period is refused before any read; otherwise in-period income minus in-period expense over the served operations, in any order |
| Analytics.AnalyticsFacade.GroupByCategory | homework/hw2-lushenkov/internal/services/analytics_facade.go:52-88 | a bad period is refused before any read; otherwise one entry per category name that some in-period operation with a served category counts for, holding those operations' income and expense sums |
| Categories.CategoryFacade.ListCategories | homework/hw2-lushenkov/internal/services/category_facade.go:62-64 | the repository's listing unchanged: one element per served category, or the load error |
| Operations.OperationFacade.ListOperations | homework/hw2-lushenkov/internal/services/operation_facade.go:85-87 | the repository's listing unchanged: one element per served operation, or the load error |
| Keyed.FirstIndex | homework/hw2-lushenkov/internal/services/repository/file_repository.go:39-44 | the index of the first entry with the key, every entry before it keyed otherwise, or the length when none has it |
| Keyed.FirstIndexFound | homework/hw2-lushenkov/internal/services/repository/file_repository.go:39-45 | the scan stops inside the sequence exactly when some entry has the key |
| Text.TrimSpaceUnpadded | homework/hw2-lushenkov/internal/services/importers/yaml_importer.go:63 | a text that neither starts nor ends with white space is its own trim |
| YamlImport.StoreRendered | homework/hw2-lushenkov/internal/services/importers/yaml_importer.go:77-80 | the pair of a `key: value` line is the whole of a freshly opened record |
| ProxyStore.WriteKeeps | homework/hw2-lushenkov/internal/services/repository/proxy_repository.go:90-259 | a write the store took and the cache then absorbed keeps the cache serving the file, keeps IDs unique for a fresh create, and keeps the served tables sound |
| ProxyStore.Mirror | homework/hw2-lushenkov/internal/services/repository/proxy_repository.go:90-259 | the cache write after a store write agrees with the cache write on the earlier snapshot; with unique IDs it is the index of the new file, whose IDs stay unique for a fresh create |
| CsvImport.RowsOfConcat | homework/hw2-lushenkov/internal/services/importers/csv_importer.go:33-64 | filtering two runs of rows one after the other concatenates what each keeps, so kept rows stay in row order |
| CsvImport.RowsOfSingle | homework/hw2-lushenkov/internal/services/importers/csv_importer.go:34-38 | a single row is kept exactly when it has at least 10 fields and is of the kind |
| CsvImport.RowsOfKeeps | homework/hw2-lushenkov/internal/services/importers/csv_importer.go:34-38 | every qualifying row of the input is kept |
| YamlImport.StepBareDash | homework/hw2-lushenkov/internal/services/importers/yaml_importer.go:72-81 | a lone `-` line flushes the open record and opens an empty one |
| Operations.Then | homework/hw2-lushenkov/internal/services/operation_facade.go:35-40 | a step of a facade run is all or nothing: after a failed step nothing happens; a step passes exactly when the file commits the write, and then the file holds the mutated snapshot and the tables absorb the write; a refused step leaves file and tables as they were |
| Operations.BookingOrder | homework/hw2-lushenkov/internal/services/operation_facade.go:35-40 | a booking that completes leaves the tables Booked; when the store write passes and the effect write is refused, the file keeps the new operation and the balances are unchanged |
| Operations.EditingOrder | homework/hw2-lushenkov/internal/services/operation_facade.go:57-69 | a completed edit leaves the tables Edited; a factory refusal fails the edit after the revert, leaving the reverted balance when the revert passed |
| Operations.DroppingOrder | homework/hw2-lushenkov/internal/services/operation_facade.go:78-81 | a completed delete leaves the tables Dropped; when the delete passes and the revert is refused, the operation stays removed and the balances are unchanged |
| Operations.AfterIsThen | homework/hw2-lushenkov/internal/services/repository/proxy_repository.go:90-259 | a proxy write from served tables is one step of a facade run: outcome, file and tables agree with Then |

## Left out

- The `Repository` interface: the proxy holds a concrete `FileRepository` and the facades hold a concrete `ProxyRepository`, since no other implementation is in the core.
- Mutexes and `sync.Once`: calls are modelled one at a time; `sync.Once` becomes the proxy's `state: LoadState` field (`Unloaded`, `Loaded`, or `Failed` with the remembered error).
- JSON encoding and decoding and OS file calls: the file is a `Disk` value plus a writable flag. An encoder failure after `os.Create` has emptied the file is not modelled; in the code it leaves an empty file, which loads as the empty snapshot.
- `csv.Reader` and reading the YAML file: the importers take the rows, respectively the text, as input; a tokeniser error is not modelled.
- The load failures of categories and operations inside `ensureLoaded`: the three listings read the same file one after the other, and in a sequential model they fail or pass together, so only the first listing's failure is modelled.
- `AnalyticsFacade.AverageDailyExpense`: it divides by a day count taken from `time.Duration` arithmetic, which the integer dates here do not carry.
- Floating point: amounts are exact reals. So sums do not depend on order here, although they can in the source. The non-finite values `strconv.ParseFloat` produces have no counterpart among reals: NaN from "NaN", and plus or minus infinity from "Inf" or from out-of-range text. An infinite amount also passes the factory's `amount > 0` check. The model therefore does not reach the save that fails to encode such a value after the file has been emptied.
- `strconv.ParseFloat` and `time.Parse`: supplied as the `Parsers` parameter.
- `crypto/rand`: the UUID model takes the 16 bytes as input; the factories take the generator's outcome as a parameter.
- Byte versus rune handling in `strings.TrimSpace` and `unquote`: strings are sequences of characters, with Go's Unicode white-space set; invalid UTF-8 is not modelled.
- Listing order: the proxy's listings range over Go maps, whose order is unspecified; the model states only that each cached entity appears exactly once.
- The export visitors, the JSON importer, the data-management facade, the command layer, dependency wiring and `main.go` are not part of this model.
