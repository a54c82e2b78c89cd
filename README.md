# micro-service data-access core, in Dafny

This project models the service core of gota33/micro-service, a Go REST
micro-service over MySQL:

- the field mask and the UPDATE statement builder (`internal/service/entity/entity.go`);
- the two versions of the transaction helper:
  - `BeginTx`/`FinishTx` in `entity.go`, which fails when the executor cannot begin a transaction;
  - `BeginTx`/`finishTx` in `dao.go`, which falls back to the executor itself and a pass-through finish;
- the generic `Dao[E]`, with its Get, Create, List, Update and Delete (`internal/service/entity/general.go`);
- the hand-written item data-access object and item service (`internal/service/item/`);
- the environment-variable names of a command-line flag (`internal/cli/cli.go`);
- the MySQL parameter parsing, the `host:port` address and the pool limits (`internal/cli/config/mysql/v1/mysql.go`).

## How the database is modelled

The database is modelled as an oracle (`Sql.Oracle`):

- Every statement (script text plus positional arguments) is answered by a total function of the statement.
- An `Sql.Executor` stands for a `*sql.DB` (kind `Database`) or a `*sql.Tx` (kind `Transaction`).
- An executor records every call made on it in its `log`.
- A transaction is `Open` until its first Commit or Rollback. After that, both report `TxDone`.

This representation lets the contracts state what the source promises about ordering and side effects:

- a rejected request issues no statement;
- arguments are bound in placeholder order;
- the re-read after an insert or update runs on the transaction, not on the pool;
- exactly one of Commit or Rollback ends a transaction, Commit exactly when the unit of work succeeded;
- the caller sees the commit's error, or the unit of work's own error.

The operations that change state step by step are methods:

- `strings.Builder` is a class with a `text` field.
- `mapJoin` is a loop over the map's entries in range order.
- `Envs` rewrites a rune array in place.
- The parameter map is filled by a loop.
- `Validate` fills a `names` array.

Each of these is proved against a specification function (`Join`, `Project`, `ParamsMap`, `EnvVar`, `PartialNames`, `ScanRows`), and the lemmas are proved about those functions.

Go's map range order is unspecified. `Entity.Entries` therefore chooses an arbitrary enumeration of the map, each key exactly once. `SQLUpdate` is specified for whichever order was chosen.

## Model

| member | source | states |
|---|---|---|
| Sql.Executor.QueryRow | internal/service/entity/entity.go:63 | logs the call; the row is the database's answer to this statement |
| Sql.Executor.Query | internal/service/entity/entity.go:65 | logs the call; the rows or error are the database's answer to this statement |
| Sql.Executor.Exec | internal/service/entity/entity.go:64 | logs the call; the result or error is the database's answer to this statement |
| Sql.Executor.BeginTx | internal/service/entity/entity.go:68-71 | only a pool begins; a begin error yields no transaction; otherwise a fresh, open transaction with an empty log answering with the transaction answers |
| Sql.Executor.Commit | internal/service/entity/entity.go:73-77 | an open transaction becomes committed and reports the driver's commit result; a finished one is unchanged and reports TxDone |
| Sql.Executor.Rollback | internal/service/entity/entity.go:73-77 | an open transaction becomes rolled back and reports the driver's result; a finished one is unchanged and reports TxDone |
| Sql.FinishOutcome | internal/service/entity/entity.go:89-97 | with a cause the cause is returned; without one, what the commit reports |
| Sql.Settle | internal/service/entity/general.go:55 | the deferred `err = finish(err)`: a finishing error replaces the result; no error keeps a successful result |
| Sql.SettledByFinish | internal/service/entity/dao.go:43-51 | the result survives exactly when the work succeeded and the commit reported nothing; a failed work keeps its own error whatever the rollback reports; a failed commit turns success into that error |
| Sql.ScanRows | internal/service/entity/general.go:90-99 | the `rows.Next()` loop: a successful scan has one item per row, the last item the scan of the last row |
| Sql.ScanRowsOk | internal/service/entity/general.go:90-96 | a successful scan of the rows has one item per row, each the scan of its row, in row order |
| Sql.ScanRowsFirstError | internal/service/entity/general.go:90-96 | when rows before i scan and row i does not, the result is row i's error |
| Sql.ScanRowsAllOk | internal/service/entity/general.go:90-96 | when every row scans, the scan of all rows succeeds |
| Sql.ScanRowsAbort | internal/service/entity/general.go:92-93 | once a prefix of the rows fails, later rows do not change the outcome (the loop returns at the first error) |
| Text.Builder.WriteString | internal/service/entity/entity.go:106-113 | appends to the builder's text |
| Text.Join | internal/service/entity/entity.go:117-130 | the text mapJoin writes: empty for no parts, and it begins with the first part |
| Text.JoinFront | internal/service/entity/entity.go:117-130 | the separator goes between neighbours only: the first item joined in front is followed by exactly one separator |
| Text.JoinLength | internal/service/entity/entity.go:117-130 | the joined text is every part plus one separator per gap |
| Text.Repeat | internal/service/entity/general.go:45 | `strings.Repeat` yields n copies' worth of text |
| Text.Count | internal/service/entity/general.go:45 | `strings.Count` of one character: at most the text's length, and non-zero whenever the character occurs |
| Text.CountAppend | internal/service/entity/general.go:45 | `strings.Count` of a single character is additive over concatenation |
| Text.ToUpper | internal/cli/cli.go:86 | lower-case ASCII letters go to their upper-case form; every other character is kept |
| Text.IndexOf | internal/cli/config/mysql/v1/mysql.go:33 | the first occurrence of the separator, or the length when there is none |
| Text.SplitN2 | internal/cli/config/mysql/v1/mysql.go:33 | one part exactly when the separator is absent; otherwise two parts around its first occurrence that rebuild the text |
| Text.Digits | internal/service/entity/general.go:65 | a non-empty run of decimal digits |
| Text.FormatInt | internal/service/entity/general.go:65 | `strconv.FormatInt(id, 10)`: a non-empty text that starts with '-' exactly for negative numbers, every other character a decimal digit; its value is FormatIntRoundTrip |
| Text.FormatIntRoundTrip | internal/service/item/entity.go:96 | the base-10 text of an id reads back as that id, so a page token names the last row's id |
| Entity.Project | internal/service/entity/entity.go:30-40 | an empty mask keeps every field but "id"; otherwise exactly the mask's paths the entity has; values untouched, no key invented |
| Entity.ToMap | internal/service/entity/entity.go:18-42 | a serialisation error is returned; otherwise the projection of the serialised entity through the mask |
| Entity.Entries | internal/service/entity/entity.go:119 | an enumeration of the map: every key exactly once, with its value |
| Entity.EnumeratesSize | internal/service/entity/entity.go:119 | an enumeration has as many entries as the map has keys |
| Entity.DistinctKeysCount | internal/service/entity/entity.go:119 | entries with distinct keys name as many keys as there are entries |
| Entity.MapJoin | internal/service/entity/entity.go:117-130 | writes `field = ?` per entry with the separator between neighbours, and returns the values in the same order |
| Entity.SQLUpdate | internal/service/entity/entity.go:105-115 | `update <table> set <assignments> where id = ?`, arguments the values in assignment order then the id |
| Entity.SQLUpdateNoFields | internal/service/entity/entity.go:105-115 | with no fields the statement has an empty assignment list |
| Entity.BeginTx | internal/service/entity/entity.go:79-87 | an executor that cannot begin fails with NoBeginTx and no call; a pool begins, yielding its begin error or a fresh open transaction |
| Entity.FinishTx | internal/service/entity/entity.go:89-97 | no cause: Commit, its error returned; a cause: Rollback, the cause returned |
| EntityDao.BeginTx | internal/service/entity/dao.go:31-41 | a transaction is used in place with a pass-through finish and no call; a pool begins, with a finish bound to the new transaction |
| EntityDao.FinishTx | internal/service/entity/dao.go:43-51 | no cause: Commit, its error returned; a cause: Rollback, the cause returned |
| EntityDao.Finish | internal/service/entity/dao.go:35-38 | the pass-through finish returns its cause; the bound one logs one Commit or Rollback, returns what finishTx returns, and leaves an already finished transaction's state as it was |
| General.WithDB | internal/service/entity/general.go:27-35 | the same table, column lists and scan function on the new executor |
| General.Get | internal/service/entity/general.go:37-41 | one single-row query `select <all> from <table> where id = ? limit 1` bound to the id, scanned with the Dao's scan |
| General.RepeatedMarks | internal/service/entity/general.go:45 | `"?" + Repeat(",?", n)` is n+1 comma-separated placeholders |
| General.HoldersMatchColumns | internal/service/entity/general.go:45-46 | the values list holds one placeholder per column of the insert list (commas plus one), separated by commas |
| General.Create | internal/service/entity/general.go:43-66 | insert then re-read by the base-10 generated id, on the transaction (or in place); finished once, committed exactly when both succeeded; the begin error alone issues nothing more |
| General.List | internal/service/entity/general.go:78-105 | one page query bound to (token, size); a query, scan or rows error is returned; the items are the rows scanned in order; the next token is the last item's id exactly when the page is full |
| General.UpperFirst | internal/service/entity/general.go:116-118 | the first rune upper-cased, the rest unchanged |
| General.PartialNames | internal/service/entity/general.go:114-119 | one validator name per mask path |
| General.Validate | internal/service/entity/general.go:113-121 | the validator's verdict on the entity for the upper-first names of the mask paths, in order |
| General.Update | internal/service/entity/general.go:123-149 | validation, then ToMap: either error returns with no statement issued; otherwise the UPDATE of the projected fields and the re-read by id, in one transaction |
| General.UpdateFields | internal/service/entity/general.go:132-148 | the UPDATE and the re-read run in one transaction (or in place), finished once |
| General.Delete | internal/service/entity/general.go:156-172 | statement and row-count errors are returned; no affected row is NotFound for the request's resource; otherwise success |
| ItemEntity.ScanAllFields | internal/service/item/entity.go:25-27 | a row error passes through; a row of any other column count is a scan mismatch; a successful scan read exactly the item's columns in AllFields order |
| ItemEntity.ScanColumns | internal/service/item/entity.go:25-27 | a row laid out as id, title, price, num, create_time scans back to that item |
| ItemEntity.ScanReadsColumns | internal/service/item/entity.go:25-27 | a row scans to an item only when its columns are exactly that item's, in that order |
| ItemEntity.Get | internal/service/item/entity.go:33-38 | one single-row query on `item` bound to the id, scanned into an item |
| ItemEntity.Create | internal/service/item/entity.go:40-64 | title, price and num inserted and the row re-read by the base-10 id, in one transaction committed exactly when both succeed; an executor without BeginTx fails with NoBeginTx and no call |
| ItemEntity.PageSizeOf | internal/service/item/entity.go:69-71 | the served page size is never 0 and is the requested one whenever that is not 0 |
| ItemEntity.PageTokenOf | internal/service/item/entity.go:73-75 | the served page token is never empty and is the requested one whenever that is not empty |
| ItemEntity.PageSizeNeverZero | internal/service/item/entity.go:69-71 | the defaulted page size is never 0 and keeps any size that was given |
| ItemEntity.List | internal/service/item/entity.go:66-99 | page size 0 becomes 20 and token "" becomes "0"; errors returned; items are the rows scanned in order; a full page has a last item and its base-10 id is the next token |
| ItemEntity.Update | internal/service/item/entity.go:101-123 | a ToMap error returns before any call; otherwise `update item set … where id = ?` of the projected fields and the re-read in one transaction |
| ItemEntity.Delete | internal/service/item/entity.go:125-144 | errors returned; no affected row is NotFound of type "item" named "items/<id>"; otherwise success |
| ItemService.Get | internal/service/item/service.go:23-25 | the dao's Get of the request's item id |
| ItemService.Create | internal/service/item/service.go:33-35 | the dao's Create of the embedded item only, parent and customer id not stored |
| ItemService.List | internal/service/item/service.go:46-48 | the dao's List of the request |
| ItemService.Update | internal/service/item/service.go:56-58 | the dao's Update of the request |
| ItemService.Delete | internal/service/item/service.go:64-69 | the dao's Delete; code 204 exactly when it succeeds, otherwise 0 with its error |
| Cli.EnvVar | internal/cli/cli.go:80-90 | as long as the prefixed name; each rune the dash-to-underscore or upper-case image of the prefixed name's rune at that position |
| Cli.Envs | internal/cli/cli.go:80-90 | the in-place rune rewrite yields exactly one name, the flag's environment variable |
| Cli.EnvVarHasPrefix | internal/cli/cli.go:81 | every variable name begins with "APP_" |
| Cli.EnvVarHasNoDash | internal/cli/cli.go:83-84 | each dash of the flag name is an underscore at its position, and no dash remains |
| Cli.EnvVarUpperCases | internal/cli/cli.go:86 | a lower-case letter of the flag name becomes its upper-case form; any other non-dash rune is kept |
| Cli.EnvVarOfUpper | internal/cli/cli.go:85-87 | a name already upper case and without dashes is only prefixed |
| Cli.ConfigUrlEnv | internal/cli/cli.go:33 | "config-url" is read from APP_CONFIG_URL |
| Cli.LevelEnv | internal/cli/cli.go:31 | "level" is read from APP_LEVEL |
| Cli.HttpEnv | internal/cli/cli.go:32 | "http" is read from APP_HTTP |
| MySQL.ParamsMap | internal/cli/config/mysql/v1/mysql.go:31-35 | no parameters give an empty map; the last parameter's key always holds its value |
| MySQL.ParseParams | internal/cli/config/mysql/v1/mysql.go:31-35 | the loop builds the parameter map, each parameter overwriting its key in order |
| MySQL.SplitRoundTrip | internal/cli/config/mysql/v1/mysql.go:33-34 | a parameter is its key, "=", its value; the key has no "=", the value keeps any further "=" |
| MySQL.MapKeyFromParam | internal/cli/config/mysql/v1/mysql.go:31-35 | every key of the map is some parameter's key |
| MySQL.ParamKeyInMap | internal/cli/config/mysql/v1/mysql.go:31-35 | every parameter's key is in the map |
| MySQL.LastOccurrenceWins | internal/cli/config/mysql/v1/mysql.go:32-35 | a key maps to the value of its last occurrence |
| MySQL.Addr | internal/cli/config/mysql/v1/mysql.go:41 | host, then ':', then port |
| MySQL.AddrSplits | internal/cli/config/mysql/v1/mysql.go:41 | for a host without ':' the address splits back into host and port |
| MySQL.Limit | internal/cli/config/mysql/v1/mysql.go:49-54 | a positive configured value replaces the limit; zero or negative leaves it |
| MySQL.Pool.SetMaxOpenConns | internal/cli/config/mysql/v1/mysql.go:50 | sets the open-connection limit |
| MySQL.Pool.SetMaxIdleConns | internal/cli/config/mysql/v1/mysql.go:53 | sets the idle-connection limit |
| MySQL.New | internal/cli/config/mysql/v1/mysql.go:31-54 | user, password, "tcp", host:port, database and the parameter map; each pool limit applied only when positive |

## Left out

- `json.Marshal`/`json.Unmarshal` in ToMap are not modelled: the serialised entity (or the error they report) is an input of ToMap and of both Update methods.
- The validator (`Validate.StructPartial`) is not modelled. It is a function parameter of `General.Validate`.
- ToUpper covers ASCII only. Other Unicode case mappings (`unicode.ToUpper`) are not modelled.
- On error, the Go functions also return partially filled values (the zero entity, items scanned so far). The model returns only the error.
- General.List: its precondition excludes the single input on which the source panics. That input is page size 0 with an empty, error-free page, where `res.Items[size-1]` indexes -1.
- General.Validate, General.Update: require every mask path to be non-empty, because an empty path panics on `runes[0]`.
- MySQL.ParseParams, MySQL.New: require every parameter to contain "=", because the source panics on `kv[1]` otherwise.
- EntityDao.Finish: requires a bound finish to hold a transaction. The source reaches finish only after a successful begin.
- MySQL.Pool.SetMaxOpenConns / SetMaxIdleConns: record the limit only. The way `database/sql` lowers the idle limit to the open limit (and the reverse) is not modelled.
- The `int64` ids, row counts and page sizes are unbounded `int`. Overflow is not modelled; the code only compares and formats these values.
- Database conversions are narrowed: values are strings, integers or opaque (floats, times). A scan fails only on a column count or kind mismatch.
- Each answer depends only on the statement. A database whose answers change with earlier writes is not modelled.
- Contexts and the 3-second ping timeout are not modelled. `sql.Open`, `PingContext`, `Close`, `res.Scan` of the options and `mysql.Config.FormatDSN` are I/O and not modelled.
- Logging is not modelled: the rollback warning and `CloseRows` only log, and their effect is not visible to callers.
- The commented-out `OldCreate` in `internal/service/item/entity.go` is not part of this model.
- The HTTP server, router, parameter parsing, the auth and demo services, the SQLite configuration and the rest of the CLI wiring (`runServer`, flag `Get`) are not part of this model.
- The item `ListRequest`/`ListResponse` JSON tags and the `id,string` encoding are not modelled.
