# n8n SQLite-to-PostgreSQL migration driver, modelled in Dafny

This project models the bookkeeping core of the n8n migration script
`tools/dev-scripts/cmd-migrate-n8n-sqlite-to-postgres.py`. The script copies an
n8n database from SQLite to PostgreSQL one table at a time, in the fixed
`MIGRATION_ORDER`. For each table, `migrate_table` does the following:

- it reads the destination table's columns;
- it reads every source row;
- it renames each source column through `COLUMN_MAPPINGS`
  (`map_column_name`) and drops columns the destination lacks;
- it turns the values of nine boolean columns into booleans;
- it skips rows left with no data;
- it sends one `INSERT ... ON CONFLICT DO NOTHING` per remaining row, inside
  a single transaction that it commits at the end.

A row whose INSERT raises counts as skipped and rolls the transaction back.
The rollback discards every row the table wrote before it, but those rows stay
counted as inserted. `migrate_all` runs `migrate_table` over `MIGRATION_ORDER`.
It records each table's counts in `self.stats` and sums the totals.

The two databases are replaced by what they answer. A `TableInput` holds:

- the destination columns, or `None` when the catalog query raises;
- the source rows, or `None` when reading them raises;
- how PostgreSQL answers each row's INSERT: `Written`, `Conflict` (the key
  already exists and nothing is written) or `Failed` (the statement raises);
- whether the final commit goes through.

The PostgreSQL connection is a `Connection` object. It holds the rows of the
open transaction (`pending`) and the rows made durable by commits
(`committed`).

Modules, in dependency order:

- `Schema`: `MIGRATION_ORDER`, every table's rename map and `COLUMN_MAPPINGS`,
  and the boolean and JSON column lists.
- `ColumnNames`: ASCII `lower()`, `map_column_name`, and the fact that every
  rename only restores letter case.
- `OrderedDict`: a Python `dict` as an insertion-ordered list of entries. It
  models the row's `data` dict and `self.stats`.
- `RowTransform`: values, truthiness, boolean coercion, the per-row `data`
  dict (a specification function and the driver's loop), and the aligned
  column, placeholder and value lists of the INSERT.
- `Destination`: the connection and its `execute`, `rollback` and `commit`.
- `Migration`:
  - specification functions for the outcome of one table (`RunTable`) and of
    the whole run (`StatsAfter`, `TotalInserted`, `TotalSkipped`,
    `CommittedAll`);
  - lemmas about them;
  - the `Migrator` class, whose methods `MigrateTable` and `MigrateAll` are
    proved against those functions.

## Model

| member | source | states |
|---|---|---|
| Schema.MigrationOrderDistinct | tools/dev-scripts/cmd-migrate-n8n-sqlite-to-postgres.py:24-96 | The migration order lists 44 tables and names none of them twice. |
| ColumnNames.Lower | tools/dev-scripts/cmd-migrate-n8n-sqlite-to-postgres.py:337 | `lower()` keeps the length and leaves no ASCII capital letter. Each ASCII capital becomes its own lowercase letter, and every other character is kept. |
| ColumnNames.MapColumnName | tools/dev-scripts/cmd-migrate-n8n-sqlite-to-postgres.py:334-338 | For a table without a rename map, the column name comes back unchanged. For a mapped table, the lookup uses the lowercased name. If that has no entry, the original spelling comes back, not the lowercased one; otherwise the entry's value. |
| ColumnNames.RenamesChangeCaseOnly | tools/dev-scripts/cmd-migrate-n8n-sqlite-to-postgres.py:99-297 | In every table's rename map, each entry a lookup can reach (a lowercase key) maps to a spelling of that same key that differs only in letter case. |
| ColumnNames.MapColumnNameChangesCaseOnly | tools/dev-scripts/cmd-migrate-n8n-sqlite-to-postgres.py:334-338 | Renaming a column changes its letter case only: `lower(map(t, c)) == lower(c)` for every table and column. |
| ColumnNames.MapColumnNameIdempotent | tools/dev-scripts/cmd-migrate-n8n-sqlite-to-postgres.py:334-338 | Renaming an already renamed column changes nothing: `map(t, map(t, c)) == map(t, c)`. |
| ColumnNames.UnreachableRenameKeys | tools/dev-scripts/cmd-migrate-n8n-sqlite-to-postgres.py:337 | No lowercased name equals "latestEvent" or "waitTill", so those two keys of the mappings (lines 129 and 180) can never be found. |
| OrderedDict.Keys | tools/dev-scripts/cmd-migrate-n8n-sqlite-to-postgres.py:399 | `list(data.keys())` has one key per entry, and key i is the key of entry i, so the keys come in insertion order. |
| OrderedDict.Get | tools/dev-scripts/cmd-migrate-n8n-sqlite-to-postgres.py:401 | Definition: `data[col]` for a present key is the value of the entry with that key. No contract of its own; GetAt states that with distinct keys, looking up entry i's key yields entry i's value. |
| OrderedDict.Put | tools/dev-scripts/cmd-migrate-n8n-sqlite-to-postgres.py:392 | `d[k] = v` adds `k` at the end of the key order only if it is new. Afterwards `k` maps to `v`, and every other key keeps its value. |
| OrderedDict.PutKeepsKeysDistinct | tools/dev-scripts/cmd-migrate-n8n-sqlite-to-postgres.py:392 | An assignment never makes two entries share a key. |
| OrderedDict.PutNew | tools/dev-scripts/cmd-migrate-n8n-sqlite-to-postgres.py:447 | Assigning to a key not yet present appends exactly that entry. |
| OrderedDict.GetAt | tools/dev-scripts/cmd-migrate-n8n-sqlite-to-postgres.py:401 | With distinct keys, looking up the key of entry i yields entry i's value. |
| RowTransform.Truthy | tools/dev-scripts/cmd-migrate-n8n-sqlite-to-postgres.py:384 | `bool(value)` is false exactly for `None`, `0`, the empty string and `False`. |
| RowTransform.Coerce | tools/dev-scripts/cmd-migrate-n8n-sqlite-to-postgres.py:381-384 | Null stays null. A non-null value in a boolean column becomes a boolean equal to its truthiness. Any value in any other column is unchanged. |
| RowTransform.JsonColumnsPassThrough | tools/dev-scripts/cmd-migrate-n8n-sqlite-to-postgres.py:385-391 | Every value of a JSON column is written unchanged. |
| RowTransform.Transformed | tools/dev-scripts/cmd-migrate-n8n-sqlite-to-postgres.py:374-392 | The row's `data` dict has distinct keys, and each key is one of the destination table's columns. |
| RowTransform.BuildRowData | tools/dev-scripts/cmd-migrate-n8n-sqlite-to-postgres.py:374-392 | The driver's loop over the row's keys builds exactly the specified `data` dict. |
| RowTransform.TransformedColumns | tools/dev-scripts/cmd-migrate-n8n-sqlite-to-postgres.py:376-378 | A destination column is a key of `data` if and only if the destination table has it and some source column is renamed to it. |
| RowTransform.TransformedEmpty | tools/dev-scripts/cmd-migrate-n8n-sqlite-to-postgres.py:394-396 | `data` is empty exactly when no source column, once renamed, exists in the destination table. |
| RowTransform.TransformedValue | tools/dev-scripts/cmd-migrate-n8n-sqlite-to-postgres.py:377-392 | A kept column holds the coerced value of the last source column renamed to it. |
| RowTransform.TransformedValueOfDistinctColumns | tools/dev-scripts/cmd-migrate-n8n-sqlite-to-postgres.py:374-392 | When no two source column names are equal ignoring ASCII case, each kept column holds the coerced value of its own source column. |
| RowTransform.InsertFor | tools/dev-scripts/cmd-migrate-n8n-sqlite-to-postgres.py:398-401 | The INSERT has one column, one `%s` placeholder and one value per entry of `data`, in `data`'s order, and value i belongs to column i. |
| Destination.Connection.Execute | tools/dev-scripts/cmd-migrate-n8n-sqlite-to-postgres.py:410-419 | The call reports success unless the statement raises. Only a written row joins the open transaction, and committed rows are untouched. |
| Destination.Connection.Rollback | tools/dev-scripts/cmd-migrate-n8n-sqlite-to-postgres.py:418 | The open transaction is emptied, and committed rows are untouched. |
| Destination.Connection.Commit | tools/dev-scripts/cmd-migrate-n8n-sqlite-to-postgres.py:422 | The open transaction's rows are appended to the committed rows, and the transaction is left empty. |
| Migration.InsertedUpTo | tools/dev-scripts/cmd-migrate-n8n-sqlite-to-postgres.py:370-417 | Definition: the rows among the first n that reach their INSERT and whose INSERT does not raise. Contract: never more than n. CountsAddUp and InsertedAccounting state what the count adds up to. |
| Migration.SkippedUpTo | tools/dev-scripts/cmd-migrate-n8n-sqlite-to-postgres.py:370-417 | Definition: the rows among the first n left with no data or whose INSERT raises. Contract: never more than n. CountsAddUp pairs it with the inserted count. |
| Migration.PendingAfterRow | tools/dev-scripts/cmd-migrate-n8n-sqlite-to-postgres.py:394-419 | After a row, the open transaction holds nothing if the row's INSERT raised. Otherwise it holds what it held before, plus the row if it was written. |
| Migration.LastFailureIsLast | tools/dev-scripts/cmd-migrate-n8n-sqlite-to-postgres.py:413-419 | The last failure names a row whose INSERT raised, and no later row's INSERT raised. It is -1 exactly when no INSERT raised. |
| Migration.CountsAddUp | tools/dev-scripts/cmd-migrate-n8n-sqlite-to-postgres.py:370-419 | Every row is counted exactly once, as inserted or as skipped. |
| Migration.InsertedAccounting | tools/dev-scripts/cmd-migrate-n8n-sqlite-to-postgres.py:403-415 | The inserted count equals the rows whose INSERT wrote them plus the rows whose INSERT met a conflict and wrote nothing. |
| Migration.WrittenBetweenMembers | tools/dev-scripts/cmd-migrate-n8n-sqlite-to-postgres.py:413-419 | The rows written over a stretch of the loop are exactly the statements of the rows whose INSERT wrote them. |
| Migration.PendingAfterLoop | tools/dev-scripts/cmd-migrate-n8n-sqlite-to-postgres.py:413-422 | The table's commit makes durable exactly the rows written after the last failed INSERT, in both directions. |
| Migration.InsertedCountsDiscardedRows | tools/dev-scripts/cmd-migrate-n8n-sqlite-to-postgres.py:413-419 | The inserted count equals the committed rows, plus the conflicts, plus the rows written and then discarded by a rollback; the count is never lowered. |
| Migration.NoFailureCommitsAll | tools/dev-scripts/cmd-migrate-n8n-sqlite-to-postgres.py:413-422 | When no INSERT raises, every written row is committed, and the inserted count is the committed rows plus the conflicts. |
| Migration.RollbackExample | tools/dev-scripts/cmd-migrate-n8n-sqlite-to-postgres.py:413-419 | In a two-row table, the first row is written and the second's INSERT raises. The counts are (1, 1), yet nothing is committed. |
| Migration.RunBatch | tools/dev-scripts/cmd-migrate-n8n-sqlite-to-postgres.py:373-425 | A table that reaches its row loop counts each of its rows once, as inserted or as skipped. It commits no more rows than it counts as inserted; PendingAfterLoop states which rows those are. |
| Migration.RunTable | tools/dev-scripts/cmd-migrate-n8n-sqlite-to-postgres.py:340-433 | A table that runs to its commit counts each source row once. No table commits more rows than it counts as inserted. RunTableCounts gives the (0, 0) cases, and `MigrateTable` is proved against this function. |
| Migration.RunTableCounts | tools/dev-scripts/cmd-migrate-n8n-sqlite-to-postgres.py:349-430 | The table yields (0, 0) and commits nothing when the catalog query raises, the destination table has no columns, reading the rows raises, there are no rows, or the commit raises. Otherwise inserted + skipped equals the number of source rows. |
| Migration.AttemptedIffColumnKept | tools/dev-scripts/cmd-migrate-n8n-sqlite-to-postgres.py:394-396 | A row reaches its INSERT exactly when some column of it, once renamed, exists in the destination table. |
| Migration.StatsAfter | tools/dev-scripts/cmd-migrate-n8n-sqlite-to-postgres.py:445-447 | Definition: `self.stats[table] = ...` applied to each table of the order in turn. No contract of its own; StatsAfterFresh, StatsAfterFreshKeys and MigrateAllSummary state what it records. |
| Migration.TotalInserted | tools/dev-scripts/cmd-migrate-n8n-sqlite-to-postgres.py:442-449 | Definition: `total_inserted` summed over the order. No contract of its own; TotalsAreStatsSums ties it to the recorded stats. |
| Migration.TotalSkipped | tools/dev-scripts/cmd-migrate-n8n-sqlite-to-postgres.py:442-449 | Definition: `total_skipped` summed over the order. No contract of its own; TotalsAreStatsSums ties it to the recorded stats. |
| Migration.CommittedAll | tools/dev-scripts/cmd-migrate-n8n-sqlite-to-postgres.py:445-449 | Definition: each table's commit (line 422) in the order of the run. No contract of its own; `MigrateAll` is proved against it. |
| Migration.StatsAfterStep | tools/dev-scripts/cmd-migrate-n8n-sqlite-to-postgres.py:445-447 | Over an order without repeats, recording its last table appends exactly one entry after the entries of the tables before it. |
| Migration.StatsAfterFresh | tools/dev-scripts/cmd-migrate-n8n-sqlite-to-postgres.py:445-447 | Over an order without repeats, starting from empty stats, exactly one entry is recorded per table, in order, holding that table's counts. |
| Migration.StatsAfterFreshKeys | tools/dev-scripts/cmd-migrate-n8n-sqlite-to-postgres.py:445-447 | Over an order without repeats, the keys of the recorded stats are the order itself. |
| Migration.TotalsAreStatsSums | tools/dev-scripts/cmd-migrate-n8n-sqlite-to-postgres.py:445-449 | Over an order without repeats, the totals equal the sums of the recorded per-table counts. |
| Migration.MigrateAllSummary | tools/dev-scripts/cmd-migrate-n8n-sqlite-to-postgres.py:442-449 | For MIGRATION_ORDER, the stats keys are the migration order itself, and entry i holds table i's counts. The totals are the sums of the entries. |
| Migration.Migrator.RowData | tools/dev-scripts/cmd-migrate-n8n-sqlite-to-postgres.py:374-392 | It builds the `data` dict of row i. |
| Migration.Migrator.CopyRow | tools/dev-scripts/cmd-migrate-n8n-sqlite-to-postgres.py:373-419 | One pass of the row loop advances both counters and the open transaction from row i to row i + 1, as specified. |
| Migration.Migrator.CopyRows | tools/dev-scripts/cmd-migrate-n8n-sqlite-to-postgres.py:370-419 | After the row loop, the counters are `InsertedUpTo` and `SkippedUpTo` over every row, which is `RunBatch`'s count. The open transaction holds `WrittenBetween` the row after `LastFailure` and the end, which is `RunBatch`'s commit. Committed rows are untouched. |
| Migration.Migrator.MigrateTable | tools/dev-scripts/cmd-migrate-n8n-sqlite-to-postgres.py:340-433 | It returns `RunTable`'s counts and appends `RunTable`'s committed rows to the committed rows. It leaves no open transaction. |
| Migration.Migrator.MigrateAll | tools/dev-scripts/cmd-migrate-n8n-sqlite-to-postgres.py:435-449 | After the loop, `stats` is `StatsAfter` over MIGRATION_ORDER, and the totals are `TotalInserted` and `TotalSkipped`. The committed rows gain `CommittedAll`, every table's commit in order. Each table's outcome is `RunTable`'s. |
| Migration.Migrator.constructor | tools/dev-scripts/cmd-migrate-n8n-sqlite-to-postgres.py:301-306 | A new migrator starts with empty stats on a connection with no open transaction. |

## Left out

- Connecting to and closing the two databases, cursors, and `main` with its argument parsing and exit codes are I/O plumbing. The connection is a parameter of the `Migrator` constructor.
- The `information_schema` query in `get_table_columns` becomes the given destination column list, or `None` when it raises.
- The SQLite `SELECT COUNT(*)` and `SELECT *` become the given row list. The model takes the count to be the number of rows fetched. When they differ and no rows come back, the source commits an empty transaction while the model returns early; both return (0, 0) and commit nothing.
- The SQL text of each INSERT (schema name, quoting) is not modelled. The INSERT is the table, the column list, the placeholders and the values; PostgreSQL's answer is given as `Written`, `Conflict` or `Failed`.
- At table level, only the catalog query, reading the rows and the commit are modelled as raising. Not modelled: a rollback at line 418 that raises, which the table's handler catches (the table yields (0, 0)). Also not modelled: opening a cursor (lines 346-347) or the handler's own rollback (line 429) raising. Those two escape `migrate_table` and end the run with exit code 1, while the model's `MigrateAll` always visits every table.
- `json.loads` never changes a value, so the model omits it.
- RowTransform.Truthy: Python's `bool()` is modelled only for null, integers, text and booleans. Floats, bytes and other SQLite types are not modelled.
- ColumnNames.Lower: lower-cases ASCII letters only, where Python's `str.lower()` also folds non-ASCII letters. Most such folds cannot reach a rename key, since every key is ASCII. U+212A KELVIN SIGN is the exception: Python lowers it to ASCII `k`, so in the source a column spelled with it, such as `api\u212AEY`, reaches the `apikey` entry (user_api_keys), and likewise `dependencykey`. The model returns such a column unchanged.
- A source row is the list of its (column name, value) pairs in table order. The case-insensitive key lookup of `sqlite3.Row` is not modelled: each value is taken from its own column.
- Printing, the summary table and `datetime.now()` are output only.
- `verify_migration` only reads and prints row counts from PostgreSQL.
- The foreign-key reasons behind the order of MIGRATION_ORDER are not modelled: no schema is modelled, only that the order has no repeats.
