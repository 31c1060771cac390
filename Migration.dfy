/**
 * The migration driver: `migrate_table` copies one table row by row,
 * counting inserted and skipped rows and rolling the transaction back on a
 * failed INSERT; `migrate_all` runs it over MIGRATION_ORDER and records the
 * per-table counts. The two databases are replaced by what they answer.
 */
module Migration {
  import opened Schema
  import opened ColumnNames
  import opened OrderedDict
  import opened RowTransform
  import opened Destination

  datatype Option<T> = None | Some(value: T)

  /** What the two databases answer while one table is migrated. */
  datatype TableInput = TableInput(
    /** The destination table's columns; None when the catalog query raises. */
    destColumns: Option<seq<string>>,
    /** The SQLite table's rows; None when counting or reading them raises. */
    rows: Option<seq<Row>>,
    /** The answer to the INSERT of row i (Written past the end). */
    outcomes: seq<InsertOutcome>,
    /** Whether the commit at the end of the table goes through. */
    commitSucceeds: bool)

  function OutcomeAt(outcomes: seq<InsertOutcome>, i: nat): InsertOutcome
  {
    if i < |outcomes| then outcomes[i] else Written
  }

  /** The counts `migrate_table` returns for one table. */
  datatype TableStats = TableStats(inserted: nat, skipped: nat)

  /** What the row loop of one table works through: the `data` dict built
      from each row, in row order, and how the database answers each row's
      INSERT. */
  datatype Batch = Batch(table: string, data: seq<Dict<string, Value>>, outcomes: seq<InsertOutcome>)

  /** Every data dict of the batch has distinct keys, as a Python dict does. */
  ghost predicate WellKeyed(b: Batch)
  {
    forall i :: 0 <= i < |b.data| ==> DistinctKeys(b.data[i])
  }

  /** Row i reaches the INSERT: some column of it is kept. */
  predicate Attempted(b: Batch, i: nat)
    requires i < |b.data|
  {
    b.data[i] != []
  }

  /** Row i's INSERT raised. */
  predicate FailedAt(b: Batch, i: nat)
    requires i < |b.data|
  {
    Attempted(b, i) && OutcomeAt(b.outcomes, i) == Failed
  }

  /** Row i's INSERT wrote a row. */
  predicate WrittenAt(b: Batch, i: nat)
    requires i < |b.data|
  {
    Attempted(b, i) && OutcomeAt(b.outcomes, i) == Written
  }

  /** Row i's INSERT met an existing key and, by ON CONFLICT DO NOTHING, wrote nothing. */
  predicate ConflictAt(b: Batch, i: nat)
    requires i < |b.data|
  {
    Attempted(b, i) && OutcomeAt(b.outcomes, i) == Conflict
  }

  function RowInsert(b: Batch, i: nat): Insert
    requires i < |b.data| && DistinctKeys(b.data[i])
  {
    InsertFor(b.table, b.data[i])
  }

  /** Among the first n rows, those whose INSERT ran without raising. */
  function InsertedUpTo(b: Batch, n: nat): (r: nat)
    requires n <= |b.data|
    ensures r <= n
  {
    if n == 0 then 0
    else InsertedUpTo(b, n - 1) + if Attempted(b, n - 1) && !FailedAt(b, n - 1) then 1 else 0
  }

  /** Among the first n rows, those left with no data or whose INSERT raised. */
  function SkippedUpTo(b: Batch, n: nat): (r: nat)
    requires n <= |b.data|
    ensures r <= n
  {
    if n == 0 then 0
    else SkippedUpTo(b, n - 1) + if !Attempted(b, n - 1) || FailedAt(b, n - 1) then 1 else 0
  }

  /** Among the first n rows, those whose INSERT hit a conflict and wrote nothing. */
  function ConflictsUpTo(b: Batch, n: nat): nat
    requires n <= |b.data|
  {
    if n == 0 then 0 else ConflictsUpTo(b, n - 1) + if ConflictAt(b, n - 1) then 1 else 0
  }

  /** The statements of the rows in [lo, hi) that wrote a row, in order. */
  function WrittenBetween(b: Batch, lo: nat, hi: nat): seq<Insert>
    requires WellKeyed(b) && lo <= hi <= |b.data|
    decreases hi
  {
    if lo == hi then []
    else WrittenBetween(b, lo, hi - 1) + if WrittenAt(b, hi - 1) then [RowInsert(b, hi - 1)] else []
  }

  /** The last of the first n rows whose INSERT raised, or -1 if none did. */
  function LastFailure(b: Batch, n: nat): (f: int)
    requires n <= |b.data|
    ensures -1 <= f < n
  {
    if n == 0 then -1 else if FailedAt(b, n - 1) then n - 1 else LastFailure(b, n - 1)
  }

  /** What the open transaction holds after row i: nothing if its INSERT
      raised (the rollback), otherwise what it held before plus the row if it
      was written. */
  lemma PendingAfterRow(b: Batch, i: nat)
    requires WellKeyed(b) && i < |b.data|
    ensures WrittenBetween(b, LastFailure(b, i + 1) + 1, i + 1) ==
      if FailedAt(b, i) then []
      else WrittenBetween(b, LastFailure(b, i) + 1, i) + if WrittenAt(b, i) then [RowInsert(b, i)] else []
  {
  }

  /** LastFailure names a row whose INSERT raised, and no later row's INSERT
      raised; it is -1 exactly when no INSERT raised. */
  lemma {:induction false} LastFailureIsLast(b: Batch, n: nat)
    requires n <= |b.data|
    ensures LastFailure(b, n) >= 0 ==> FailedAt(b, LastFailure(b, n))
    ensures forall i :: LastFailure(b, n) < i < n ==> !FailedAt(b, i)
    ensures LastFailure(b, n) == -1 <==> forall i :: 0 <= i < n ==> !FailedAt(b, i)
  {
    if n > 0 && !FailedAt(b, n - 1) {
      LastFailureIsLast(b, n - 1);
    }
  }

  /** Every row is counted once: as inserted or as skipped. */
  lemma {:induction false} CountsAddUp(b: Batch, n: nat)
    requires n <= |b.data|
    ensures InsertedUpTo(b, n) + SkippedUpTo(b, n) == n
  {
    if n > 0 {
      CountsAddUp(b, n - 1);
    }
  }

  /** A row is counted as inserted exactly when its INSERT either wrote the
      row or met a conflict and wrote nothing. */
  lemma {:induction false} InsertedAccounting(b: Batch, n: nat)
    requires WellKeyed(b) && n <= |b.data|
    ensures InsertedUpTo(b, n) == |WrittenBetween(b, 0, n)| + ConflictsUpTo(b, n)
  {
    if n > 0 {
      InsertedAccounting(b, n - 1);
    }
  }

  /** The rows written in [lo, hi) are those written in [lo, mid) followed by
      those written in [mid, hi). */
  lemma {:induction false} WrittenBetweenSplit(b: Batch, lo: nat, mid: nat, hi: nat)
    requires WellKeyed(b) && lo <= mid <= hi <= |b.data|
    ensures WrittenBetween(b, lo, hi) == WrittenBetween(b, lo, mid) + WrittenBetween(b, mid, hi)
    decreases hi
  {
    if mid < hi {
      WrittenBetweenSplit(b, lo, mid, hi - 1);
      AppendAssoc(WrittenBetween(b, lo, mid), WrittenBetween(b, mid, hi - 1),
                  if WrittenAt(b, hi - 1) then [RowInsert(b, hi - 1)] else []);
    }
  }

  /** WrittenBetween holds the statement of every row in [lo, hi) whose
      INSERT wrote it, and nothing else. */
  lemma {:induction false} WrittenBetweenMembers(b: Batch, lo: nat, hi: nat)
    requires WellKeyed(b) && lo <= hi <= |b.data|
    ensures forall i :: lo <= i < hi && WrittenAt(b, i) ==> RowInsert(b, i) in WrittenBetween(b, lo, hi)
    ensures forall ins :: ins in WrittenBetween(b, lo, hi) ==>
      exists i :: lo <= i < hi && WrittenAt(b, i) && ins == RowInsert(b, i)
    decreases hi
  {
    if lo < hi {
      WrittenBetweenMembers(b, lo, hi - 1);
      var prev := WrittenBetween(b, lo, hi - 1);
      var r := WrittenBetween(b, lo, hi);
      assert r == prev + if WrittenAt(b, hi - 1) then [RowInsert(b, hi - 1)] else [];
      forall i | lo <= i < hi && WrittenAt(b, i)
        ensures RowInsert(b, i) in r
      {
        if i < hi - 1 {
          assert RowInsert(b, i) in prev;
        }
      }
      forall ins | ins in r
        ensures exists i :: lo <= i < hi && WrittenAt(b, i) && ins == RowInsert(b, i)
      {
        if ins !in prev {
          assert WrittenAt(b, hi - 1) && ins == RowInsert(b, hi - 1);
        }
      }
    }
  }

  /** The open transaction after the loop holds exactly the rows written
      after the last failed INSERT: a failure discards every row written
      before it. */
  lemma PendingAfterLoop(b: Batch)
    requires WellKeyed(b)
    ensures var n, f := |b.data|, LastFailure(b, |b.data|);
      && (forall i :: f < i < n && WrittenAt(b, i) ==> RowInsert(b, i) in RunBatch(b).committed)
      && (forall ins :: ins in RunBatch(b).committed ==> exists i :: f < i < n && WrittenAt(b, i) && ins == RowInsert(b, i))
  {
    WrittenBetweenMembers(b, LastFailure(b, |b.data|) + 1, |b.data|);
  }

  /** The inserted count is what the commit makes durable, plus the rows that
      met a conflict, plus the rows written and then discarded by a rollback:
      a rollback never lowers the count. */
  lemma InsertedCountsDiscardedRows(b: Batch)
    requires WellKeyed(b)
    ensures var n, f := |b.data|, LastFailure(b, |b.data|);
      RunBatch(b).stats.inserted == |RunBatch(b).committed| + ConflictsUpTo(b, n) + |WrittenBetween(b, 0, f + 1)|
  {
    var n, f := |b.data|, LastFailure(b, |b.data|);
    InsertedAccounting(b, n);
    WrittenBetweenSplit(b, 0, f + 1, n);
  }

  /** When no INSERT raises, every written row is committed and the inserted
      count is the committed rows plus the conflicts. */
  lemma NoFailureCommitsAll(b: Batch)
    requires WellKeyed(b) && forall i :: 0 <= i < |b.data| ==> !FailedAt(b, i)
    ensures RunBatch(b).committed == WrittenBetween(b, 0, |b.data|)
    ensures RunBatch(b).stats.inserted == |RunBatch(b).committed| + ConflictsUpTo(b, |b.data|)
  {
    LastFailureIsLast(b, |b.data|);
    InsertedAccounting(b, |b.data|);
  }

  /** Two rows: the first is written, the second's INSERT raises. The first
      row is counted as inserted, yet the rollback leaves nothing to commit. */
  lemma RollbackExample()
    ensures var b := Batch("tag_entity", [[("id", Integer(1))], [("id", Integer(2))]], [Written, Failed]);
      WellKeyed(b) && RunBatch(b).stats == TableStats(1, 1) && RunBatch(b).committed == []
  {
    var b := Batch("tag_entity", [[("id", Integer(1))], [("id", Integer(2))]], [Written, Failed]);
    assert FailedAt(b, 1);
  }

  /** The table reaches its row loop and its commit. */
  predicate Completes(input: TableInput)
  {
    && input.destColumns.Some? && input.destColumns.value != []
    && input.rows.Some? && input.rows.value != []
    && input.commitSucceeds
  }

  /** The batch the row loop of `table` works through. */
  function BatchOf(table: string, input: TableInput): Batch
    requires input.destColumns.Some? && input.rows.Some?
  {
    var destColumns, rows := input.destColumns.value, input.rows.value;
    Batch(table, seq(|rows|, i requires 0 <= i < |rows| => Transformed(RenamesOf(table), destColumns, rows[i])), input.outcomes)
  }

  /** `b` is what the row loop over `rows` works through. The link from a
      row to its data is used only where that row's data is built. */
  ghost predicate Built(b: Batch, table: string, destColumns: seq<string>, rows: seq<Row>, outcomes: seq<InsertOutcome>)
  {
    && b.table == table && b.outcomes == outcomes && |b.data| == |rows|
    && forall i {:trigger Transformed(RenamesOf(table), destColumns, rows[i])} :: 0 <= i < |rows| ==>
         b.data[i] == Transformed(RenamesOf(table), destColumns, rows[i])
  }

  lemma BatchOfBuilt(table: string, input: TableInput)
    requires input.destColumns.Some? && input.rows.Some?
    ensures Built(BatchOf(table, input), table, input.destColumns.value, input.rows.value, input.outcomes)
    ensures WellKeyed(BatchOf(table, input))
  {
  }

  /** What migrating one table returns, and the rows its commit makes durable. */
  datatype TableRun = TableRun(stats: TableStats, committed: seq<Insert>)

  /** The outcome of a row loop over `b` followed by a commit that goes
      through: the counts of the whole loop, and the rows written after its
      last rollback. */
  function RunBatch(b: Batch): (r: TableRun)
    requires WellKeyed(b)
    ensures r.stats.inserted + r.stats.skipped == |b.data|
    ensures |r.committed| <= r.stats.inserted
  {
    var n := |b.data|;
    CountsAddUp(b, n);
    InsertedAccounting(b, n);
    WrittenBetweenSplit(b, 0, LastFailure(b, n) + 1, n);
    TableRun(TableStats(InsertedUpTo(b, n), SkippedUpTo(b, n)), WrittenBetween(b, LastFailure(b, n) + 1, n))
  }

  /** What `migrate_table` returns for `table`, and what it commits. */
  function RunTable(table: string, input: TableInput): (r: TableRun)
    ensures Completes(input) ==> r.stats.inserted + r.stats.skipped == |input.rows.value|
    ensures |r.committed| <= r.stats.inserted
  {
    if !Completes(input) then TableRun(TableStats(0, 0), [])
    else
      BatchOfBuilt(table, input);
      RunBatch(BatchOf(table, input))
  }

  /** How migrating each table comes out, given what the databases answer
      for it. The functions below take any such `run`. */
  function Runs(env: string -> TableInput): string -> TableRun
  {
    table => RunTable(table, env(table))
  }

  /** `self.stats` after recording each table of `order`, starting from `stats`. */
  function StatsAfter(stats: Dict<string, TableStats>, order: seq<string>, run: string -> TableRun): Dict<string, TableStats>
  {
    if order == [] then stats
    else
      var table := order[|order| - 1];
      Put(StatsAfter(stats, order[..|order| - 1], run), table, run(table).stats)
  }

  /** `total_inserted` after the tables of `order`. */
  function TotalInserted(order: seq<string>, run: string -> TableRun): nat
  {
    if order == [] then 0
    else TotalInserted(order[..|order| - 1], run) + run(order[|order| - 1]).stats.inserted
  }

  /** `total_skipped` after the tables of `order`. */
  function TotalSkipped(order: seq<string>, run: string -> TableRun): nat
  {
    if order == [] then 0
    else TotalSkipped(order[..|order| - 1], run) + run(order[|order| - 1]).stats.skipped
  }

  /** The rows the commits of the tables of `order` make durable, in order. */
  function CommittedAll(order: seq<string>, run: string -> TableRun): seq<Insert>
  {
    if order == [] then []
    else CommittedAll(order[..|order| - 1], run) + run(order[|order| - 1]).committed
  }

  lemma ExtendByOne(stats: Dict<string, TableStats>, order: seq<string>, k: nat, run: string -> TableRun)
    requires k < |order|
    ensures StatsAfter(stats, order[..k + 1], run) == Put(StatsAfter(stats, order[..k], run), order[k], run(order[k]).stats)
    ensures TotalInserted(order[..k + 1], run) == TotalInserted(order[..k], run) + run(order[k]).stats.inserted
    ensures TotalSkipped(order[..k + 1], run) == TotalSkipped(order[..k], run) + run(order[k]).stats.skipped
    ensures CommittedAll(order[..k + 1], run) == CommittedAll(order[..k], run) + run(order[k]).committed
  {
    assert order[..k + 1][..k] == order[..k];
  }

  /** `migrate_table` returns (0, 0) and commits nothing unless the table
      reaches its commit; otherwise every source row is counted once, as
      inserted or as skipped. */
  lemma RunTableCounts(table: string, input: TableInput)
    ensures !Completes(input) ==> RunTable(table, input) == TableRun(TableStats(0, 0), [])
    ensures Completes(input) ==>
      RunTable(table, input).stats.inserted + RunTable(table, input).stats.skipped == |input.rows.value|
  {
    if Completes(input) {
      CountsAddUp(BatchOf(table, input), |input.rows.value|);
    }
  }

  /** A row reaches its INSERT exactly when some column of it, once renamed,
      exists in the destination table; any other row is skipped. */
  lemma AttemptedIffColumnKept(table: string, input: TableInput, i: nat)
    requires input.destColumns.Some? && input.rows.Some? && i < |input.rows.value|
    ensures var row := input.rows.value[i];
      Attempted(BatchOf(table, input), i) <==>
        exists j :: 0 <= j < |row| && MapColumnName(table, row[j].0) in input.destColumns.value
  {
    TransformedEmpty(RenamesOf(table), input.destColumns.value, input.rows.value[i]);
  }

  /** Rows of `stats` in first-recorded order: the inserted counts summed. */
  function InsertedSum(stats: Dict<string, TableStats>): nat
  {
    if stats == [] then 0 else InsertedSum(stats[..|stats| - 1]) + stats[|stats| - 1].1.inserted
  }

  /** Rows of `stats` in first-recorded order: the skipped counts summed. */
  function SkippedSum(stats: Dict<string, TableStats>): nat
  {
    if stats == [] then 0 else SkippedSum(stats[..|stats| - 1]) + stats[|stats| - 1].1.skipped
  }

  /** Over an order without repeats, recording its last table appends one
      entry after those of the tables before it. */
  lemma {:induction false} StatsAfterStep(order: seq<string>, run: string -> TableRun)
    requires Distinct(order) && order != []
    ensures var last := order[|order| - 1];
      StatsAfter([], order, run) == StatsAfter([], order[..|order| - 1], run) + [(last, run(last).stats)]
  {
    var init, last := order[..|order| - 1], order[|order| - 1];
    assert Distinct(init);
    StatsAfterFresh(init, run);
    forall i | 0 <= i < |init|
      ensures init[i] != last
    {
      assert init[i] == order[i];
    }
    PutNew(StatsAfter([], init, run), last, run(last).stats);
  }

  /** Over an order without repeats, starting from no stats, one entry is
      recorded per table, in order, holding that table's counts. */
  lemma {:induction false} StatsAfterFresh(order: seq<string>, run: string -> TableRun)
    requires Distinct(order)
    ensures |StatsAfter([], order, run)| == |order|
    ensures forall i :: 0 <= i < |order| ==> StatsAfter([], order, run)[i] == (order[i], run(order[i]).stats)
  {
    if order != [] {
      var init, last := order[..|order| - 1], order[|order| - 1];
      assert Distinct(init);
      StatsAfterFresh(init, run);
      var d := StatsAfter([], init, run);
      assert Keys(d) == init;
      forall i | 0 <= i < |init|
        ensures init[i] != last
      {
        assert init[i] == order[i];
      }
      PutNew(d, last, run(last).stats);
      var r := StatsAfter([], order, run);
      assert r == d + [(last, run(last).stats)];
      forall i | 0 <= i < |order|
        ensures r[i] == (order[i], run(order[i]).stats)
      {
        if i < |init| {
          assert r[i] == d[i] == (init[i], run(init[i]).stats);
          assert init[i] == order[i];
        } else {
          assert i == |d| && order[i] == last;
        }
      }
    }
  }

  /** Over an order without repeats, the recorded keys are the order itself. */
  lemma StatsAfterFreshKeys(order: seq<string>, run: string -> TableRun)
    requires Distinct(order)
    ensures Keys(StatsAfter([], order, run)) == order
  {
    StatsAfterFresh(order, run);
    var ks := Keys(StatsAfter([], order, run));
    forall i | 0 <= i < |order|
      ensures ks[i] == order[i]
    {
    }
  }

  /** Over an order without repeats, the totals are the sums of the recorded
      per-table counts. */
  lemma {:induction false} TotalsAreStatsSums(order: seq<string>, run: string -> TableRun)
    requires Distinct(order)
    ensures TotalInserted(order, run) == InsertedSum(StatsAfter([], order, run))
    ensures TotalSkipped(order, run) == SkippedSum(StatsAfter([], order, run))
  {
    if order != [] {
      var init := order[..|order| - 1];
      assert Distinct(init);
      TotalsAreStatsSums(init, run);
      StatsAfterStep(order, run);
      var d, e := StatsAfter([], order, run), StatsAfter([], init, run);
      assert d[..|d| - 1] == e;
    }
  }

  /** `migrate_all` on a fresh migrator records one entry per table of
      MIGRATION_ORDER, in that order, and its totals are the sums of those
      entries. */
  lemma MigrateAllSummary(run: string -> TableRun)
    ensures Keys(StatsAfter([], MIGRATION_ORDER, run)) == MIGRATION_ORDER
    ensures forall i :: 0 <= i < |MIGRATION_ORDER| ==>
      StatsAfter([], MIGRATION_ORDER, run)[i].1 == run(MIGRATION_ORDER[i]).stats
    ensures TotalInserted(MIGRATION_ORDER, run) == InsertedSum(StatsAfter([], MIGRATION_ORDER, run))
    ensures TotalSkipped(MIGRATION_ORDER, run) == SkippedSum(StatsAfter([], MIGRATION_ORDER, run))
  {
    MigrationOrderDistinct();
    StatsAfterFresh(MIGRATION_ORDER, run);
    StatsAfterFreshKeys(MIGRATION_ORDER, run);
    TotalsAreStatsSums(MIGRATION_ORDER, run);
  }

  lemma AppendAssoc<T>(a: seq<T>, b: seq<T>, c: seq<T>)
    ensures (a + b) + c == a + (b + c)
  {
  }

  class Migrator {
    /** The destination connection. */
    const conn: Connection
    /** Per table: the counts of its last migration, in first-recorded order. */
    var stats: Dict<string, TableStats>

    /** Between tables no transaction holds uncommitted rows. */
    ghost predicate Valid()
      reads this, conn
    {
      conn.pending == []
    }

    constructor (conn: Connection)
      requires conn.pending == []
      ensures this.conn == conn && stats == [] && Valid()
    {
      this.conn := conn;
      stats := [];
    }

    /** The `data` dict of row i, built as the loop builds it. */
    method RowData(ghost b: Batch, table: string, pgColumns: seq<string>, rows: seq<Row>, outcomes: seq<InsertOutcome>, i: nat)
      returns (data: Dict<string, Value>)
      requires Built(b, table, pgColumns, rows, outcomes) && i < |rows|
      ensures data == b.data[i]
    {
      data := BuildRowData(table, pgColumns, rows[i]);
    }

    /** One pass of the row loop: build row i's data, skip the row if it is
        empty, otherwise execute its INSERT and, if that raises, count the row
        as skipped and roll back. */
    method CopyRow(ghost b: Batch, table: string, pgColumns: seq<string>, rows: seq<Row>, outcomes: seq<InsertOutcome>,
                   i: nat, inserted0: nat, skipped0: nat)
      returns (inserted: nat, skipped: nat)
      requires Built(b, table, pgColumns, rows, outcomes) && WellKeyed(b) && i < |rows|
      requires inserted0 == InsertedUpTo(b, i) && skipped0 == SkippedUpTo(b, i)
      requires conn.pending == WrittenBetween(b, LastFailure(b, i) + 1, i)
      modifies conn
      ensures inserted == InsertedUpTo(b, i + 1) && skipped == SkippedUpTo(b, i + 1)
      ensures conn.pending == WrittenBetween(b, LastFailure(b, i + 1) + 1, i + 1)
      ensures conn.committed == old(conn.committed)
    {
      inserted, skipped := inserted0, skipped0;
      var data := RowData(b, table, pgColumns, rows, outcomes, i);
      PendingAfterRow(b, i);
      if data == [] {
        skipped := skipped + 1;
      } else {
        var ok := conn.Execute(InsertFor(table, data), OutcomeAt(outcomes, i));
        if ok {
          inserted := inserted + 1;
        } else {
          skipped := skipped + 1;
          conn.Rollback();
        }
      }
    }

    /** The row loop of `migrate_table`: copy every row in one open
        transaction, counting inserted and skipped rows; a row whose INSERT
        raises rolls back the rows written before it. */
    method CopyRows(ghost b: Batch, table: string, pgColumns: seq<string>, rows: seq<Row>, outcomes: seq<InsertOutcome>)
      returns (inserted: nat, skipped: nat)
      requires Built(b, table, pgColumns, rows, outcomes) && WellKeyed(b)
      requires conn.pending == []
      modifies conn
      ensures inserted == InsertedUpTo(b, |rows|) && skipped == SkippedUpTo(b, |rows|)
      ensures conn.pending == WrittenBetween(b, LastFailure(b, |rows|) + 1, |rows|)
      ensures conn.committed == old(conn.committed)
      ensures TableStats(inserted, skipped) == RunBatch(b).stats && conn.pending == RunBatch(b).committed
    {
      inserted, skipped := 0, 0;
      for i := 0 to |rows|
        invariant inserted == InsertedUpTo(b, i) && skipped == SkippedUpTo(b, i)
        invariant conn.pending == WrittenBetween(b, LastFailure(b, i) + 1, i)
        invariant conn.committed == old(conn.committed)
      {
        inserted, skipped := CopyRow(b, table, pgColumns, rows, outcomes, i, inserted, skipped);
      }
    }

    /** `migrate_table`: copy one table and return (inserted, skipped). */
    method MigrateTable(table: string, input: TableInput) returns (inserted: nat, skipped: nat)
      requires Valid()
      modifies conn
      ensures Valid()
      ensures TableStats(inserted, skipped) == RunTable(table, input).stats
      ensures conn.committed == old(conn.committed) + RunTable(table, input).committed
    {
      if input.destColumns.None? {
        conn.Rollback();  // the catalog query raised
        return 0, 0;
      }
      var pgColumns := input.destColumns.value;
      if pgColumns == [] {
        return 0, 0;  // no such destination table
      }
      if input.rows.None? {
        conn.Rollback();  // counting or reading the SQLite rows raised
        return 0, 0;
      }
      var rows := input.rows.value;
      if |rows| == 0 {
        return 0, 0;
      }
      ghost var b := BatchOf(table, input);
      BatchOfBuilt(table, input);
      inserted, skipped := CopyRows(b, table, pgColumns, rows, input.outcomes);
      if !input.commitSucceeds {
        conn.Rollback();  // the commit raised
        return 0, 0;
      }
      assert RunTable(table, input) == RunBatch(b);
      conn.Commit();
    }

    /** `migrate_all`: migrate every table of MIGRATION_ORDER, record its
        counts in `stats`, and return the totals it prints (the locals
        `total_inserted` and `total_skipped`; the source returns nothing). */
    method MigrateAll(env: string -> TableInput) returns (totalInserted: nat, totalSkipped: nat)
      requires Valid()
      modifies this, conn
      ensures Valid()
      ensures stats == StatsAfter(old(stats), MIGRATION_ORDER, Runs(env))
      ensures totalInserted == TotalInserted(MIGRATION_ORDER, Runs(env))
      ensures totalSkipped == TotalSkipped(MIGRATION_ORDER, Runs(env))
      ensures conn.committed == old(conn.committed) + CommittedAll(MIGRATION_ORDER, Runs(env))
    {
      ghost var stats0, committed0 := stats, conn.committed;
      totalInserted, totalSkipped := 0, 0;
      for k := 0 to |MIGRATION_ORDER|
        invariant Valid()
        invariant stats == StatsAfter(stats0, MIGRATION_ORDER[..k], Runs(env))
        invariant totalInserted == TotalInserted(MIGRATION_ORDER[..k], Runs(env))
        invariant totalSkipped == TotalSkipped(MIGRATION_ORDER[..k], Runs(env))
        invariant conn.committed == committed0 + CommittedAll(MIGRATION_ORDER[..k], Runs(env))
      {
        var table := MIGRATION_ORDER[k];
        ExtendByOne(stats0, MIGRATION_ORDER, k, Runs(env));
        ghost var before := conn.committed;
        ghost var run := RunTable(table, env(table));
        var inserted, skipped := MigrateTable(table, env(table));
        assert conn.committed == before + run.committed;
        AppendAssoc(committed0, CommittedAll(MIGRATION_ORDER[..k], Runs(env)), run.committed);
        stats := Put(stats, table, TableStats(inserted, skipped));
        totalInserted := totalInserted + inserted;
        totalSkipped := totalSkipped + skipped;
      }
      assert MIGRATION_ORDER[..|MIGRATION_ORDER|] == MIGRATION_ORDER;
    }
  }
}
