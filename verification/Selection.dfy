/**
 * Backfill runs over selected tables, in any order of selections. Owners, source and target
 * counts and checksums come out as in a full run; only the fallback count can differ.
 */
module Selection {
  import opened Seqs
  import opened BackfillModel
  import opened BackfillStages
  import opened Backfill

  /** Tables that others inherit from inherit from none themselves. */
  ghost predicate RootParents(defs: seq<TableDef>) {
    defs == [] ||
    var front, last := defs[..|defs| - 1], defs[|defs| - 1];
    && RootParents(front)
    && (last.parent.Some? ==> forall i :: 0 <= i < |front| && front[i].name == last.parent.value ==> front[i].parent.None?)
  }

  lemma {:induction false} ParentIsRoot(defs: seq<TableDef>, i: nat, j: nat)
    requires RootParents(defs) && i < j < |defs| && defs[j].parent == Some(defs[i].name)
    ensures defs[i].parent.None?
    decreases |defs|
  {
    var n := |defs| - 1;
    if j < n {
      ParentIsRoot(defs[..n], i, j);
    } else {
      assert defs[..n][i] == defs[i];
    }
  }

  // ---- A parent table in the middle of its own backfill ----

  /** Looking up a row in a root table of which the first k rows are claimed. */
  lemma {:induction false} FindInRoot(t: Table, k: nat, id: nat)
    requires k <= |t|
    ensures var o, f := FindRow(t, id), FindRow(Filled(None, t, k), id);
            && (o.None? <==> f.None?)
            && (o.Some? && o.value.tenant.Some? ==> f.value.tenant == o.value.tenant)
            && (o.Some? && o.value.tenant.None? ==> f.value.tenant == None || f.value.tenant == Some(LEGACY))
            && (o.Some? && k == |t| ==> f.value.tenant.Some?)
  {
    if t != [] {
      var rest := if k == 0 then 0 else k - 1;
      assert Filled(None, t, k)[1..] == Filled(None, t[1..], rest);
      if t[0].id != id {
        FindInRoot(t[1..], rest, id);
      }
    }
  }

  /** A root table with its first k rows claimed, one by one. */
  ghost function RootFilled(t: Table, k: nat): Table
    decreases k
  {
    if k == 0 then t
    else if k > |t| then RootFilled(t, k - 1)
    else
      var r := RootFilled(t, k - 1);
      if |r| == |t| then r[k - 1 := Claim(None, t[k - 1])] else r
  }

  lemma {:induction false} RootFilledIs(t: Table, k: nat)
    ensures RootFilled(t, k) == Filled(None, t, Min(k, |t|))
    decreases k
  {
    if k > 0 {
      RootFilledIs(t, k - 1);
    }
  }

  /** The parent table a table sees when its parent has k rows claimed. */
  ghost function ParentWith(defs: seq<TableDef>, db0: Tables, j: nat, k: nat): Option<Table>
    requires j < |defs|
  {
    if defs[j].parent.None? then None else Some(RootFilled(TableOf(db0, defs[j].parent.value), k))
  }

  /** In a full run a child sees its parent complete. */
  lemma ParentComplete(defs: seq<TableDef>, db0: Tables, j: nat)
    requires Plannable(defs) && RootParents(defs) && j < |defs| && defs[j].parent.Some?
    ensures ParentAt(defs, db0, j) == ParentWith(defs, db0, j, |TableOf(db0, defs[j].parent.value)|)
  {
    var i := ParentBefore(defs, j);
    StageKept(defs, db0, i, j);
    ParentIsRoot(defs, i, j);
    RootFilledIs(TableOf(db0, defs[i].name), |TableOf(db0, defs[i].name)|);
  }

  /** What a row inherits from a parent table that is part way: its final tenant, or nothing yet. */
  lemma InheritsLater(defs: seq<TableDef>, db0: Tables, j: nat, k: nat, row: Row)
    requires Plannable(defs) && RootParents(defs) && j < |defs|
    ensures var now, fin := Inherited(ParentWith(defs, db0, j, k), row), Inherited(ParentAt(defs, db0, j), row);
            (now.Some? ==> now == fin) && (now.None? ==> fin.None? || fin == Some(LEGACY))
  {
    if defs[j].parent.Some? {
      var t := TableOf(db0, defs[j].parent.value);
      ParentComplete(defs, db0, j);
      RootInherits(t, k, row);
    }
  }

  lemma RootInherits(t: Table, k: nat, row: Row)
    ensures var now, fin := Inherited(Some(RootFilled(t, k)), row), Inherited(Some(RootFilled(t, |t|)), row);
            (now.Some? ==> now == fin) && (now.None? ==> fin.None? || fin == Some(LEGACY))
  {
    RootFilledIs(t, k);
    RootFilledIs(t, |t|);
    if row.parent.Some? {
      FindInRoot(t, Min(k, |t|), row.parent.value);
      FindInRoot(t, |t|, row.parent.value);
    }
  }

  /** So the row is claimed for the same tenant whenever its turn comes. */
  lemma ClaimsAlike(defs: seq<TableDef>, db0: Tables, j: nat, k: nat, row: Row)
    requires Plannable(defs) && RootParents(defs) && j < |defs|
    ensures Claim(ParentWith(defs, db0, j, k), row) == Claim(ParentAt(defs, db0, j), row)
  {
    InheritsLater(defs, db0, j, k, row);
  }

  lemma FilledAlike(defs: seq<TableDef>, db0: Tables, j: nat, k: nat, n: nat)
    requires Plannable(defs) && RootParents(defs) && j < |defs| && n <= |Original(defs, db0, j)|
    ensures Filled(ParentWith(defs, db0, j, k), Original(defs, db0, j), n) == Filled(ParentAt(defs, db0, j), Original(defs, db0, j), n)
  {
    forall i | 0 <= i < n
      ensures Claim(ParentWith(defs, db0, j, k), Original(defs, db0, j)[i]) == Claim(ParentAt(defs, db0, j), Original(defs, db0, j)[i])
    {
      ClaimsAlike(defs, db0, j, k, Original(defs, db0, j)[i]);
    }
  }

  /** A covered row whose parent row exists and has no owner yet: it counts as a fallback too early. */
  ghost predicate TooEarly(defs: seq<TableDef>, db0: Tables, j: nat, k: nat, row: Row)
    requires j < |defs|
  {
    Inherited(ParentWith(defs, db0, j, k), row).None? && Inherited(ParentAt(defs, db0, j), row).Some?
  }

  ghost predicate SomeEarly(defs: seq<TableDef>, db0: Tables, j: nat, k: nat, rows: Table)
    requires j < |defs|
  {
    exists i :: 0 <= i < |rows| && TooEarly(defs, db0, j, k, rows[i])
  }

  /** The fallback count of some rows: never below the full run's, and equal exactly when none comes too early. */
  lemma {:induction false} FallbackExcess(defs: seq<TableDef>, db0: Tables, j: nat, k: nat, rows: Table)
    requires Plannable(defs) && RootParents(defs) && j < |defs|
    ensures var now, fin := CountFallback(ParentWith(defs, db0, j, k), rows), CountFallback(ParentAt(defs, db0, j), rows);
            now >= fin && (now == fin <==> !SomeEarly(defs, db0, j, k, rows))
  {
    if rows != [] {
      var n := |rows| - 1;
      FallbackExcess(defs, db0, j, k, rows[..n]);
      InheritsLater(defs, db0, j, k, rows[n]);
      EarlyFront(defs, db0, j, k, rows);
    }
  }

  lemma EarlyFront(defs: seq<TableDef>, db0: Tables, j: nat, k: nat, rows: Table)
    requires j < |defs| && rows != []
    ensures var n := |rows| - 1;
            SomeEarly(defs, db0, j, k, rows) <==> SomeEarly(defs, db0, j, k, rows[..n]) || TooEarly(defs, db0, j, k, rows[n])
  {
    var n := |rows| - 1;
    assert forall i :: 0 <= i < n ==> rows[..n][i] == rows[i];
  }

  // ---- How far each table has come ----

  /** A batch of a table: the rows it covered, and how many rows of the parent table were claimed by then. */
  datatype Cover = Cover(from: nat, to: nat, parentRows: nat)

  datatype Mark = Mark(k: nat, started: bool, completed: bool, sealed: bool, fallback: nat, covers: seq<Cover>)

  const UNTOUCHED := Mark(0, false, false, false, 0, [])

  /** The batches follow one another from row 0 to row k. */
  ghost predicate Contiguous(covers: seq<Cover>, k: nat) {
    if covers == [] then k == 0
    else
      var last := covers[|covers| - 1];
      last.to == k && last.from < k && Contiguous(covers[..|covers| - 1], last.from)
  }

  ghost function CoveredRows(t: Table, c: Cover): Table {
    if c.from <= c.to <= |t| then t[c.from..c.to] else []
  }

  /** What the batches of a table add to its fallback count. */
  ghost function FallbackSum(defs: seq<TableDef>, db0: Tables, j: nat, covers: seq<Cover>): nat
    requires j < |defs|
  {
    if covers == [] then 0
    else
      var n := |covers| - 1;
      FallbackSum(defs, db0, j, covers[..n])
      + CountFallback(ParentWith(defs, db0, j, covers[n].parentRows), CoveredRows(Original(defs, db0, j), covers[n]))
  }

  function StateFor(t: Table, m: Mark): TableState
    requires m.k <= |t|
  {
    TableState(if m.completed then Completed else if m.k == 0 then Pending else Running,
               CursorAt(t, m.k), m.k, UnownedUpTo(t, m.k), m.fallback, if m.sealed then Some(IdsOf(t)) else None, 0)
  }

  ghost predicate MarkOk(defs: seq<TableDef>, db0: Tables, j: nat, m: Mark)
    requires j < |defs|
  {
    && m.k <= |Original(defs, db0, j)|
    && (m.completed ==> m.started && m.k == |Original(defs, db0, j)|) && (m.sealed ==> m.completed)
    && (!m.started ==> m == UNTOUCHED)
    && Contiguous(m.covers, m.k) && m.fallback == FallbackSum(defs, db0, j, m.covers)
  }

  /** Rows and ledger entry of one table. */
  ghost predicate TableAt(defs: seq<TableDef>, db0: Tables, rows: Tables, ledger: Ledger, j: nat, m: Mark)
    requires j < |defs|
  {
    var name, t := defs[j].name, Original(defs, db0, j);
    && MarkOk(defs, db0, j, m)
    && name in rows && rows[name] == Filled(ParentAt(defs, db0, j), t, m.k)
    && (name in ledger <==> m.started)
    && (m.started ==> ledger[name] == StateFor(t, m))
  }

  ghost predicate Scope(defs: seq<TableDef>, db0: Tables) {
    Plannable(defs) && RootParents(defs) && Database(defs, db0)
  }

  /** Tables outside the scope are untouched, and the first n tables of the scope are where their marks say. */
  ghost predicate TablesAt(defs: seq<TableDef>, db0: Tables, rows: Tables, ledger: Ledger, ms: seq<Mark>, n: nat)
    requires n <= |defs| == |ms|
  {
    if n == 0 then rows.Keys == db0.Keys && forall name :: name in db0 && name !in Names(defs) ==> name in rows && rows[name] == db0[name]
    else TablesAt(defs, db0, rows, ledger, ms, n - 1) && TableAt(defs, db0, rows, ledger, n - 1, ms[n - 1])
  }

  /** The database is where the marks say. */
  ghost predicate At(defs: seq<TableDef>, db0: Tables, rows: Tables, ledger: Ledger, ms: seq<Mark>) {
    Scope(defs, db0) && |ms| == |defs| && TablesAt(defs, db0, rows, ledger, ms, |defs|)
  }

  lemma {:induction false} TableHere(defs: seq<TableDef>, db0: Tables, rows: Tables, ledger: Ledger, ms: seq<Mark>, n: nat, j: nat)
    requires j < n <= |defs| == |ms| && TablesAt(defs, db0, rows, ledger, ms, n)
    ensures TableAt(defs, db0, rows, ledger, j, ms[j])
    decreases n
  {
    if j < n - 1 {
      TableHere(defs, db0, rows, ledger, ms, n - 1, j);
    }
  }

  lemma {:induction false} OutsideHere(defs: seq<TableDef>, db0: Tables, rows: Tables, ledger: Ledger, ms: seq<Mark>, n: nat)
    requires n <= |defs| == |ms| && TablesAt(defs, db0, rows, ledger, ms, n)
    ensures TablesAt(defs, db0, rows, ledger, ms, 0)
  {
    if n > 0 {
      OutsideHere(defs, db0, rows, ledger, ms, n - 1);
    }
  }

  lemma {:induction false} TablesStand(defs: seq<TableDef>, db0: Tables, rows: Tables, ledger: Ledger, ms: seq<Mark>, n: nat)
    requires n <= |defs| == |ms| && TablesAt(defs, db0, rows, ledger, ms, 0)
    requires forall j :: 0 <= j < n ==> TableAt(defs, db0, rows, ledger, j, ms[j])
    ensures TablesAt(defs, db0, rows, ledger, ms, n)
  {
    if n > 0 {
      TablesStand(defs, db0, rows, ledger, ms, n - 1);
    }
  }

  /** How many rows of a table's parent are claimed; 0 for a root table. */
  ghost predicate ParentRows(defs: seq<TableDef>, ms: seq<Mark>, j: nat, k: nat)
    requires j < |defs| == |ms|
  {
    if defs[j].parent.None? then k == 0
    else exists i :: 0 <= i < |defs| && defs[i].name == defs[j].parent.value && ms[i].k == k
  }

  // ---- One batch ----

  /** A table and its parent as the database holds them: the claimed rows are those of a full run. */
  lemma TableNow(defs: seq<TableDef>, db0: Tables, rows: Tables, ledger: Ledger, ms: seq<Mark>, j: nat) returns (k: nat, now: Option<Table>)
    requires At(defs, db0, rows, ledger, ms) && j < |defs|
    ensures MarkOk(defs, db0, j, ms[j]) && ParentRows(defs, ms, j, k)
    ensures now == ParentWith(defs, db0, j, k) == ParentTable(defs[j], rows)
    ensures TableOf(rows, defs[j].name) == Filled(now, Original(defs, db0, j), ms[j].k)
  {
    k := 0;
    if defs[j].parent.Some? {
      var i := ParentBefore(defs, j);
      ParentIsRoot(defs, i, j);
      TableHere(defs, db0, rows, ledger, ms, |defs|, i);
      k := ms[i].k;
      RootFilledIs(Original(defs, db0, i), k);
    }
    now := ParentWith(defs, db0, j, k);
    TableHere(defs, db0, rows, ledger, ms, |defs|, j);
    FilledAlike(defs, db0, j, k, ms[j].k);
  }

  /** The mark after a batch that covered rows up to n. */
  ghost function Further(t: Table, now: Option<Table>, m: Mark, n: nat, k: nat): Mark
    requires m.k <= n <= |t|
  {
    m.(k := n, fallback := m.fallback + CountFallback(now, t[m.k..n]), covers := m.covers + [Cover(m.k, n, k)])
  }

  /** The ledger row follows the mark. */
  lemma StateAdvances(t: Table, now: Option<Table>, m: Mark, n: nat, k: nat, row: BatchRow)
    requires Ordered(t) && m.k < n <= |t| && !m.completed && !m.sealed
    requires row.source == n - m.k && row.target == CountUnowned(t[m.k..n])
    requires row.legacy == CountFallback(now, t[m.k..n]) && row.cursor == CursorAt(t, n)
    ensures Advance(StateFor(t, m), row) == StateFor(t, Further(t, now, m, n, k))
  {
    PartialStep(now, t, m.k, n);
    UpToCounts(now, t, m.k);
    UpToCounts(now, t, n);
    OrderedAt(t, n - 1, n - 1);
    assert row.cursor == CursorAt(t, n) > 0;
  }

  lemma FurtherOk(defs: seq<TableDef>, db0: Tables, j: nat, t: Table, m: Mark, n: nat, k: nat)
    requires j < |defs| && t == Original(defs, db0, j) && MarkOk(defs, db0, j, m) && m.started && !m.completed && m.k < n <= |t|
    ensures MarkOk(defs, db0, j, Further(t, ParentWith(defs, db0, j, k), m, n, k))
  {
    var covers := m.covers + [Cover(m.k, n, k)];
    assert covers[..|m.covers|] == m.covers && covers[|m.covers|] == Cover(m.k, n, k);
    SumLast(defs, db0, j, covers);
  }

  lemma SumLast(defs: seq<TableDef>, db0: Tables, j: nat, covers: seq<Cover>)
    requires j < |defs| && covers != []
    ensures var n := |covers| - 1;
            FallbackSum(defs, db0, j, covers)
            == FallbackSum(defs, db0, j, covers[..n])
               + CountFallback(ParentWith(defs, db0, j, covers[n].parentRows), CoveredRows(Original(defs, db0, j), covers[n]))
  {
  }

  /** One table of the database moves on; the others stay where they are. */
  lemma Moved(defs: seq<TableDef>, db0: Tables, rows: Tables, ledger: Ledger, ms: seq<Mark>, j: nat, m: Mark,
              table: Table, state: TableState)
    requires At(defs, db0, rows, ledger, ms) && j < |defs|
    requires MarkOk(defs, db0, j, m) && m.started
    requires table == Filled(ParentAt(defs, db0, j), Original(defs, db0, j), m.k) && state == StateFor(Original(defs, db0, j), m)
    ensures At(defs, db0, rows[defs[j].name := table], ledger[defs[j].name := state], ms[j := m])
  {
    var name, after := defs[j].name, ms[j := m];
    TableHere(defs, db0, rows, ledger, ms, |defs|, j);
    assert Names(defs)[j] == name;
    forall i | 0 <= i < |defs| ensures TableAt(defs, db0, rows[name := table], ledger[name := state], i, after[i]) {
      TableHere(defs, db0, rows, ledger, ms, |defs|, i);
      if i < j {
        NamesDiffer(defs, i, j);
      } else if j < i {
        NamesDiffer(defs, j, i);
      }
    }
    OutsideHere(defs, db0, rows, ledger, ms, |defs|);
    TablesStand(defs, db0, rows[name := table], ledger[name := state], after, |defs|);
  }

  /** Only table j differs, it has not gone back, and a completed table stays as it is but for its checksum. */
  ghost predicate Onward(a: seq<Mark>, b: seq<Mark>, j: nat) {
    && |a| == |b| && j < |a|
    && (forall i :: 0 <= i < |a| && i != j ==> b[i] == a[i])
    && a[j].k <= b[j].k && a[j].covers <= b[j].covers
    && (a[j].completed ==> b[j] == a[j].(sealed := b[j].sealed))
  }

  /** The statement on a table of which the first m rows are claimed. */
  lemma StatementAnywhere(def: TableDef, rows: Tables, t: Table, m: nat, now: Option<Table>, size: nat, row: BatchRow)
    requires Ordered(t) && m <= |t| && ParentTable(def, rows) == now && TableOf(rows, def.name) == Filled(now, t, m)
    requires row == PendingBatch(def, rows, CursorAt(t, m), size)
    ensures Reports(row, now, t, m, Min(m + size, |t|))
  {
    BatchAt(def, rows, now, t, m, size);
  }

  /** The mark, the ledger row and the table after a batch that covered rows. */
  lemma CoversMore(defs: seq<TableDef>, db0: Tables, rows: Tables, j: nat, t: Table, m0: Mark, now: Option<Table>, k: nat,
                   n: nat, size: nat, row: BatchRow)
    returns (m: Mark)
    requires Scope(defs, db0) && j < |defs| && t == Original(defs, db0, j) && MarkOk(defs, db0, j, m0)
    requires m0.started && !m0.completed && m0.k < |t| && size > 0 && n == Min(m0.k + size, |t|)
    requires now == ParentWith(defs, db0, j, k) == ParentTable(defs[j], rows) && TableOf(rows, defs[j].name) == Filled(now, t, m0.k)
    requires row == PendingBatch(defs[j], rows, CursorAt(t, m0.k), size)
    ensures m == Further(t, now, m0, n, k) && MarkOk(defs, db0, j, m) && row.source > 0
    ensures Advance(StateFor(t, m0), row) == StateFor(t, m)
    ensures row.table == Filled(ParentAt(defs, db0, j), t, n)
  {
    m := Further(t, now, m0, n, k);
    TableOrdered(defs, db0, j);
    StateCovers(defs[j], rows, t, m0, now, k, n, size, row);
    FilledAlike(defs, db0, j, k, n);
    FurtherOk(defs, db0, j, t, m0, n, k);
  }

  lemma StateCovers(def: TableDef, rows: Tables, t: Table, m0: Mark, now: Option<Table>, k: nat, n: nat, size: nat, row: BatchRow)
    requires Ordered(t) && m0.k < |t| && !m0.completed && !m0.sealed && size > 0 && n == Min(m0.k + size, |t|)
    requires ParentTable(def, rows) == now && TableOf(rows, def.name) == Filled(now, t, m0.k)
    requires row == PendingBatch(def, rows, CursorAt(t, m0.k), size)
    ensures row.source > 0 && row.table == Filled(now, t, n)
    ensures Advance(StateFor(t, m0), row) == StateFor(t, Further(t, now, m0, n, k))
  {
    StatementAnywhere(def, rows, t, m0.k, now, size, row);
    StateAdvances(t, now, m0, n, k, row);
  }

  /** The same after a batch that found nothing left. */
  lemma CoversNothing(defs: seq<TableDef>, db0: Tables, rows: Tables, j: nat, t: Table, m0: Mark, now: Option<Table>, k: nat,
                      size: nat, row: BatchRow)
    requires Scope(defs, db0) && j < |defs| && t == Original(defs, db0, j) && MarkOk(defs, db0, j, m0)
    requires m0.started && !m0.completed && m0.k == |t|
    requires now == ParentWith(defs, db0, j, k) == ParentTable(defs[j], rows) && TableOf(rows, defs[j].name) == Filled(now, t, m0.k)
    requires row == PendingBatch(defs[j], rows, CursorAt(t, m0.k), size)
    ensures row.source == 0 && row.unresolved == [] && row.table == Filled(ParentAt(defs, db0, j), t, |t|)
    ensures StateFor(t, m0).(status := Completed) == StateFor(t, m0.(completed := true))
  {
    TableOrdered(defs, db0, j);
    StatementAnywhere(defs[j], rows, t, m0.k, now, size, row);
    FilledAlike(defs, db0, j, k, |t|);
  }

  lemma FurtherAdds(defs: seq<TableDef>, db0: Tables, ms: seq<Mark>, j: nat, t: Table, n: nat, now: Option<Table>, k: nat, size: nat)
    requires j < |defs| == |ms| && t == Original(defs, db0, j) && n == Min(ms[j].k + size, |t|) && ms[j].k < n
    requires !ms[j].completed && ParentRows(defs, ms, j, k)
    ensures var m := Further(t, now, ms[j], n, k); Adds(defs, db0, ms, j, size, m) && Onward(ms, ms[j := m], j)
  {
  }

  /** The database after a batch that covered rows. */
  lemma MovesOn(defs: seq<TableDef>, db0: Tables, rows: Tables, ledger: Ledger, ms: seq<Mark>, j: nat, t: Table, size: nat, row: BatchRow)
    returns (m: Mark)
    requires size > 0 && At(defs, db0, rows, ledger, ms) && j < |defs| && t == Original(defs, db0, j)
    requires ms[j].started && !ms[j].completed && ms[j].k < |t| && row == PendingBatch(defs[j], rows, CursorAt(t, ms[j].k), size)
    ensures row.source > 0 && m.started && m.k <= |t| && Adds(defs, db0, ms, j, size, m) && Onward(ms, ms[j := m], j)
    ensures Advance(StateFor(t, ms[j]), row) == StateFor(t, m)
    ensures At(defs, db0, rows[defs[j].name := row.table], ledger[defs[j].name := StateFor(t, m)], ms[j := m])
  {
    var n := Min(ms[j].k + size, |t|);
    var k, now := TableNow(defs, db0, rows, ledger, ms, j);
    m := CoversMore(defs, db0, rows, j, t, ms[j], now, k, n, size, row);
    FurtherAdds(defs, db0, ms, j, t, n, now, k, size);
    Moved(defs, db0, rows, ledger, ms, j, m, row.table, StateFor(t, m));
  }

  /** The database after a batch that found nothing left. */
  lemma FindsNothing(defs: seq<TableDef>, db0: Tables, rows: Tables, ledger: Ledger, ms: seq<Mark>, j: nat, t: Table, size: nat, row: BatchRow)
    returns (m: Mark)
    requires size > 0 && At(defs, db0, rows, ledger, ms) && j < |defs| && t == Original(defs, db0, j)
    requires ms[j].started && !ms[j].completed && ms[j].k == |t| && row == PendingBatch(defs[j], rows, CursorAt(t, ms[j].k), size)
    ensures row.source == 0 && row.unresolved == [] && m == ms[j].(completed := true)
    ensures StateFor(t, ms[j]).(status := Completed) == StateFor(t, m)
    ensures At(defs, db0, rows[defs[j].name := row.table], ledger[defs[j].name := StateFor(t, m)], ms[j := m])
  {
    var k, now := TableNow(defs, db0, rows, ledger, ms, j);
    CoversNothing(defs, db0, rows, j, t, ms[j], now, k, size, row);
    m := ms[j].(completed := true);
    Moved(defs, db0, rows, ledger, ms, j, m, row.table, StateFor(t, m));
  }

  /** What a batch adds to a table's record: the rows it covered and how far its parent had come. */
  ghost predicate Adds(defs: seq<TableDef>, db0: Tables, ms: seq<Mark>, j: nat, size: nat, m: Mark)
    requires j < |defs| == |ms|
  {
    var n := |Original(defs, db0, j)|;
    if ms[j].k == n then m == ms[j].(completed := true)
    else
      && m.k == Min(ms[j].k + size, n) && !m.completed
      && exists k :: ParentRows(defs, ms, j, k) && m.covers == ms[j].covers + [Cover(ms[j].k, m.k, k)]
  }

  /** `backfill_table_batch` on any table, wherever the others stand. */
  method SelectedBatch(c: Connection, def: TableDef, state: TableState, size: nat,
                       ghost defs: seq<TableDef>, ghost db0: Tables, ghost ms: seq<Mark>, ghost j: nat)
    returns (state': TableState, settled: bool, ghost ms': seq<Mark>)
    requires size > 0 && At(defs, db0, c.rows, c.ledger, ms) && j < |defs| && def == defs[j]
    requires ms[j].started && !ms[j].completed && ms[j].k <= |Original(defs, db0, j)| && state == StateFor(Original(defs, db0, j), ms[j])
    modifies c
    ensures At(defs, db0, c.rows, c.ledger, ms') && Onward(ms, ms', j) && ms'[j].started
    ensures Adds(defs, db0, ms, j, size, ms'[j])
    ensures settled <==> ms'[j].completed
    ensures ms'[j].k <= |Original(defs, db0, j)| && state' == StateFor(Original(defs, db0, j), ms'[j])
  {
    ghost var t, m := Original(defs, db0, j), ms[j];
    var row := PendingBatch(def, c.rows, state.cursor, size);
    if ms[j].k < |t| {
      m := MovesOn(defs, db0, c.rows, c.ledger, ms, j, t, size, row);
    } else {
      m := FindsNothing(defs, db0, c.rows, c.ledger, ms, j, t, size, row);
    }
    c.rows := c.rows[def.name := row.table];
    ms' := ms[j := m];
    if row.source > 0 {
      state' := Advance(state, row);
      c.Persist(def.name, state');
      settled := false;
    } else if row.unresolved == [] {
      state' := state.(status := Completed);
      c.Persist(def.name, state');
      settled := true;
    } else {
      assert false;
    }
  }

  // ---- The fallback count over all batches ----

  ghost predicate EarlyCover(defs: seq<TableDef>, db0: Tables, j: nat, c: Cover)
    requires j < |defs|
  {
    SomeEarly(defs, db0, j, c.parentRows, CoveredRows(Original(defs, db0, j), c))
  }

  /** The count is never below the full run's, and equals it exactly when no batch covered a row too early. */
  lemma {:induction false} SumExcess(defs: seq<TableDef>, db0: Tables, j: nat, covers: seq<Cover>, k: nat)
    requires Scope(defs, db0) && j < |defs| && Contiguous(covers, k) && k <= |Original(defs, db0, j)|
    ensures var sum, full := FallbackSum(defs, db0, j, covers), CountFallback(ParentAt(defs, db0, j), Original(defs, db0, j)[..k]);
            sum >= full && (sum == full <==> NoneEarly(defs, db0, j, covers))
  {
    var t := Original(defs, db0, j);
    if covers == [] {
      assert t[..0] == [];
    } else {
      var front, last := covers[..|covers| - 1], covers[|covers| - 1];
      SumExcess(defs, db0, j, front, last.from);
      SumLast(defs, db0, j, covers);
      FallbackExcess(defs, db0, j, last.parentRows, CoveredRows(t, last));
      PartialStep(ParentAt(defs, db0, j), t, last.from, k);
    }
  }

  ghost predicate NoneEarly(defs: seq<TableDef>, db0: Tables, j: nat, covers: seq<Cover>)
    requires j < |defs|
  {
    covers == [] ||
    (NoneEarly(defs, db0, j, covers[..|covers| - 1]) && !EarlyCover(defs, db0, j, covers[|covers| - 1]))
  }

  /** Read batch by batch. */
  lemma {:induction false} NoneEarlyAt(defs: seq<TableDef>, db0: Tables, j: nat, covers: seq<Cover>, i: nat)
    requires j < |defs| && NoneEarly(defs, db0, j, covers) && i < |covers|
    ensures !EarlyCover(defs, db0, j, covers[i])
  {
    if i < |covers| - 1 {
      NoneEarlyAt(defs, db0, j, covers[..|covers| - 1], i);
    }
  }

  // ---- Runs over selected tables ----

  /** No table has gone back, and a completed one stays as it is but for its checksum. */
  ghost predicate Forward(a: seq<Mark>, b: seq<Mark>) {
    && |a| == |b|
    && forall i :: 0 <= i < |a| ==> a[i].k <= b[i].k && (a[i].completed ==> b[i] == a[i].(sealed := b[i].sealed))
  }

  lemma ForwardTransitive(a: seq<Mark>, b: seq<Mark>, c: seq<Mark>)
    requires Forward(a, b) && Forward(b, c)
    ensures Forward(a, c)
  {
  }

  lemma StartMark(defs: seq<TableDef>, db0: Tables, rows: Tables, ledger: Ledger, ms: seq<Mark>, j: nat)
    requires At(defs, db0, rows, ledger, ms) && j < |defs|
    ensures var name, t, m := defs[j].name, Original(defs, db0, j), ms[j].(started := true);
            && m.k <= |t|
            && (if name in ledger then ledger[name] else FRESH) == StateFor(t, m)
            && At(defs, db0, rows, ledger[name := StateFor(t, m)], ms[j := m])
  {
    var name, t, m := defs[j].name, Original(defs, db0, j), ms[j].(started := true);
    TableHere(defs, db0, rows, ledger, ms, |defs|, j);
    Moved(defs, db0, rows, ledger, ms, j, m, rows[name], StateFor(t, m));
    assert rows[name := rows[name]] == rows;
  }

  // ---- The calls of a run ----

  /** The batch calls that completing a table takes; a completed one takes none. */
  ghost function CallsOf(db0: Tables, def: TableDef, m: Mark, size: nat): (r: seq<TableName>)
    requires size > 0
    ensures forall i :: 0 <= i < |r| ==> r[i] == def.name
  {
    if m.completed then [] else seq(Needs(db0, def, m.k, size) + 1, i => def.name)
  }

  /** Those of the selected ones among the first i tables, in order. */
  ghost function CallsUpTo(defs: seq<TableDef>, db0: Tables, selected: set<TableName>, ms: seq<Mark>, size: nat, i: nat): seq<TableName>
    requires size > 0 && i <= |defs| == |ms|
  {
    if i == 0 then []
    else CallsUpTo(defs, db0, selected, ms, size, i - 1)
         + (if defs[i - 1].name in selected then CallsOf(db0, defs[i - 1], ms[i - 1], size) else [])
  }

  lemma {:induction false} CallsPrefix(defs: seq<TableDef>, db0: Tables, selected: set<TableName>, ms: seq<Mark>, size: nat, i: nat, j: nat)
    requires size > 0 && i <= j <= |defs| == |ms|
    ensures CallsUpTo(defs, db0, selected, ms, size, i) <= CallsUpTo(defs, db0, selected, ms, size, j)
    decreases j
  {
    if i < j {
      CallsPrefix(defs, db0, selected, ms, size, i, j - 1);
    }
  }

  /** After none of the first n calls the check says stop. */
  ghost predicate NoStop(calls: seq<TableName>, stop: StopCheck, n: nat) {
    n <= |calls| && forall i :: 0 <= i < n ==> !stop(calls[i], i + 1)
  }

  /** The run went through these calls, all of them or up to the first stop. */
  ghost predicate Called(calls: seq<TableName>, stop: StopCheck, batches: nat, stopped: bool) {
    if stopped then 0 < batches <= |calls| && NoStop(calls, stop, batches - 1) && stop(calls[batches - 1], batches)
    else NoStop(calls, stop, batches)
  }

  /** One table's calls after those of the tables before it. */
  lemma CalledOn(a: seq<TableName>, name: TableName, b: seq<TableName>, calls: seq<TableName>, stop: StopCheck, batches: nat, stopped: bool)
    requires NoStop(a, stop, |a|) && (forall i :: 0 <= i < |b| ==> b[i] == name) && a + b <= calls
    requires batches <= |a| + |b| && CalledFor(name, stop, |a|, batches, stopped)
    ensures Called(calls, stop, batches, stopped)
  {
    var n := if stopped then batches - 1 else batches;
    CalledBefore(name, stop, |a|, batches, stopped);
    forall i | 0 <= i < n ensures !stop(calls[i], i + 1) {
      assert calls[i] == (a + b)[i];
      if i >= |a| {
        assert calls[i] == b[i - |a|] == name;
      }
    }
    if stopped {
      assert calls[batches - 1] == (a + b)[batches - 1] == b[batches - 1 - |a|];
    }
  }

  lemma OnwardTransitive(a: seq<Mark>, b: seq<Mark>, c: seq<Mark>, j: nat)
    requires Onward(a, b, j) && Onward(b, c, j)
    ensures Onward(a, c, j)
  {
  }

  lemma OnwardIsForward(a: seq<Mark>, b: seq<Mark>, j: nat)
    requires Onward(a, b, j)
    ensures Forward(a, b)
  {
  }

  /** One selected table: skipped when complete, otherwise batch by batch until it settles, stops or raises. */
  method SelectedTable(c: Connection, def: TableDef, size: nat, stop: StopCheck, batches0: nat, limit: nat,
                       ghost defs: seq<TableDef>, ghost db0: Tables, ghost ms: seq<Mark>, ghost j: nat)
    returns (batches: nat, outcome: TableOutcome, ghost ms': seq<Mark>)
    requires size > 0 && limit > 0 && At(defs, db0, c.rows, c.ledger, ms) && j < |defs| && def == defs[j]
    modifies c
    ensures At(defs, db0, c.rows, c.ledger, ms') && Onward(ms, ms', j)
    ensures CalledFor(def.name, stop, batches0, batches, outcome == StoppedHere)
    ensures batches <= batches0 + |CallsOf(db0, def, ms[j], size)|
    ensures ms'[j].completed <==> batches == batches0 + |CallsOf(db0, def, ms[j], size)|
    ensures outcome == Settled ==> ms'[j].completed
    ensures ms'[j].k == RowsAfter(|Original(defs, db0, j)|, ms[j].k, size, batches - batches0)
    ensures outcome == Settled ==> ms[j].completed || Needs(db0, def, ms[j].k, size) < limit
    ensures outcome == Raised ==> !ms[j].completed && Needs(db0, def, ms[j].k, size) >= limit && batches == batches0 + limit
  {
    StartMark(defs, db0, c.rows, c.ledger, ms, j);
    var state := if def.name in c.ledger then c.ledger[def.name] else FRESH;
    batches, outcome, ms' := batches0, Settled, ms;
    if state.status != Completed {
      c.Persist(def.name, state);
      ms' := ms[j := ms[j].(started := true)];
      ghost var entered := ms';
      batches, outcome, ms' :=
        FillTable(c, def, state, size, stop, batches0, limit, defs, db0, entered, j, Needs(db0, def, ms[j].k, size));
      OnwardTransitive(ms, entered, ms', j);
    }
  }

  /** The batches of a table that is not complete. */
  method FillTable(c: Connection, def: TableDef, state0: TableState, size: nat, stop: StopCheck, batches0: nat, limit: nat,
                   ghost defs: seq<TableDef>, ghost db0: Tables, ghost ms: seq<Mark>, ghost j: nat, ghost need: nat)
    returns (batches: nat, outcome: TableOutcome, ghost ms': seq<Mark>)
    requires size > 0 && limit > 0 && At(defs, db0, c.rows, c.ledger, ms) && j < |defs| && def == defs[j]
    requires IsOpen(defs, db0, ms, j, state0) && need == Needs(db0, def, ms[j].k, size)
    modifies c
    ensures At(defs, db0, c.rows, c.ledger, ms') && batches0 <= batches
    ensures Going(defs, db0, size, stop, batches0, ms, j, need, batches - batches0, outcome == StoppedHere, ms')
    ensures outcome == Settled ==> ms'[j].completed && need < limit
    ensures outcome == Raised ==> batches - batches0 == limit <= need
  {
    var state, tableBatches := state0, 0;
    batches, ms' := batches0, ms;
    while true
      invariant At(defs, db0, c.rows, c.ledger, ms') && IsOpen(defs, db0, ms', j, state)
      invariant tableBatches < limit && batches == batches0 + tableBatches
      invariant Going(defs, db0, size, stop, batches0, ms, j, need, tableBatches, false, ms')
      decreases limit - tableBatches
    {
      var settled;
      state, settled, ms' := NextSelected(c, def, state, size, stop, batches0, tableBatches, defs, db0, ms, ms', j, need);
      batches := batches + 1;
      tableBatches := tableBatches + 1;
      if stop(def.name, batches) {
        return batches, StoppedHere, ms';
      }
      if settled {
        return batches, Settled, ms';
      }
      if tableBatches >= limit {
        return batches, Raised, ms';
      }
    }
  }

  /** Table j after n batches of the loop: how far it has come, whether it is complete, and what the stop check said. */
  ghost predicate Going(defs: seq<TableDef>, db0: Tables, size: nat, stop: StopCheck, from: nat, first: seq<Mark>, j: nat,
                        need: nat, n: nat, stopped: bool, ms: seq<Mark>)
  {
    && j < |defs| == |first| && Onward(first, ms, j) && n <= need + 1 && (ms[j].completed <==> n == need + 1)
    && ms[j].k == RowsAfter(|Original(defs, db0, j)|, first[j].k, size, n)
    && CalledFor(defs[j].name, stop, from, from + n, stopped)
    && size > 0 && (!ms[j].completed ==> need == n + Needs(db0, defs[j], ms[j].k, size))
  }

  /** The table is under way and `state` is its ledger row. */
  ghost predicate IsOpen(defs: seq<TableDef>, db0: Tables, ms: seq<Mark>, j: nat, state: TableState) {
    && j < |defs| == |ms| && ms[j].started && !ms[j].completed
    && ms[j].k <= |Original(defs, db0, j)| && state == StateFor(Original(defs, db0, j), ms[j])
  }

  /** One batch of the loop. */
  method NextSelected(c: Connection, def: TableDef, state: TableState, size: nat, ghost stop: StopCheck, ghost from: nat, ghost n: nat,
                      ghost defs: seq<TableDef>, ghost db0: Tables, ghost first: seq<Mark>, ghost ms: seq<Mark>, ghost j: nat, ghost need: nat)
    returns (state': TableState, settled: bool, ghost ms': seq<Mark>)
    requires At(defs, db0, c.rows, c.ledger, ms) && j < |defs| && def == defs[j] && IsOpen(defs, db0, ms, j, state)
    requires Going(defs, db0, size, stop, from, first, j, need, n, false, ms)
    modifies c
    ensures At(defs, db0, c.rows, c.ledger, ms')
    ensures Going(defs, db0, size, stop, from, first, j, need, n + 1, stop(def.name, from + n + 1), ms')
    ensures settled <==> ms'[j].completed
    ensures !settled ==> IsOpen(defs, db0, ms', j, state')
  {
    state', settled, ms' := SelectedBatch(c, def, state, size, defs, db0, ms, j);
    GoesOn(defs, db0, size, stop, from, first, j, need, n, ms, ms');
  }

  lemma GoesOn(defs: seq<TableDef>, db0: Tables, size: nat, stop: StopCheck, from: nat, first: seq<Mark>, j: nat,
               need: nat, n: nat, ms: seq<Mark>, ms': seq<Mark>)
    requires Going(defs, db0, size, stop, from, first, j, need, n, false, ms) && !ms[j].completed && ms[j].k <= |Original(defs, db0, j)|
    requires Onward(ms, ms', j) && Adds(defs, db0, ms, j, size, ms'[j])
    ensures Going(defs, db0, size, stop, from, first, j, need, n + 1, stop(defs[j].name, from + n + 1), ms')
  {
    Nearer(defs, db0, ms, j, size, ms'[j]);
    OnwardTransitive(first, ms, ms', j);
    CalledOnce(defs[j].name, stop, from, from + n);
  }

  /** Each batch that covers rows is one less to come. */
  lemma Nearer(defs: seq<TableDef>, db0: Tables, ms: seq<Mark>, j: nat, size: nat, m: Mark)
    requires size > 0 && j < |defs| == |ms| && !ms[j].completed && ms[j].k <= |Original(defs, db0, j)| && Adds(defs, db0, ms, j, size, m)
    ensures m.k == Min(ms[j].k + size, |Original(defs, db0, j)|)
    ensures m.completed ==> Needs(db0, defs[j], ms[j].k, size) == 0
    ensures !m.completed ==> Needs(db0, defs[j], ms[j].k, size) == Needs(db0, defs[j], m.k, size) + 1
  {
    BatchesStep(|Original(defs, db0, j)|, ms[j].k, size);
  }

  datatype SelectionResult =
    | BadSize
    | UnknownTables
    | SelectionFinished(batches: nat)
    | SelectionStopped(batches: nat)
    | SelectionRaised(table: TableName)

  /** The ids of a table never change. */
  lemma FilledIds(par: Option<Table>, t: Table, k: nat)
    requires k <= |t|
    ensures IdsOf(Filled(par, t, k)) == IdsOf(t)
  {
  }

  lemma SealMark(defs: seq<TableDef>, db0: Tables, rows: Tables, ledger: Ledger, ms: seq<Mark>, j: nat)
    requires At(defs, db0, rows, ledger, ms) && j < |defs| && defs[j].name in ledger && ledger[defs[j].name].status == Completed
    ensures var name, m := defs[j].name, ms[j].(sealed := true);
            At(defs, db0, rows, ledger[name := ledger[name].(checksum := Some(IdsOf(TableOf(rows, name))))], ms[j := m])
  {
    var name, t, m := defs[j].name, Original(defs, db0, j), ms[j].(sealed := true);
    TableHere(defs, db0, rows, ledger, ms, |defs|, j);
    FilledIds(ParentAt(defs, db0, j), t, m.k);
    Moved(defs, db0, rows, ledger, ms, j, m, rows[name], StateFor(t, m));
    assert rows[name := rows[name]] == rows;
  }

  /** Tables that are not selected stay as they are. */
  ghost predicate LeavesOut(defs: seq<TableDef>, selected: set<TableName>, ms: seq<Mark>, ms': seq<Mark>) {
    |ms| == |ms'| == |defs| && forall i :: 0 <= i < |defs| && defs[i].name !in selected ==> ms'[i] == ms[i]
  }

  /** Checksums of the selected tables that are complete. */
  method SealSelected(c: Connection, defs: seq<TableDef>, selected: set<TableName>, ghost db0: Tables, ghost ms: seq<Mark>)
    returns (ghost ms': seq<Mark>)
    requires At(defs, db0, c.rows, c.ledger, ms)
    modifies c
    ensures At(defs, db0, c.rows, c.ledger, ms') && Forward(ms, ms') && LeavesOut(defs, selected, ms, ms')
    ensures forall i :: 0 <= i < |ms| && defs[i].name in selected && ms[i].completed ==> ms'[i].completed && ms'[i].sealed
  {
    ms' := ms;
    for i := 0 to |defs|
      invariant At(defs, db0, c.rows, c.ledger, ms') && Forward(ms, ms') && LeavesOut(defs, selected, ms, ms')
      invariant forall k :: 0 <= k < i && defs[k].name in selected && ms[k].completed ==> ms'[k].completed && ms'[k].sealed
    {
      if defs[i].name in selected {
        ghost var before := ms';
        ms' := SealTable(c, defs, i, db0, ms');
        ForwardTransitive(ms, before, ms');
      }
    }
  }

  method SealTable(c: Connection, defs: seq<TableDef>, i: nat, ghost db0: Tables, ghost ms: seq<Mark>) returns (ghost ms': seq<Mark>)
    requires At(defs, db0, c.rows, c.ledger, ms) && i < |defs|
    modifies c
    ensures At(defs, db0, c.rows, c.ledger, ms') && Forward(ms, ms')
    ensures (forall k :: 0 <= k < |ms| && k != i ==> ms'[k] == ms[k]) && (ms[i].completed ==> ms'[i].completed && ms'[i].sealed)
  {
    ms' := ms;
    var name := defs[i].name;
    TableHere(defs, db0, c.rows, c.ledger, ms, |defs|, i);
    if name in c.ledger && c.ledger[name].status == Completed {
      SealMark(defs, db0, c.rows, c.ledger, ms, i);
      c.Persist(name, c.ledger[name].(checksum := Some(IdsOf(TableOf(c.rows, name)))));
      ms' := ms[i := ms[i].(sealed := true)];
    }
  }

  /** The marks before and after one run over selected tables, and what it returns. */
  ghost predicate RanSelected(defs: seq<TableDef>, db0: Tables, r: SelectionRequest, limit: nat, ms: seq<Mark>,
                              result: SelectionResult, ms': seq<Mark>) {
    && |ms| == |defs| == |ms'| && Forward(ms, ms') && LeavesOut(defs, r.selected, ms, ms')
    && (r.size < 1 <==> result.BadSize?)
    && (r.size >= 1 && (exists name :: name in r.selected && name !in Names(defs)) <==> result.UnknownTables?)
    && (result.BadSize? || result.UnknownTables? ==> ms' == ms)
    && (result.SelectionFinished? ==>
          FinishedSelected(defs, db0, r, ms, result.batches, ms') && Fits(defs, db0, r.selected, ms, r.size, limit, |defs|))
    && (result.SelectionStopped? ==> WentThrough(defs, db0, r, ms, result.batches, true, ms'))
    && (result.SelectionRaised? ==>
          && TakesTooMany(defs, db0, r.selected, ms, r.size, limit, result.table)
          && exists n: nat :: WentThrough(defs, db0, r, ms, n, false, ms'))
  }

  /** The run made so many of its calls, up to a stop if there is one, and each table is where they take it. */
  ghost predicate WentThrough(defs: seq<TableDef>, db0: Tables, r: SelectionRequest, ms: seq<Mark>, batches: nat, stopped: bool, ms': seq<Mark>)
    requires r.size >= 1 && |ms| == |defs| == |ms'|
  {
    && Called(CallsUpTo(defs, db0, r.selected, ms, r.size, |defs|), r.stop, batches, stopped)
    && AllCame(defs, db0, r.selected, ms, r.size, batches, |defs|, ms')
  }

  /** All calls were made without a stop; the selected tables are complete and have their checksums. */
  ghost predicate FinishedSelected(defs: seq<TableDef>, db0: Tables, r: SelectionRequest, ms: seq<Mark>, batches: nat, ms': seq<Mark>)
    requires r.size >= 1 && |ms| == |defs| == |ms'|
  {
    var calls := CallsUpTo(defs, db0, r.selected, ms, r.size, |defs|);
    && batches == |calls| && Called(calls, r.stop, batches, false)
    && forall i :: 0 <= i < |defs| && defs[i].name in r.selected ==> ms'[i].completed && ms'[i].sealed
  }

  /** Once all calls are made the selected tables are complete. */
  lemma AllCalled(defs: seq<TableDef>, db0: Tables, selected: set<TableName>, ms: seq<Mark>, size: nat, ms': seq<Mark>, i: nat)
    requires size > 0 && |defs| == |ms| == |ms'| && i < |defs| && defs[i].name in selected
    requires AllCame(defs, db0, selected, ms, size, |CallsUpTo(defs, db0, selected, ms, size, |defs|)|, |defs|, ms')
    ensures ms'[i].completed
  {
    assert CameTo(defs, db0, selected, ms, size, |CallsUpTo(defs, db0, selected, ms, size, |defs|)|, i, ms'[i]);
    CallsPrefix(defs, db0, selected, ms, size, i + 1, |defs|);
  }

  /** `run_backfill` with its `tables` argument. */
  method RunSelected(c: Connection, defs: seq<TableDef>, r: SelectionRequest, limit: nat, ghost db0: Tables, ghost ms: seq<Mark>)
    returns (result: SelectionResult, ghost ms': seq<Mark>)
    requires At(defs, db0, c.rows, c.ledger, ms) && limit > 0
    modifies c
    ensures At(defs, db0, c.rows, c.ledger, ms') && RanSelected(defs, db0, r, limit, ms, result, ms')
  {
    ms' := ms;
    if r.size < 1 {
      return BadSize, ms';
    }
    if exists name :: name in r.selected && name !in Names(defs) {
      return UnknownTables, ms';
    }
    var batches, outcome, table;
    batches, outcome, table, ms' := SelectTables(c, defs, r.selected, r.size, r.stop, limit, db0, ms);
    match outcome {
      case StoppedHere => result := SelectionStopped(batches);
      case Raised =>
        assert WentThrough(defs, db0, r, ms, batches, false, ms');
        result := SelectionRaised(table);
      case Settled =>
        ms' := Conclude(c, defs, r, db0, ms, batches, ms');
        result := SelectionFinished(batches);
    }
  }

  /** The checksums at the end of a run. */
  method Conclude(c: Connection, defs: seq<TableDef>, r: SelectionRequest, ghost db0: Tables, ghost ms: seq<Mark>,
                  ghost batches: nat, ghost done: seq<Mark>)
    returns (ghost ms': seq<Mark>)
    requires At(defs, db0, c.rows, c.ledger, done) && |ms| == |defs| && r.size >= 1
    requires Forward(ms, done) && LeavesOut(defs, r.selected, ms, done)
    requires batches == |CallsUpTo(defs, db0, r.selected, ms, r.size, |defs|)| && WentThrough(defs, db0, r, ms, batches, false, done)
    modifies c
    ensures At(defs, db0, c.rows, c.ledger, ms') && Forward(ms, ms') && LeavesOut(defs, r.selected, ms, ms')
    ensures FinishedSelected(defs, db0, r, ms, batches, ms')
  {
    ms' := SealSelected(c, defs, r.selected, db0, done);
    ForwardTransitive(ms, done, ms');
    forall i | 0 <= i < |defs| && defs[i].name in r.selected ensures done[i].completed {
      AllCalled(defs, db0, r.selected, ms, r.size, done, i);
    }
  }

  /** A selected table that is not complete needs as many batches as a run allows. */
  ghost predicate TakesTooMany(defs: seq<TableDef>, db0: Tables, selected: set<TableName>, ms: seq<Mark>, size: nat, limit: nat, table: TableName)
    requires size > 0 && |ms| == |defs|
  {
    table in selected && exists j :: 0 <= j < |defs| && defs[j].name == table && !ms[j].completed && Needs(db0, defs[j], ms[j].k, size) >= limit
  }

  /** The selected ones among the first i tables need fewer batches than a run allows, or are complete. */
  ghost predicate Fits(defs: seq<TableDef>, db0: Tables, selected: set<TableName>, ms: seq<Mark>, size: nat, limit: nat, i: nat)
    requires size > 0 && i <= |defs| == |ms|
  {
    forall k :: 0 <= k < i && defs[k].name in selected ==> ms[k].completed || Needs(db0, defs[k], ms[k].k, size) < limit
  }

  /** How far a run with so many calls in all has brought table i. */
  ghost predicate CameTo(defs: seq<TableDef>, db0: Tables, selected: set<TableName>, ms: seq<Mark>, size: nat, batches: nat,
                         i: nat, m: Mark)
    requires size > 0 && i < |defs| == |ms|
  {
    var before, calls := |CallsUpTo(defs, db0, selected, ms, size, i)|, |CallsOf(db0, defs[i], ms[i], size)|;
    defs[i].name in selected ==>
      && m.k == RowsAfter(|Original(defs, db0, i)|, ms[i].k, size, if batches < before then 0 else Min(batches - before, calls))
      && (m.completed <==> ms[i].completed || batches >= before + calls)
  }

  /** The same of every table from `from` on up to `to`. */
  ghost predicate AllCame(defs: seq<TableDef>, db0: Tables, selected: set<TableName>, ms: seq<Mark>, size: nat, batches: nat,
                          to: nat, ms': seq<Mark>)
    requires size > 0 && to <= |defs| == |ms| == |ms'|
  {
    forall i :: 0 <= i < to ==> CameTo(defs, db0, selected, ms, size, batches, i, ms'[i])
  }

  /** Tables that are through stay where they are, however many calls follow. */
  lemma StillCame(defs: seq<TableDef>, db0: Tables, selected: set<TableName>, ms: seq<Mark>, size: nat, a: nat, b: nat, to: nat,
                  ms1: seq<Mark>, ms2: seq<Mark>)
    requires size > 0 && to < |defs| == |ms| == |ms1| == |ms2| && a <= b && a == |CallsUpTo(defs, db0, selected, ms, size, to)|
    requires AllCame(defs, db0, selected, ms, size, a, to, ms1) && Onward(ms1, ms2, to)
    requires CameTo(defs, db0, selected, ms, size, b, to, ms2[to])
    ensures AllCame(defs, db0, selected, ms, size, b, to + 1, ms2)
  {
    forall i | 0 <= i < to ensures CameTo(defs, db0, selected, ms, size, b, i, ms2[i]) {
      assert CameTo(defs, db0, selected, ms, size, a, i, ms1[i]);
      CallsPrefix(defs, db0, selected, ms, size, i + 1, to);
    }
  }

  /** The calls of table i follow those of the tables before it. */
  lemma CalledNext(defs: seq<TableDef>, db0: Tables, selected: set<TableName>, ms: seq<Mark>, size: nat, i: nat, stop: StopCheck,
                   a: nat, b: nat, stopped: bool)
    requires size > 0 && i < |defs| == |ms| && defs[i].name in selected && a == |CallsUpTo(defs, db0, selected, ms, size, i)|
    requires Called(CallsUpTo(defs, db0, selected, ms, size, |defs|), stop, a, false)
    requires CalledFor(defs[i].name, stop, a, b, stopped) && b <= a + |CallsOf(db0, defs[i], ms[i], size)|
    ensures |CallsUpTo(defs, db0, selected, ms, size, i + 1)| == a + |CallsOf(db0, defs[i], ms[i], size)|
    ensures Called(CallsUpTo(defs, db0, selected, ms, size, |defs|), stop, b, stopped)
  {
    var done, all := CallsUpTo(defs, db0, selected, ms, size, i), CallsUpTo(defs, db0, selected, ms, size, |defs|);
    CallsPrefix(defs, db0, selected, ms, size, i, |defs|);
    CallsPrefix(defs, db0, selected, ms, size, i + 1, |defs|);
    assert forall k :: 0 <= k < |done| ==> done[k] == all[k];
    CalledOn(done, defs[i].name, CallsOf(db0, defs[i], ms[i], size), all, stop, b, stopped);
  }

  /** Tables whose turn has not come are where they were. */
  lemma NotYetCame(defs: seq<TableDef>, db0: Tables, selected: set<TableName>, ms: seq<Mark>, size: nat, batches: nat, from: nat,
                   ms': seq<Mark>)
    requires size > 0 && from < |defs| == |ms| == |ms'|
    requires AllCame(defs, db0, selected, ms, size, batches, from + 1, ms') && forall i :: from < i < |defs| ==> ms'[i] == ms[i]
    requires defs[from].name in selected && batches <= |CallsUpTo(defs, db0, selected, ms, size, from + 1)|
    ensures AllCame(defs, db0, selected, ms, size, batches, |defs|, ms')
  {
    forall i | 0 <= i < |defs| ensures CameTo(defs, db0, selected, ms, size, batches, i, ms'[i]) {
      if i <= from {
        assert CameTo(defs, db0, selected, ms, size, batches, i, ms'[i]);
      } else {
        CallsPrefix(defs, db0, selected, ms, size, from + 1, i);
        NotYet(defs, db0, selected, ms, size, batches, i);
      }
    }
  }

  lemma NotYet(defs: seq<TableDef>, db0: Tables, selected: set<TableName>, ms: seq<Mark>, size: nat, batches: nat, i: nat)
    requires size > 0 && i < |defs| == |ms| && batches <= |CallsUpTo(defs, db0, selected, ms, size, i)|
    ensures CameTo(defs, db0, selected, ms, size, batches, i, ms[i])
  {
  }

  /** The loop over the selected tables, up to a stop or an error. */
  method SelectTables(c: Connection, defs: seq<TableDef>, selected: set<TableName>, size: nat, stop: StopCheck, limit: nat,
                      ghost db0: Tables, ghost ms: seq<Mark>)
    returns (batches: nat, outcome: TableOutcome, table: TableName, ghost ms': seq<Mark>)
    requires size > 0 && limit > 0 && At(defs, db0, c.rows, c.ledger, ms)
    modifies c
    ensures At(defs, db0, c.rows, c.ledger, ms')
    ensures SoFar(defs, db0, selected, ms, size, stop, |defs|, batches, outcome == StoppedHere, ms')
    ensures outcome == Settled ==> batches == |CallsUpTo(defs, db0, selected, ms, size, |defs|)|
    ensures outcome == Raised ==> TakesTooMany(defs, db0, selected, ms, size, limit, table)
    ensures outcome == Settled ==> Fits(defs, db0, selected, ms, size, limit, |defs|)
  {
    batches, outcome, table, ms' := 0, Settled, "", ms;
    LoopStarts(defs, db0, selected, ms, size, stop);
    for i := 0 to |defs|
      invariant At(defs, db0, c.rows, c.ledger, ms') && outcome == Settled
      invariant LoopAt(defs, db0, selected, ms, size, stop, limit, i, batches, ms')
    {
      if defs[i].name in selected {
        table := defs[i].name;
        batches, outcome, ms' := TakeTable(c, defs, i, selected, size, stop, batches, limit, db0, ms, ms');
        if outcome != Settled {
          return;
        }
      } else {
        PassesBy(defs, db0, selected, ms, size, stop, limit, i, batches, ms');
      }
    }
  }

  /** The loop at table i: the tables from i on are as they were, and the calls so far took the others where they are. */
  ghost predicate SoFar(defs: seq<TableDef>, db0: Tables, selected: set<TableName>, ms: seq<Mark>, size: nat, stop: StopCheck,
                        i: nat, batches: nat, stopped: bool, ms': seq<Mark>)
  {
    && size > 0 && i <= |defs| == |ms| == |ms'| && Forward(ms, ms') && LeavesOut(defs, selected, ms, ms')
    && (forall k :: i <= k < |defs| ==> ms'[k] == ms[k])
    && Called(CallsUpTo(defs, db0, selected, ms, size, |defs|), stop, batches, stopped)
    && AllCame(defs, db0, selected, ms, size, batches, i, ms')
  }

  lemma LoopStarts(defs: seq<TableDef>, db0: Tables, selected: set<TableName>, ms: seq<Mark>, size: nat, stop: StopCheck)
    requires size > 0 && |ms| == |defs|
    ensures SoFar(defs, db0, selected, ms, size, stop, 0, 0, false, ms)
  {
  }

  /** The loop ends before the other tables have their turn. */
  lemma EndsHere(defs: seq<TableDef>, db0: Tables, selected: set<TableName>, ms: seq<Mark>, size: nat, stop: StopCheck,
                 i: nat, batches: nat, stopped: bool, ms': seq<Mark>)
    requires i < |defs| && SoFar(defs, db0, selected, ms, size, stop, i + 1, batches, stopped, ms') && defs[i].name in selected
    requires batches <= |CallsUpTo(defs, db0, selected, ms, size, i + 1)|
    ensures SoFar(defs, db0, selected, ms, size, stop, |defs|, batches, stopped, ms')
  {
    NotYetCame(defs, db0, selected, ms, size, batches, i, ms');
  }

  /** The same when nothing stopped it and no table needed too many batches. */
  ghost predicate LoopAt(defs: seq<TableDef>, db0: Tables, selected: set<TableName>, ms: seq<Mark>, size: nat, stop: StopCheck,
                         limit: nat, i: nat, batches: nat, ms': seq<Mark>)
  {
    && SoFar(defs, db0, selected, ms, size, stop, i, batches, false, ms')
    && batches == |CallsUpTo(defs, db0, selected, ms, size, i)| && Fits(defs, db0, selected, ms, size, limit, i)
  }

  /** A table that is not selected takes no call. */
  lemma PassesBy(defs: seq<TableDef>, db0: Tables, selected: set<TableName>, ms: seq<Mark>, size: nat, stop: StopCheck,
                 limit: nat, i: nat, batches: nat, ms': seq<Mark>)
    requires LoopAt(defs, db0, selected, ms, size, stop, limit, i, batches, ms') && i < |defs| && defs[i].name !in selected
    ensures LoopAt(defs, db0, selected, ms, size, stop, limit, i + 1, batches, ms')
  {
    assert CameTo(defs, db0, selected, ms, size, batches, i, ms'[i]);
  }

  /** A selected table moves the loop on. */
  lemma MovesLoop(defs: seq<TableDef>, db0: Tables, selected: set<TableName>, ms: seq<Mark>, size: nat, stop: StopCheck,
                  i: nat, a: nat, now: seq<Mark>, b: nat, stopped: bool, ms': seq<Mark>)
    requires SoFar(defs, db0, selected, ms, size, stop, i, a, false, now) && i < |defs| && defs[i].name in selected
    requires a == |CallsUpTo(defs, db0, selected, ms, size, i)| && Onward(now, ms', i)
    requires CalledFor(defs[i].name, stop, a, b, stopped) && b <= a + |CallsOf(db0, defs[i], ms[i], size)|
    requires CameTo(defs, db0, selected, ms, size, b, i, ms'[i])
    ensures SoFar(defs, db0, selected, ms, size, stop, i + 1, b, stopped, ms')
    ensures |CallsUpTo(defs, db0, selected, ms, size, i + 1)| == a + |CallsOf(db0, defs[i], ms[i], size)|
  {
    OnwardIsForward(now, ms', i);
    ForwardTransitive(ms, now, ms');
    CalledNext(defs, db0, selected, ms, size, i, stop, a, b, stopped);
    StillCame(defs, db0, selected, ms, size, a, b, i, now, ms');
  }

  /** One selected table of the loop. */
  method TakeTable(c: Connection, defs: seq<TableDef>, i: nat, selected: set<TableName>, size: nat, stop: StopCheck, batches0: nat,
                   limit: nat, ghost db0: Tables, ghost ms: seq<Mark>, ghost now: seq<Mark>)
    returns (batches: nat, outcome: TableOutcome, ghost ms': seq<Mark>)
    requires limit > 0 && At(defs, db0, c.rows, c.ledger, now) && i < |defs| && defs[i].name in selected
    requires LoopAt(defs, db0, selected, ms, size, stop, limit, i, batches0, now)
    modifies c
    ensures At(defs, db0, c.rows, c.ledger, ms')
    ensures outcome == Settled ==> LoopAt(defs, db0, selected, ms, size, stop, limit, i + 1, batches, ms')
    ensures outcome != Settled ==> SoFar(defs, db0, selected, ms, size, stop, |defs|, batches, outcome == StoppedHere, ms')
    ensures outcome == Raised ==> TakesTooMany(defs, db0, selected, ms, size, limit, defs[i].name)
  {
    assert now[i] == ms[i];
    batches, outcome, ms' := SelectedTable(c, defs[i], size, stop, batches0, limit, defs, db0, now, i);
    MovesLoop(defs, db0, selected, ms, size, stop, i, batches0, now, batches, outcome == StoppedHere, ms');
    EndsHere(defs, db0, selected, ms, size, stop, i, batches, outcome == StoppedHere, ms');
  }

  datatype SelectionRequest = SelectionRequest(selected: set<TableName>, size: int, stop: StopCheck)

  ghost predicate AllComplete(ms: seq<Mark>) {
    forall i :: 0 <= i < |ms| ==> ms[i].completed
  }

  lemma StartsUntouched(defs: seq<TableDef>, db0: Tables) returns (ms: seq<Mark>)
    requires Scope(defs, db0)
    ensures At(defs, db0, db0, map[], ms) && forall i :: 0 <= i < |defs| ==> ms[i] == UNTOUCHED
  {
    ms := seq(|defs|, i => UNTOUCHED);
    forall j | 0 <= j < |defs| ensures TableAt(defs, db0, db0, map[], j, ms[j]) {
      TableOrdered(defs, db0, j);
      var t := Original(defs, db0, j);
      assert t[..0] == [] && Filled(ParentAt(defs, db0, j), t, 0) == t;
    }
    TablesStand(defs, db0, db0, map[], ms, |defs|);
  }

  /**
   * Any sequence of selections on a fresh database: each takes up the marks the one before
   * it left, and once all tables are complete the owners are those of a full run.
   */
  method RunSelections(c: Connection, defs: seq<TableDef>, requests: seq<SelectionRequest>, limit: nat, ghost db0: Tables)
    returns (results: seq<SelectionResult>, ghost trail: seq<seq<Mark>>)
    requires Scope(defs, db0) && c.rows == db0 && c.ledger == map[] && limit > 0
    modifies c
    ensures |results| == |requests| && SelectedInTurn(defs, db0, requests, limit, results, trail)
    ensures At(defs, db0, c.rows, c.ledger, trail[|requests|])
    ensures AllComplete(trail[|requests|]) ==> c.rows == FinalRows(defs, db0)
  {
    ghost var ms := StartsUntouched(defs, db0);
    results, trail := [], [ms];
    for i := 0 to |requests|
      invariant |results| == i && SelectedInTurn(defs, db0, requests, limit, results, trail)
      invariant trail[i] == ms && At(defs, db0, c.rows, c.ledger, ms)
    {
      var result;
      result, ms := RunSelected(c, defs, requests[i], limit, db0, ms);
      SelectedNext(defs, db0, requests, limit, results, trail, result, ms);
      results, trail := results + [result], trail + [ms];
    }
    if AllComplete(ms) {
      CompleteRows(defs, db0, c.rows, c.ledger, ms);
    }
  }

  /** Runs over selections from untouched tables on, each from the marks the one before it left. */
  ghost predicate SelectedInTurn(defs: seq<TableDef>, db0: Tables, requests: seq<SelectionRequest>, limit: nat,
                                 results: seq<SelectionResult>, trail: seq<seq<Mark>>) {
    && |trail| == |results| + 1 && |results| <= |requests|
    && |trail[0]| == |defs| && (forall i :: 0 <= i < |defs| ==> trail[0][i] == UNTOUCHED)
    && forall i :: 0 <= i < |results| ==> RanSelected(defs, db0, requests[i], limit, trail[i], results[i], trail[i + 1])
  }

  lemma SelectedNext(defs: seq<TableDef>, db0: Tables, requests: seq<SelectionRequest>, limit: nat, results: seq<SelectionResult>,
                     trail: seq<seq<Mark>>, result: SelectionResult, ms: seq<Mark>)
    requires SelectedInTurn(defs, db0, requests, limit, results, trail) && |results| < |requests|
    requires RanSelected(defs, db0, requests[|results|], limit, trail[|results|], result, ms)
    ensures SelectedInTurn(defs, db0, requests, limit, results + [result], trail + [ms])
  {
    var rs, ts := results + [result], trail + [ms];
    forall i | 0 <= i < |rs| ensures RanSelected(defs, db0, requests[i], limit, ts[i], rs[i], ts[i + 1]) {
      assert i < |results| ==> RanSelected(defs, db0, requests[i], limit, trail[i], results[i], trail[i + 1]);
    }
  }

  lemma CompleteRows(defs: seq<TableDef>, db0: Tables, rows: Tables, ledger: Ledger, ms: seq<Mark>)
    requires At(defs, db0, rows, ledger, ms) && AllComplete(ms)
    ensures rows == FinalRows(defs, db0)
  {
    var fin := FinalRows(defs, db0);
    OutsideHere(defs, db0, rows, ledger, ms, |defs|);
    forall name ensures name in fin <==> name in db0 {
      StageMember(defs, db0, |defs|, name);
    }
    forall name | name in db0 ensures name in rows && name in fin && rows[name] == fin[name] {
      if name in Names(defs) {
        var j :| 0 <= j < |defs| && Names(defs)[j] == name;
        TableHere(defs, db0, rows, ledger, ms, |defs|, j);
        StageKept(defs, db0, j, |defs|);
      } else {
        StageOther(defs, db0, |defs|, name);
      }
    }
  }

  lemma {:induction false} StageMember(defs: seq<TableDef>, db0: Tables, j: nat, name: TableName)
    requires Database(defs, db0) && j <= |defs|
    ensures name in Stage(defs, db0, j) <==> name in db0
  {
    if j > 0 {
      StageMember(defs, db0, j - 1, name);
      if name == defs[j - 1].name {
        TableOrdered(defs, db0, j - 1);
      }
    }
  }

  /**
   * The ledger of a completed table after any selections: source count, target count, cursor
   * and checksum are the full run's; the fallback count is at least the full run's and equal
   * to it exactly when no batch covered a row whose parent row was still without an owner.
   */
  lemma SelectedLedger(defs: seq<TableDef>, db0: Tables, rows: Tables, ledger: Ledger, ms: seq<Mark>, j: nat)
    requires At(defs, db0, rows, ledger, ms) && j < |defs| && ms[j].completed && ms[j].sealed
    ensures var name, full := defs[j].name, CompleteAt(defs, db0, j, true);
            && name in ledger
            && ledger[name] == full.(fallback := ledger[name].fallback)
            && ledger[name].fallback >= full.fallback
            && (ledger[name].fallback == full.fallback <==> NoneEarly(defs, db0, j, ms[j].covers))
  {
    TableHere(defs, db0, rows, ledger, ms, |defs|, j);
    var t := Original(defs, db0, j);
    CompleteCounts(ParentAt(defs, db0, j), t, true);
    assert t[..|t|] == t;
    SumExcess(defs, db0, j, ms[j].covers, |t|);
  }

  // ---- When a row comes too early ----

  /** The parent row exists, had no owner at the start and is not among the first k. */
  ghost predicate Waiting(t: Table, k: nat, id: nat) {
    exists p :: k <= p < |t| && t[p].id == id && t[p].tenant.None?
  }

  /** A row comes too early exactly when its parent row is still waiting for its owner. */
  lemma TooEarlyExactlyWhen(defs: seq<TableDef>, db0: Tables, j: nat, k: nat, row: Row)
    requires Scope(defs, db0) && j < |defs|
    ensures TooEarly(defs, db0, j, k, row) <==>
            defs[j].parent.Some? && row.parent.Some? && Waiting(TableOf(db0, defs[j].parent.value), k, row.parent.value)
  {
    if defs[j].parent.Some? && row.parent.Some? {
      var i := ParentBefore(defs, j);
      TableOrdered(defs, db0, i);
      ParentComplete(defs, db0, j);
      var t := TableOf(db0, defs[j].parent.value);
      RootEarly(t, k, row);
    }
  }

  lemma RootEarly(t: Table, k: nat, row: Row)
    requires Ordered(t) && row.parent.Some?
    ensures Inherited(Some(RootFilled(t, k)), row).None? && Inherited(Some(RootFilled(t, |t|)), row).Some? <==>
            Waiting(t, k, row.parent.value)
  {
    RootFilledIs(t, k);
    RootFilledIs(t, |t|);
    RootTenant(t, Min(k, |t|), row.parent.value);
    RootTenant(t, |t|, row.parent.value);
  }

  /** What looking up an id in a part-way root table gives. */
  lemma RootTenant(t: Table, k: nat, id: nat)
    requires Ordered(t) && k <= |t|
    ensures var f := FindRow(Filled(None, t, k), id);
            && (f.Some? <==> HasRow(t, id))
            && (f.Some? ==> (f.value.tenant.None? <==> Waiting(t, k, id)))
  {
    var filled := Filled(None, t, k);
    FilledOrdered(None, t, k);
    if HasRow(t, id) {
      var p :| 0 <= p < |t| && t[p].id == id;
      forall q | 0 <= q < p ensures filled[q].id != filled[p].id {
        OrderedAt(filled, q, p);
      }
      FindRowAt(filled, p);
      forall q | 0 <= q < |t| && t[q].id == id ensures q == p {
        SameIdSameRow(t, q, p);
      }
    } else {
      FindRowNone(filled, id);
    }
  }

  /** Covering such a row makes the count of its batch larger than the full run's. */
  lemma EarlyRowOvercounts(defs: seq<TableDef>, db0: Tables, j: nat, k: nat, rows: Table, i: nat)
    requires Scope(defs, db0) && j < |defs| && i < |rows| && defs[j].parent.Some? && rows[i].parent.Some?
    requires Waiting(TableOf(db0, defs[j].parent.value), k, rows[i].parent.value)
    ensures CountFallback(ParentWith(defs, db0, j, k), rows) > CountFallback(ParentAt(defs, db0, j), rows)
  {
    TooEarlyExactlyWhen(defs, db0, j, k, rows[i]);
    FallbackExcess(defs, db0, j, k, rows);
  }

  /** A child table selected before its parent: one parent row without an owner, one child row. */
  lemma SomeSelectionOvercounts() returns (defs: seq<TableDef>, db0: Tables)
    ensures Scope(defs, db0) && |defs| == 2 && |Original(defs, db0, 1)| == 1
    ensures CountFallback(ParentWith(defs, db0, 1, 0), Original(defs, db0, 1)) > CountFallback(ParentAt(defs, db0, 1), Original(defs, db0, 1))
  {
    var parents, children := [Row(1, None, None)], [Row(1, Some(1), None)];
    defs := [TableDef("a", None), TableDef("b", Some("a"))];
    db0 := map["a" := parents, "b" := children];
    assert defs[..1] == [defs[0]] && defs[..1][..0] == [] && parents[..0] == [] && children[..0] == [];
    assert Names(defs[..1])[0] == "a" && Plannable([]) && Database([], db0);
    assert Ordered(parents) && Ordered(children);
    assert Plannable(defs[..1]) && Database(defs[..1], db0);
    assert Waiting(parents, 0, 1) by { assert parents[0].id == 1; }
    EarlyRowOvercounts(defs, db0, 1, 0, children, 0);
  }
}
