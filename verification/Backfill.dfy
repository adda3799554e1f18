/**
 * The restartable backfill: a cursor and a ledger row per table, persisted with each batch.
 *
 * A position says how far the backfill has come. The database and the ledger are functions
 * of the original database and the position alone, whatever batch sizes and stops led there.
 */
module Backfill {
  import opened Seqs
  import opened BackfillModel
  import opened BackfillStages

  /** The source allows a table 1,000,000 batches per run; the results hold for every positive limit. */
  const MAX_BATCHES_PER_TABLE: nat := 1_000_000

  /** Table j is next, k of its rows are claimed, `started` if it has a ledger row; `done` once checksums are set. */
  datatype Position = Position(j: nat, k: nat, started: bool, done: bool)

  ghost predicate ValidAt(defs: seq<TableDef>, db0: Tables, p: Position) {
    && Plannable(defs) && Database(defs, db0)
    && p.j <= |defs|
    && (p.j == |defs| ==> p.k == 0 && !p.started)
    && (p.j < |defs| ==> p.k <= |Original(defs, db0, p.j)| && (p.k > 0 ==> p.started) && !p.done)
  }

  ghost function RowsAt(defs: seq<TableDef>, db0: Tables, p: Position): Tables
    requires ValidAt(defs, db0, p)
  {
    if p.j == |defs| then Stage(defs, db0, p.j) else Mid(defs, db0, p.j, p.k)
  }

  ghost function CompleteAt(defs: seq<TableDef>, db0: Tables, i: nat, done: bool): TableState
    requires i < |defs|
  {
    Complete(ParentAt(defs, db0, i), Original(defs, db0, i), done)
  }

  /** A ledger from names and rows, the first j of them. */
  ghost function Zip(names: seq<TableName>, states: seq<TableState>, j: nat): Ledger
    requires j <= |names| && j <= |states|
  {
    if j == 0 then map[] else Zip(names, states, j - 1)[names[j - 1] := states[j - 1]]
  }

  lemma {:induction false} ZipHas(names: seq<TableName>, states: seq<TableState>, j: nat, i: nat)
    requires NoDup(names) && j <= |names| == |states| && i < |names|
    ensures names[i] in Zip(names, states, j) <==> i < j
    ensures i < j ==> Zip(names, states, j)[names[i]] == states[i]
  {
    if j > 0 {
      ZipHas(names, states, j - 1, i);
      assert i != j - 1 ==> names[i] != names[j - 1];
    }
  }

  lemma {:induction false} ZipUpdate(names: seq<TableName>, states: seq<TableState>, j: nat, i: nat, x: TableState)
    requires NoDup(names) && i < j <= |names| == |states|
    ensures Zip(names, states, j)[names[i] := x] == Zip(names, states[i := x], j)
  {
    if i == j - 1 {
      ZipPrefix(names, states, states[i := x], j - 1);
    } else {
      ZipUpdate(names, states, j - 1, i, x);
      var a, y := Zip(names, states, j - 1), states[j - 1];
      assert names[i] != names[j - 1];
      assert a[names[j - 1] := y][names[i] := x] == a[names[i] := x][names[j - 1] := y];
    }
  }

  lemma {:induction false} ZipPrefix(names: seq<TableName>, a: seq<TableState>, b: seq<TableState>, j: nat)
    requires j <= |names| && j <= |a| && j <= |b| && forall i :: 0 <= i < j ==> a[i] == b[i]
    ensures Zip(names, a, j) == Zip(names, b, j)
  {
    if j > 0 {
      ZipPrefix(names, a, b, j - 1);
    }
  }

  /** The ledger rows of all tables when complete; those before m already carry their checksum. */
  ghost function Finals(defs: seq<TableDef>, db0: Tables, m: nat, done: bool): (r: seq<TableState>)
    ensures |r| == |defs|
    ensures forall i :: 0 <= i < |defs| ==> r[i] == CompleteAt(defs, db0, i, done || i < m)
  {
    seq(|defs|, i requires 0 <= i < |defs| => CompleteAt(defs, db0, i, done || i < m))
  }

  lemma {:induction false} NamesNoDup(defs: seq<TableDef>)
    requires Plannable(defs)
    ensures NoDup(Names(defs))
  {
    forall i, j | 0 <= i < j < |defs| ensures Names(defs)[i] != Names(defs)[j] {
      NamesDiffer(defs, i, j);
    }
  }

  ghost function PartialAt(defs: seq<TableDef>, db0: Tables, j: nat, k: nat): TableState
    requires j < |defs| && k <= |Original(defs, db0, j)|
  {
    Partial(ParentAt(defs, db0, j), Original(defs, db0, j), k)
  }

  ghost function LedgerAtPos(defs: seq<TableDef>, db0: Tables, p: Position): Ledger
    requires ValidAt(defs, db0, p)
  {
    var base := Zip(Names(defs), Finals(defs, db0, 0, p.done), p.j);
    if p.started then base[defs[p.j].name := PartialAt(defs, db0, p.j, p.k)] else base
  }

  // ---- Batch arithmetic ----

  /** Number of batches of at most b rows that cover n rows. */
  function Batches(n: nat, b: nat): nat
    requires b > 0
  {
    if n == 0 then 0 else 1 + Batches(n - Min(n, b), b)
  }

  /** That number is n / b rounded up: it is the one q with (q - 1) * b < n <= q * b. */
  lemma {:induction false} BatchesBound(n: nat, b: nat)
    requires b > 0
    ensures Batches(n, b) * b >= n && (n > 0 ==> Batches(n, b) > 0 && (Batches(n, b) - 1) * b < n)
    decreases n
  {
    if n > b {
      BatchesBound(n - b, b);
      var q := Batches(n - b, b);
      assert Batches(n, b) == q + 1;
      assert (q + 1) * b == q * b + b;
      assert (q - 1) * b == q * b - b;
    } else if n > 0 {
      assert Batches(0, b) == 0;
    }
  }

  lemma BatchesStep(n: nat, k: nat, b: nat)
    requires b > 0 && k <= n
    ensures k == n ==> Batches(n - k, b) == 0
    ensures k < n ==> Batches(n - k, b) == 1 + Batches(n - Min(k + b, n), b)
  {
  }

  // ---- The way through the tables ----

  /** Where one batch call leads: forward inside the table, or on to the next one. */
  ghost function StepOn(defs: seq<TableDef>, db0: Tables, p: Position, size: nat): Position {
    if p.j >= |defs| then p
    else
      var n := |Original(defs, db0, p.j)|;
      if p.k < n then p.(k := Min(p.k + size, n), started := true) else Position(p.j + 1, 0, false, false)
  }

  /** Where n batch calls lead. */
  ghost function Walk(defs: seq<TableDef>, db0: Tables, p: Position, size: nat, n: nat): Position {
    if n == 0 then p else StepOn(defs, db0, Walk(defs, db0, p, size, n - 1), size)
  }

  /** After none of n calls, numbered from `from` + 1, the stop check says stop; it is asked about the table each call was for. */
  ghost predicate Unstopped(defs: seq<TableDef>, db0: Tables, p: Position, size: nat, stop: StopCheck, from: nat, n: nat) {
    n == 0 || (Unstopped(defs, db0, p, size, stop, from, n - 1) && !StopsAt(defs, Walk(defs, db0, p, size, n - 1), stop, from + n))
  }

  /** Read call by call. */
  lemma {:induction false} UnstoppedAt(defs: seq<TableDef>, db0: Tables, p: Position, size: nat, stop: StopCheck, from: nat, n: nat, i: nat)
    requires Unstopped(defs, db0, p, size, stop, from, n) && i < n && Walk(defs, db0, p, size, i).j < |defs|
    ensures !stop(defs[Walk(defs, db0, p, size, i).j].name, from + i + 1)
  {
    if i < n - 1 {
      UnstoppedAt(defs, db0, p, size, stop, from, n - 1, i);
    }
  }

  lemma {:induction false} WalkOn(defs: seq<TableDef>, db0: Tables, p: Position, size: nat, a: nat, b: nat)
    ensures Walk(defs, db0, Walk(defs, db0, p, size, a), size, b) == Walk(defs, db0, p, size, a + b)
    decreases b
  {
    if b > 0 {
      WalkOn(defs, db0, p, size, a, b - 1);
    }
  }

  lemma {:induction false} UnstoppedOn(defs: seq<TableDef>, db0: Tables, p: Position, size: nat, stop: StopCheck, a: nat, b: nat)
    requires Unstopped(defs, db0, p, size, stop, 0, a)
    requires Unstopped(defs, db0, Walk(defs, db0, p, size, a), size, stop, a, b)
    ensures Unstopped(defs, db0, p, size, stop, 0, a + b)
    decreases b
  {
    if b > 0 {
      UnstoppedOn(defs, db0, p, size, stop, a, b - 1);
      WalkOn(defs, db0, p, size, a, b - 1);
    }
  }

  /** Opening the ledger row of a table does not change the way. */
  lemma {:induction false} WalkStarted(defs: seq<TableDef>, db0: Tables, p: Position, size: nat, n: nat)
    requires p.j < |defs|
    ensures n > 0 ==> Walk(defs, db0, p.(started := true), size, n) == Walk(defs, db0, p, size, n)
    ensures Walk(defs, db0, p.(started := true), size, n).j == Walk(defs, db0, p, size, n).j
  {
    if n > 1 {
      WalkStarted(defs, db0, p, size, n - 1);
    } else if n == 1 {
      assert Walk(defs, db0, p, size, 0) == p && Walk(defs, db0, p.(started := true), size, 0) == p.(started := true);
      assert StepOn(defs, db0, p.(started := true), size) == StepOn(defs, db0, p, size);
    }
  }

  lemma {:induction false} UnstoppedStarted(defs: seq<TableDef>, db0: Tables, p: Position, size: nat, stop: StopCheck, from: nat, n: nat)
    requires p.j < |defs| && Unstopped(defs, db0, p.(started := true), size, stop, from, n)
    ensures Unstopped(defs, db0, p, size, stop, from, n)
  {
    if n > 0 {
      UnstoppedStarted(defs, db0, p, size, stop, from, n - 1);
      WalkStarted(defs, db0, p, size, n - 1);
    }
  }

  datatype TableOutcome = Settled | StoppedHere | Raised

  /**
   * From one position to another by the batch calls numbered `from` + 1 to `batches`: stopped
   * after the first one for which the check says so, or not stopped by any of them.
   */
  ghost predicate Went(defs: seq<TableDef>, db0: Tables, p: Position, size: nat, stop: StopCheck, from: nat,
                       batches: nat, stopped: bool, q: Position) {
    && from <= batches && q == Walk(defs, db0, p, size, batches - from)
    && (!stopped ==> Unstopped(defs, db0, p, size, stop, from, batches - from))
    && (stopped ==> from < batches && Unstopped(defs, db0, p, size, stop, from, batches - from - 1)
                    && StopsAt(defs, Walk(defs, db0, p, size, batches - from - 1), stop, batches))
  }

  ghost predicate StopsAt(defs: seq<TableDef>, p: Position, stop: StopCheck, batches: nat) {
    p.j < |defs| && stop(defs[p.j].name, batches)
  }

  lemma WentStarted(defs: seq<TableDef>, db0: Tables, p: Position, size: nat, stop: StopCheck, from: nat,
                    batches: nat, stopped: bool, q: Position)
    requires p.j < |defs| && from < batches && Went(defs, db0, p.(started := true), size, stop, from, batches, stopped, q)
    ensures Went(defs, db0, p, size, stop, from, batches, stopped, q)
  {
    WalkStarted(defs, db0, p, size, batches - from);
    WalkStarted(defs, db0, p, size, batches - from - 1);
    UnstoppedStarted(defs, db0, p, size, stop, from, if stopped then batches - from - 1 else batches - from);
  }

  lemma WentOn(defs: seq<TableDef>, db0: Tables, p: Position, size: nat, stop: StopCheck, a: nat, mid: Position,
               b: nat, stopped: bool, q: Position)
    requires Went(defs, db0, p, size, stop, 0, a, false, mid) && Went(defs, db0, mid, size, stop, a, b, stopped, q)
    ensures Went(defs, db0, p, size, stop, 0, b, stopped, q)
  {
    var n := if stopped then b - a - 1 else b - a;
    WalkOn(defs, db0, p, size, a, b - a);
    UnstoppedOn(defs, db0, p, size, stop, a, n);
    if stopped {
      WalkOn(defs, db0, p, size, a, n);
    }
  }

  // ---- The way through one table ----

  /** k rows of table j are claimed and `state` is its ledger row. */
  ghost predicate Filling(defs: seq<TableDef>, db0: Tables, j: nat, k: nat, state: TableState) {
    j < |defs| && k <= |Original(defs, db0, j)| && state == PartialAt(defs, db0, j, k)
  }

  /** The calls numbered `from` + 1 to `batches` were for one table: stopped at the last one and not before, or at none. */
  ghost predicate CalledFor(name: TableName, stop: StopCheck, from: nat, batches: nat, stopped: bool) {
    if batches <= from then batches == from && !stopped
    else CalledFor(name, stop, from, batches - 1, false) && (stopped <==> stop(name, batches))
  }

  lemma {:induction false} CalledBefore(name: TableName, stop: StopCheck, from: nat, batches: nat, stopped: bool)
    requires CalledFor(name, stop, from, batches, stopped)
    ensures from <= batches && (stopped ==> from < batches && stop(name, batches))
    ensures forall n :: from < n <= (if stopped then batches - 1 else batches) ==> !stop(name, n)
  {
    if from < batches {
      CalledBefore(name, stop, from, batches - 1, false);
    }
  }

  lemma CalledOnce(name: TableName, stop: StopCheck, from: nat, batches: nat)
    requires CalledFor(name, stop, from, batches, false)
    ensures CalledFor(name, stop, from, batches + 1, stop(name, batches + 1))
  {
  }

  /** How many of n rows are claimed after some batches. */
  ghost function RowsAfter(n: nat, k: nat, size: nat, batches: nat): nat {
    if batches == 0 then k else Min(RowsAfter(n, k, size, batches - 1) + size, n)
  }

  /** The position after so many batches of the table of p, which needs `need` of them and one more to complete. */
  ghost function InTable(defs: seq<TableDef>, db0: Tables, p: Position, size: nat, need: nat, calls: nat): Position
    requires p.j < |defs|
  {
    if calls > need then Position(p.j + 1, 0, false, false)
    else p.(k := RowsAfter(|Original(defs, db0, p.j)|, p.k, size, calls))
  }

  /** Inside the table there are batches to come as long as there are rows. */
  lemma {:induction false} RowsLeft(n: nat, k: nat, size: nat, calls: nat)
    requires size > 0 && k <= n && calls <= Batches(n - k, size)
    ensures RowsAfter(n, k, size, calls) <= n
    ensures Batches(n - RowsAfter(n, k, size, calls), size) == Batches(n - k, size) - calls
    decreases calls
  {
    if calls > 0 {
      RowsLeft(n, k, size, calls - 1);
      BatchesStep(n, RowsAfter(n, k, size, calls - 1), size);
    }
  }

  /** The way through the tables, as long as it stays in one. */
  lemma {:induction false} WalkInTable(defs: seq<TableDef>, db0: Tables, p: Position, size: nat, need: nat, calls: nat)
    requires p.j < |defs| && p.started && size > 0 && p.k <= |Original(defs, db0, p.j)|
    requires need == Batches(|Original(defs, db0, p.j)| - p.k, size) && calls <= need + 1
    ensures Walk(defs, db0, p, size, calls) == InTable(defs, db0, p, size, need, calls)
    decreases calls
  {
    if calls > 0 {
      WalkInTable(defs, db0, p, size, need, calls - 1);
      RowsLeft(|Original(defs, db0, p.j)|, p.k, size, calls - 1);
    }
  }

  lemma {:induction false} UnstoppedInTable(defs: seq<TableDef>, db0: Tables, p: Position, size: nat, stop: StopCheck,
                                            from: nat, need: nat, calls: nat)
    requires p.j < |defs| && p.started && size > 0 && p.k <= |Original(defs, db0, p.j)|
    requires need == Batches(|Original(defs, db0, p.j)| - p.k, size) && calls <= need + 1
    requires CalledFor(defs[p.j].name, stop, from, from + calls, false)
    ensures Unstopped(defs, db0, p, size, stop, from, calls)
    decreases calls
  {
    if calls > 0 {
      UnstoppedInTable(defs, db0, p, size, stop, from, need, calls - 1);
      WalkInTable(defs, db0, p, size, need, calls - 1);
    }
  }

  lemma WentInTable(defs: seq<TableDef>, db0: Tables, p: Position, size: nat, stop: StopCheck, from: nat, need: nat, batches: nat, stopped: bool)
    requires p.j < |defs| && p.started && size > 0 && p.k <= |Original(defs, db0, p.j)|
    requires need == Batches(|Original(defs, db0, p.j)| - p.k, size) && from <= batches <= from + need + 1
    requires CalledFor(defs[p.j].name, stop, from, batches, stopped)
    ensures Went(defs, db0, p, size, stop, from, batches, stopped, InTable(defs, db0, p, size, need, batches - from))
  {
    var calls := batches - from;
    WalkInTable(defs, db0, p, size, need, calls);
    UnstoppedInTable(defs, db0, p, size, stop, from, need, if stopped then calls - 1 else calls);
    if stopped {
      WalkInTable(defs, db0, p, size, need, calls - 1);
    }
  }

  /** The same from the position before the table's ledger row was opened. */
  lemma WentResumed(defs: seq<TableDef>, db0: Tables, p: Position, size: nat, stop: StopCheck, from: nat, need: nat, batches: nat, stopped: bool)
    requires p.j < |defs| && size > 0 && p.k <= |Original(defs, db0, p.j)|
    requires need == Batches(|Original(defs, db0, p.j)| - p.k, size) && from < batches <= from + need + 1
    requires CalledFor(defs[p.j].name, stop, from, batches, stopped)
    ensures Went(defs, db0, p, size, stop, from, batches, stopped, InTable(defs, db0, p.(started := true), size, need, batches - from))
  {
    var start := p.(started := true);
    WentInTable(defs, db0, start, size, stop, from, need, batches, stopped);
    WentStarted(defs, db0, p, size, stop, from, batches, stopped, InTable(defs, db0, start, size, need, batches - from));
  }

  class Connection {
    var rows: Tables
    var ledger: Ledger

    constructor (rows: Tables)
      ensures this.rows == rows && ledger == map[]
    {
      this.rows, ledger := rows, map[];
    }

    /** The database is where position p says. */
    ghost predicate IsAt(defs: seq<TableDef>, db0: Tables, p: Position)
      reads this
    {
      ValidAt(defs, db0, p) && rows == RowsAt(defs, db0, p) && ledger == LedgerAtPos(defs, db0, p)
    }

    method Persist(name: TableName, state: TableState)
      modifies this`ledger
      ensures ledger == old(ledger)[name := state]
    {
      ledger := ledger[name := state];
    }

    /**
     * `backfill_table_batch`: one statement, then the cursor and counts with it. Either the
     * position moves forward inside the table, or nothing is left and the table completes.
     * The branches that deal with unresolved rows are never reached.
     */
    method BackfillTableBatch(def: TableDef, state: TableState, size: nat,
                              ghost defs: seq<TableDef>, ghost db0: Tables, ghost p: Position)
      returns (state': TableState, settled: bool, ghost q: Position)
      requires size > 0 && IsAt(defs, db0, p) && p.j < |defs| && p.started
      requires def == defs[p.j] && state == PartialAt(defs, db0, p.j, p.k)
      modifies this
      ensures IsAt(defs, db0, q)
      ensures settled <==> p.k == |TableOf(db0, def.name)|
      ensures settled ==> q == Position(p.j + 1, 0, false, false)
      ensures !settled ==> q == p.(k := Min(p.k + size, |TableOf(db0, def.name)|)) && p.k < q.k
      ensures !settled ==> state' == PartialAt(defs, db0, q.j, q.k)
    {
      if p.k < |TableOf(db0, def.name)| {
        BatchForward(defs, db0, p, size);
        q := p.(k := Min(p.k + size, |TableOf(db0, def.name)|));
      } else {
        BatchCompletes(defs, db0, p, size);
        q := Position(p.j + 1, 0, false, false);
      }
      var row := PendingBatch(def, rows, state.cursor, size);
      rows := rows[def.name := row.table];
      if row.source > 0 {
        state' := Advance(state, row);
        Persist(def.name, state');
        settled := false;
      } else if row.unresolved == [] {
        state' := state.(status := Completed);
        Persist(def.name, state');
        settled := true;
      } else {
        assert false;
      }
    }

    /**
     * The `while True` loop of one table. Unless stopped it settles after ceil(rows / size)
     * batches plus the one that finds nothing left; it raises exactly when that many batches
     * reach the ceiling.
     */
    method BackfillTable(def: TableDef, state0: TableState, size: nat, stop: StopCheck, batches0: nat, limit: nat,
                         ghost defs: seq<TableDef>, ghost db0: Tables, ghost p: Position, ghost need: nat)
      returns (batches: nat, outcome: TableOutcome, ghost q: Position)
      requires size > 0 && limit > 0 && IsAt(defs, db0, p) && p.j < |defs| && p.started
      requires def == defs[p.j] && Filling(defs, db0, p.j, p.k, state0)
      requires need == Batches(|TableOf(db0, def.name)| - p.k, size)
      modifies this
      ensures IsAt(defs, db0, q) && batches0 < batches <= batches0 + need + 1
      ensures q == InTable(defs, db0, p, size, need, batches - batches0)
      ensures CalledFor(def.name, stop, batches0, batches, outcome == StoppedHere)
      ensures outcome == Settled ==> batches == batches0 + need + 1 && need < limit
      ensures outcome == Raised ==> need >= limit && batches == batches0 + limit
    {
      var state := state0;
      batches := batches0;
      var tableBatches := 0;
      q := p;
      while true
        invariant IsAt(defs, db0, q) && Filling(defs, db0, p.j, q.k, state)
        invariant batches == batches0 + tableBatches && tableBatches < limit && tableBatches <= need
        invariant q == InTable(defs, db0, p, size, need, tableBatches)
        invariant CalledFor(def.name, stop, batches0, batches, false)
        decreases limit - tableBatches
      {
        var settled;
        state, settled, q := NextBatch(def, state, size, defs, db0, p, q, need, tableBatches);
        CalledOnce(def.name, stop, batches0, batches);
        batches := batches + 1;
        tableBatches := tableBatches + 1;
        if stop(def.name, batches) {
          return batches, StoppedHere, q;
        }
        if settled {
          return batches, Settled, q;
        }
        if tableBatches >= limit {
          return batches, Raised, q;
        }
      }
    }

    /** One batch of the loop. */
    method NextBatch(def: TableDef, state: TableState, size: nat, ghost defs: seq<TableDef>, ghost db0: Tables,
                     ghost p: Position, ghost here: Position, ghost need: nat, ghost calls: nat)
      returns (state': TableState, settled: bool, ghost q: Position)
      requires size > 0 && IsAt(defs, db0, here) && p.j < |defs| && p.started && p.k <= |Original(defs, db0, p.j)|
      requires def == defs[p.j] && need == Batches(|TableOf(db0, def.name)| - p.k, size) && calls <= need
      requires here == InTable(defs, db0, p, size, need, calls) && Filling(defs, db0, p.j, here.k, state)
      modifies this
      ensures IsAt(defs, db0, q) && q == InTable(defs, db0, p, size, need, calls + 1)
      ensures settled <==> calls == need
      ensures !settled ==> Filling(defs, db0, p.j, q.k, state')
    {
      RowsLeft(|TableOf(db0, def.name)|, p.k, size, calls);
      BatchesStep(|TableOf(db0, def.name)|, here.k, size);
      state', settled, q := BackfillTableBatch(def, state, size, defs, db0, here);
    }

    /** Checksums once every table is complete. */
    method SealAll(defs: seq<TableDef>, ghost db0: Tables, ghost p: Position)
      requires IsAt(defs, db0, p) && p.j == |defs|
      modifies this`ledger
      ensures IsAt(defs, db0, p.(done := true))
    {
      ghost var n := |defs|;
      for i := 0 to |defs|
        invariant ledger == Zip(Names(defs), Finals(defs, db0, i, p.done), n)
      {
        SealOne(defs, i, db0, p.done);
      }
      assert Finals(defs, db0, n, p.done) == Finals(defs, db0, 0, true);
    }

    method SealOne(defs: seq<TableDef>, i: nat, ghost db0: Tables, ghost done: bool)
      requires Plannable(defs) && Database(defs, db0) && i < |defs| && rows == Stage(defs, db0, |defs|)
      requires ledger == Zip(Names(defs), Finals(defs, db0, i, done), |defs|)
      modifies this`ledger
      ensures ledger == Zip(Names(defs), Finals(defs, db0, i + 1, done), |defs|)
    {
      var name := defs[i].name;
      SealEntry(defs, db0, i, done);
      FinalIds(defs, db0, i);
      if ledger[name].status == Completed {
        Persist(name, ledger[name].(checksum := Some(IdsOf(TableOf(rows, name)))));
      }
    }

    /** One table of a run: skipped when complete, otherwise taken up where the ledger left it. */
    method RunTable(def: TableDef, i: nat, size: nat, stop: StopCheck, batches0: nat, limit: nat,
                    ghost defs: seq<TableDef>, ghost db0: Tables, ghost p: Position)
      returns (batches: nat, outcome: TableOutcome, ghost q: Position)
      requires size > 0 && limit > 0 && IsAt(defs, db0, p) && i <= p.j && i < |defs| && def == defs[i]
      modifies this
      ensures IsAt(defs, db0, q)
      ensures i < p.j ==> outcome == Settled && q == p && batches == batches0
      ensures i == p.j && outcome == Settled ==> q == Position(i + 1, 0, false, false)
      ensures i == p.j && outcome == Settled ==> batches == batches0 + Needs(db0, def, p.k, size) + 1
      ensures i == p.j && outcome == Settled ==> Needs(db0, def, p.k, size) < limit
      ensures outcome == Raised ==> i == p.j && Needs(db0, def, p.k, size) >= limit
      ensures Went(defs, db0, p, size, stop, batches0, batches, outcome == StoppedHere, q)
    {
      batches, outcome, q := batches0, Settled, p;
      var state := ReadState(def, i, defs, db0, p);
      if state.status != Completed {
        batches, outcome, q := ResumeTable(def, state, size, stop, batches, limit, defs, db0, p, Needs(db0, def, p.k, size));
      }
    }

    /** The persisted state of a table, or a fresh one. */
    method ReadState(def: TableDef, i: nat, ghost defs: seq<TableDef>, ghost db0: Tables, ghost p: Position)
      returns (state: TableState)
      requires IsAt(defs, db0, p) && i <= p.j && i < |defs| && def == defs[i]
      ensures i < p.j ==> state.status == Completed
      ensures i == p.j ==> state.status != Completed && state == PartialAt(defs, db0, p.j, p.k)
    {
      StateOf(defs, db0, p, i);
      state := if def.name in ledger then ledger[def.name] else FRESH;
    }

    /** A table that is not complete, from its persisted state on. */
    method ResumeTable(def: TableDef, state: TableState, size: nat, stop: StopCheck, batches0: nat, limit: nat,
                       ghost defs: seq<TableDef>, ghost db0: Tables, ghost p: Position, ghost need: nat)
      returns (batches: nat, outcome: TableOutcome, ghost q: Position)
      requires size > 0 && limit > 0 && IsAt(defs, db0, p) && p.j < |defs| && def == defs[p.j]
      requires state == PartialAt(defs, db0, p.j, p.k) && need == Batches(|TableOf(db0, def.name)| - p.k, size)
      modifies this
      ensures IsAt(defs, db0, q)
      ensures outcome == Settled ==> q == Position(p.j + 1, 0, false, false)
      ensures outcome == Settled ==> batches == batches0 + need + 1 && need < limit
      ensures outcome == Raised ==> need >= limit
      ensures Went(defs, db0, p, size, stop, batches0, batches, outcome == StoppedHere, q)
    {
      StartTable(defs, db0, p);
      Persist(def.name, state);
      batches, outcome, q :=
        BackfillTable(def, state, size, stop, batches0, limit, defs, db0, p.(started := true), need);
      WentResumed(defs, db0, p, size, stop, batches0, need, batches, outcome == StoppedHere);
    }

    /**
     * `run_backfill` over all tables. It may be called at any position an earlier run left
     * behind. A finished run ends in the one final position, so the rows and the whole
     * ledger are then functions of the original database alone.
     */
    method RunBackfill(defs: seq<TableDef>, r: Request, limit: nat, ghost db0: Tables, ghost p: Position)
      returns (result: RunResult, ghost q: Position)
      requires IsAt(defs, db0, p) && limit > 0
      modifies this
      ensures IsAt(defs, db0, q) && Ran(defs, db0, p, r, limit, result, q)
    {
      q := p;
      if r.size < 1 {
        return BadBatchSize, q;
      }
      var batches, outcome, table;
      batches, outcome, table, q := RunTables(defs, r.size, r.stop, limit, db0, p);
      match outcome {
        case StoppedHere => result := StoppedEarly(batches);
        case Raised => result := RaisedNoProgress(table);
        case Settled =>
          SealAll(defs, db0, q);
          q := q.(done := true);
          result := Finished(batches);
      }
    }

    /** The loop over the tables, up to a stop or an error. */
    method RunTables(defs: seq<TableDef>, size: nat, stop: StopCheck, limit: nat, ghost db0: Tables, ghost p: Position)
      returns (batches: nat, outcome: TableOutcome, table: TableName, ghost q: Position)
      requires size > 0 && limit > 0 && IsAt(defs, db0, p)
      modifies this
      ensures IsAt(defs, db0, q)
      ensures outcome == Settled ==> q.j == |defs| && batches == CallsFrom(defs, db0, p.j, p.k, size)
      ensures outcome == Settled ==> !CeilingHit(defs, db0, p.j, p.k, size, limit)
      ensures outcome == Raised ==> CeilingHit(defs, db0, p.j, p.k, size, limit)
      ensures Went(defs, db0, p, size, stop, 0, batches, outcome == StoppedHere, q)
      ensures p.j == |defs| ==> q == p && outcome == Settled
    {
      q, batches, outcome, table := p, 0, Settled, "";
      ghost var calls, hit := CallsFrom(defs, db0, p.j, p.k, size), CeilingHit(defs, db0, p.j, p.k, size, limit);
      ghost var left := calls;
      for i := 0 to |defs|
        invariant IsAt(defs, db0, q) && i <= q.j && (p.j == |defs| ==> q == p) && outcome == Settled
        invariant batches + left == calls
        invariant left == CallsFrom(defs, db0, q.j, q.k, size)
        invariant hit <==> CeilingHit(defs, db0, q.j, q.k, size, limit)
        invariant Went(defs, db0, p, size, stop, 0, batches, false, q)
      {
        table := defs[i].name;
        ghost var a, mid := batches, q;
        batches, outcome, q, left := NextTable(defs, i, size, stop, batches, limit, db0, q, left);
        WentOn(defs, db0, p, size, stop, a, mid, batches, outcome == StoppedHere, q);
        if outcome != Settled {
          return;
        }
      }
    }

    /** One table of the loop, with the batch calls still to come. */
    method NextTable(defs: seq<TableDef>, i: nat, size: nat, stop: StopCheck, batches0: nat, limit: nat,
                     ghost db0: Tables, ghost p: Position, ghost left0: nat)
      returns (batches: nat, outcome: TableOutcome, ghost q: Position, ghost left: nat)
      requires size > 0 && limit > 0 && IsAt(defs, db0, p) && i <= p.j && i < |defs|
      requires left0 == CallsFrom(defs, db0, p.j, p.k, size)
      modifies this
      ensures IsAt(defs, db0, q) && (i < p.j ==> q == p && outcome == Settled)
      ensures outcome == Settled ==> i < q.j && batches + left == batches0 + left0
      ensures outcome == Settled ==> left == CallsFrom(defs, db0, q.j, q.k, size)
      ensures outcome == Settled ==> (CeilingHit(defs, db0, p.j, p.k, size, limit) <==> CeilingHit(defs, db0, q.j, q.k, size, limit))
      ensures outcome == Raised ==> CeilingHit(defs, db0, p.j, p.k, size, limit)
      ensures Went(defs, db0, p, size, stop, batches0, batches, outcome == StoppedHere, q)
    {
      if p.j == i {
        CallsStep(defs, db0, i, p.k, size, limit);
      }
      batches, outcome, q := RunTable(defs[i], i, size, stop, batches0, limit, defs, db0, p);
      left := if p.j == i then CallsFrom(defs, db0, i + 1, 0, size) else left0;
    }

    /**
     * Any sequence of runs on a fresh database, each with its own batch size and stop
     * points. As soon as one of them finishes, rows and ledger are the final ones, and the
     * runs after it change nothing.
     */
    method RunRepeatedly(defs: seq<TableDef>, requests: seq<Request>, limit: nat, ghost db0: Tables)
      returns (results: seq<RunResult>, ghost ps: seq<Position>)
      requires Plannable(defs) && Database(defs, db0) && rows == db0 && ledger == map[] && limit > 0
      modifies this
      ensures |results| == |requests| && OneAfterAnother(defs, db0, requests, limit, results, ps)
      ensures IsAt(defs, db0, ps[|requests|])
      ensures (exists i :: 0 <= i < |requests| && results[i].Finished?) ==>
                rows == FinalRows(defs, db0) && ledger == FinalLedger(defs, db0)
    {
      ghost var p := Position(0, 0, false, false);
      results, ps := [], [p];
      RowsAtStart(defs, db0, 0);
      for i := 0 to |requests|
        invariant |results| == i && OneAfterAnother(defs, db0, requests, limit, results, ps) && ps[i] == p && IsAt(defs, db0, p)
      {
        var result;
        result, p := RunBackfill(defs, requests[i], limit, db0, p);
        AnotherAfter(defs, db0, requests, limit, results, ps, result, p);
        results, ps := results + [result], ps + [p];
      }
    }
  }

  datatype Request = Request(size: int, stop: StopCheck)

  /**
   * One run, from the position before it to the one after: a bad batch size changes nothing;
   * a finished run made every call there was, none of them told to stop, and ends in the one
   * final position; a stopped run ends after the first call the check stops at; an error
   * means that some table needs as many batches as a run allows.
   */
  ghost predicate Ran(defs: seq<TableDef>, db0: Tables, p: Position, r: Request, limit: nat, result: RunResult, q: Position) {
    && ValidAt(defs, db0, p)
    && (r.size < 1 <==> result.BadBatchSize?)
    && match result
       case BadBatchSize => q == p
       case Finished(n) =>
         && q == Position(|defs|, 0, false, true) && n == CallsFrom(defs, db0, p.j, p.k, r.size)
         && !CeilingHit(defs, db0, p.j, p.k, r.size, limit) && Unstopped(defs, db0, p, r.size, r.stop, 0, n)
       case StoppedEarly(n) => r.size >= 1 && Went(defs, db0, p, r.size, r.stop, 0, n, true, q)
       case RaisedNoProgress(_) =>
         && CeilingHit(defs, db0, p.j, p.k, r.size, limit)
         && exists n :: r.size >= 1 && Went(defs, db0, p, r.size, r.stop, 0, n, false, q)
  }

  lemma {:induction false} WalkStays(defs: seq<TableDef>, db0: Tables, p: Position, size: nat, n: nat)
    requires p.j >= |defs|
    ensures Walk(defs, db0, p, size, n) == p
  {
    if n > 0 {
      WalkStays(defs, db0, p, size, n - 1);
    }
  }

  /** A run from the final position stays there. */
  lemma FinalStays(defs: seq<TableDef>, db0: Tables, p: Position, r: Request, limit: nat, result: RunResult, q: Position)
    requires Ran(defs, db0, p, r, limit, result, q)
    ensures p == Position(|defs|, 0, false, true) || result.Finished? ==> q == Position(|defs|, 0, false, true)
  {
    if p == Position(|defs|, 0, false, true) && result.StoppedEarly? {
      WalkStays(defs, db0, p, r.size, result.batches);
    }
  }

  /** Runs from the start on, each from where the one before it ended; nothing moves after one that finished. */
  ghost predicate OneAfterAnother(defs: seq<TableDef>, db0: Tables, requests: seq<Request>, limit: nat,
                                  results: seq<RunResult>, ps: seq<Position>) {
    && |ps| == |results| + 1 && |results| <= |requests| && ps[0] == Position(0, 0, false, false)
    && (forall i :: 0 <= i < |results| ==> Ran(defs, db0, ps[i], requests[i], limit, results[i], ps[i + 1]))
    && ((exists i :: 0 <= i < |results| && results[i].Finished?) ==> ps[|results|] == Position(|defs|, 0, false, true))
  }

  lemma AnotherAfter(defs: seq<TableDef>, db0: Tables, requests: seq<Request>, limit: nat, results: seq<RunResult>,
                     ps: seq<Position>, result: RunResult, q: Position)
    requires OneAfterAnother(defs, db0, requests, limit, results, ps) && |results| < |requests|
    requires Ran(defs, db0, ps[|results|], requests[|results|], limit, result, q)
    ensures OneAfterAnother(defs, db0, requests, limit, results + [result], ps + [q])
  {
    FinalStays(defs, db0, ps[|results|], requests[|results|], limit, result, q);
  }

  /** The rows every finished backfill of `db0` ends with. */
  ghost function FinalRows(defs: seq<TableDef>, db0: Tables): Tables {
    Stage(defs, db0, |defs|)
  }

  /** The ledger every finished backfill of `db0` ends with. */
  ghost function FinalLedger(defs: seq<TableDef>, db0: Tables): Ledger {
    Zip(Names(defs), Finals(defs, db0, 0, true), |defs|)
  }

  /**
   * What the final ledger says of a table: completed, every row covered, one update per row
   * that had no owner, and the checksum of its ordered ids.
   */
  lemma FinalLedgerOf(defs: seq<TableDef>, db0: Tables, i: nat)
    requires Plannable(defs) && i < |defs|
    ensures var t, name := Original(defs, db0, i), defs[i].name;
            && name in FinalLedger(defs, db0)
            && FinalLedger(defs, db0)[name] == TableState(Completed, LastId(t), |t|, CountUnowned(t),
                                                          CountFallback(ParentAt(defs, db0, i), t), Some(IdsOf(t)), 0)
  {
    var t := Original(defs, db0, i);
    NamesNoDup(defs);
    ZipHas(Names(defs), Finals(defs, db0, 0, true), |defs|, i);
    CompleteCounts(ParentAt(defs, db0, i), t, true);
  }

  lemma CompleteCounts(par: Option<Table>, t: Table, done: bool)
    ensures Complete(par, t, done) == TableState(Completed, LastId(t), |t|, CountUnowned(t), CountFallback(par, t),
                                                 if done then Some(IdsOf(t)) else None, 0)
  {
    UpToCounts(par, t, |t|);
    assert t[..|t|] == t;
  }

  /** The positions of the rows of table i that have no parent row. */
  ghost function WithoutParent(defs: seq<TableDef>, db0: Tables, i: nat): set<nat>
    requires i < |defs|
  {
    var t, parent := Original(defs, db0, i), defs[i].parent;
    set p: nat | p < |t| && (parent.None? || t[p].parent.None? || !HasRow(TableOf(db0, parent.value), t[p].parent.value))
  }

  /** The final counts, as numbers of rows: all rows, those that had no owner, and those without a parent row. */
  lemma FinalCounts(defs: seq<TableDef>, db0: Tables, i: nat)
    requires Plannable(defs) && Database(defs, db0) && i < |defs|
    ensures var t, name := Original(defs, db0, i), defs[i].name;
            && name in FinalLedger(defs, db0)
            && FinalLedger(defs, db0)[name].source == |t|
            && FinalLedger(defs, db0)[name].target == |set p: nat | p < |t| && t[p].tenant == None|
            && FinalLedger(defs, db0)[name].fallback == |WithoutParent(defs, db0, i)|
  {
    var t, par := Original(defs, db0, i), ParentAt(defs, db0, i);
    FinalLedgerOf(defs, db0, i);
    CountUnownedIs(t);
    CountFallbackIs(par, t);
    assert Unowned(t) == set p: nat | p < |t| && t[p].tenant == None;
    forall p: nat | p < |t| ensures p in Orphaned(par, t) <==> p in WithoutParent(defs, db0, i) {
      FallbackMeansNoParent(defs, db0, i, t[p]);
    }
    assert Orphaned(par, t) == WithoutParent(defs, db0, i);
  }

  /** The rows a batch covers lie above the old cursor and up to the new one. */
  lemma CoveredIds(t: Table, k: nat, k': nat, i: nat)
    requires Ordered(t) && k <= i < k' <= |t|
    ensures CursorAt(t, k) < t[i].id <= CursorAt(t, k')
  {
    OrderedAt(t, i, k' - 1);
    OrderedAt(t, if k == 0 then i else k - 1, i);
  }

  type StopCheck = (TableName, nat) -> bool

  datatype RunResult =
    | BadBatchSize
    | Finished(batches: nat)
    | StoppedEarly(batches: nat)
    | RaisedNoProgress(table: TableName)

  /** Batches the rest of a table needs. */
  ghost function Needs(db0: Tables, def: TableDef, k: nat, size: nat): nat
    requires size > 0
  {
    var n := |TableOf(db0, def.name)|;
    if k <= n then Batches(n - k, size) else 0
  }

  /** Batch calls an unstopped run makes from position (j, k). */
  ghost function CallsFrom(defs: seq<TableDef>, db0: Tables, j: nat, k: nat, size: int): nat
    requires j <= |defs| && (j < |defs| ==> k <= |Original(defs, db0, j)|)
    decreases |defs| - j
  {
    if j == |defs| || size < 1 then 0
    else Needs(db0, defs[j], k, size) + 1 + CallsFrom(defs, db0, j + 1, 0, size)
  }

  /** Some table from position (j, k) on needs as many batches as the ceiling allows. */
  ghost predicate CeilingHit(defs: seq<TableDef>, db0: Tables, j: nat, k: nat, size: int, limit: nat)
    requires j <= |defs| && (j < |defs| ==> k <= |Original(defs, db0, j)|)
    decreases |defs| - j
  {
    && j < |defs| && size >= 1
    && (Needs(db0, defs[j], k, size) >= limit || CeilingHit(defs, db0, j + 1, 0, size, limit))
  }

  lemma CallsStep(defs: seq<TableDef>, db0: Tables, j: nat, k: nat, size: int, limit: nat)
    requires j < |defs| && k <= |Original(defs, db0, j)| && size >= 1
    ensures CallsFrom(defs, db0, j, k, size) == Needs(db0, defs[j], k, size) + 1 + CallsFrom(defs, db0, j + 1, 0, size)
    ensures CeilingHit(defs, db0, j, k, size, limit) <==>
              Needs(db0, defs[j], k, size) >= limit || CeilingHit(defs, db0, j + 1, 0, size, limit)
  {
  }

  /** What the ledger says about table i when the position is at or after it. */
  lemma StateOf(defs: seq<TableDef>, db0: Tables, p: Position, i: nat)
    requires ValidAt(defs, db0, p) && i <= p.j && i < |defs|
    ensures var ledger := LedgerAtPos(defs, db0, p);
            && (i < p.j ==> defs[i].name in ledger && ledger[defs[i].name].status == Completed)
            && (i == p.j ==> (defs[i].name in ledger <==> p.started))
            && (i == p.j && p.started ==> ledger[defs[i].name] == PartialAt(defs, db0, p.j, p.k))
            && (i == p.j && !p.started ==> p.k == 0 && PartialAt(defs, db0, p.j, p.k) == FRESH)
  {
    NamesNoDup(defs);
    ZipHas(Names(defs), Finals(defs, db0, 0, p.done), p.j, i);
    if i < p.j < |defs| {
      NamesDiffer(defs, i, p.j);
    }
  }

  lemma StartTable(defs: seq<TableDef>, db0: Tables, p: Position)
    requires ValidAt(defs, db0, p) && p.j < |defs|
    ensures ValidAt(defs, db0, p.(started := true))
    ensures RowsAt(defs, db0, p.(started := true)) == RowsAt(defs, db0, p)
    ensures LedgerAtPos(defs, db0, p)[defs[p.j].name := PartialAt(defs, db0, p.j, p.k)] == LedgerAtPos(defs, db0, p.(started := true))
  {
  }

  /** The ledger with the checksum of table i set. */
  lemma SealEntry(defs: seq<TableDef>, db0: Tables, i: nat, done: bool)
    requires Plannable(defs) && i < |defs|
    ensures var names, states, x := Names(defs), Finals(defs, db0, i, done), CompleteAt(defs, db0, i, true);
            && defs[i].name in Zip(names, states, |defs|)
            && Zip(names, states, |defs|)[defs[i].name] == CompleteAt(defs, db0, i, done)
            && Zip(names, states, |defs|)[defs[i].name := x] == Zip(names, Finals(defs, db0, i + 1, done), |defs|)
  {
    var names, states, x := Names(defs), Finals(defs, db0, i, done), CompleteAt(defs, db0, i, true);
    NamesNoDup(defs);
    ZipHas(names, states, |defs|, i);
    ZipUpdate(names, states, |defs|, i, x);
    FinalsNext(defs, db0, i, done);
  }

  lemma FinalsNext(defs: seq<TableDef>, db0: Tables, i: nat, done: bool)
    requires i < |defs|
    ensures Finals(defs, db0, i, done)[i := CompleteAt(defs, db0, i, true)] == Finals(defs, db0, i + 1, done)
  {
  }

  lemma FinalIds(defs: seq<TableDef>, db0: Tables, i: nat)
    requires Plannable(defs) && Database(defs, db0) && i < |defs|
    ensures IdsOf(TableOf(Stage(defs, db0, |defs|), defs[i].name)) == IdsOf(Original(defs, db0, i))
  {
    StageKept(defs, db0, i, |defs|);
  }

  /** The ledger row after a batch that covered rows. */
  function Advance(state: TableState, row: BatchRow): TableState {
    state.(source := state.source + row.source, target := state.target + row.target,
           fallback := state.fallback + row.legacy,
           cursor := if row.cursor > 0 then row.cursor else state.cursor, status := Running)
  }

  /** What the statement reports at a position. */
  lemma StatementAt(defs: seq<TableDef>, db0: Tables, p: Position, size: nat)
    requires ValidAt(defs, db0, p) && p.j < |defs|
    ensures var t := Original(defs, db0, p.j);
            Reports(PendingBatch(defs[p.j], RowsAt(defs, db0, p), CursorAt(t, p.k), size),
                    ParentAt(defs, db0, p.j), t, p.k, Min(p.k + size, |t|))
  {
    MidStatement(defs, db0, p.j, p.k, size);
  }

  lemma MidStatement(defs: seq<TableDef>, db0: Tables, j: nat, k: nat, size: nat)
    requires Plannable(defs) && Database(defs, db0) && j < |defs| && k <= |Original(defs, db0, j)|
    ensures var t := Original(defs, db0, j);
            Reports(PendingBatch(defs[j], Mid(defs, db0, j, k), CursorAt(t, k), size),
                    ParentAt(defs, db0, j), t, k, Min(k + size, |t|))
  {
    MidParent(defs, db0, j, k);
    MidTable(defs, db0, j, k);
    TableOrdered(defs, db0, j);
    BatchAt(defs[j], Mid(defs, db0, j, k), ParentAt(defs, db0, j), Original(defs, db0, j), k, size);
  }

  lemma MidTable(defs: seq<TableDef>, db0: Tables, j: nat, k: nat)
    requires j < |defs| && k <= |Original(defs, db0, j)|
    ensures TableOf(Mid(defs, db0, j, k), defs[j].name) == Filled(ParentAt(defs, db0, j), Original(defs, db0, j), k)
  {
  }

  /** Rows remain: the ledger row advances with the position. */
  lemma AdvanceAt(defs: seq<TableDef>, db0: Tables, p: Position, size: nat, row: BatchRow)
    requires ValidAt(defs, db0, p) && p.j < |defs| && size > 0 && p.k < |Original(defs, db0, p.j)|
    requires row == PendingBatch(defs[p.j], RowsAt(defs, db0, p), CursorAt(Original(defs, db0, p.j), p.k), size)
    ensures var k' := Min(p.k + size, |Original(defs, db0, p.j)|);
            && row.source > 0 && p.k < k'
            && row.table == Filled(ParentAt(defs, db0, p.j), Original(defs, db0, p.j), k')
            && Advance(PartialAt(defs, db0, p.j, p.k), row) == PartialAt(defs, db0, p.j, k')
  {
    var t := Original(defs, db0, p.j);
    var k' := Min(p.k + size, |t|);
    StatementAt(defs, db0, p, size);
    TableOrdered(defs, db0, p.j);
    AdvanceIs(ParentAt(defs, db0, p.j), t, p.k, k', row);
  }

  lemma AdvanceIs(par: Option<Table>, t: Table, k: nat, k': nat, row: BatchRow)
    requires Ordered(t) && k < k' <= |t|
    requires row.source == k' - k && row.target == CountUnowned(t[k..k'])
    requires row.legacy == CountFallback(par, t[k..k']) && row.cursor == CursorAt(t, k')
    ensures Advance(Partial(par, t, k), row) == Partial(par, t, k')
  {
    PartialStep(par, t, k, k');
    UpToCounts(par, t, k);
    UpToCounts(par, t, k');
    OrderedAt(t, k' - 1, k' - 1);
  }

  /** Rows remain: the position moves forward inside the table. */
  lemma BatchForward(defs: seq<TableDef>, db0: Tables, p: Position, size: nat)
    requires ValidAt(defs, db0, p) && p.j < |defs| && p.started && size > 0 && p.k < |Original(defs, db0, p.j)|
    ensures var def, next := defs[p.j], p.(k := Min(p.k + size, |Original(defs, db0, p.j)|));
            var db, state := RowsAt(defs, db0, p), PartialAt(defs, db0, p.j, p.k);
            var row := PendingBatch(def, db, state.cursor, size);
            && p.k < next.k && row.source > 0
            && ValidAt(defs, db0, next)
            && Advance(state, row) == PartialAt(defs, db0, p.j, next.k)
            && db[def.name := row.table] == RowsAt(defs, db0, next)
            && LedgerAtPos(defs, db0, p)[def.name := Advance(state, row)] == LedgerAtPos(defs, db0, next)
  {
    AdvanceAt(defs, db0, p, size,
              PendingBatch(defs[p.j], RowsAt(defs, db0, p), PartialAt(defs, db0, p.j, p.k).cursor, size));
    Forward(defs, db0, p, Min(p.k + size, |Original(defs, db0, p.j)|));
  }

  /** No row remains: the table completes. */
  lemma BatchCompletes(defs: seq<TableDef>, db0: Tables, p: Position, size: nat)
    requires ValidAt(defs, db0, p) && p.j < |defs| && p.started && p.k == |Original(defs, db0, p.j)|
    ensures var def, next := defs[p.j], Position(p.j + 1, 0, false, false);
            var db, state := RowsAt(defs, db0, p), PartialAt(defs, db0, p.j, p.k);
            && var row := PendingBatch(def, db, state.cursor, size);
            && row.source == 0 && row.unresolved == []
            && ValidAt(defs, db0, next)
            && db[def.name := row.table] == RowsAt(defs, db0, next)
            && LedgerAtPos(defs, db0, p)[def.name := state.(status := Completed)] == LedgerAtPos(defs, db0, next)
  {
    StatementAt(defs, db0, p, size);
    Completes(defs, db0, p);
  }

  lemma PartialStep(par: Option<Table>, t: Table, k: nat, k': nat)
    requires k <= k' <= |t|
    ensures CountUnowned(t[..k']) == CountUnowned(t[..k]) + CountUnowned(t[k..k'])
    ensures CountFallback(par, t[..k']) == CountFallback(par, t[..k]) + CountFallback(par, t[k..k'])
  {
    assert t[..k'] == t[..k] + t[k..k'];
    CountUnownedAppend(t[..k], t[k..k']);
    CountFallbackAppend(par, t[..k], t[k..k']);
  }

  /** The database and the ledger after a step inside table j. */
  lemma Forward(defs: seq<TableDef>, db0: Tables, p: Position, k': nat)
    requires ValidAt(defs, db0, p) && p.j < |defs| && p.started && p.k < k' <= |Original(defs, db0, p.j)|
    ensures var name := defs[p.j].name;
            && ValidAt(defs, db0, p.(k := k'))
            && RowsAt(defs, db0, p)[name := Filled(ParentAt(defs, db0, p.j), TableOf(db0, name), k')] == RowsAt(defs, db0, p.(k := k'))
            && LedgerAtPos(defs, db0, p)[name := PartialAt(defs, db0, p.j, k')] == LedgerAtPos(defs, db0, p.(k := k'))
  {
  }

  lemma RowsAtStart(defs: seq<TableDef>, db0: Tables, j: nat)
    requires Plannable(defs) && Database(defs, db0) && j <= |defs|
    ensures ValidAt(defs, db0, Position(j, 0, false, false))
    ensures RowsAt(defs, db0, Position(j, 0, false, false)) == Stage(defs, db0, j)
  {
    if j < |defs| {
      MidStart(defs, db0, j);
    }
  }

  /** The database and the ledger once table j completes. */
  lemma Completes(defs: seq<TableDef>, db0: Tables, p: Position)
    requires ValidAt(defs, db0, p) && p.j < |defs| && p.started && p.k == |Original(defs, db0, p.j)|
    ensures var name := defs[p.j].name;
            var next := Position(p.j + 1, 0, false, false);
            && ValidAt(defs, db0, next)
            && RowsAt(defs, db0, p)[name := Filled(ParentAt(defs, db0, p.j), TableOf(db0, name), p.k)] == RowsAt(defs, db0, next)
            && LedgerAtPos(defs, db0, p)[name := CompleteAt(defs, db0, p.j, false)] == LedgerAtPos(defs, db0, next)
  {
    RowsComplete(defs, db0, p);
    LedgerCompletes(defs, db0, p);
  }

  lemma RowsComplete(defs: seq<TableDef>, db0: Tables, p: Position)
    requires ValidAt(defs, db0, p) && p.j < |defs| && p.k == |Original(defs, db0, p.j)|
    ensures var name := defs[p.j].name;
            var next := Position(p.j + 1, 0, false, false);
            && ValidAt(defs, db0, next)
            && RowsAt(defs, db0, p)[name := Filled(ParentAt(defs, db0, p.j), TableOf(db0, name), p.k)] == RowsAt(defs, db0, next)
  {
    RowsAtStart(defs, db0, p.j + 1);
    MidEnd(defs, db0, p.j);
    MidAgain(defs, db0, p.j, p.k, p.k);
  }

  /** Setting the table again in the middle of it. */
  lemma MidAgain(defs: seq<TableDef>, db0: Tables, j: nat, k: nat, k': nat)
    requires j < |defs| && k <= |Original(defs, db0, j)| && k' <= |Original(defs, db0, j)|
    ensures Mid(defs, db0, j, k)[defs[j].name := Filled(ParentAt(defs, db0, j), Original(defs, db0, j), k')] == Mid(defs, db0, j, k')
  {
  }

  lemma LedgerCompletes(defs: seq<TableDef>, db0: Tables, p: Position)
    requires ValidAt(defs, db0, p) && p.j < |defs| && p.started && ValidAt(defs, db0, Position(p.j + 1, 0, false, false))
    ensures LedgerAtPos(defs, db0, p)[defs[p.j].name := CompleteAt(defs, db0, p.j, false)]
            == LedgerAtPos(defs, db0, Position(p.j + 1, 0, false, false))
  {
  }

  lemma {:induction false} NoMoreBatchesThanRows(n: nat, b: nat)
    requires b > 0
    ensures Batches(n, b) <= n
    decreases n
  {
    if n > 0 {
      NoMoreBatchesThanRows(n - Min(n, b), b);
    }
  }

  lemma {:induction false} CeilingFar(defs: seq<TableDef>, db0: Tables, j: nat, k: nat, size: int, limit: nat)
    requires j <= |defs| && (j < |defs| ==> k <= |Original(defs, db0, j)|)
    requires forall i :: 0 <= i < |defs| ==> |Original(defs, db0, i)| < limit
    ensures !CeilingHit(defs, db0, j, k, size, limit)
    decreases |defs| - j
  {
    if j < |defs| && size >= 1 {
      NoMoreBatchesThanRows(|Original(defs, db0, j)| - k, size);
      CeilingFar(defs, db0, j + 1, 0, size, limit);
    }
  }

  /** A run that nothing stops finishes, if each table holds fewer rows than a run allows batches. */
  lemma UnstoppedRunFinishes(defs: seq<TableDef>, db0: Tables, p: Position, r: Request, limit: nat, result: RunResult, q: Position)
    requires Ran(defs, db0, p, r, limit, result, q) && r.size >= 1 && (forall name, n :: !r.stop(name, n))
    requires forall i :: 0 <= i < |defs| ==> |Original(defs, db0, i)| < limit
    ensures result == Finished(CallsFrom(defs, db0, p.j, p.k, r.size)) && q == Position(|defs|, 0, false, true)
  {
    CeilingFar(defs, db0, p.j, p.k, r.size, limit);
  }

  /** The rows among the first k of a table that had no owner, and those without a parent row. */
  ghost function UnownedFirst(t: Table, k: nat): set<nat> {
    set p: nat | p < k && p < |t| && t[p].tenant == None
  }

  ghost function OrphansFirst(defs: seq<TableDef>, db0: Tables, i: nat, k: nat): set<nat>
    requires i < |defs|
  {
    set p | p in WithoutParent(defs, db0, i) && p < k
  }

  lemma CountsAlong(defs: seq<TableDef>, db0: Tables, i: nat, k: nat)
    requires Plannable(defs) && Database(defs, db0) && i < |defs| && k <= |Original(defs, db0, i)|
    ensures CountUnowned(Original(defs, db0, i)[..k]) == |UnownedFirst(Original(defs, db0, i), k)|
    ensures CountFallback(ParentAt(defs, db0, i), Original(defs, db0, i)[..k]) == |OrphansFirst(defs, db0, i, k)|
  {
    var t, par := Original(defs, db0, i), ParentAt(defs, db0, i);
    CountUnownedIs(t[..k]);
    CountFallbackIs(par, t[..k]);
    assert Unowned(t[..k]) == UnownedFirst(t, k);
    forall p: nat ensures p in Orphaned(par, t[..k]) <==> p in OrphansFirst(defs, db0, i, k) {
      if p < k {
        FallbackMeansNoParent(defs, db0, i, t[p]);
      }
    }
    assert Orphaned(par, t[..k]) == OrphansFirst(defs, db0, i, k);
  }

  /**
   * What the ledger says anywhere on the way: nothing of the tables to come, of the one under
   * way how far it has come, and of the others that they are complete.
   */
  lemma LedgerAlong(defs: seq<TableDef>, db0: Tables, p: Position, i: nat)
    requires ValidAt(defs, db0, p) && i < |defs|
    ensures var ledger, name, t := LedgerAtPos(defs, db0, p), defs[i].name, Original(defs, db0, i);
            && (name in ledger <==> i < p.j || (i == p.j && p.started))
            && (i == p.j && p.started ==>
                  ledger[name] == TableState(if p.k == 0 then Pending else Running, if p.k == 0 then 0 else t[p.k - 1].id, p.k,
                                             |UnownedFirst(t, p.k)|, |OrphansFirst(defs, db0, i, p.k)|, None, 0))
            && (i < p.j ==>
                  ledger[name] == TableState(Completed, if t == [] then 0 else t[|t| - 1].id, |t|,
                                             |UnownedFirst(t, |t|)|, |OrphansFirst(defs, db0, i, |t|)|,
                                             if p.done then Some(IdsOf(t)) else None, 0))
  {
    LedgerEntry(defs, db0, p, i);
    if i == p.j {
      PartialIs(defs, db0, i, p.k);
    } else if i < p.j {
      CompleteIs(defs, db0, i, p.done);
    }
  }

  lemma LedgerEntry(defs: seq<TableDef>, db0: Tables, p: Position, i: nat)
    requires ValidAt(defs, db0, p) && i < |defs|
    ensures var ledger, name := LedgerAtPos(defs, db0, p), defs[i].name;
            && (name in ledger <==> i < p.j || (i == p.j && p.started))
            && (i == p.j && p.started ==> ledger[name] == PartialAt(defs, db0, i, p.k))
            && (i < p.j ==> ledger[name] == CompleteAt(defs, db0, i, p.done))
  {
    NamesNoDup(defs);
    ZipHas(Names(defs), Finals(defs, db0, 0, p.done), p.j, i);
    if i < p.j < |defs| {
      NamesDiffer(defs, i, p.j);
    } else if p.j < i {
      NamesDiffer(defs, p.j, i);
    }
  }

  lemma PartialIs(defs: seq<TableDef>, db0: Tables, i: nat, k: nat)
    requires Plannable(defs) && Database(defs, db0) && i < |defs| && k <= |Original(defs, db0, i)|
    ensures var t := Original(defs, db0, i);
            PartialAt(defs, db0, i, k) == TableState(if k == 0 then Pending else Running, if k == 0 then 0 else t[k - 1].id, k,
                                                     |UnownedFirst(t, k)|, |OrphansFirst(defs, db0, i, k)|, None, 0)
  {
    UpToCounts(ParentAt(defs, db0, i), Original(defs, db0, i), k);
    CountsAlong(defs, db0, i, k);
  }

  lemma CompleteIs(defs: seq<TableDef>, db0: Tables, i: nat, done: bool)
    requires Plannable(defs) && Database(defs, db0) && i < |defs|
    ensures var t := Original(defs, db0, i);
            CompleteAt(defs, db0, i, done) == TableState(Completed, if t == [] then 0 else t[|t| - 1].id, |t|,
                                                         |UnownedFirst(t, |t|)|, |OrphansFirst(defs, db0, i, |t|)|,
                                                         if done then Some(IdsOf(t)) else None, 0)
  {
    UpToCounts(ParentAt(defs, db0, i), Original(defs, db0, i), |Original(defs, db0, i)|);
    CountsAlong(defs, db0, i, |Original(defs, db0, i)|);
  }
}
