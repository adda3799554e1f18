/**
 * The data side of the tenant backfill: tables of rows in id order, the keyset batch
 * statement, and the owners every row ends up with.
 */
module BackfillModel {
  import opened Seqs

  type TableName = string
  type Tenant = string

  /** A row id is its position in the id order of the database; 0 stands for the empty cursor. */
  datatype Row = Row(id: nat, parent: Option<nat>, tenant: Option<Tenant>)

  /** A table lists its rows in ascending id order. */
  type Table = seq<Row>
  type Tables = map<TableName, Table>

  /** A table in scope and the table it inherits ownership from, if any. */
  datatype TableDef = TableDef(name: TableName, parent: Option<TableName>)

  const LEGACY: Tenant := "00000000-0000-0000-0000-000000000001"

  function LastId(t: Table): nat {
    if t == [] then 0 else t[|t| - 1].id
  }

  /** Ids are positive and strictly increasing. */
  ghost predicate Ordered(t: Table) {
    t == [] || (Ordered(t[..|t| - 1]) && LastId(t[..|t| - 1]) < LastId(t))
  }

  lemma {:induction false} OrderedAt(t: Table, i: nat, j: nat)
    requires Ordered(t) && i <= j < |t|
    ensures 0 < t[i].id && (i < j ==> t[i].id < t[j].id)
    decreases |t|
  {
    var n := |t| - 1;
    if j < n {
      OrderedAt(t[..n], i, j);
    } else if i < n {
      OrderedAt(t[..n], i, n - 1);
    } else if n > 0 {
      OrderedAt(t[..n], n - 1, n - 1);
    }
  }

  /** A table by name; a missing table counts as empty. */
  function TableOf(db: Tables, name: TableName): Table {
    if name in db then db[name] else []
  }

  function Names(defs: seq<TableDef>): (r: seq<TableName>)
    ensures |r| == |defs| && forall i :: 0 <= i < |defs| ==> r[i] == defs[i].name
  {
    seq(|defs|, i requires 0 <= i < |defs| => defs[i].name)
  }

  /** Table names are distinct and parents come before their children. */
  ghost predicate Plannable(defs: seq<TableDef>) {
    defs == [] ||
    var front, last := defs[..|defs| - 1], defs[|defs| - 1];
    && Plannable(front)
    && last.name !in Names(front)
    && (last.parent.Some? ==> last.parent.value in Names(front))
  }

  lemma {:induction false} NamesDiffer(defs: seq<TableDef>, i: nat, j: nat)
    requires Plannable(defs) && i < j < |defs|
    ensures defs[i].name != defs[j].name
    decreases |defs|
  {
    var n := |defs| - 1;
    if j < n {
      NamesDiffer(defs[..n], i, j);
    } else {
      assert Names(defs[..n])[i] == defs[i].name;
    }
  }

  lemma {:induction false} ParentBefore(defs: seq<TableDef>, j: nat) returns (i: nat)
    requires Plannable(defs) && j < |defs| && defs[j].parent.Some?
    ensures i < j && defs[i].name == defs[j].parent.value
    decreases |defs|
  {
    var n := |defs| - 1;
    if j < n {
      i := ParentBefore(defs[..n], j);
    } else {
      i :| 0 <= i < n && Names(defs[..n])[i] == defs[j].parent.value;
    }
  }

  /** Every table in scope exists and lists its rows in id order. */
  ghost predicate Database(defs: seq<TableDef>, db: Tables) {
    defs == [] ||
    var front, name := defs[..|defs| - 1], defs[|defs| - 1].name;
    Database(front, db) && name in db && Ordered(TableOf(db, name))
  }

  lemma {:induction false} TableOrdered(defs: seq<TableDef>, db: Tables, j: nat)
    requires Database(defs, db) && j < |defs|
    ensures defs[j].name in db && Ordered(TableOf(db, defs[j].name))
  {
    if j < |defs| - 1 {
      TableOrdered(defs[..|defs| - 1], db, j);
    }
  }

  // ---- The batch statement ----

  /** Rows with an id above the cursor, in id order. */
  function Above(t: Table, cursor: nat): Table {
    if t == [] then []
    else if t[|t| - 1].id > cursor then Above(t[..|t| - 1], cursor) + [t[|t| - 1]]
    else Above(t[..|t| - 1], cursor)
  }

  function FindRow(t: Table, id: nat): Option<Row> {
    if t == [] then None else if t[0].id == id then Some(t[0]) else FindRow(t[1..], id)
  }

  /** The parent table of a definition; root tables have none. */
  function ParentTable(def: TableDef, db: Tables): Option<Table> {
    if def.parent.None? then None else Some(TableOf(db, def.parent.value))
  }

  /** The tenant a row inherits through its parent link. */
  function Inherited(par: Option<Table>, row: Row): Option<Tenant> {
    if par.None? || row.parent.None? then None
    else match FindRow(par.value, row.parent.value)
      case None => None
      case Some(p) => p.tenant
  }

  function Resolved(par: Option<Table>, row: Row): Tenant {
    match Inherited(par, row) case Some(t) => t case None => LEGACY
  }

  /** A row is written only while it has no owner. */
  function Claim(par: Option<Table>, row: Row): Row {
    if row.tenant.Some? then row else row.(tenant := Some(Resolved(par, row)))
  }

  function CountUnowned(t: Table): nat {
    if t == [] then 0 else CountUnowned(t[..|t| - 1]) + (if t[|t| - 1].tenant.None? then 1 else 0)
  }

  function CountFallback(par: Option<Table>, t: Table): nat {
    if t == [] then 0
    else CountFallback(par, t[..|t| - 1]) + (if Inherited(par, t[|t| - 1]).None? then 1 else 0)
  }

  /** What one execution of the statement reports, and the table after it. */
  datatype BatchRow = BatchRow(source: nat, target: nat, legacy: nat, cursor: nat, unresolved: seq<nat>, table: Table)

  function AlreadyOwned(t: Table): (r: seq<nat>)
    ensures t == [] ==> r == []
  {
    if t == [] then []
    else AlreadyOwned(t[..|t| - 1]) + (if t[|t| - 1].tenant.Some? then [t[|t| - 1].id] else [])
  }

  function Update(par: Option<Table>, t: Table, batch: Table): (r: Table)
    ensures |r| == |t|
    ensures forall i :: 0 <= i < |t| ==> r[i] == if t[i] in batch then Claim(par, t[i]) else t[i]
  {
    seq(|t|, i requires 0 <= i < |t| => if t[i] in batch then Claim(par, t[i]) else t[i])
  }

  /** The keyset statement: take the next rows above the cursor, claim them, report the counts. */
  function PendingBatch(def: TableDef, db: Tables, cursor: nat, size: nat): BatchRow {
    var t := TableOf(db, def.name);
    var batch := Take(Above(t, cursor), size);
    var par := ParentTable(def, db);
    BatchRow(|batch|, CountUnowned(batch), CountFallback(par, batch),
             if batch == [] then 0 else batch[|batch| - 1].id,
             AlreadyOwned(batch), Update(par, t, batch))
  }

  // ---- Positions instead of cursors ----

  /** The cursor after the first k rows. */
  function CursorAt(t: Table, k: nat): nat
    requires k <= |t|
  {
    if k == 0 then 0 else t[k - 1].id
  }

  /** The table with its first k rows claimed. */
  function Filled(par: Option<Table>, t: Table, k: nat): (r: Table)
    requires k <= |t|
    ensures |r| == |t|
    ensures forall i :: 0 <= i < |t| ==> r[i] == if i < k then Claim(par, t[i]) else t[i]
  {
    seq(|t|, i requires 0 <= i < |t| => if i < k then Claim(par, t[i]) else t[i])
  }

  lemma {:induction false} AboveAll(t: Table, cursor: nat)
    requires forall i :: 0 <= i < |t| ==> t[i].id > cursor
    ensures Above(t, cursor) == t
  {
    if t != [] {
      AboveAll(t[..|t| - 1], cursor);
      assert t == t[..|t| - 1] + [t[|t| - 1]];
    }
  }

  lemma {:induction false} AboveNone(t: Table, cursor: nat)
    requires forall i :: 0 <= i < |t| ==> t[i].id <= cursor
    ensures Above(t, cursor) == []
  {
    if t != [] {
      AboveNone(t[..|t| - 1], cursor);
    }
  }

  lemma {:induction false} AboveSplit(a: Table, b: Table, cursor: nat)
    ensures Above(a + b, cursor) == Above(a, cursor) + Above(b, cursor)
    decreases |b|
  {
    if b == [] {
      assert a + b == a;
    } else {
      assert (a + b)[..|a + b| - 1] == a + b[..|b| - 1];
      AboveSplit(a, b[..|b| - 1], cursor);
    }
  }

  /** The rows above the k-th cursor are those from position k on. */
  lemma AboveIsSuffix(t: Table, k: nat)
    requires Ordered(t) && k <= |t|
    ensures Above(t, CursorAt(t, k)) == t[k..]
  {
    UpToCursor(t, k);
    BeyondCursor(t, k);
    AboveCut(t, k, CursorAt(t, k));
  }

  lemma UpToCursor(t: Table, k: nat)
    requires Ordered(t) && k <= |t|
    ensures forall i :: 0 <= i < k ==> t[i].id <= CursorAt(t, k)
  {
    forall i | 0 <= i < k ensures t[i].id <= CursorAt(t, k) {
      OrderedAt(t, i, k - 1);
    }
  }

  lemma BeyondCursor(t: Table, k: nat)
    requires Ordered(t) && k <= |t|
    ensures forall i :: k <= i < |t| ==> t[i].id > CursorAt(t, k)
  {
    forall i | k <= i < |t| ensures t[i].id > CursorAt(t, k) {
      OrderedAt(t, if k == 0 then i else k - 1, i);
    }
  }

  lemma AboveCut(t: Table, k: nat, c: nat)
    requires k <= |t|
    requires forall i :: 0 <= i < k ==> t[i].id <= c
    requires forall i :: k <= i < |t| ==> t[i].id > c
    ensures Above(t, c) == t[k..]
  {
    AboveJoin(t[..k], t[k..], c);
    assert t == t[..k] + t[k..];
  }

  lemma AboveJoin(a: Table, b: Table, c: nat)
    requires forall i :: 0 <= i < |a| ==> a[i].id <= c
    requires forall i :: 0 <= i < |b| ==> b[i].id > c
    ensures Above(a + b, c) == b
  {
    AboveSplit(a, b, c);
    AboveNone(a, c);
    AboveAll(b, c);
  }

  lemma {:induction false} CountUnownedAppend(a: Table, b: Table)
    ensures CountUnowned(a + b) == CountUnowned(a) + CountUnowned(b)
    decreases |b|
  {
    if b == [] {
      assert a + b == a;
    } else {
      assert (a + b)[..|a + b| - 1] == a + b[..|b| - 1];
      CountUnownedAppend(a, b[..|b| - 1]);
    }
  }

  lemma {:induction false} CountFallbackAppend(par: Option<Table>, a: Table, b: Table)
    ensures CountFallback(par, a + b) == CountFallback(par, a) + CountFallback(par, b)
    decreases |b|
  {
    if b == [] {
      assert a + b == a;
    } else {
      assert (a + b)[..|a + b| - 1] == a + b[..|b| - 1];
      CountFallbackAppend(par, a, b[..|b| - 1]);
    }
  }

  function Min(a: nat, b: nat): nat {
    if a < b then a else b
  }

  /** Order depends only on the ids. */
  lemma {:induction false} SameIdsOrdered(t: Table, f: Table)
    requires Ordered(t) && |f| == |t| && forall i :: 0 <= i < |t| ==> f[i].id == t[i].id
    ensures Ordered(f)
  {
    if t != [] {
      SameIdsOrdered(t[..|t| - 1], f[..|t| - 1]);
    }
  }

  lemma FilledOrdered(par: Option<Table>, t: Table, k: nat)
    requires Ordered(t) && k <= |t|
    ensures Ordered(Filled(par, t, k)) && CursorAt(Filled(par, t, k), k) == CursorAt(t, k)
  {
    SameIdsOrdered(t, Filled(par, t, k));
  }

  /** The batch taken at position k. */
  lemma BatchIs(par: Option<Table>, t: Table, k: nat, size: nat)
    requires Ordered(t) && k <= |t|
    ensures Take(Above(Filled(par, t, k), CursorAt(t, k)), size) == t[k..Min(k + size, |t|)]
  {
    FilledAbove(par, t, k);
    TakeSlice(t, k, size);
  }

  lemma FilledAbove(par: Option<Table>, t: Table, k: nat)
    requires Ordered(t) && k <= |t|
    ensures Above(Filled(par, t, k), CursorAt(t, k)) == t[k..]
  {
    FilledOrdered(par, t, k);
    AboveIsSuffix(Filled(par, t, k), k);
    FilledSuffix(par, t, k);
  }

  lemma FilledSuffix(par: Option<Table>, t: Table, k: nat)
    requires k <= |t|
    ensures Filled(par, t, k)[k..] == t[k..]
  {
  }

  lemma TakeSlice(t: Table, k: nat, size: nat)
    requires k <= |t|
    ensures Take(t[k..], size) == t[k..Min(k + size, |t|)]
  {
  }

  lemma UpdateIs(par: Option<Table>, t: Table, k: nat, k': nat)
    requires Ordered(t) && k <= k' <= |t|
    ensures Update(par, Filled(par, t, k), t[k..k']) == Filled(par, t, k')
  {
    forall i | 0 <= i < |t| ensures Filled(par, t, k)[i] in t[k..k'] <==> k <= i < k' {
      InSlice(par, t, k, k', i);
    }
  }

  lemma InSlice(par: Option<Table>, t: Table, k: nat, k': nat, i: nat)
    requires Ordered(t) && k <= k' <= |t| && i < |t|
    ensures Filled(par, t, k)[i] in t[k..k'] <==> k <= i < k'
  {
    if k <= i < k' {
      assert t[k..k'][i - k] == Filled(par, t, k)[i];
    } else {
      FilledId(par, t, k, i);
      OtherId(t, k, k', i);
    }
  }

  lemma FilledId(par: Option<Table>, t: Table, k: nat, i: nat)
    requires k <= |t| && i < |t|
    ensures Filled(par, t, k)[i].id == t[i].id
  {
  }

  lemma OtherId(t: Table, k: nat, k': nat, i: nat)
    requires Ordered(t) && k <= k' <= |t| && i < |t| && !(k <= i < k')
    ensures forall row :: row in t[k..k'] ==> row.id != t[i].id
  {
    forall row | row in t[k..k'] ensures row.id != t[i].id {
      var p :| 0 <= p < k' - k && t[k..k'][p] == row;
      if t[k + p].id == t[i].id {
        SameIdSameRow(t, k + p, i);
      }
    }
  }

  lemma SameIdSameRow(t: Table, i: nat, j: nat)
    requires Ordered(t) && i < |t| && j < |t| && t[i].id == t[j].id
    ensures i == j
  {
    if i < j {
      OrderedAt(t, i, j);
    } else {
      OrderedAt(t, j, i);
    }
  }

  /** What a statement that covers rows k..k' reports and leaves behind. */
  ghost predicate Reports(r: BatchRow, par: Option<Table>, t: Table, k: nat, k': nat)
    requires k <= k' <= |t|
  {
    && r.source == k' - k
    && r.target == CountUnowned(t[k..k'])
    && r.legacy == CountFallback(par, t[k..k'])
    && (k < k' ==> r.cursor == CursorAt(t, k'))
    && (k == k' ==> r.unresolved == [])
    && r.table == Filled(par, t, k')
  }

  /**
   * One statement moves from position k to k' = min(k + size, n): the batch is exactly rows
   * k..k', its owners come out as if the prefix of length k' had been claimed at once, and
   * the new cursor is the id of row k' - 1.
   */
  lemma BatchAt(def: TableDef, db: Tables, par: Option<Table>, t: Table, k: nat, size: nat)
    requires Ordered(t) && k <= |t|
    requires ParentTable(def, db) == par && TableOf(db, def.name) == Filled(par, t, k)
    ensures Reports(PendingBatch(def, db, CursorAt(t, k), size), par, t, k, Min(k + size, |t|))
  {
    var k' := Min(k + size, |t|);
    BatchIs(par, t, k, size);
    StatementOn(def, db, par, Filled(par, t, k), t[k..k'], CursorAt(t, k), size);
    UpdateIs(par, t, k, k');
    SliceLast(t, k, k');
  }

  /** The statement, given the rows it takes. */
  lemma StatementOn(def: TableDef, db: Tables, par: Option<Table>, now: Table, batch: Table, cursor: nat, size: nat)
    requires ParentTable(def, db) == par && TableOf(db, def.name) == now && Take(Above(now, cursor), size) == batch
    ensures PendingBatch(def, db, cursor, size)
            == BatchRow(|batch|, CountUnowned(batch), CountFallback(par, batch),
                        if batch == [] then 0 else batch[|batch| - 1].id, AlreadyOwned(batch), Update(par, now, batch))
  {
  }

  lemma SliceLast(t: Table, k: nat, k': nat)
    requires k <= k' <= |t|
    ensures |t[k..k']| == k' - k
    ensures k < k' ==> t[k..k'][k' - k - 1].id == CursorAt(t, k')
  {
  }

  // ---- What the counts count ----

  /** The positions of the rows without an owner. */
  ghost function Unowned(t: Table): set<nat> {
    set i: nat | i < |t| && t[i].tenant.None?
  }

  lemma {:induction false} CountUnownedIs(t: Table)
    ensures CountUnowned(t) == |Unowned(t)|
  {
    if t != [] {
      var n := |t| - 1;
      CountUnownedIs(t[..n]);
      assert Unowned(t) == Unowned(t[..n]) + (if t[n].tenant.None? then {n} else {});
    }
  }

  /** The positions of the rows that inherit nothing. */
  ghost function Orphaned(par: Option<Table>, t: Table): set<nat> {
    set i: nat | i < |t| && Inherited(par, t[i]).None?
  }

  lemma {:induction false} CountFallbackIs(par: Option<Table>, t: Table)
    ensures CountFallback(par, t) == |Orphaned(par, t)|
  {
    if t != [] {
      var n := |t| - 1;
      CountFallbackIs(par, t[..n]);
      assert Orphaned(par, t) == Orphaned(par, t[..n]) + (if Inherited(par, t[n]).None? then {n} else {});
    }
  }
}
