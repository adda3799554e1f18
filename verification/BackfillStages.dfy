/**
 * Every state the backfill can be in, as a function of the original database and of how far
 * it has come: tables before the current one are complete, the current one has its first k
 * rows claimed, later ones are untouched.
 */
module BackfillStages {
  import opened Seqs
  import opened BackfillModel

  datatype Progress = Pending | Running | Completed | Failed

  /** SHA-256 over the ordered ids, taken as injective. */
  type Checksum = seq<nat>

  /** A ledger row; `cursor` 0 is the missing cursor. */
  datatype TableState = TableState(
    status: Progress,
    cursor: nat,
    source: nat,
    target: nat,
    fallback: nat,
    checksum: Option<Checksum>,
    failures: nat)

  const FRESH := TableState(Pending, 0, 0, 0, 0, None, 0)

  type Ledger = map<TableName, TableState>

  function IdsOf(t: Table): (r: seq<nat>)
    ensures |r| == |t| && forall i :: 0 <= i < |t| ==> r[i] == t[i].id
  {
    seq(|t|, i requires 0 <= i < |t| => t[i].id)
  }

  /** The database once the first j tables are complete. */
  function Stage(defs: seq<TableDef>, db0: Tables, j: nat): Tables
    requires j <= |defs|
  {
    if j == 0 then db0
    else
      var s, def := Stage(defs, db0, j - 1), defs[j - 1];
      var t := TableOf(db0, def.name);
      s[def.name := Filled(ParentTable(def, s), t, |t|)]
  }

  /** The parent table a table's rows are resolved against: complete when the table's turn comes. */
  function ParentAt(defs: seq<TableDef>, db0: Tables, j: nat): Option<Table>
    requires j < |defs|
  {
    ParentTable(defs[j], Stage(defs, db0, j))
  }

  /** Table j as it was at the start. */
  function Original(defs: seq<TableDef>, db0: Tables, j: nat): Table
    requires j < |defs|
  {
    TableOf(db0, defs[j].name)
  }

  /** The database in the middle of table j. */
  function Mid(defs: seq<TableDef>, db0: Tables, j: nat, k: nat): Tables
    requires j < |defs| && k <= |Original(defs, db0, j)|
  {
    Stage(defs, db0, j)[defs[j].name := Filled(ParentAt(defs, db0, j), Original(defs, db0, j), k)]
  }

  /** How many of the first k rows had no owner, and how many of them are fallbacks. */
  function UnownedUpTo(t: Table, k: nat): nat
    requires k <= |t|
  {
    if k == 0 then 0 else UnownedUpTo(t, k - 1) + (if t[k - 1].tenant.None? then 1 else 0)
  }

  function FallbackUpTo(par: Option<Table>, t: Table, k: nat): nat
    requires k <= |t|
  {
    if k == 0 then 0 else FallbackUpTo(par, t, k - 1) + (if Inherited(par, t[k - 1]).None? then 1 else 0)
  }

  lemma {:induction false} UpToCounts(par: Option<Table>, t: Table, k: nat)
    requires k <= |t|
    ensures UnownedUpTo(t, k) == CountUnowned(t[..k]) && FallbackUpTo(par, t, k) == CountFallback(par, t[..k])
  {
    if k > 0 {
      UpToCounts(par, t, k - 1);
      assert t[..k][..k - 1] == t[..k - 1];
    }
  }

  /** The ledger row after the first k rows of a table. */
  function Partial(par: Option<Table>, t: Table, k: nat): TableState
    requires k <= |t|
  {
    TableState(if k == 0 then Pending else Running, CursorAt(t, k), k,
               UnownedUpTo(t, k), FallbackUpTo(par, t, k), None, 0)
  }

  /** The ledger row of a complete table; checksums appear once the whole backfill is done. */
  function Complete(par: Option<Table>, t: Table, done: bool): TableState {
    Partial(par, t, |t|).(status := Completed, checksum := if done then Some(IdsOf(t)) else None)
  }

  // ---- Stages agree where they should ----

  lemma {:induction false} StageUntouched(defs: seq<TableDef>, db0: Tables, j: nat, i: nat)
    requires Plannable(defs) && j <= i < |defs|
    ensures TableOf(Stage(defs, db0, j), defs[i].name) == Original(defs, db0, i)
  {
    if j > 0 {
      StageUntouched(defs, db0, j - 1, i);
      NamesDiffer(defs, j - 1, i);
    }
  }

  lemma {:induction false} StageKept(defs: seq<TableDef>, db0: Tables, i: nat, j: nat)
    requires Plannable(defs) && i < j <= |defs|
    ensures defs[i].name in Stage(defs, db0, j)
    ensures TableOf(Stage(defs, db0, j), defs[i].name)
         == Filled(ParentAt(defs, db0, i), Original(defs, db0, i), |Original(defs, db0, i)|)
    decreases j
  {
    if i < j - 1 {
      StageKept(defs, db0, i, j - 1);
      NamesDiffer(defs, i, j - 1);
    }
  }

  /** A parent looks the same at its child's turn and at the end. */
  lemma ParentIsFinal(defs: seq<TableDef>, db0: Tables, j: nat)
    requires Plannable(defs) && j < |defs|
    ensures ParentAt(defs, db0, j) == ParentTable(defs[j], Stage(defs, db0, |defs|))
  {
    if defs[j].parent.Some? {
      var i := ParentBefore(defs, j);
      StageKept(defs, db0, i, j);
      StageKept(defs, db0, i, |defs|);
    }
  }

  lemma MidStart(defs: seq<TableDef>, db0: Tables, j: nat)
    requires Plannable(defs) && Database(defs, db0) && j < |defs|
    ensures Mid(defs, db0, j, 0) == Stage(defs, db0, j)
  {
    var name := defs[j].name;
    TableOrdered(defs, db0, j);
    StageUntouched(defs, db0, j, j);
    StageHas(defs, db0, j, name);
    assert Filled(ParentAt(defs, db0, j), Original(defs, db0, j), 0) == Original(defs, db0, j);
  }

  lemma {:induction false} StageHas(defs: seq<TableDef>, db0: Tables, j: nat, name: TableName)
    requires j <= |defs| && name in db0
    ensures name in Stage(defs, db0, j)
  {
    if j > 0 {
      StageHas(defs, db0, j - 1, name);
    }
  }

  lemma {:induction false} StageOther(defs: seq<TableDef>, db0: Tables, j: nat, name: TableName)
    requires j <= |defs| && name !in Names(defs)
    ensures TableOf(Stage(defs, db0, j), name) == TableOf(db0, name)
  {
    if j > 0 {
      StageOther(defs, db0, j - 1, name);
      assert Names(defs)[j - 1] == defs[j - 1].name;
    }
  }

  lemma MidEnd(defs: seq<TableDef>, db0: Tables, j: nat)
    requires j < |defs|
    ensures Mid(defs, db0, j, |Original(defs, db0, j)|) == Stage(defs, db0, j + 1)
  {
  }

  /** In the middle of a table its parent is already in final state. */
  lemma MidParent(defs: seq<TableDef>, db0: Tables, j: nat, k: nat)
    requires Plannable(defs) && j < |defs| && k <= |Original(defs, db0, j)|
    ensures ParentTable(defs[j], Mid(defs, db0, j, k)) == ParentAt(defs, db0, j)
  {
    if defs[j].parent.Some? {
      var i := ParentBefore(defs, j);
      NamesDiffer(defs, i, j);
    }
  }

  // ---- What the final owners are ----

  lemma {:induction false} FindRowAt(t: Table, i: nat)
    requires i < |t| && forall p :: 0 <= p < i ==> t[p].id != t[i].id
    ensures FindRow(t, t[i].id) == Some(t[i])
  {
    if i > 0 {
      FindRowAt(t[1..], i - 1);
    }
  }

  lemma {:induction false} FindRowNone(t: Table, id: nat)
    requires forall i :: 0 <= i < |t| ==> t[i].id != id
    ensures FindRow(t, id) == None
  {
    if t != [] {
      FindRowNone(t[1..], id);
    }
  }

  ghost predicate HasRow(t: Table, id: nat) {
    exists i :: 0 <= i < |t| && t[i].id == id
  }

  /** Tables of a finished backfill are ordered, fully owned and keep their ids and links. */
  lemma FinalTable(defs: seq<TableDef>, db0: Tables, j: nat)
    requires Plannable(defs) && Database(defs, db0) && j < |defs|
    ensures var t, was := TableOf(Stage(defs, db0, |defs|), defs[j].name), Original(defs, db0, j);
            && Ordered(t) && |t| == |was|
            && forall p :: 0 <= p < |t| ==> t[p].tenant.Some? && t[p].id == was[p].id && t[p].parent == was[p].parent
  {
    StageKept(defs, db0, j, |defs|);
    TableOrdered(defs, db0, j);
    FilledOrdered(ParentAt(defs, db0, j), Original(defs, db0, j), |Original(defs, db0, j)|);
  }

  /** What a row inherits is its parent row's final owner, if that row exists. */
  lemma InheritedIs(defs: seq<TableDef>, db0: Tables, j: nat, row: Row)
    requires Plannable(defs) && Database(defs, db0) && j < |defs|
    requires defs[j].parent.Some? && row.parent.Some?
    ensures var par := TableOf(Stage(defs, db0, |defs|), defs[j].parent.value);
            && (forall p :: 0 <= p < |par| && par[p].id == row.parent.value ==> Inherited(ParentAt(defs, db0, j), row) == par[p].tenant)
            && (!HasRow(par, row.parent.value) ==> Inherited(ParentAt(defs, db0, j), row).None?)
  {
    var par := TableOf(Stage(defs, db0, |defs|), defs[j].parent.value);
    ParentIsFinal(defs, db0, j);
    var i := ParentBefore(defs, j);
    FinalTable(defs, db0, i);
    forall p | 0 <= p < |par| && par[p].id == row.parent.value
      ensures Inherited(Some(par), row) == par[p].tenant
    {
      forall q | 0 <= q < p ensures par[q].id != par[p].id {
        OrderedAt(par, q, p);
      }
      FindRowAt(par, p);
    }
    if !HasRow(par, row.parent.value) {
      FindRowNone(par, row.parent.value);
    }
  }

  /** The owner a row ends up with, told from the row and the parent table's final state. */
  ghost predicate OwnerRule(def: TableDef, fin: Tables, row: Row, got: Row) {
    && got.id == row.id && got.parent == row.parent && got.tenant.Some?
    && (row.tenant.Some? ==> got == row)
    && (row.tenant.None? && (def.parent.None? || row.parent.None?) ==> got.tenant == Some(LEGACY))
    && (row.tenant.None? && def.parent.Some? && row.parent.Some? ==>
          var par := TableOf(fin, def.parent.value);
          && (forall p :: 0 <= p < |par| && par[p].id == row.parent.value ==> got.tenant == par[p].tenant)
          && (!HasRow(par, row.parent.value) ==> got.tenant == Some(LEGACY)))
  }

  /**
   * The owners after a full backfill: rows owned at the start keep their owner; a row of a
   * root table goes to the legacy tenant; a row of a child table goes to its parent row's
   * final owner when that row exists, and to the legacy tenant otherwise. Ids and links
   * never change, and every row ends up owned.
   */
  lemma FinalOwners(defs: seq<TableDef>, db0: Tables, j: nat, i: nat)
    requires Plannable(defs) && Database(defs, db0) && j < |defs| && i < |Original(defs, db0, j)|
    ensures var fin := Stage(defs, db0, |defs|);
            && |TableOf(fin, defs[j].name)| == |Original(defs, db0, j)|
            && OwnerRule(defs[j], fin, Original(defs, db0, j)[i], TableOf(fin, defs[j].name)[i])
  {
    var row := Original(defs, db0, j)[i];
    StageKept(defs, db0, j, |defs|);
    if defs[j].parent.Some? && row.parent.Some? {
      InheritedIs(defs, db0, j, row);
      ParentOwned(defs, db0, j);
    }
  }

  lemma ParentOwned(defs: seq<TableDef>, db0: Tables, j: nat)
    requires Plannable(defs) && Database(defs, db0) && j < |defs| && defs[j].parent.Some?
    ensures var par := TableOf(Stage(defs, db0, |defs|), defs[j].parent.value);
            forall p :: 0 <= p < |par| ==> par[p].tenant.Some?
  {
    var i := ParentBefore(defs, j);
    FinalTable(defs, db0, i);
  }

  /** A covered row counts as a fallback exactly when it has no parent row: also when it already had an owner. */
  lemma FallbackMeansNoParent(defs: seq<TableDef>, db0: Tables, j: nat, row: Row)
    requires Plannable(defs) && Database(defs, db0) && j < |defs|
    ensures Inherited(ParentAt(defs, db0, j), row).None? <==>
              defs[j].parent.None? || row.parent.None? || !HasRow(TableOf(db0, defs[j].parent.value), row.parent.value)
  {
    if defs[j].parent.Some? && row.parent.Some? {
      var i := ParentBefore(defs, j);
      FinalTable(defs, db0, i);
      InheritedIs(defs, db0, j, row);
      var par, was := TableOf(Stage(defs, db0, |defs|), defs[i].name), Original(defs, db0, i);
      if HasRow(was, row.parent.value) {
        var p :| 0 <= p < |was| && was[p].id == row.parent.value;
        assert par[p].id == row.parent.value;
      } else {
        assert forall p :: 0 <= p < |par| ==> par[p].id == was[p].id;
      }
    }
  }
}
