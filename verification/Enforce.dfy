/** The tables in scope, and the two guards the enforce migration puts before its schema changes. */
module Enforce {
  import opened Seqs
  import opened BackfillModel
  import opened BackfillStages
  import opened Backfill
  import opened Selection

  function Root(name: TableName): TableDef {
    TableDef(name, None)
  }

  function Child(name: TableName, parent: TableName): TableDef {
    TableDef(name, Some(parent))
  }

  /** The backfill scope, in the order it is processed. */
  const BACKFILL_TABLES: seq<TableDef> := [
    Root("users"), Root("roles"), Root("conversations"), Root("knowledge_bases"), Root("eval_runs"), Root("eval_cases"),
    Child("messages", "conversations"), Root("memory_items"), Child("knowledge_documents", "knowledge_bases"),
    Root("drafts"), Child("ai_query_logs", "conversations"), Child("eval_results", "eval_runs"),
    Child("retrieval_eval_items", "eval_cases")]

  /** Every table that carries a tenant column after the backfill. */
  const TENANT_SCOPED_TABLES: seq<TableName> := [
    "agent_runs", "ai_query_logs", "audit_events", "conversations", "drafts", "eval_cases", "eval_results", "eval_runs",
    "graph_checkpoint_bindings", "idempotency_records", "knowledge_bases", "knowledge_documents", "memory_items", "messages",
    "retrieval_eval_items", "roles", "run_events", "user_role_grants", "users"]

  /** The tables whose tenant column was created not null by the expand migration. */
  const BORN_OWNED: seq<TableName> := [
    "agent_runs", "audit_events", "graph_checkpoint_bindings", "idempotency_records", "run_events", "user_role_grants"]

  lemma {:induction false} PlannableIf(defs: seq<TableDef>)
    requires forall i, j :: 0 <= i < j < |defs| ==> defs[i].name != defs[j].name
    requires forall j :: 0 <= j < |defs| && defs[j].parent.Some? ==> exists i :: 0 <= i < j && defs[i].name == defs[j].parent.value
    ensures Plannable(defs)
  {
    if defs != [] {
      var n := |defs| - 1;
      var front := defs[..n];
      forall j | 0 <= j < n && front[j].parent.Some?
        ensures exists i :: 0 <= i < j && front[i].name == front[j].parent.value
      {
        var i :| 0 <= i < j && defs[i].name == defs[j].parent.value;
        assert front[i].name == front[j].parent.value;
      }
      PlannableIf(front);
      if defs[n].parent.Some? {
        var i :| 0 <= i < n && defs[i].name == defs[n].parent.value;
        assert Names(front)[i] == defs[n].parent.value;
      }
    }
  }

  /** The declared order puts every parent before the tables that inherit from it. */
  lemma ScopeIsPlannable()
    ensures Plannable(BACKFILL_TABLES)
  {
    var d := BACKFILL_TABLES;
    assert d[2].name == "conversations" && d[3].name == "knowledge_bases" && d[4].name == "eval_runs" && d[5].name == "eval_cases";
    PlannableIf(d);
  }

  lemma {:induction false} RootParentsIf(defs: seq<TableDef>)
    requires forall i, j :: 0 <= i < |defs| && 0 <= j < |defs| && defs[j].parent == Some(defs[i].name) ==> defs[i].parent.None?
    ensures RootParents(defs)
  {
    if defs != [] {
      RootParentsIf(defs[..|defs| - 1]);
    }
  }

  /** In the declared scope every table that others inherit from is a root table. */
  lemma ScopeHasRootParents()
    ensures RootParents(BACKFILL_TABLES)
  {
    var d := BACKFILL_TABLES;
    forall i, j | 0 <= i < |d| && 0 <= j < |d| && d[j].parent == Some(d[i].name) ensures d[i].parent.None? {
      ParentsAreRoots(j);
      ChildrenAreNoParents(i);
    }
    RootParentsIf(d);
  }

  const PARENTS := ["conversations", "knowledge_bases", "eval_runs", "eval_cases"]

  lemma ParentsAreRoots(j: nat)
    requires j < |BACKFILL_TABLES| && BACKFILL_TABLES[j].parent.Some?
    ensures BACKFILL_TABLES[j].parent.value in PARENTS
  {
  }

  lemma ChildrenAreNoParents(i: nat)
    requires i < |BACKFILL_TABLES|
    ensures BACKFILL_TABLES[i].name in PARENTS ==> BACKFILL_TABLES[i].parent.None?
  {
  }

  datatype Guard = Passed | Refused(why: string)

  /** `_assert_backfill_reconciled`: every table in scope has a completed ledger row. */
  method AssertBackfillReconciled(ledger: Option<Ledger>, names: seq<TableName>) returns (g: Guard)
    ensures g.Passed? <==>
              ledger.Some? && forall n :: n in names ==> n in ledger.value && ledger.value[n].status == Completed
  {
    if ledger.None? {
      return Refused("the backfill ledger does not exist");
    }
    var missing: seq<TableName> := [];
    var incomplete: seq<TableName> := [];
    for i := 0 to |names|
      invariant missing == [] <==> forall n :: n in names[..i] ==> n in ledger.value
      invariant incomplete == [] <==> forall n :: n in names[..i] && n in ledger.value ==> ledger.value[n].status == Completed
    {
      assert names[..i + 1] == names[..i] + [names[i]];
      if names[i] !in ledger.value {
        missing := missing + [names[i]];
      } else if ledger.value[names[i]].status != Completed {
        incomplete := incomplete + [names[i]];
      }
    }
    assert names[..|names|] == names;
    if missing != [] || incomplete != [] {
      return Refused("the tenant backfill is not reconciled");
    }
    return Passed;
  }

  ghost predicate Owned(t: Table) {
    forall i :: 0 <= i < |t| ==> t[i].tenant.Some?
  }

  lemma {:induction false} OwnedIff(t: Table)
    ensures CountUnowned(t) == 0 <==> Owned(t)
  {
    if t != [] {
      OwnedIff(t[..|t| - 1]);
    }
  }

  /** `_assert_no_unowned_rows` over the tables found to carry a tenant column. */
  method AssertNoUnownedRows(discovered: seq<TableName>, db: Tables) returns (g: Guard)
    ensures g.Passed? <==>
              && (forall n :: n in discovered ==> n in TENANT_SCOPED_TABLES)
              && (forall n :: n in discovered ==> Owned(TableOf(db, n)))
  {
    for i := 0 to |discovered|
      invariant forall n :: n in discovered[..i] ==> n in TENANT_SCOPED_TABLES
    {
      if discovered[i] !in TENANT_SCOPED_TABLES {
        return Refused("a table carries tenant_id but is not declared");
      }
    }
    var unowned: seq<TableName> := [];
    for i := 0 to |discovered|
      invariant unowned == [] <==> forall n :: n in discovered[..i] ==> Owned(TableOf(db, n))
    {
      assert discovered[..i + 1] == discovered[..i] + [discovered[i]];
      OwnedIff(TableOf(db, discovered[i]));
      if CountUnowned(TableOf(db, discovered[i])) > 0 {
        unowned := unowned + [discovered[i]];
      }
    }
    if unowned != [] {
      return Refused("rows without tenant ownership remain");
    }
    return Passed;
  }

  /** Declared tables are either in the backfill scope or were created with an owner. */
  lemma ScopeCovers(name: TableName)
    requires name in TENANT_SCOPED_TABLES
    ensures name in Names(BACKFILL_TABLES) || name in BORN_OWNED
  {
    var names := Names(BACKFILL_TABLES);
    assert names == ["users", "roles", "conversations", "knowledge_bases", "eval_runs", "eval_cases", "messages",
                     "memory_items", "knowledge_documents", "drafts", "ai_query_logs", "eval_results", "retrieval_eval_items"];
  }

  /** The tables outside the scope hold no unowned row. */
  ghost predicate BornOwned(db: Tables) {
    forall n :: n in BORN_OWNED ==> Owned(TableOf(db, n))
  }

  ghost predicate Declared(discovered: seq<TableName>) {
    forall n :: n in discovered ==> n in TENANT_SCOPED_TABLES
  }

  /**
   * A finished backfill makes both guards pass: the ledger is reconciled for every table in
   * scope and no row of any declared table is without an owner, given that the tables
   * outside the scope never held an unowned row and no undeclared table has the column.
   */
  lemma GuardsPassAfterBackfill(db0: Tables, discovered: seq<TableName>)
    requires Database(BACKFILL_TABLES, db0)
    requires BornOwned(db0) && Declared(discovered)
    ensures var ledger, db := FinalLedger(BACKFILL_TABLES, db0), FinalRows(BACKFILL_TABLES, db0);
            && (forall n :: n in Names(BACKFILL_TABLES) ==> n in ledger && ledger[n].status == Completed)
            && (forall n :: n in discovered ==> Owned(TableOf(db, n)))
  {
    var defs := BACKFILL_TABLES;
    ScopeIsPlannable();
    forall n | n in Names(defs) ensures n in FinalLedger(defs, db0) && FinalLedger(defs, db0)[n].status == Completed {
      var i :| 0 <= i < |defs| && Names(defs)[i] == n;
      FinalLedgerOf(defs, db0, i);
    }
    forall n | n in discovered ensures Owned(TableOf(FinalRows(defs, db0), n)) {
      if n in Names(defs) {
        var i :| 0 <= i < |defs| && Names(defs)[i] == n;
        FinalTable(defs, db0, i);
      } else {
        ScopeCovers(n);
        StageOther(defs, db0, |defs|, n);
      }
    }
  }

  /** Wherever a backfill stands, the ledger is reconciled exactly when the last table is complete. */
  lemma ReconciledExactlyWhen(db0: Tables, p: Position)
    requires ValidAt(BACKFILL_TABLES, db0, p)
    ensures var ledger := LedgerAtPos(BACKFILL_TABLES, db0, p);
            (forall n :: n in Names(BACKFILL_TABLES) ==> n in ledger && ledger[n].status == Completed) <==> p.j == |BACKFILL_TABLES|
  {
    var defs := BACKFILL_TABLES;
    var ledger := LedgerAtPos(defs, db0, p);
    if p.j == |defs| {
      forall n | n in Names(defs) ensures n in ledger && ledger[n].status == Completed {
        var i :| 0 <= i < |defs| && Names(defs)[i] == n;
        StateOf(defs, db0, p, i);
      }
    } else {
      StateOf(defs, db0, p, p.j);
      assert Names(defs)[p.j] == defs[p.j].name;
    }
  }

  /**
   * The backfill with the source's batch ceiling, and then the guards. After a finished run
   * both pass; after a stopped or failed one the ledger guard still refuses, unless only
   * the checksums were missing.
   */
  method BackfillThenEnforce(connection: Connection, size: int, stop: StopCheck, discovered: seq<TableName>,
                             ghost db0: Tables, ghost p: Position)
    returns (result: RunResult, reconciled: Guard, owned: Guard, ghost q: Position)
    requires connection.IsAt(BACKFILL_TABLES, db0, p)
    modifies connection
    ensures connection.IsAt(BACKFILL_TABLES, db0, q)
    ensures Ran(BACKFILL_TABLES, db0, p, Request(size, stop), MAX_BATCHES_PER_TABLE, result, q)
    ensures reconciled.Passed? <==> q.j == |BACKFILL_TABLES|
    ensures owned.Passed? <==> Declared(discovered) && forall n :: n in discovered ==> Owned(TableOf(connection.rows, n))
    ensures result.Finished? ==> q == Position(|BACKFILL_TABLES|, 0, false, true) && reconciled.Passed?
    ensures result.Finished? && BornOwned(db0) && Declared(discovered) ==> owned.Passed?
  {
    result, q := connection.RunBackfill(BACKFILL_TABLES, Request(size, stop), MAX_BATCHES_PER_TABLE, db0, p);
    reconciled := AssertBackfillReconciled(Some(connection.ledger), Names(BACKFILL_TABLES));
    ReconciledExactlyWhen(db0, q);
    owned := AssertNoUnownedRows(discovered, connection.rows);
    if BornOwned(db0) && Declared(discovered) {
      GuardsPassAfterBackfill(db0, discovered);
    }
  }
}
