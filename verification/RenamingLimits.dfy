/** Plans for which reindexing does change the schedule: one for each way a dependency goes astray. */
module RenamingLimits {
  import opened Seqs
  import opened Text
  import opened Plan
  import opened Waves
  import opened Depth
  import opened Dependencies
  import opened Renaming
  import opened ParallelExact
  import Normalize

  function Search(id: Id, query: string, deps: seq<Id>): Step {
    Step(id, "", Retrieve, Some(query), None, [], deps, Pending)
  }

  /** The first wave of a plan whose first round holds retrieve steps only. */
  lemma FirstWave(n: Nodes, ready: seq<Id>)
    requires Ready(n, {}) == ready && ready != []
    requires forall id :: id in ready ==> id in n.byId && n.byId[id].kind == Retrieve
    ensures WavesOf(n, true) != [] && WavesOf(n, true)[0] == ready
  {
    RoundsKnown(n, {});
    RoundsUnfold(n, {});
    var rest := Rounds(n, {} + ToSet(ready));
    SplitCons(n, ready, rest);
    SplitAllParallel(n.byId, ready, []);
    assert [] + ready == ready;
  }

  lemma Pair(x: Step, y: Step)
    requires x.id != y.id
    ensures DistinctIds([x, y]) && LastOrder([x, y]) == [x.id, y.id]
    ensures ById([x, y]) == map[x.id := x, y.id := y]
  {
    PairIds(x, y);
    OrderOf([x, y], [x.id, y.id]);
    ByIdLast([x], [], x);
    ByIdLast([x, y], [x], y);
  }

  lemma PairIds(x: Step, y: Step)
    requires x.id != y.id
    ensures DistinctIds([x, y]) && Ids([x, y]) == [x.id, y.id]
  {
  }

  /** Two retrieve steps share the first wave exactly when the second does not wait for the first. */
  lemma PairWave(x: Step, y: Step)
    requires x.id != y.id && x.kind == Retrieve && y.kind == Retrieve
    requires x.dependsOn == [] && (y.dependsOn == [] || y.dependsOn == [x.id])
    ensures var waves := WavesOf(NodesOf([x, y]), true);
            waves != [] && waves[0] == if y.dependsOn == [] then [x.id, y.id] else [x.id]
  {
    var ready := if y.dependsOn == [] then [x.id, y.id] else [x.id];
    PairNodes(x, y, ready);
    FirstWave(NodesOf([x, y]), ready);
  }

  lemma PairNodes(x: Step, y: Step, ready: seq<Id>)
    requires x.id != y.id && x.kind == Retrieve && y.kind == Retrieve
    requires x.dependsOn == [] && (y.dependsOn == [] || y.dependsOn == [x.id])
    requires ready == if y.dependsOn == [] then [x.id, y.id] else [x.id]
    ensures var n := NodesOf([x, y]);
            Ready(n, {}) == ready && forall id :: id in ready ==> id in n.byId && n.byId[id].kind == Retrieve
  {
    Pair(x, y);
    PairReady(x, y, map[x.id := x, y.id := y]);
  }

  lemma PairReady(x: Step, y: Step, byId: map<Id, Step>)
    requires x.id != y.id && x.dependsOn == [] && (y.dependsOn == [] || y.dependsOn == [x.id])
    requires byId == map[x.id := x, y.id := y]
    ensures ReadyIn([x.id, y.id], byId, {}) == if y.dependsOn == [] then [x.id, y.id] else [x.id]
  {
    ReadyLast([x.id], [], x.id, byId, {});
    ReadyLast([x.id, y.id], [x.id], y.id, byId, {});
    assert DepsDone(byId, x.id, {});
    assert DepsDone(byId, y.id, {}) <==> y.dependsOn == [] by {
      assert y.dependsOn != [] ==> x.id in y.dependsOn;
    }
  }

  /** Dependencies of a pair of searches for different things. */
  lemma PairDeps(x: Step, y: Step)
    requires x.id != y.id && x.kind == Retrieve && y.kind == Retrieve && x.dependsOn == []
    requires x.query.Some? && y.query.Some? && Strip(x.query.value) != Strip(y.query.value) && Strip(y.query.value) != ""
    ensures var kept := KeepDeps(y.dependsOn, ById([x, y]), y.id);
            Inferred([x, y], Same) == [x, y.(dependsOn := kept)]
  {
    var plan := [x, y];
    FirstHasNone(plan, Same);
    var kept := KeepDeps(y.dependsOn, ById(plan), y.id);
    assert PriorQueries(plan, Same, 0) == [];
    assert PriorQueries(plan, Same, 1) == [(x.id, Same(Strip(x.query.value)))];
    assert [(x.id, Same(Strip(x.query.value)))][1..] == [];
    assert FirstWith([], QueryKey(y, Same)) == [];
    assert Guess(plan, Same, 1) == [];
    assert DepsFor(plan, Same, 1) == kept;
    var out := Inferred(plan, Same);
    assert out[0] == x && out[1] == y.(dependsOn := kept);
  }

  /** Case folding that leaves everything as it is. */
  function Same(s: string): string {
    s
  }

  /** Two searches for different things of which the second names one dependency. */
  ghost predicate Searches(x: Step, y: Step, d: Id) {
    && x.id != y.id && x.kind == Retrieve && y.kind == Retrieve && x.dependsOn == [] && y.dependsOn == [d]
    && x.query.Some? && y.query.Some? && Strip(x.query.value) != Strip(y.query.value) && Strip(y.query.value) != ""
    && x.status == Pending && y.status == Pending
  }

  /** How many of the two steps start together. */
  lemma StartTogether(x: Step, y: Step)
    requires x.id != y.id && x.kind == Retrieve && y.kind == Retrieve && x.dependsOn == []
    requires x.query.Some? && y.query.Some? && Strip(x.query.value) != Strip(y.query.value) && Strip(y.query.value) != ""
    requires var kept := KeepDeps(y.dependsOn, ById([x, y]), y.id); kept == [] || kept == [x.id]
    ensures var kept := KeepDeps(y.dependsOn, ById([x, y]), y.id);
            var waves := WavesOf(NodesOf(Inferred([x, y], Same)), true);
            waves != [] && |waves[0]| == if kept == [] then 2 else 1
  {
    PairDeps(x, y);
    PairWave(x, y.(dependsOn := KeepDeps(y.dependsOn, ById([x, y]), y.id)));
  }

  lemma ReindexedPair(x: Step, y: Step, d: Id, option: string)
    requires Searches(x, y, d)
    ensures var names := Names([x, y], option);
            && x.id in names && y.id in names
            && NewId(option, 0) != NewId(option, 1)
            && Reindexed([x, y], option)
               == [x.(id := NewId(option, 0)), y.(id := NewId(option, 1), dependsOn := RenAll(names, NonEmpty([d])))]
  {
    if NewId(option, 0) == NewId(option, 1) {
      NewIdInjective(option, 0, 1);
    }
    var names, r := Names([x, y], option), Reindexed([x, y], option);
    assert NonEmpty([]) == [] && RenAll(names, []) == [];
    assert r[0] == x.(id := NewId(option, 0)) && [x, y][1] == y;
  }

  lemma WavesDiffer(names: map<Id, Id>, a: seq<seq<Id>>, b: seq<seq<Id>>)
    requires a != [] && b != [] && |a[0]| != |b[0]|
    ensures b != RenWaves(names, a)
  {
    assert |RenWaves(names, a)[0]| == |a[0]|;
  }

  /** The schedule of the reindexed plan against the renamed schedule of the plan. */
  ghost predicate Commutes(steps: seq<Step>, option: string) {
    WavesOf(NodesOf(Inferred(Reindexed(steps, option), Same)), true)
    == RenWaves(Names(steps, option), WavesOf(NodesOf(Inferred(steps, Same)), true))
  }

  /** A dependency on a step with an empty id is dropped, and the two steps start together. */
  lemma EmptyNameIsLost(x: Step, y: Step, option: string)
    requires Searches(x, y, "") && x.id == ""
    ensures !Commutes([x, y], option)
  {
    Pair(x, y);
    KeepSingle("", ById([x, y]), y.id);
    StartTogether(x, y);
    ReindexedPair(x, y, "", option);
    var names := Names([x, y], option);
    assert NonEmpty([""]) == [] by { assert [""][..0] == []; }
    StartTogether(x.(id := NewId(option, 0)), y.(id := NewId(option, 1), dependsOn := []));
    WavesDiffer(names, WavesOf(NodesOf(Inferred([x, y], Same)), true),
                WavesOf(NodesOf(Inferred(Reindexed([x, y], option), Same)), true));
  }

  /** An unknown name that is the first step's new id becomes a dependency, and the second step waits. */
  lemma UnknownNameIsCaptured(x: Step, y: Step, option: string)
    requires Searches(x, y, NewId(option, 0)) && x.id != NewId(option, 0) && y.id != NewId(option, 0)
    ensures !Commutes([x, y], option)
  {
    var d, u, v := NewId(option, 0), x.(id := NewId(option, 0)), y.(id := NewId(option, 1));
    Pair(x, y);
    KeepSingle(d, ById([x, y]), y.id);
    StartTogether(x, y);
    ReindexedPair(x, y, d, option);
    var names := Names([x, y], option);
    Unrenamed(x, y, option, d);
    Pair(u, v);
    KeepSingle(d, ById([u, v]), v.id);
    StartTogether(u, v);
    WavesDiffer(names, WavesOf(NodesOf(Inferred([x, y], Same)), true),
                WavesOf(NodesOf(Inferred(Reindexed([x, y], option), Same)), true));
  }

  lemma Unrenamed(x: Step, y: Step, option: string, d: Id)
    requires x.id != d && y.id != d && d != ""
    ensures RenAll(Names([x, y], option), NonEmpty([d])) == [d]
  {
    assert [x, y][..1] == [x] && [x][..0] == [] && [d][..0] == [];
    assert d !in Names([x], option) && d !in Names([x, y], option);
    assert NonEmpty([d]) == [d];
  }

  /** Both happen: the hypotheses above can be met. */
  lemma BothHappen() returns (lost: seq<Step>, captured: seq<Step>)
    ensures DistinctIds(lost) && !Commutes(lost, "o")
    ensures DistinctIds(captured) && !Commutes(captured, "o")
  {
    assert Strip("1") == "1" && Strip("2") == "2";
    var x, y := Search("", "1", []), Search("b", "2", [""]);
    Pair(x, y);
    EmptyNameIsLost(x, y, "o");
    lost := [x, y];
    var u, v := Search("a", "1", []), Search("b", "2", [NewId("o", 0)]);
    assert |NewId("o", 0)| > 1;
    Pair(u, v);
    UnknownNameIsCaptured(u, v, "o");
    captured := [u, v];
  }

  /**
   * Plans that went through coercion, as all plan options do, have no empty names: only an
   * unknown name that is another step's new id can go astray.
   */
  lemma CoercedPlansLoseNoName(steps: seq<Step>, option: string, i: nat, d: Id)
    requires Normalize.AllNeat(steps) && i < |steps| && d in steps[i].dependsOn
    ensures d != "" && (Stray(steps, option, i, d) <==>
                        d !in ById(steps) && d in ById(Reindexed(steps, option)) && d != NewId(option, i))
  {
    assert Normalize.Neat(steps[i]) && Normalize.Stripped(steps[i].dependsOn);
    var k :| 0 <= k < |steps[i].dependsOn| && steps[i].dependsOn[k] == d;
  }
}
