/**
 * Exactly when the parallel run equals the serial one whatever the services do: a plan that
 * is not quiet has services for which a skill step fails in one mode and succeeds in the other.
 */
module ParallelExact {
  import opened Seqs
  import opened Text
  import opened Plan
  import opened Waves
  import opened Dependencies
  import opened EvidenceBag
  import opened Ledger
  import opened Executor
  import opened PlanRunner
  import opened StepLifecycle
  import opened ParallelRefinement

  // ---- When the bag is still empty ----

  function Brings(c: Context, s: Step): seq<Evidence> {
    RunOne(c, [], s).side.evidence
  }

  lemma BringsWhatever(c: Context, bag: seq<Evidence>, s: Step)
    ensures RunOne(c, bag, s).side.evidence == Brings(c, s)
  {
  }

  lemma EmptyMerge(bag: seq<Evidence>, more: seq<Evidence>)
    ensures Merge(bag, more) == [] <==> bag == [] && more == []
  {
    MergeIsNormal(bag, more);
    if bag != [] {
      assert KeyOf(bag[0]) in Keys(Merge(bag, more));
    }
    if more != [] {
      assert KeyOf(more[0]) in Keys(Merge(bag, more));
    }
    if Merge(bag, more) != [] {
      assert KeyOf(Merge(bag, more)[0]) in Keys(bag) + Keys(more);
    }
  }

  ghost predicate BringNothing(c: Context, ws: seq<Step>) {
    forall s :: s in ws ==> Brings(c, s) == []
  }

  lemma {:induction false} FinishAllEmpty(c: Context, plan: map<Id, Step>, r: Run, ws: seq<Step>, wave: map<Id, Step>, bag: seq<Evidence>)
    requires forall s :: s in ws ==> s.id in wave && s.id in plan && wave[s.id] == s
    ensures FinishAll(c, plan, r, ws, wave, bag).bag == [] <==> r.bag == [] && BringNothing(c, ws)
    decreases |ws|
  {
    if ws != [] {
      var x := ws[0];
      assert x in ws;
      var o := RunOne(c, bag, x);
      BringsWhatever(c, bag, x);
      EmptyMerge(r.bag, o.side.evidence);
      FinishAllEmpty(c, plan, Finish(r, x.id, plan[x.id].kind, o), ws[1..], wave, bag);
      assert ws == [x] + ws[1..];
    }
  }

  lemma WaveLookup(plan: seq<Step>, wave: seq<Id>, s: Step)
    requires DistinctIds(plan) && s in WaveSteps(plan, wave)
    ensures s.id in ById(WaveSteps(plan, wave)) && ById(WaveSteps(plan, wave))[s.id] == s
    ensures s.id in ById(plan) && ById(plan)[s.id] == s
  {
    var ws := WaveSteps(plan, wave);
    WaveStepsDistinct(plan, wave);
    var k :| 0 <= k < |ws| && ws[k] == s;
    DistinctLookup(ws, k);
    InPlan(plan, s);
  }

  lemma WaveEmpty(c: Context, plan: seq<Step>, r: Run, wave: seq<Id>)
    requires DistinctIds(plan)
    ensures RunWave(c, plan, r, wave).bag == [] <==> r.bag == [] && BringNothing(c, WaveSteps(plan, wave))
  {
    var ws := WaveSteps(plan, wave);
    InDictionary(plan, ws);
    forall s | s in ws ensures ById(ws)[s.id] == s {
      WaveLookup(plan, wave, s);
    }
    MarkAllKeeps(r, ws);
    FinishAllEmpty(c, ById(plan), MarkAll(r, ws), ws, ById(ws), r.bag);
  }

  ghost predicate WavesBringNothing(c: Context, plan: seq<Step>, waves: seq<seq<Id>>) {
    forall k :: 0 <= k < |waves| ==> BringNothing(c, WaveSteps(plan, waves[k]))
  }

  lemma {:induction false} WavesEmpty(c: Context, plan: seq<Step>, r: Run, waves: seq<seq<Id>>)
    requires DistinctIds(plan)
    ensures RunWaves(c, plan, r, waves).bag == [] <==> r.bag == [] && WavesBringNothing(c, plan, waves)
    decreases |waves|
  {
    if waves != [] {
      WaveEmpty(c, plan, r, waves[0]);
      WavesEmpty(c, plan, RunWave(c, plan, r, waves[0]), waves[1..]);
      HeadAndTail(c, plan, waves);
    }
  }

  lemma HeadAndTail(c: Context, plan: seq<Step>, waves: seq<seq<Id>>)
    requires waves != []
    ensures WavesBringNothing(c, plan, waves) <==>
            BringNothing(c, WaveSteps(plan, waves[0])) && WavesBringNothing(c, plan, waves[1..])
  {
    forall k | 0 < k < |waves| ensures waves[k] == waves[1..][k - 1] {
    }
  }

  // ---- The final status of a step ----

  /** A step's final status is its outcome on the bag its wave began with. */
  lemma {:induction false} FinalStatus(c: Context, plan: seq<Step>, r: Run, waves: seq<seq<Id>>, k: nat, s: Step)
    requires DistinctIds(plan) && NoDup(Flatten(waves)) && k < |waves|
    requires s in plan && s.id in waves[k]
    ensures s.id in RunWaves(c, plan, r, waves).status
    ensures RunWaves(c, plan, r, waves).status[s.id] == RunOne(c, RunWaves(c, plan, r, waves[..k]).bag, s).status
    decreases |waves|
  {
    var r', ws := RunWave(c, plan, r, waves[0]), WaveSteps(plan, waves[0]);
    if k == 0 {
      Selected(plan, waves[0], s);
      WaveLookup(plan, waves[0], s);
      WaveStatus(c, plan, r, waves[0], s.id);
      NeverAgain(plan, waves, s.id);
      UntouchedEvents(c, plan, r', waves[1..], s.id);
      assert waves[..0] == [];
    } else {
      NoDupTail(waves);
      TailWaves(waves, k);
      FinalStatus(c, plan, r', waves[1..], k - 1, s);
    }
  }

  lemma TailWaves(waves: seq<seq<Id>>, k: nat)
    requires 0 < k < |waves|
    ensures waves[1..][k - 1] == waves[k] && waves[..k][0] == waves[0] && waves[..k][1..] == waves[1..][..k - 1]
  {
  }

  // ---- The telling services ----

  function Longest(plan: seq<Step>): (n: nat)
    ensures forall s :: s in plan ==> |Asked(s)| <= n
  {
    if plan == [] then 0
    else
      var front, last := Longest(plan[..|plan| - 1]), |Asked(plan[|plan| - 1])|;
      assert plan == plan[..|plan| - 1] + [plan[|plan| - 1]];
      if front < last then last else front
  }

  function Xs(n: nat): (s: string)
    ensures |s| == n
  {
    seq(n, i => 'x')
  }

  const ITEM := Evidence("", None, None, Some("c"), "", "", 1)

  /** Services for which only one query brings anything and a skill succeeds exactly on some evidence. */
  function Telling(plan: seq<Step>, q: string, lower: Fold): Context {
    var own := Xs(Longest(plan) + 1);
    var target := if q != "" then q else own;
    Context(
      own + "x", None, own, true, true, true,
      Services(
        lower,
        (query: string) => Retrieval([ITEM], [], 0, false),
        (question: string, evidence: seq<Evidence>, asked: Option<string>, attempt: nat) => Quality(false, asked != Some(target)),
        (hint: Option<string>) => Some("skill"),
        (query: string) => [],
        (name: string, query: string, bag: seq<Evidence>, id: Id) => ("success", "")))
  }

  lemma OwnQuery(plan: seq<Step>, q: string, lower: Fold, s: Step)
    requires s in plan && |q| <= Longest(plan)
    ensures var c := Telling(plan, q, lower);
            && RetrieveQuery(c, s) != c.question
            && (Asked(s) == q <==> RetrieveQuery(c, s) == if q != "" then q else c.fallback)
  {
    var c := Telling(plan, q, lower);
    assert Strip("") == "";
    assert RetrieveQuery(c, s) == if Asked(s) != "" then Asked(s) else c.fallback;
    assert |c.fallback| == Longest(plan) + 1 && |c.question| == Longest(plan) + 2;
  }

  lemma TellingBrings(plan: seq<Step>, q: string, lower: Fold, s: Step)
    requires s in plan && |q| <= Longest(plan)
    ensures Brings(Telling(plan, q, lower), s) == if s.kind == Retrieve && Asked(s) == q then [ITEM] else []
  {
    OwnQuery(plan, q, lower, s);
  }

  lemma TellingSkill(plan: seq<Step>, q: string, lower: Fold, s: Step, bag: seq<Evidence>)
    requires s.kind == Skill
    ensures RunOne(Telling(plan, q, lower), bag, s).status == if bag == [] then Error else Success
  {
  }

  // ---- A plan that is not quiet ----

  lemma {:induction false} AskedMember(ws: seq<Step>, s: Step)
    requires s in ws && s.kind == Retrieve
    ensures Asked(s) in AskedIn(ws)
    decreases |ws|
  {
    if s != ws[0] {
      AskedMember(ws[1..], s);
    }
  }

  /** The first new question asked in front of a skill step. */
  lemma {:induction false} LoudSpot(plan: seq<Step>, waves: seq<seq<Id>>, seen: set<string>) returns (k: nat, i: nat, j: nat)
    requires !QuietWaves(plan, waves, seen)
    ensures k < |waves| && i < j < |WaveSteps(plan, waves[k])|
    ensures var ws := WaveSteps(plan, waves[k]);
            ws[i].kind == Retrieve && ws[j].kind == Skill && Asked(ws[i]) !in seen
            && forall e :: 0 <= e < k ==> Asked(ws[i]) !in AskedIn(WaveSteps(plan, waves[e]))
    decreases |waves|
  {
    var ws := WaveSteps(plan, waves[0]);
    if !Quiet(ws, seen) {
      i, j :| 0 <= i < j < |ws| && ws[i].kind == Retrieve && ws[j].kind == Skill && Asked(ws[i]) !in seen;
      k := 0;
    } else {
      var m;
      m, i, j := LoudSpot(plan, waves[1..], seen + AskedIn(ws));
      k := m + 1;
      assert waves[1..][m] == waves[k];
      forall e | 0 <= e < k ensures Asked(WaveSteps(plan, waves[k])[i]) !in AskedIn(WaveSteps(plan, waves[e])) {
        assert e > 0 ==> waves[1..][e - 1] == waves[e];
      }
    }
  }

  lemma QuestionsBefore(plan: seq<Step>, q: string, lower: Fold, waves: seq<seq<Id>>)
    requires |q| <= Longest(plan)
    requires forall e :: 0 <= e < |waves| ==> q !in AskedIn(WaveSteps(plan, waves[e]))
    ensures WavesBringNothing(Telling(plan, q, lower), plan, waves)
  {
    forall e, s | 0 <= e < |waves| && s in WaveSteps(plan, waves[e]) ensures Brings(Telling(plan, q, lower), s) == [] {
      TellingBrings(plan, q, lower, s);
      if s.kind == Retrieve {
        AskedMember(WaveSteps(plan, waves[e]), s);
      }
    }
  }

  /** In parallel the skill step finds the bag empty. */
  lemma FailsInParallel(plan: seq<Step>, q: string, lower: Fold, r: Run, waves: seq<seq<Id>>, k: nat, s: Step)
    requires DistinctIds(plan) && NoDup(Flatten(waves)) && k < |waves| && r.bag == []
    requires s in plan && s.id in waves[k] && s.kind == Skill && |q| <= Longest(plan)
    requires forall e :: 0 <= e < k ==> q !in AskedIn(WaveSteps(plan, waves[e]))
    ensures var run := RunWaves(Telling(plan, q, lower), plan, r, waves); s.id in run.status && run.status[s.id] == Error
  {
    var c := Telling(plan, q, lower);
    QuestionsBefore(plan, q, lower, waves[..k]);
    WavesEmpty(c, plan, r, waves[..k]);
    FinalStatus(c, plan, r, waves, k, s);
    TellingSkill(plan, q, lower, s, RunWaves(c, plan, r, waves[..k]).bag);
  }

  /** One by one it finds what the retrieve step before it brought. */
  lemma SucceedsInTurn(plan: seq<Step>, q: string, lower: Fold, r: Run, order: seq<Id>, p: nat, m: nat, x: Step, s: Step)
    requires DistinctIds(plan) && NoDup(order) && p < m < |order| && |q| <= Longest(plan)
    requires x in plan && x.id == order[p] && x.kind == Retrieve && Asked(x) == q
    requires s in plan && s.id == order[m] && s.kind == Skill
    ensures var run := RunWaves(Telling(plan, q, lower), plan, r, Singletons(order));
            s.id in run.status && run.status[s.id] == Success
  {
    var c, waves := Telling(plan, q, lower), Singletons(order);
    FlattenSingletons(order);
    FinalStatus(c, plan, r, waves, m, s);
    TellingBrings(plan, q, lower, x);
    Selected(plan, waves[p], x);
    assert waves[..m][p] == waves[p];
    assert !WavesBringNothing(c, plan, waves[..m]);
    WavesEmpty(c, plan, r, waves[..m]);
    TellingSkill(plan, q, lower, s, RunWaves(c, plan, r, waves[..m]).bag);
  }

  lemma {:induction false} FlattenAt(waves: seq<seq<Id>>, k: nat, i: nat) returns (p: nat)
    requires k < |waves| && i < |waves[k]|
    ensures p == |Flatten(waves[..k])| + i && p < |Flatten(waves)| && Flatten(waves)[p] == waves[k][i]
  {
    assert waves == waves[..k] + ([waves[k]] + waves[k + 1..]);
    FlattenAppend(waves[..k], [waves[k]] + waves[k + 1..]);
    assert ([waves[k]] + waves[k + 1..])[1..] == waves[k + 1..];
    p := |Flatten(waves[..k])| + i;
  }

  lemma LoudPlansDiffer(steps: seq<Step>, lower: Fold, turn: Option<Book>) returns (c: Context)
    requires DistinctIds(steps) && !QuietPlan(Inferred(steps, lower))
    ensures c.use.lower == lower && Execute(c, steps, true, turn) != Execute(c, steps, false, turn)
  {
    var plan := Inferred(steps, lower);
    var n := NodesOf(plan);
    var waves := WavesOf(n, true);
    var k, i, j := LoudSpot(plan, waves, {});
    var ws := WaveSteps(plan, waves[k]);
    WavesAreSafe(plan, false);
    assert waves[k] in waves;
    WaveStepsAre(plan, waves[k]);
    var x, s := ws[i], ws[j];
    assert x in ws && s in ws;
    WaveLookup(plan, waves[k], x);
    WaveLookup(plan, waves[k], s);
    var q := Asked(x);
    c := Telling(plan, q, lower);
    WavesCoverOnce(n, true);
    FailsInParallel(plan, q, lower, Initial(plan, turn), waves, k, s);
    var p := FlattenAt(waves, k, i);
    var m := FlattenAt(waves, k, j);
    OrderIndependentOfMode(n);
    SerialWaves(n);
    IdsMatch(plan, waves[k], ws, i);
    IdsMatch(plan, waves[k], ws, j);
    SucceedsInTurn(plan, q, lower, Initial(plan, turn), Flatten(waves), p, m, x, s);
  }

  lemma IdsMatch(plan: seq<Step>, wave: seq<Id>, ws: seq<Step>, i: nat)
    requires Selects(plan, wave, ws) && i < |ws|
    ensures ws[i].id == wave[i]
  {
    assert ws[i] == plan[LastIndex(plan, wave[i])];
  }

  /**
   * For every plan with distinct ids: the two modes agree for all services, questions and
   * ledgers if and only if the plan is quiet.
   */
  lemma AgreeExactlyWhenQuiet(steps: seq<Step>, lower: Fold)
    requires DistinctIds(steps)
    ensures (forall c: Context, turn: Option<Book> :: c.use.lower == lower ==>
               Execute(c, steps, true, turn) == Execute(c, steps, false, turn))
            <==> QuietPlan(Inferred(steps, lower))
  {
    if QuietPlan(Inferred(steps, lower)) {
      forall c: Context, turn: Option<Book> | c.use.lower == lower
        ensures Execute(c, steps, true, turn) == Execute(c, steps, false, turn)
      {
        QuietPlansRunAlike(c, steps, turn);
      }
    } else {
      var c := LoudPlansDiffer(steps, lower, None);
    }
  }

  // ---- A plan with explicit dependencies that is not quiet ----

  /** Two retrieve steps in a row and a skill step that waits only for the first. */
  ghost predicate Impatient(x: Step, y: Step, z: Step) {
    && x.id != y.id && x.id != z.id && y.id != z.id
    && x.kind == Retrieve && y.kind == Retrieve && z.kind == Skill
    && x.dependsOn == [] && y.dependsOn == [x.id] && z.dependsOn == [x.id]
    && Asked(x) != Asked(y)
  }

  lemma Table(x: Step, y: Step, z: Step)
    requires Impatient(x, y, z)
    ensures DistinctIds([x, y, z])
    ensures ById([x, y, z]) == map[x.id := x, y.id := y, z.id := z]
    ensures LastOrder([x, y, z]) == [x.id, y.id, z.id]
  {
    TableOrder(x, y, z);
    TableEntries(x, y, z);
  }

  lemma TableOrder(x: Step, y: Step, z: Step)
    requires Impatient(x, y, z)
    ensures DistinctIds([x, y, z]) && LastOrder([x, y, z]) == [x.id, y.id, z.id]
  {
    ThreeIds(x, y, z);
    OrderOf([x, y, z], [x.id, y.id, z.id]);
  }

  lemma ThreeIds(x: Step, y: Step, z: Step)
    requires Impatient(x, y, z)
    ensures DistinctIds([x, y, z]) && Ids([x, y, z]) == [x.id, y.id, z.id]
  {
  }

  lemma OrderOf(plan: seq<Step>, ids: seq<Id>)
    requires DistinctIds(plan) && ids == Ids(plan)
    ensures LastOrder(plan) == ids
  {
    DistinctOrders(plan);
  }

  lemma ByIdLast(plan: seq<Step>, front: seq<Step>, s: Step)
    requires plan != [] && front == plan[..|plan| - 1] && s == plan[|plan| - 1]
    ensures ById(plan) == ById(front)[s.id := s]
  {
  }

  lemma TableEntries(x: Step, y: Step, z: Step)
    ensures ById([x, y, z]) == map[x.id := x][y.id := y][z.id := z]
  {
    ByIdLast([x], [], x);
    ByIdLast([x, y], [x], y);
    ByIdLast([x, y, z], [x, y], z);
  }

  lemma Explicitly(x: Step, y: Step, z: Step, lower: Fold)
    requires Impatient(x, y, z)
    ensures Inferred([x, y, z], lower) == [x, y, z]
  {
    var plan := [x, y, z];
    Table(x, y, z);
    FirstHasNone(plan, lower);
    WaitsForOne(plan, lower, 1, x.id);
    WaitsForOne(plan, lower, 2, x.id);
    SameAt(plan, lower, 0);
    SameAt(plan, lower, 1);
    SameAt(plan, lower, 2);
    SameThree(Inferred(plan, lower), plan);
  }

  lemma WaitsForOne(plan: seq<Step>, lower: Fold, i: nat, d: Id)
    requires i < |plan| && plan[i].dependsOn == [d] && d in ById(plan) && d != plan[i].id
    ensures DepsFor(plan, lower, i) == [d]
  {
    KeepSingle(d, ById(plan), plan[i].id);
  }

  lemma FirstHasNone(plan: seq<Step>, lower: Fold)
    requires plan != [] && plan[0].kind == Retrieve && plan[0].dependsOn == []
    ensures DepsFor(plan, lower, 0) == []
  {
  }

  lemma SameThree(a: seq<Step>, b: seq<Step>)
    requires |a| == |b| == 3 && a[0] == b[0] && a[1] == b[1] && a[2] == b[2]
    ensures a == b
  {
  }

  lemma SameAt(plan: seq<Step>, lower: Fold, i: nat)
    requires i < |plan| && DepsFor(plan, lower, i) == plan[i].dependsOn
    ensures Inferred(plan, lower)[i] == plan[i]
  {
  }

  lemma ReadyLast(order: seq<Id>, front: seq<Id>, id: Id, byId: map<Id, Step>, done: set<Id>)
    requires order != [] && front == order[..|order| - 1] && id == order[|order| - 1]
    requires forall k :: k in order ==> k in byId
    ensures ReadyIn(order, byId, done)
            == ReadyIn(front, byId, done) + (if id !in done && DepsDone(byId, id, done) then [id] else [])
  {
  }

  lemma ReadyThree(a: Id, b: Id, c: Id, byId: map<Id, Step>, done: set<Id>)
    requires a in byId && b in byId && c in byId
    ensures ReadyIn([a, b, c], byId, done)
            == (if a !in done && DepsDone(byId, a, done) then [a] else [])
               + (if b !in done && DepsDone(byId, b, done) then [b] else [])
               + (if c !in done && DepsDone(byId, c, done) then [c] else [])
  {
    ReadyLast([a], [], a, byId, done);
    ReadyLast([a, b], [a], b, byId, done);
    ReadyLast([a, b, c], [a, b], c, byId, done);
  }

  lemma DepsOf(x: Step, y: Step, z: Step, done: set<Id>)
    requires Impatient(x, y, z)
    ensures var byId := map[x.id := x, y.id := y, z.id := z];
            && DepsDone(byId, x.id, done)
            && (DepsDone(byId, y.id, done) <==> x.id in done)
            && (DepsDone(byId, z.id, done) <==> x.id in done)
  {
    assert x.id in y.dependsOn && x.id in z.dependsOn;
  }

  function NextOf(a: Id, b: Id, c: Id, done: set<Id>): seq<Id> {
    (if a !in done then [a] else []) + (if b !in done && a in done then [b] else [])
    + (if c !in done && a in done then [c] else [])
  }

  lemma ReadyFrom(x: Step, y: Step, z: Step, done: set<Id>)
    requires Impatient(x, y, z)
    ensures Ready(NodesOf([x, y, z]), done) == NextOf(x.id, y.id, z.id, done)
  {
    Table(x, y, z);
    DepsOf(x, y, z, done);
    ReadyThree(x.id, y.id, z.id, map[x.id := x, y.id := y, z.id := z], done);
  }

  lemma ReadyFirst(x: Step, y: Step, z: Step)
    requires Impatient(x, y, z)
    ensures Ready(NodesOf([x, y, z]), {}) == [x.id] && {} + ToSet([x.id]) == {x.id}
  {
    ReadyFrom(x, y, z, {});
  }

  lemma ReadyNext(x: Step, y: Step, z: Step)
    requires Impatient(x, y, z)
    ensures Ready(NodesOf([x, y, z]), {x.id}) == [y.id, z.id]
  {
    var n, done := NodesOf([x, y, z]), {x.id};
    ReadyFrom(x, y, z, done);
    assert Ready(n, done) == NextOf(x.id, y.id, z.id, done) == [y.id, z.id] by {
      OthersReady(x.id, y.id, z.id, done);
    }
  }

  lemma OthersReady(a: Id, b: Id, c: Id, done: set<Id>)
    requires a in done && b !in done && c !in done
    ensures NextOf(a, b, c, done) == [b, c]
  {
  }

  lemma FirstRounds(x: Step, y: Step, z: Step) returns (rest: seq<seq<Id>>)
    requires Impatient(x, y, z)
    ensures Rounds(NodesOf([x, y, z]), {}) == [[x.id]] + ([[y.id, z.id]] + rest)
  {
    var n := NodesOf([x, y, z]);
    ReadyFirst(x, y, z);
    RoundsUnfold(n, {});
    ReadyNext(x, y, z);
    RoundsUnfold(n, {x.id});
    rest := Rounds(n, {x.id} + ToSet([y.id, z.id]));
  }

  lemma SplitOne(byId: map<Id, Step>, a: Id, batch: seq<Id>)
    requires a in byId && Parallelizable(byId[a].kind)
    ensures Split(byId, [a], batch) == [batch + [a]]
  {
    assert [a][1..] == [];
    assert Split(byId, [], batch + [a]) == [batch + [a]];
  }

  lemma SplitTwo(byId: map<Id, Step>, a: Id, b: Id)
    requires a in byId && Parallelizable(byId[a].kind) && b in byId && Parallelizable(byId[b].kind)
    ensures Split(byId, [a, b], []) == [[a, b]]
  {
    assert [a, b][1..] == [b];
    SplitOne(byId, b, [] + [a]);
    assert [] + [a] + [b] == [a, b];
  }

  lemma SplitCons(n: Nodes, head: seq<Id>, tail: seq<seq<Id>>)
    requires forall r, id :: r in [head] + tail && id in r ==> id in n.byId
    ensures (forall id :: id in head ==> id in n.byId) && (forall r, id :: r in tail && id in r ==> id in n.byId)
    ensures SplitRounds(n, [head] + tail, true) == Split(n.byId, head, []) + SplitRounds(n, tail, true)
  {
    assert head in [head] + tail && forall r :: r in tail ==> r in [head] + tail;
    assert ([head] + tail)[1..] == tail;
  }

  /** The first two waves of a schedule whose first two rounds are one wave each. */
  lemma WavesStart(n: Nodes, a: seq<Id>, b: seq<Id>, rest: seq<seq<Id>>)
    requires Rounds(n, {}) == [a] + ([b] + rest)
    requires forall id :: id in a || id in b ==> id in n.byId
    requires Split(n.byId, a, []) == [a] && Split(n.byId, b, []) == [b]
    ensures var waves := WavesOf(n, true); |waves| >= 2 && waves[0] == a && waves[1] == b
  {
    RoundsKnown(n, {});
    SplitCons(n, a, [b] + rest);
    SplitCons(n, b, rest);
  }

  lemma FirstWaves(x: Step, y: Step, z: Step)
    requires Impatient(x, y, z)
    ensures var waves := WavesOf(NodesOf([x, y, z]), true); |waves| >= 2 && waves[0] == [x.id] && waves[1] == [y.id, z.id]
  {
    var rest := FirstRounds(x, y, z);
    FirstSplits(x, y, z);
    WavesStart(NodesOf([x, y, z]), [x.id], [y.id, z.id], rest);
  }

  lemma FirstSplits(x: Step, y: Step, z: Step)
    requires Impatient(x, y, z)
    ensures x.id in ById([x, y, z]) && y.id in ById([x, y, z]) && z.id in ById([x, y, z])
    ensures Split(ById([x, y, z]), [x.id], []) == [[x.id]]
    ensures Split(ById([x, y, z]), [y.id, z.id], []) == [[y.id, z.id]]
  {
    Table(x, y, z);
    SplitOne(ById([x, y, z]), x.id, []);
    SplitTwo(ById([x, y, z]), y.id, z.id);
    assert [] + [x.id] == [x.id];
  }

  lemma TakeSnoc(plan: seq<Step>, s: Step, wave: seq<Id>)
    ensures WaveSteps(plan + [s], wave) == WaveSteps(plan, wave) + (if s.id in wave then [s] else [])
  {
    assert (plan + [s])[..|plan|] == plan;
  }

  lemma TakeThree(x: Step, y: Step, z: Step, wave: seq<Id>)
    ensures WaveSteps([x, y, z], wave)
            == (if x.id in wave then [x] else []) + (if y.id in wave then [y] else []) + (if z.id in wave then [z] else [])
  {
    assert [x, y, z] == [] + [x] + [y] + [z];
    TakeSnoc([], x, wave);
    TakeSnoc([] + [x], y, wave);
    TakeSnoc([] + [x] + [y], z, wave);
  }

  lemma TakeEach(x: Step, y: Step, z: Step)
    requires Impatient(x, y, z)
    ensures WaveSteps([x, y, z], [x.id]) == [x] && WaveSteps([x, y, z], [y.id, z.id]) == [y, z]
  {
    TakeThree(x, y, z, [x.id]);
    TakeThree(x, y, z, [y.id, z.id]);
  }

  lemma SecondWaveIsLoud(x: Step, y: Step, z: Step, waves: seq<seq<Id>>)
    requires Impatient(x, y, z) && |waves| >= 2
    requires WaveSteps([x, y, z], waves[0]) == [x] && WaveSteps([x, y, z], waves[1]) == [y, z]
    ensures !QuietWaves([x, y, z], waves, {})
  {
    assert [x][1..] == [] && AskedIn([x]) == {Asked(x)};
    var ws := [y, z];
    assert ws[0].kind == Retrieve && ws[1].kind == Skill && Asked(ws[0]) !in {} + AskedIn([x]);
    assert waves[1..][0] == waves[1];
  }

  /** Every such plan is loud, so for some services its parallel and serial runs differ. */
  lemma ImpatientPlansAreLoud(x: Step, y: Step, z: Step, lower: Fold)
    requires Impatient(x, y, z)
    ensures DistinctIds([x, y, z]) && !QuietPlan(Inferred([x, y, z], lower))
  {
    Table(x, y, z);
    Explicitly(x, y, z, lower);
    FirstWaves(x, y, z);
    TakeEach(x, y, z);
    SecondWaveIsLoud(x, y, z, WavesOf(NodesOf([x, y, z]), true));
  }

  lemma SomePlanDiffers(lower: Fold) returns (steps: seq<Step>, c: Context)
    ensures DistinctIds(steps) && c.use.lower == lower
    ensures Execute(c, steps, true, None) != Execute(c, steps, false, None)
  {
    var x := Step("s1", "", Retrieve, Some("1"), None, [], [], Pending);
    var y := Step("s2", "", Retrieve, Some("2"), None, [], ["s1"], Pending);
    var z := Step("s3", "", Skill, None, None, [], ["s1"], Pending);
    assert x.id[1] != y.id[1] && x.id[1] != z.id[1] && y.id[1] != z.id[1];
    assert Strip("1") == "1" && Strip("2") == "2";
    steps := [x, y, z];
    ImpatientPlansAreLoud(x, y, z, lower);
    c := LoudPlansDiffer(steps, lower, None);
  }
}
