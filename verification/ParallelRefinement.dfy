/**
 * The parallel run refines the serial one: grouping steps into waves changes no observable
 * result as long as no skill step shares a wave with an earlier retrieve step that asks
 * something new. Plans whose skill steps depend on the retrieve steps before them qualify.
 */
module ParallelRefinement {
  import opened Seqs
  import opened Text
  import opened Plan
  import opened Waves
  import opened Dependencies
  import opened EvidenceBag
  import opened Ledger
  import opened Executor

  /** Every skill step depends on each retrieve step that precedes it in the plan. */
  ghost predicate SkillsAwaitRetrieves(plan: seq<Step>) {
    forall i, j :: 0 <= i < j < |plan| && plan[i].kind == Retrieve && plan[j].kind == Skill ==>
      plan[i].id in plan[j].dependsOn
  }

  // ---- What has been asked ----

  /** The query a retrieve step carries itself; blank ones all ask the turn's own query. */
  function Asked(s: Step): string {
    Strip(TextOf(s.query))
  }

  function AskedIn(ws: seq<Step>): set<string>
    decreases |ws|
  {
    if ws == [] then {}
    else AskedIn(ws[1..]) + (if ws[0].kind == Retrieve then {Asked(ws[0])} else {})
  }

  function Probe(q: string): Step {
    Step("", "", Retrieve, Some(q), None, [], [], Pending)
  }

  /** The evidence a query brings. */
  function Found(c: Context, q: string): seq<Evidence> {
    RunRetrieve(c, Probe(q)).side.evidence
  }

  lemma FoundByAsking(c: Context, s: Step)
    ensures RunRetrieve(c, s).side.evidence == Found(c, Asked(s))
  {
    StripTwice(TextOf(s.query));
    assert RetrieveQuery(c, s) == RetrieveQuery(c, Probe(Asked(s)));
  }

  /** The bag already holds whatever the queries seen so far bring. */
  ghost predicate Knows(c: Context, bag: seq<Evidence>, seen: set<string>) {
    Normal(bag) && forall q :: q in seen ==> Keys(Found(c, q)) <= Keys(bag)
  }

  /** A retrieve step before a skill step of the same wave asks only what was asked in earlier waves. */
  ghost predicate Quiet(ws: seq<Step>, seen: set<string>) {
    forall i, j :: 0 <= i < j < |ws| && ws[i].kind == Retrieve && ws[j].kind == Skill ==> Asked(ws[i]) in seen
  }

  ghost predicate QuietWaves(plan: seq<Step>, waves: seq<seq<Id>>, seen: set<string>)
    decreases |waves|
  {
    waves == [] ||
    (&& Quiet(WaveSteps(plan, waves[0]), seen)
     && QuietWaves(plan, waves[1..], seen + AskedIn(WaveSteps(plan, waves[0]))))
  }

  lemma KnowsMore(c: Context, bag: seq<Evidence>, seen: set<string>, s: Step, o: Outcome)
    requires Knows(c, bag, seen) && o == RunOne(c, bag, s)
    ensures var bag' := if o.side.evidence != [] then Merge(bag, o.side.evidence) else bag;
            Knows(c, bag', seen + (if s.kind == Retrieve then {Asked(s)} else {}))
  {
    MergeIsNormal(bag, o.side.evidence);
    if s.kind == Retrieve {
      FoundByAsking(c, s);
      assert o.side.evidence == Found(c, Asked(s));
    }
  }

  lemma NothingNew(c: Context, bag: seq<Evidence>, seen: set<string>, s: Step)
    requires Knows(c, bag, seen) && s.kind == Retrieve && Asked(s) in seen
    ensures Merge(bag, RunOne(c, bag, s).side.evidence) == bag
  {
    FoundByAsking(c, s);
    Absorbs(bag, Found(c, Asked(s)));
  }

  // ---- One wave ----

  lemma MarkFinishCommute(r: Run, y: Step, id: Id, kind: Kind, o: Outcome)
    requires y.id != id
    ensures Finish(Mark(r, y), id, kind, o) == Mark(Finish(r, id, kind, o), y)
  {
    assert r.status[y.id := Running][id := o.status] == r.status[id := o.status][y.id := Running];
  }

  lemma {:induction false} MarkAllFinishCommute(r: Run, ws: seq<Step>, id: Id, kind: Kind, o: Outcome)
    requires forall s :: s in ws ==> s.id != id
    ensures Finish(MarkAll(r, ws), id, kind, o) == MarkAll(Finish(r, id, kind, o), ws)
    decreases |ws|
  {
    if ws != [] {
      assert ws[0] in ws;
      MarkAllFinishCommute(Mark(r, ws[0]), ws[1..], id, kind, o);
      MarkFinishCommute(r, ws[0], id, kind, o);
    }
  }

  /** The outcomes of a wave with distinct ids depend on its bag only through its skill steps. */
  lemma {:induction false} FinishAllBag(c: Context, plan: map<Id, Step>, r: Run, ws: seq<Step>,
                                        wave: map<Id, Step>, wave': map<Id, Step>, bag: seq<Evidence>, bag': seq<Evidence>)
    requires forall s :: s in ws ==> s.id in wave && s.id in wave' && s.id in plan && wave[s.id] == wave'[s.id]
    requires bag == bag' || forall s :: s in ws ==> wave[s.id].kind == Retrieve
    ensures FinishAll(c, plan, r, ws, wave, bag) == FinishAll(c, plan, r, ws, wave', bag')
    decreases |ws|
  {
    if ws != [] {
      assert ws[0] in ws;
      var id := ws[0].id;
      FinishAllBag(c, plan, Finish(r, id, plan[id].kind, RunOne(c, bag, wave[id])), ws[1..], wave, wave', bag, bag');
    }
  }

  lemma SingleStep(c: Context, plan: seq<Step>, r: Run, x: Step)
    requires x in plan
    ensures x.id in ById(plan)
    ensures RunSteps(c, plan, r, [x]) == Finish(Mark(r, x), x.id, ById(plan)[x.id].kind, RunOne(c, r.bag, x))
  {
    var ws := [x];
    InDictionary(plan, ws);
    assert ws[1..] == [];
    assert MarkAll(r, ws) == Mark(r, x);
    DistinctLookup(ws, 0);
    var r1 := Finish(Mark(r, x), x.id, ById(plan)[x.id].kind, RunOne(c, r.bag, ById(ws)[x.id]));
    assert FinishAll(c, ById(plan), r1, ws[1..], ById(ws), r.bag) == r1;
  }

  lemma TailLookup(ws: seq<Step>, s: Step)
    requires ws != [] && DistinctIds(ws) && s in ws[1..]
    ensures s.id != ws[0].id && s.id in ById(ws) && ById(ws)[s.id] == s
    ensures s.id in ById(ws[1..]) && ById(ws[1..])[s.id] == s
  {
    var rest := ws[1..];
    var k :| 0 <= k < |rest| && rest[k] == s;
    assert ws[k + 1] == s;
    DistinctLookup(ws, k + 1);
    DistinctLookup(rest, k);
  }

  /** After its first step the rest of a quiet wave sees the same bag, or does not look. */
  lemma HeadChangesLittle(c: Context, r: Run, ws: seq<Step>, seen: set<string>, kind: Kind)
    requires ws != [] && Quiet(ws, seen) && Knows(c, r.bag, seen)
    requires forall s :: s in ws ==> Parallelizable(s.kind)
    ensures var r1 := Finish(Mark(r, ws[0]), ws[0].id, kind, RunOne(c, r.bag, ws[0]));
            r1.bag == r.bag || forall s :: s in ws[1..] ==> s.kind == Retrieve
  {
    var x := ws[0];
    if s :| s in ws[1..] && s.kind != Retrieve {
      var k :| 0 <= k < |ws[1..]| && ws[1..][k] == s;
      assert ws[k + 1] == s && s in ws && s.kind == Skill;
      if x.kind == Retrieve {
        assert Asked(ws[0]) in seen;
        NothingNew(c, r.bag, seen, x);
      }
    }
  }

  lemma UnfoldWave(c: Context, plan: seq<Step>, r: Run, ws: seq<Step>)
    requires forall s :: s in ws ==> s in plan
    requires ws != [] && DistinctIds(ws)
    ensures ws[0].id in ById(plan)
    ensures forall s :: s in ws[1..] ==> s.id in ById(ws) && s.id in ById(plan)
    ensures RunSteps(c, plan, r, ws)
         == FinishAll(c, ById(plan),
                      Finish(MarkAll(Mark(r, ws[0]), ws[1..]), ws[0].id, ById(plan)[ws[0].id].kind, RunOne(c, r.bag, ws[0])),
                      ws[1..], ById(ws), r.bag)
  {
    InDictionary(plan, ws);
    assert ws[0] in ws;
    DistinctLookup(ws, 0);
  }

  /** Steps may run one by one when none of them brings a later one of the wave anything new. */
  lemma HeadFirst(c: Context, plan: seq<Step>, r: Run, ws: seq<Step>, seen: set<string>)
    requires forall s :: s in ws ==> s in plan
    requires |ws| > 1 && DistinctIds(ws) && Quiet(ws, seen) && Knows(c, r.bag, seen)
    requires forall s :: s in ws ==> Parallelizable(s.kind)
    ensures ws[0] in plan && forall s :: s in ws[1..] ==> s in plan
    ensures RunSteps(c, plan, r, ws) == RunSteps(c, plan, RunSteps(c, plan, r, [ws[0]]), ws[1..])
  {
    var x, rest, known := ws[0], ws[1..], ById(plan);
    assert x in ws && forall s :: s in rest ==> s in ws;
    UnfoldWave(c, plan, r, ws);
    SingleStep(c, plan, r, x);
    var kind, o := known[x.id].kind, RunOne(c, r.bag, x);
    var r1 := Finish(Mark(r, x), x.id, kind, o);
    forall s | s in rest
      ensures s.id != x.id && ById(ws)[s.id] == s && s.id in ById(rest) && ById(rest)[s.id] == s
    {
      TailLookup(ws, s);
    }
    HeadChangesLittle(c, r, ws, seen, kind);
    MarkAllFinishCommute(Mark(r, x), rest, x.id, kind, o);
    FinishAllBag(c, known, MarkAll(r1, rest), rest, ById(ws), ById(rest), r.bag, r1.bag);
  }

  function OneByOne(c: Context, plan: seq<Step>, r: Run, ws: seq<Step>): Run
    requires forall s :: s in ws ==> s in plan
    decreases |ws|
  {
    if ws == [] then r
    else
      assert ws[0] in ws;
      OneByOne(c, plan, RunSteps(c, plan, r, [ws[0]]), ws[1..])
  }

  lemma StepKnows(c: Context, plan: seq<Step>, r: Run, x: Step, seen: set<string>)
    requires x in plan && Knows(c, r.bag, seen)
    ensures Knows(c, RunSteps(c, plan, r, [x]).bag, seen + (if x.kind == Retrieve then {Asked(x)} else {}))
  {
    SingleStep(c, plan, r, x);
    KnowsMore(c, r.bag, seen, x, RunOne(c, r.bag, x));
  }

  lemma StillKnows(c: Context, plan: seq<Step>, r: Run, x: Step, seen: set<string>)
    requires x in plan && Knows(c, r.bag, seen)
    ensures Knows(c, RunSteps(c, plan, r, [x]).bag, seen)
  {
    StepKnows(c, plan, r, x, seen);
  }

  lemma QuietTail(ws: seq<Step>, seen: set<string>)
    requires ws != [] && DistinctIds(ws) && Quiet(ws, seen)
    ensures DistinctIds(ws[1..]) && Quiet(ws[1..], seen) && forall s :: s in ws[1..] ==> s in ws
  {
  }

  lemma {:induction false} WaveIsOneByOne(c: Context, plan: seq<Step>, r: Run, ws: seq<Step>, seen: set<string>)
    requires forall s :: s in ws ==> s in plan
    requires DistinctIds(ws) && Quiet(ws, seen) && Knows(c, r.bag, seen)
    requires |ws| > 1 ==> forall s :: s in ws ==> Parallelizable(s.kind)
    ensures RunSteps(c, plan, r, ws) == OneByOne(c, plan, r, ws)
    decreases |ws|
  {
    if |ws| == 1 {
      assert ws == [ws[0]] && ws[1..] == [];
    } else if |ws| > 1 {
      HeadFirst(c, plan, r, ws, seen);
      StillKnows(c, plan, r, ws[0], seen);
      QuietTail(ws, seen);
      WaveIsOneByOne(c, plan, RunSteps(c, plan, r, [ws[0]]), ws[1..], seen);
    }
  }

  lemma {:induction false} OneByOneKnows(c: Context, plan: seq<Step>, r: Run, ws: seq<Step>, seen: set<string>)
    requires forall s :: s in ws ==> s in plan
    requires Knows(c, r.bag, seen)
    ensures Knows(c, OneByOne(c, plan, r, ws).bag, seen + AskedIn(ws))
    decreases |ws|
  {
    if ws == [] {
      assert seen + {} == seen;
    } else {
      assert ws[0] in ws && forall s :: s in ws[1..] ==> s in ws;
      var one := if ws[0].kind == Retrieve then {Asked(ws[0])} else {};
      StepKnows(c, plan, r, ws[0], seen);
      OneByOneKnows(c, plan, RunSteps(c, plan, r, [ws[0]]), ws[1..], seen + one);
      assert seen + one + AskedIn(ws[1..]) == seen + AskedIn(ws);
    }
  }

  // ---- All waves ----

  /** The wave lists steps of the plan in plan order; strictly, none of them feeds a later one. */
  ghost predicate Safe(plan: seq<Step>, wave: seq<Id>, strict: bool) {
    && Ascending(plan, wave)
    && (strict ==> forall i, j :: 0 <= i < j < |wave| ==>
                     !(ById(plan)[wave[i]].kind == Retrieve && ById(plan)[wave[j]].kind == Skill))
  }

  ghost predicate Ascending(plan: seq<Step>, wave: seq<Id>) {
    && (forall i :: 0 <= i < |wave| ==> wave[i] in ById(plan))
    && (forall i, j :: 0 <= i < j < |wave| ==> LastIndex(plan, wave[i]) < LastIndex(plan, wave[j]))
  }

  ghost predicate Selects(plan: seq<Step>, wave: seq<Id>, ws: seq<Step>) {
    && |ws| == |wave|
    && forall i :: 0 <= i < |wave| ==> wave[i] in ById(plan) && ws[i] == ById(plan)[wave[i]]
  }

  /** Selecting an ascending wave from the plan yields its steps, in the wave's own order. */
  lemma {:induction false} WaveStepsAre(plan: seq<Step>, wave: seq<Id>)
    requires DistinctIds(plan) && Ascending(plan, wave)
    ensures Selects(plan, wave, WaveSteps(plan, wave))
  {
    WaveNeedsPlan(plan, wave);
    if plan != [] {
      var n := |plan| - 1;
      var front, last := plan[..n], plan[n];
      if last.id in wave {
        var w := wave[..|wave| - 1];
        LastOfWave(plan, wave);
        AscendingFront(plan, w);
        WaveStepsAre(front, w);
        SameSelection(front, wave, w);
        assert wave == w + [last.id];
      } else {
        AscendingFront(plan, wave);
        WaveStepsAre(front, wave);
      }
    }
  }

  lemma WaveNeedsPlan(plan: seq<Step>, wave: seq<Id>)
    requires Ascending(plan, wave)
    ensures wave != [] ==> plan != []
  {
    if wave != [] {
      assert wave[0] in ById(plan);
    }
  }

  /** When the plan's last step is in an ascending wave, it is the wave's last. */
  lemma LastOfWave(plan: seq<Step>, wave: seq<Id>)
    requires plan != [] && DistinctIds(plan) && Ascending(plan, wave) && plan[|plan| - 1].id in wave
    ensures wave != [] && wave[|wave| - 1] == plan[|plan| - 1].id
    ensures plan[|plan| - 1].id !in wave[..|wave| - 1]
    ensures Ascending(plan, wave[..|wave| - 1])
    ensures forall i :: 0 <= i < |plan| - 1 ==> (plan[i].id in wave <==> plan[i].id in wave[..|wave| - 1])
  {
    var id := plan[|plan| - 1].id;
    LastComesLast(plan, wave);
    assert wave == wave[..|wave| - 1] + [id];
    forall i | 0 <= i < |plan| - 1 ensures plan[i].id in wave <==> plan[i].id in wave[..|wave| - 1] {
      assert plan[i].id != id;
    }
  }

  lemma LastComesLast(plan: seq<Step>, wave: seq<Id>)
    requires plan != [] && Ascending(plan, wave) && plan[|plan| - 1].id in wave
    ensures wave[|wave| - 1] == plan[|plan| - 1].id
    ensures forall i :: 0 <= i < |wave| - 1 ==> wave[i] != plan[|plan| - 1].id
  {
    var id, n := plan[|plan| - 1].id, |wave| - 1;
    var k :| 0 <= k < |wave| && wave[k] == id;
    assert LastIndex(plan, id) == |plan| - 1;
    forall i | 0 <= i < n ensures wave[i] != id {
      assert LastIndex(plan, wave[i]) < LastIndex(plan, wave[n]);
    }
  }

  lemma AscendingFront(plan: seq<Step>, wave: seq<Id>)
    requires plan != [] && Ascending(plan, wave) && plan[|plan| - 1].id !in wave
    ensures Ascending(plan[..|plan| - 1], wave)
    ensures forall i :: 0 <= i < |wave| ==> ById(plan)[wave[i]] == ById(plan[..|plan| - 1])[wave[i]]
  {
    assert forall i :: 0 <= i < |wave| ==> wave[i] != plan[|plan| - 1].id;
  }

  lemma {:induction false} SameSelection(plan: seq<Step>, a: seq<Id>, b: seq<Id>)
    requires forall i :: 0 <= i < |plan| ==> (plan[i].id in a <==> plan[i].id in b)
    ensures WaveSteps(plan, a) == WaveSteps(plan, b)
  {
    if plan != [] {
      SameSelection(plan[..|plan| - 1], a, b);
    }
  }

  lemma {:induction false} OneByOneIsSingletons(c: Context, plan: seq<Step>, r: Run, wave: seq<Id>, ws: seq<Step>)
    requires DistinctIds(plan) && Selects(plan, wave, ws)
    requires forall s :: s in ws ==> s in plan
    ensures OneByOne(c, plan, r, ws) == RunWaves(c, plan, r, Singletons(wave))
    decreases |ws|
  {
    if ws != [] {
      SelectOne(plan, wave, ws);
      assert ws[0] in ws && forall s :: s in ws[1..] ==> s in ws;
      assert Singletons(wave)[0] == [wave[0]] && Singletons(wave)[1..] == Singletons(wave[1..]);
      OneByOneIsSingletons(c, plan, RunSteps(c, plan, r, [ws[0]]), wave[1..], ws[1..]);
    }
  }

  lemma SelectOne(plan: seq<Step>, wave: seq<Id>, ws: seq<Step>)
    requires DistinctIds(plan) && Selects(plan, wave, ws) && ws != []
    ensures WaveSteps(plan, [wave[0]]) == [ws[0]] && Selects(plan, wave[1..], ws[1..])
  {
    WaveStepsAre(plan, [wave[0]]);
  }

  lemma SelectedDistinct(plan: seq<Step>, wave: seq<Id>, ws: seq<Step>)
    requires DistinctIds(plan) && Ascending(plan, wave) && Selects(plan, wave, ws)
    ensures DistinctIds(ws)
  {
    forall i, j | 0 <= i < j < |ws| ensures ws[i].id != ws[j].id {
      assert LastIndex(plan, wave[i]) < LastIndex(plan, wave[j]);
    }
  }

  /** A quiet wave does what its steps do one after the other. */
  lemma QuietWave(c: Context, plan: seq<Step>, r: Run, wave: seq<Id>, seen: set<string>)
    requires DistinctIds(plan) && Ascending(plan, wave) && WaveKinds(ById(plan), wave)
    requires Quiet(WaveSteps(plan, wave), seen) && Knows(c, r.bag, seen)
    ensures RunWave(c, plan, r, wave) == RunWaves(c, plan, r, Singletons(wave))
    ensures Knows(c, RunWave(c, plan, r, wave).bag, seen + AskedIn(WaveSteps(plan, wave)))
  {
    var ws := WaveSteps(plan, wave);
    WaveStepsAre(plan, wave);
    SelectedDistinct(plan, wave, ws);
    forall s | |ws| > 1 && s in ws ensures Parallelizable(s.kind) {
      var i :| 0 <= i < |ws| && ws[i] == s;
      assert wave[i] in wave;
    }
    WaveIsOneByOne(c, plan, r, ws, seen);
    OneByOneKnows(c, plan, r, ws, seen);
    OneByOneIsSingletons(c, plan, r, wave, ws);
  }

  lemma {:induction false} RunWavesAppend(c: Context, plan: seq<Step>, r: Run, a: seq<seq<Id>>, b: seq<seq<Id>>)
    ensures RunWaves(c, plan, r, a + b) == RunWaves(c, plan, RunWaves(c, plan, r, a), b)
    decreases |a|
  {
    if a == [] {
      assert a + b == b;
    } else {
      assert (a + b)[1..] == a[1..] + b;
      RunWavesAppend(c, plan, RunWave(c, plan, r, a[0]), a[1..], b);
    }
  }

  lemma SingletonsAppend(a: seq<Id>, b: seq<Id>)
    ensures Singletons(a + b) == Singletons(a) + Singletons(b)
  {
  }

  lemma {:induction false} QuietRun(c: Context, plan: seq<Step>, r: Run, waves: seq<seq<Id>>, seen: set<string>)
    requires DistinctIds(plan)
    requires forall w :: w in waves ==> Ascending(plan, w) && WaveKinds(ById(plan), w)
    requires QuietWaves(plan, waves, seen) && Knows(c, r.bag, seen)
    ensures RunWaves(c, plan, r, waves) == RunWaves(c, plan, r, Singletons(Flatten(waves)))
    decreases |waves|
  {
    if waves != [] {
      var head, tail := waves[0], waves[1..];
      assert head in waves && forall w :: w in tail ==> w in waves;
      QuietWave(c, plan, r, head, seen);
      QuietRun(c, plan, RunWave(c, plan, r, head), tail, seen + AskedIn(WaveSteps(plan, head)));
      SingletonsAppend(head, Flatten(tail));
      RunWavesAppend(c, plan, r, Singletons(head), Singletons(Flatten(tail)));
    }
  }

  // ---- The waves of a plan are safe ----

  lemma {:induction false} ReadyKeepsOrder(order: seq<Id>, byId: map<Id, Step>, done: set<Id>, i: nat, j: nat)
    returns (p: nat, q: nat)
    requires forall id :: id in order ==> id in byId
    requires i < j < |ReadyIn(order, byId, done)|
    ensures p < q < |order| && order[p] == ReadyIn(order, byId, done)[i] && order[q] == ReadyIn(order, byId, done)[j]
  {
    var n := |order| - 1;
    var kept := ReadyIn(order[..n], byId, done);
    if j < |kept| {
      p, q := ReadyKeepsOrder(order[..n], byId, done, i, j);
    } else {
      assert kept[i] in kept;
      p :| 0 <= p < n && order[..n][p] == kept[i];
      q := n;
    }
  }

  lemma RoundAscends(plan: seq<Step>, done: set<Id>, i: nat, j: nat)
    requires i < j < |Ready(NodesOf(plan), done)|
    ensures var r := Ready(NodesOf(plan), done);
            r[i] in ById(plan) && r[j] in ById(plan) && LastIndex(plan, r[i]) < LastIndex(plan, r[j])
  {
    var p, q := ReadyKeepsOrder(LastOrder(plan), ById(plan), done, i, j);
    LastOrderAscends(plan, p, q);
  }

  lemma RoundIsSafe(plan: seq<Step>, done: set<Id>, strict: bool)
    requires DistinctIds(plan) && (strict ==> SkillsAwaitRetrieves(plan))
    ensures Safe(plan, Ready(NodesOf(plan), done), strict)
  {
    var r := Ready(NodesOf(plan), done);
    forall i | 0 <= i < |r| ensures r[i] in ById(plan) {
      assert r[i] in r;
    }
    forall i, j | 0 <= i < j < |r|
      ensures LastIndex(plan, r[i]) < LastIndex(plan, r[j])
      ensures strict ==> !(ById(plan)[r[i]].kind == Retrieve && ById(plan)[r[j]].kind == Skill)
    {
      RoundAscends(plan, done, i, j);
      var p, q := LastIndex(plan, r[i]), LastIndex(plan, r[j]);
      assert r[i] in r && r[j] in r;
      assert DepsDone(ById(plan), r[j], done) && r[i] !in done;
    }
  }

  lemma SafeSegment(plan: seq<Step>, wave: seq<Id>, i: nat, j: nat, strict: bool)
    requires Safe(plan, wave, strict) && i <= j <= |wave|
    ensures Safe(plan, wave[i..j], strict)
  {
    var s := wave[i..j];
    assert forall k :: 0 <= k < |s| ==> s[k] == wave[i + k];
  }

  lemma {:induction false} SplitIsSafe(plan: seq<Step>, ready: seq<Id>, batch: seq<Id>, strict: bool)
    requires Safe(plan, batch + ready, strict) && forall id :: id in ready ==> id in ById(plan)
    ensures forall w :: w in Split(ById(plan), ready, batch) ==> Safe(plan, w, strict)
    decreases |ready|
  {
    SafeParts(plan, ready, batch, strict);
    if ready != [] {
      if Parallelizable(ById(plan)[ready[0]].kind) {
        SplitIsSafe(plan, ready[1..], batch + [ready[0]], strict);
      } else {
        SplitIsSafe(plan, ready[1..], [], strict);
      }
    }
  }

  /** The pieces a list is cut into at its next element. */
  lemma SafeParts(plan: seq<Step>, ready: seq<Id>, batch: seq<Id>, strict: bool)
    requires Safe(plan, batch + ready, strict)
    ensures Safe(plan, batch, strict)
    ensures ready != [] ==> Safe(plan, [ready[0]], strict) && Safe(plan, [] + ready[1..], strict)
    ensures ready != [] ==> Safe(plan, batch + [ready[0]] + ready[1..], strict)
  {
    var all := batch + ready;
    assert all[0..|batch|] == batch;
    SafeSegment(plan, all, 0, |batch|, strict);
    if ready != [] {
      assert batch + [ready[0]] + ready[1..] == all;
      assert [] + ready[1..] == all[|batch| + 1..|all|];
      SafeSegment(plan, all, |batch| + 1, |all|, strict);
      assert [ready[0]] == all[|batch|..|batch| + 1];
      SafeSegment(plan, all, |batch|, |batch| + 1, strict);
    }
  }

  lemma {:induction false} RoundsAreSafe(plan: seq<Step>, done: set<Id>, strict: bool)
    requires DistinctIds(plan) && (strict ==> SkillsAwaitRetrieves(plan))
    ensures forall r :: r in Rounds(NodesOf(plan), done) ==> Safe(plan, r, strict)
    decreases |ById(plan).Keys - done|
  {
    var n := NodesOf(plan);
    var ready := Ready(n, done);
    if ready == [] {
    } else {
      Shrinks(n.byId.Keys, done, ToSet(ready), ready[0]);
      RoundIsSafe(plan, done, strict);
      RoundsAreSafe(plan, done + ToSet(ready), strict);
      RoundsUnfold(n, done);
    }
  }

  lemma {:induction false} SplitRoundsAreSafe(plan: seq<Step>, rounds: seq<seq<Id>>, strict: bool)
    requires forall r, id :: r in rounds && id in r ==> id in ById(plan)
    requires forall r :: r in rounds ==> Safe(plan, r, strict)
    ensures forall w :: w in SplitRounds(NodesOf(plan), rounds, true) ==> Safe(plan, w, strict)
  {
    if rounds != [] {
      assert rounds[0] in rounds && [] + rounds[0] == rounds[0];
      SplitIsSafe(plan, rounds[0], [], strict);
      assert forall r :: r in rounds[1..] ==> r in rounds;
      SplitRoundsAreSafe(plan, rounds[1..], strict);
    }
  }

  lemma WavesAreSafe(plan: seq<Step>, strict: bool)
    requires DistinctIds(plan) && (strict ==> SkillsAwaitRetrieves(plan))
    ensures forall w :: w in WavesOf(NodesOf(plan), true) ==> Safe(plan, w, strict)
  {
    var n := NodesOf(plan);
    RoundsKnown(n, {});
    RoundsAreSafe(plan, {}, strict);
    SplitRoundsAreSafe(plan, Rounds(n, {}), strict);
    SingletonsAreSafe(plan, Leftover(n), strict);
  }

  lemma SingletonsAreSafe(plan: seq<Step>, s: seq<Id>, strict: bool)
    requires forall id :: id in s ==> id in ById(plan)
    ensures forall w :: w in Singletons(s) ==> Safe(plan, w, strict)
  {
  }

  lemma SerialWaves(n: Nodes)
    ensures WavesOf(n, false) == Singletons(Flatten(WavesOf(n, false)))
  {
    var rounds := Rounds(n, {});
    RoundsKnown(n, {});
    SerialWavesAreSingletons(n, rounds);
    FlattenWaves(n, false);
    SingletonsAppend(Flatten(rounds), Leftover(n));
  }

  ghost predicate QuietPlan(plan: seq<Step>) {
    QuietWaves(plan, WavesOf(NodesOf(plan), true), {})
  }

  /**
   * The parallel run of a quiet plan equals the serial run: the same evidence bag, traces,
   * warnings, skill results, suggestions, latency, step statuses, errors and ledger.
   */
  lemma QuietPlansRunAlike(c: Context, steps: seq<Step>, turn: Option<Book>)
    requires DistinctIds(steps) && QuietPlan(Inferred(steps, c.use.lower))
    ensures Execute(c, steps, true, turn) == Execute(c, steps, false, turn)
  {
    var plan := Inferred(steps, c.use.lower);
    InferredDistinct(steps, c.use.lower);
    QuietRuns(c, plan, Initial(plan, turn));
  }

  lemma QuietRuns(c: Context, plan: seq<Step>, r: Run)
    requires DistinctIds(plan) && QuietPlan(plan) && r.bag == []
    ensures RunWaves(c, plan, r, WavesOf(NodesOf(plan), true)) == RunWaves(c, plan, r, WavesOf(NodesOf(plan), false))
  {
    var n := NodesOf(plan);
    WavesAreSafe(plan, false);
    SharedWavesAreParallelizable(n, true);
    QuietRun(c, plan, r, WavesOf(n, true), {});
    OrderIndependentOfMode(n);
    SerialWaves(n);
  }

  lemma StrictWaveIsQuiet(plan: seq<Step>, wave: seq<Id>, seen: set<string>)
    requires DistinctIds(plan) && Safe(plan, wave, true)
    ensures Quiet(WaveSteps(plan, wave), seen)
  {
    WaveStepsAre(plan, wave);
  }

  lemma {:induction false} StrictWavesAreQuiet(plan: seq<Step>, waves: seq<seq<Id>>, seen: set<string>)
    requires DistinctIds(plan) && forall w :: w in waves ==> Safe(plan, w, true)
    ensures QuietWaves(plan, waves, seen)
    decreases |waves|
  {
    if waves != [] {
      assert waves[0] in waves && forall w :: w in waves[1..] ==> w in waves;
      StrictWaveIsQuiet(plan, waves[0], seen);
      StrictWavesAreQuiet(plan, waves[1..], seen + AskedIn(WaveSteps(plan, waves[0])));
    }
  }

  /** In particular when every skill step depends on the retrieve steps before it. */
  lemma ParallelRefinesSerial(c: Context, steps: seq<Step>, turn: Option<Book>)
    requires DistinctIds(steps) && SkillsAwaitRetrieves(Inferred(steps, c.use.lower))
    ensures Execute(c, steps, true, turn) == Execute(c, steps, false, turn)
  {
    var plan := Inferred(steps, c.use.lower);
    WavesAreSafe(plan, true);
    StrictWavesAreQuiet(plan, WavesOf(NodesOf(plan), true), {});
    QuietPlansRunAlike(c, steps, turn);
  }

  /** The condition holds for every plan whose skill steps carry no explicit dependencies. */
  lemma ImplicitSkillsAwaitRetrieves(steps: seq<Step>, lower: Fold)
    requires forall j: nat :: j < |steps| && steps[j].kind == Skill ==> Explicit(steps, j) == []
    ensures SkillsAwaitRetrieves(Inferred(steps, lower))
  {
    var plan := Inferred(steps, lower);
    forall i, j | 0 <= i < j < |plan| && plan[i].kind == Retrieve && plan[j].kind == Skill
      ensures plan[i].id in plan[j].dependsOn
    {
      RetrievesBefore(steps, j, steps[i].id);
      assert RetrieveBefore(steps, j, steps[i].id);
    }
  }
}
