/** The life of a step inside the executor: it runs once, ends once, and fails into the ledger once. */
module StepLifecycle {
  import opened Seqs
  import opened Plan
  import opened Waves
  import opened Dependencies
  import opened EvidenceBag
  import opened Ledger
  import opened Executor
  import opened PlanRunner

  // ---- Statuses ----

  lemma {:induction false} MarkAllStatus(r: Run, ws: seq<Step>, id: Id)
    ensures id !in IdsOf(ws) ==> (id in MarkAll(r, ws).status <==> id in r.status)
    ensures id !in IdsOf(ws) && id in r.status ==> MarkAll(r, ws).status[id] == r.status[id]
    decreases |ws|
  {
    if ws != [] {
      MarkAllStatus(Mark(r, ws[0]), ws[1..], id);
      assert ws[0] in ws;
    }
  }

  lemma {:induction false} FinishAllStatus(c: Context, plan: map<Id, Step>, r: Run, ws: seq<Step>, wave: map<Id, Step>,
                                           bag: seq<Evidence>, id: Id)
    requires forall s :: s in ws ==> s.id in wave && s.id in plan
    ensures var r' := FinishAll(c, plan, r, ws, wave, bag);
            && (id in IdsOf(ws) ==> id in wave && id in r'.status && r'.status[id] == RunOne(c, bag, wave[id]).status)
            && (id !in IdsOf(ws) ==> (id in r'.status <==> id in r.status))
            && (id !in IdsOf(ws) && id in r.status ==> r'.status[id] == r.status[id])
    decreases |ws|
  {
    if ws != [] {
      assert ws[0] in ws;
      var x := ws[0].id;
      FinishAllStatus(c, plan, Finish(r, x, plan[x].kind, RunOne(c, bag, wave[x])), ws[1..], wave, bag, id);
      IdsOfHead(ws);
    }
  }

  lemma IdsOfHead(ws: seq<Step>)
    requires ws != []
    ensures IdsOf(ws) == IdsOf(ws[1..]) + {ws[0].id}
  {
    assert ws == [ws[0]] + ws[1..];
  }

  /** After a wave its steps have their final status; the others keep theirs. */
  lemma WaveStatus(c: Context, plan: seq<Step>, r: Run, wave: seq<Id>, id: Id)
    ensures var ws, r' := WaveSteps(plan, wave), RunWave(c, plan, r, wave);
            && (id in IdsOf(ws) ==> id in ById(ws) && id in r'.status
                                    && r'.status[id] == RunOne(c, r.bag, ById(ws)[id]).status)
            && (id !in IdsOf(ws) ==> (id in r'.status <==> id in r.status))
            && (id !in IdsOf(ws) && id in r.status ==> r'.status[id] == r.status[id])
  {
    var ws := WaveSteps(plan, wave);
    InDictionary(plan, ws);
    MarkAllStatus(r, ws, id);
    FinishAllStatus(c, ById(plan), MarkAll(r, ws), ws, ById(ws), r.bag, id);
  }

  ghost predicate EndedIn(r: Run, id: Id) {
    id in r.status && r.status[id].Terminal()
  }

  lemma {:induction false} WavesEnd(c: Context, plan: seq<Step>, r: Run, waves: seq<seq<Id>>, id: Id)
    requires EndedIn(r, id) || exists k :: 0 <= k < |waves| && id in IdsOf(WaveSteps(plan, waves[k]))
    ensures EndedIn(RunWaves(c, plan, r, waves), id)
    decreases |waves|
  {
    if waves != [] {
      WaveStatus(c, plan, r, waves[0], id);
      if !EndedIn(RunWave(c, plan, r, waves[0]), id) {
        var k :| 0 <= k < |waves| && id in IdsOf(WaveSteps(plan, waves[k]));
        assert waves[1..][k - 1] == waves[k];
      }
      WavesEnd(c, plan, RunWave(c, plan, r, waves[0]), waves[1..], id);
    }
  }

  /** After a run every step is success, skipped or error, whatever the plan and its ids. */
  lemma EveryStepEnds(c: Context, steps: seq<Step>, parallel: bool, turn: Option<Book>, id: Id)
    requires id in ById(steps)
    ensures EndedIn(Execute(c, steps, parallel, turn), id)
  {
    var plan := Inferred(steps, c.use.lower);
    var n := NodesOf(plan);
    var waves := WavesOf(n, parallel);
    SameLookup(steps, plan, id);
    WavesCoverOnce(n, parallel);
    FlattenMember(waves, id);
    var k :| 0 <= k < |waves| && id in waves[k];
    var s := plan[LastIndex(plan, id)];
    Selected(plan, waves[k], s);
    WavesEnd(c, plan, Initial(plan, turn), waves, id);
  }

  // ---- The bag ----

  lemma {:induction false} FinishAllNormal(c: Context, plan: map<Id, Step>, r: Run, ws: seq<Step>, wave: map<Id, Step>, bag: seq<Evidence>)
    requires forall s :: s in ws ==> s.id in wave && s.id in plan
    requires Normal(r.bag)
    ensures Normal(FinishAll(c, plan, r, ws, wave, bag).bag)
    decreases |ws|
  {
    if ws != [] {
      assert ws[0] in ws;
      var x := ws[0].id;
      var o := RunOne(c, bag, wave[x]);
      MergeIsNormal(r.bag, o.side.evidence);
      FinishAllNormal(c, plan, Finish(r, x, plan[x].kind, o), ws[1..], wave, bag);
    }
  }

  lemma {:induction false} MarkAllKeeps(r: Run, ws: seq<Step>)
    ensures MarkAll(r, ws) == r.(status := MarkAll(r, ws).status)
    decreases |ws|
  {
    if ws != [] {
      MarkAllKeeps(Mark(r, ws[0]), ws[1..]);
    }
  }

  lemma {:induction false} WavesNormal(c: Context, plan: seq<Step>, r: Run, waves: seq<seq<Id>>)
    requires Normal(r.bag)
    ensures Normal(RunWaves(c, plan, r, waves).bag)
    decreases |waves|
  {
    if waves != [] {
      var ws := WaveSteps(plan, waves[0]);
      InDictionary(plan, ws);
      MarkAllKeeps(r, ws);
      FinishAllNormal(c, ById(plan), MarkAll(r, ws), ws, ById(ws), r.bag);
      WavesNormal(c, plan, RunWave(c, plan, r, waves[0]), waves[1..]);
    }
  }

  /**
   * After any run the item at position i carries rank i + 1: the number the prompt shows for
   * an item is the index under which the citation check looks it up.
   */
  lemma RanksAreCitationNumbers(c: Context, steps: seq<Step>, parallel: bool, turn: Option<Book>)
    ensures Normal(Execute(c, steps, parallel, turn).bag)
  {
    var plan := Inferred(steps, c.use.lower);
    WavesNormal(c, plan, Initial(plan, turn), WavesOf(NodesOf(plan), parallel));
  }

  // ---- Events ----

  /** The statuses a step is announced with, in order. */
  function EventsOf(log: seq<Event>, id: Id): seq<Status> {
    if log == [] then []
    else EventsOf(log[..|log| - 1], id) + (if log[|log| - 1].id == id then [log[|log| - 1].status] else [])
  }

  lemma {:induction false} EventsAppend(a: seq<Event>, b: seq<Event>, id: Id)
    ensures EventsOf(a + b, id) == EventsOf(a, id) + EventsOf(b, id)
    decreases |b|
  {
    if b == [] {
      assert a + b == a;
    } else {
      assert (a + b)[..|a + b| - 1] == a + b[..|b| - 1];
      EventsAppend(a, b[..|b| - 1], id);
    }
  }

  function Times(status: Status, m: nat): (r: seq<Status>)
    ensures |r| == m && forall i :: 0 <= i < m ==> r[i] == status
  {
    seq(m, i => status)
  }

  /** How many steps carry an id. */
  function Occurs(steps: seq<Step>, id: Id): nat {
    if steps == [] then 0
    else Occurs(steps[..|steps| - 1], id) + (if steps[|steps| - 1].id == id then 1 else 0)
  }

  /** Announcing each step of a list, those with one id always with the same status. */
  lemma {:induction false} EventsAlike(ws: seq<Step>, log: seq<Event>, id: Id, status: Status)
    requires |log| == |ws| && forall i :: 0 <= i < |ws| ==> log[i].id == ws[i].id
    requires forall i :: 0 <= i < |ws| && ws[i].id == id ==> log[i].status == status
    ensures EventsOf(log, id) == Times(status, Occurs(ws, id))
  {
    if ws != [] {
      EventsAlike(ws[..|ws| - 1], log[..|ws| - 1], id, status);
    }
  }

  lemma {:induction false} OccursNone(ws: seq<Step>, id: Id)
    ensures Occurs(ws, id) == 0 <==> id !in IdsOf(ws)
  {
    if ws != [] {
      var n := |ws| - 1;
      OccursNone(ws[..n], id);
      assert ws == ws[..n] + [ws[n]];
    }
  }

  lemma {:induction false} OccursOnce(steps: seq<Step>, i: nat)
    requires DistinctIds(steps) && i < |steps|
    ensures Occurs(steps, steps[i].id) == 1
  {
    var n := |steps| - 1;
    if i < n {
      OccursOnce(steps[..n], i);
      assert steps[i].id != steps[n].id;
    } else {
      assert steps[n].id !in IdsOf(steps[..n]);
      OccursNone(steps[..n], steps[n].id);
    }
  }

  /** A wave with an id takes all its steps. */
  lemma {:induction false} OccursInWave(plan: seq<Step>, wave: seq<Id>, id: Id)
    ensures Occurs(WaveSteps(plan, wave), id) == if id in wave then Occurs(plan, id) else 0
  {
    if plan != [] {
      var n := |plan| - 1;
      OccursInWave(plan[..n], wave, id);
      var front := WaveSteps(plan[..n], wave);
      if plan[n].id in wave {
        assert (front + [plan[n]])[..|front|] == front;
      }
    }
  }

  lemma {:induction false} WaveStepsDistinct(plan: seq<Step>, wave: seq<Id>)
    requires DistinctIds(plan)
    ensures DistinctIds(WaveSteps(plan, wave))
  {
    if plan != [] {
      var n := |plan| - 1;
      WaveStepsDistinct(plan[..n], wave);
      forall s | s in WaveSteps(plan[..n], wave) ensures s.id != plan[n].id {
        var k :| 0 <= k < n && plan[k] == s;
      }
    }
  }

  lemma LogEvents(c: Context, ws: seq<Step>, bag: seq<Evidence>, id: Id)
    ensures var log, m := MarkLog(ws) + FinalLog(c, ws, bag), Occurs(ws, id);
            && (id in IdsOf(ws) ==> id in ById(ws)
                                    && EventsOf(log, id) == Times(Running, m) + Times(RunOne(c, bag, ById(ws)[id]).status, m))
            && (id !in IdsOf(ws) ==> EventsOf(log, id) == [])
  {
    var marks, finals := MarkLog(ws), FinalLog(c, ws, bag);
    EventsAppend(marks, finals, id);
    EventsAlike(ws, marks, id, Running);
    OccursNone(ws, id);
    if id in IdsOf(ws) {
      EventsAlike(ws, finals, id, RunOne(c, bag, ById(ws)[id]).status);
    } else {
      assert forall i :: 0 <= i < |ws| ==> ws[i] in ws;
      EventsAlike(ws, finals, id, Running);
    }
  }

  /** In the wave that holds it a step is announced as running and then with its outcome, once per step that carries its id. */
  lemma WaveEvents(c: Context, plan: seq<Step>, r: Run, wave: seq<Id>, id: Id)
    ensures var ws := WaveSteps(plan, wave);
            var log := MarkLog(ws) + FinalLog(c, ws, r.bag);
            && (id in IdsOf(ws) ==> id in RunWave(c, plan, r, wave).status
                                    && EventsOf(log, id) == Lifetime(plan, id, RunWave(c, plan, r, wave).status[id]))
            && (id !in IdsOf(ws) ==> EventsOf(log, id) == [])
  {
    var ws := WaveSteps(plan, wave);
    WaveStatus(c, plan, r, wave, id);
    LogEvents(c, ws, r.bag, id);
    if id in IdsOf(ws) {
      var s :| s in ws && s.id == id;
      OccursInWave(plan, wave, id);
    }
  }

  /** Everything a run announces about an id: running, then its final status, as often as steps carry it. */
  function Lifetime(plan: seq<Step>, id: Id, end: Status): seq<Status> {
    Times(Running, Occurs(plan, id)) + Times(end, Occurs(plan, id))
  }

  /** Some wave takes a step with the id. */
  ghost predicate TakenLater(plan: seq<Step>, waves: seq<seq<Id>>, id: Id) {
    exists k :: 0 <= k < |waves| && id in IdsOf(WaveSteps(plan, waves[k]))
  }

  lemma {:induction false} UntouchedEvents(c: Context, plan: seq<Step>, r: Run, waves: seq<seq<Id>>, id: Id)
    requires !TakenLater(plan, waves, id)
    ensures EventsOf(Log(c, plan, r, waves), id) == []
    ensures id in r.status ==> id in RunWaves(c, plan, r, waves).status && RunWaves(c, plan, r, waves).status[id] == r.status[id]
    decreases |waves|
  {
    if waves != [] {
      assert forall k :: 0 <= k < |waves[1..]| ==> waves[1..][k] == waves[k + 1];
      var r', ws := RunWave(c, plan, r, waves[0]), WaveSteps(plan, waves[0]);
      WaveEvents(c, plan, r, waves[0], id);
      WaveStatus(c, plan, r, waves[0], id);
      UntouchedEvents(c, plan, r', waves[1..], id);
      LogSplits(c, plan, r, waves, id);
    }
  }

  lemma SharedRepeats(a: seq<Id>, b: seq<Id>, id: Id)
    requires id in a && id in b
    ensures !NoDup(a + b)
  {
    var i :| 0 <= i < |a| && a[i] == id;
    var j :| 0 <= j < |b| && b[j] == id;
    assert (a + b)[i] == (a + b)[|a| + j];
  }

  lemma FlattenSplitsOnce(waves: seq<seq<Id>>, id: Id, k: nat)
    requires waves != [] && NoDup(Flatten(waves)) && id in waves[0] && k < |waves[1..]|
    ensures id !in waves[1..][k]
  {
    FlattenMember(waves[1..], id);
    if id in Flatten(waves[1..]) {
      SharedRepeats(waves[0], Flatten(waves[1..]), id);
    }
  }

  lemma NoDupTail(waves: seq<seq<Id>>)
    requires waves != [] && NoDup(Flatten(waves))
    ensures NoDup(Flatten(waves[1..]))
  {
    NoDupRight(waves[0], Flatten(waves[1..]));
  }

  lemma NoDupRight(a: seq<Id>, b: seq<Id>)
    requires NoDup(a + b)
    ensures NoDup(b)
  {
    var c := a + b;
    forall i, j | 0 <= i < j < |b| ensures b[i] != b[j] {
      assert c[|a| + i] == b[i] && c[|a| + j] == b[j];
    }
  }

  lemma {:induction false} TakenOnce(c: Context, plan: seq<Step>, r: Run, waves: seq<seq<Id>>, id: Id)
    requires NoDup(Flatten(waves)) && TakenLater(plan, waves, id)
    ensures id in RunWaves(c, plan, r, waves).status
    ensures EventsOf(Log(c, plan, r, waves), id) == Lifetime(plan, id, RunWaves(c, plan, r, waves).status[id])
    decreases |waves|
  {
    TakenSomewhere(plan, waves, id);
    var r', ws := RunWave(c, plan, r, waves[0]), WaveSteps(plan, waves[0]);
    WaveEvents(c, plan, r, waves[0], id);
    LogSplits(c, plan, r, waves, id);
    if id in IdsOf(ws) {
      NeverAgain(plan, waves, id);
      UntouchedEvents(c, plan, r', waves[1..], id);
    } else {
      NoDupTail(waves);
      TakenOnce(c, plan, r', waves[1..], id);
    }
  }

  lemma TakenSomewhere(plan: seq<Step>, waves: seq<seq<Id>>, id: Id)
    requires TakenLater(plan, waves, id)
    ensures waves != [] && (id in IdsOf(WaveSteps(plan, waves[0])) || TakenLater(plan, waves[1..], id))
  {
    var k :| 0 <= k < |waves| && id in IdsOf(WaveSteps(plan, waves[k]));
    if k > 0 {
      assert waves[1..][k - 1] == waves[k];
    }
  }

  lemma NeverAgain(plan: seq<Step>, waves: seq<seq<Id>>, id: Id)
    requires waves != [] && NoDup(Flatten(waves)) && id in IdsOf(WaveSteps(plan, waves[0]))
    ensures !TakenLater(plan, waves[1..], id)
  {
    forall q | 0 <= q < |waves[1..]| ensures id !in IdsOf(WaveSteps(plan, waves[1..][q])) {
      FlattenSplitsOnce(waves, id, q);
    }
  }

  lemma LogSplits(c: Context, plan: seq<Step>, r: Run, waves: seq<seq<Id>>, id: Id)
    requires waves != []
    ensures var ws := WaveSteps(plan, waves[0]);
            EventsOf(Log(c, plan, r, waves), id)
            == EventsOf(MarkLog(ws) + FinalLog(c, ws, r.bag), id)
               + EventsOf(Log(c, plan, RunWave(c, plan, r, waves[0]), waves[1..]), id)
  {
    var ws := WaveSteps(plan, waves[0]);
    EventsAppend(MarkLog(ws) + FinalLog(c, ws, r.bag), Log(c, plan, RunWave(c, plan, r, waves[0]), waves[1..]), id);
  }

  /**
   * For every plan: an id is announced as running and then only with its final status, each
   * as often as steps carry the id. A finished step is never announced with anything else.
   */
  lemma StepLifetime(c: Context, steps: seq<Step>, parallel: bool, turn: Option<Book>, id: Id)
    requires id in ById(steps)
    ensures var plan := Inferred(steps, c.use.lower);
            var run := Execute(c, steps, parallel, turn);
            && EndedIn(run, id)
            && EventsOf(Log(c, plan, Initial(plan, turn), WavesOf(NodesOf(plan), parallel)), id)
               == Lifetime(plan, id, run.status[id])
  {
    var plan := Inferred(steps, c.use.lower);
    EveryStepEnds(c, steps, parallel, turn, id);
    SameLookup(steps, plan, id);
    AllTaken(plan, parallel, id);
    TakenOnce(c, plan, Initial(plan, turn), WavesOf(NodesOf(plan), parallel), id);
  }

  /** With distinct ids each step runs exactly once: announced running, then with its final status, then never again. */
  lemma EachStepRunsOnce(c: Context, steps: seq<Step>, parallel: bool, turn: Option<Book>, id: Id)
    requires DistinctIds(steps) && id in ById(steps)
    ensures var plan := Inferred(steps, c.use.lower);
            var run := Execute(c, steps, parallel, turn);
            && EndedIn(run, id)
            && EventsOf(Log(c, plan, Initial(plan, turn), WavesOf(NodesOf(plan), parallel)), id) == [Running, run.status[id]]
  {
    var plan := Inferred(steps, c.use.lower);
    StepLifetime(c, steps, parallel, turn, id);
    InferredDistinct(steps, c.use.lower);
    SameLookup(steps, plan, id);
    LifetimeOnce(plan, id, Execute(c, steps, parallel, turn).status[id]);
  }

  lemma LifetimeOnce(plan: seq<Step>, id: Id, end: Status)
    requires DistinctIds(plan) && id in ById(plan)
    ensures Lifetime(plan, id, end) == [Running, end]
  {
    OccursOnce(plan, LastIndex(plan, id));
  }

  lemma AllTaken(plan: seq<Step>, parallel: bool, id: Id)
    requires id in ById(plan)
    ensures var waves := WavesOf(NodesOf(plan), parallel); NoDup(Flatten(waves)) && TakenLater(plan, waves, id)
  {
    var waves := WavesOf(NodesOf(plan), parallel);
    WavesCoverOnce(NodesOf(plan), parallel);
    FlattenMember(waves, id);
    var k :| 0 <= k < |waves| && id in waves[k];
    Selected(plan, waves[k], plan[LastIndex(plan, id)]);
  }

  // ---- The ledger ----

  /** Step, code and severity of each entry. */
  function Heads(errors: seq<TurnError>): (r: seq<(Option<Id>, Code, Severity)>)
    ensures |r| == |errors| && forall i :: 0 <= i < |r| ==> r[i] == (errors[i].stepId, errors[i].code, errors[i].severity)
  {
    seq(|errors|, i requires 0 <= i < |errors| => (errors[i].stepId, errors[i].code, errors[i].severity))
  }

  /** The entry of a step that was skipped or failed; on the board an id is cut to 32 characters and an empty one is left out. */
  function Head(s: Step, status: Status, onBoard: bool): seq<(Option<Id>, Code, Severity)> {
    if status == Success then []
    else
      var shown := if !onBoard || 0 < |s.id| <= 32 then Some(s.id) else if s.id == "" then None else Some(s.id[..32]);
      [(shown, StepCode(status, s.kind), if status == Skipped then Info else Failure)]
  }

  /** One entry per step that did not succeed, in the order the steps were taken. */
  function Expected(order: seq<Step>, status: map<Id, Status>, onBoard: bool): seq<(Option<Id>, Code, Severity)>
    requires forall s :: s in order ==> s.id in status
  {
    if order == [] then []
    else
      assert order[0] in order;
      Head(order[0], status[order[0].id], onBoard) + Expected(order[1..], status, onBoard)
  }

  /** The steps in the order the waves take them. */
  function Taken(plan: seq<Step>, waves: seq<seq<Id>>): seq<Step> {
    if waves == [] then [] else WaveSteps(plan, waves[0]) + Taken(plan, waves[1..])
  }

  lemma {:induction false} ExpectedAppend(a: seq<Step>, b: seq<Step>, status: map<Id, Status>, onBoard: bool)
    requires forall s :: s in a + b ==> s.id in status
    ensures (forall s :: s in a ==> s.id in status) && (forall s :: s in b ==> s.id in status)
    ensures Expected(a + b, status, onBoard) == Expected(a, status, onBoard) + Expected(b, status, onBoard)
  {
    Members(a, b);
    if a == [] {
      assert a + b == b;
    } else {
      assert (a + b)[1..] == a[1..] + b && (a + b)[0] == a[0];
      Members(a[1..], b);
      ExpectedAppend(a[1..], b, status, onBoard);
      var head := Head(a[0], status[a[0].id], onBoard);
      Rejoin(head, Expected(a[1..], status, onBoard), Expected(b, status, onBoard));
    }
  }

  lemma Members(a: seq<Step>, b: seq<Step>)
    ensures forall s :: s in a + b <==> s in a || s in b
    ensures a != [] ==> a[0] in a && forall s :: s in a[1..] ==> s in a
  {
  }

  lemma {:induction false} ExpectedSame(a: seq<Step>, p: map<Id, Status>, q: map<Id, Status>, onBoard: bool)
    requires forall s :: s in a ==> s.id in p && s.id in q && p[s.id] == q[s.id]
    ensures Expected(a, p, onBoard) == Expected(a, q, onBoard)
  {
    if a != [] {
      assert a[0] in a;
      ExpectedSame(a[1..], p, q, onBoard);
    }
  }

  lemma FinishAddsHead(r: Run, s: Step, o: Outcome)
    requires o.status.Terminal()
    ensures Finish(r, s.id, s.kind, o).turn.Some? == r.turn.Some?
    ensures Heads(Finish(r, s.id, s.kind, o).errors) == Heads(r.errors) + Head(s, o.status, r.turn.Some?)
  {
  }

  lemma Rejoin(a: seq<(Option<Id>, Code, Severity)>, b: seq<(Option<Id>, Code, Severity)>, c: seq<(Option<Id>, Code, Severity)>)
    ensures a + b + c == a + (b + c)
  {
  }

  /** The same entries, read off the outcomes of one wave. */
  function OutcomeHeads(c: Context, ws: seq<Step>, wave: map<Id, Step>, bag: seq<Evidence>, onBoard: bool): seq<(Option<Id>, Code, Severity)>
    requires forall s :: s in ws ==> s.id in wave
  {
    if ws == [] then []
    else
      assert ws[0] in ws;
      Head(ws[0], RunOne(c, bag, wave[ws[0].id]).status, onBoard) + OutcomeHeads(c, ws[1..], wave, bag, onBoard)
  }

  lemma {:induction false} FinishAllErrors(c: Context, plan: map<Id, Step>, r: Run, ws: seq<Step>, wave: map<Id, Step>, bag: seq<Evidence>)
    requires forall s :: s in ws ==> s.id in wave && s.id in plan && plan[s.id].kind == s.kind
    ensures FinishAll(c, plan, r, ws, wave, bag).turn.Some? == r.turn.Some?
    ensures Heads(FinishAll(c, plan, r, ws, wave, bag).errors)
         == Heads(r.errors) + OutcomeHeads(c, ws, wave, bag, r.turn.Some?)
    decreases |ws|
  {
    if ws != [] {
      var s := ws[0];
      assert s in ws;
      var o := RunOne(c, bag, wave[s.id]);
      FinishAddsHead(r, s, o);
      FinishAllErrors(c, plan, Finish(r, s.id, s.kind, o), ws[1..], wave, bag);
      Rejoin(Heads(r.errors), Head(s, o.status, r.turn.Some?), OutcomeHeads(c, ws[1..], wave, bag, r.turn.Some?));
    }
  }

  lemma {:induction false} OutcomeHeadsAre(c: Context, ws: seq<Step>, wave: map<Id, Step>, bag: seq<Evidence>, status: map<Id, Status>, onBoard: bool)
    requires forall s :: s in ws ==> s.id in wave && s.id in status && status[s.id] == RunOne(c, bag, wave[s.id]).status
    ensures OutcomeHeads(c, ws, wave, bag, onBoard) == Expected(ws, status, onBoard)
  {
    if ws != [] {
      assert ws[0] in ws;
      OutcomeHeadsAre(c, ws[1..], wave, bag, status, onBoard);
    }
  }

  lemma InPlan(plan: seq<Step>, s: Step)
    requires DistinctIds(plan) && s in plan
    ensures s.id in ById(plan) && ById(plan)[s.id] == s
  {
    var i :| 0 <= i < |plan| && plan[i] == s;
    DistinctLookup(plan, i);
  }

  lemma WaveErrors(c: Context, plan: seq<Step>, r: Run, wave: seq<Id>)
    requires DistinctIds(plan)
    ensures var ws, r' := WaveSteps(plan, wave), RunWave(c, plan, r, wave);
            && r'.turn.Some? == r.turn.Some?
            && (forall s :: s in ws ==> s.id in r'.status)
            && Heads(r'.errors) == Heads(r.errors) + Expected(ws, r'.status, r.turn.Some?)
  {
    var ws, r' := WaveSteps(plan, wave), RunWave(c, plan, r, wave);
    InDictionary(plan, ws);
    MarkAllKeeps(r, ws);
    forall s | s in ws
      ensures s.id in ById(plan) && ById(plan)[s.id] == s
      ensures s.id in r'.status && r'.status[s.id] == RunOne(c, r.bag, ById(ws)[s.id]).status
    {
      InPlan(plan, s);
      WaveStatus(c, plan, r, wave, s.id);
    }
    FinishAllErrors(c, ById(plan), MarkAll(r, ws), ws, ById(ws), r.bag);
    OutcomeHeadsAre(c, ws, ById(ws), r.bag, r'.status, r.turn.Some?);
  }

  lemma {:induction false} TakenIds(plan: seq<Step>, waves: seq<seq<Id>>, s: Step)
    requires s in Taken(plan, waves)
    ensures TakenLater(plan, waves, s.id) && s in plan
  {
    if s in WaveSteps(plan, waves[0]) {
      assert s.id in IdsOf(WaveSteps(plan, waves[0]));
    } else {
      TakenIds(plan, waves[1..], s);
      var k :| 0 <= k < |waves[1..]| && s.id in IdsOf(WaveSteps(plan, waves[1..][k]));
      assert waves[k + 1] == waves[1..][k];
    }
  }

  lemma {:induction false} WavesErrors(c: Context, plan: seq<Step>, r: Run, waves: seq<seq<Id>>)
    requires DistinctIds(plan) && NoDup(Flatten(waves))
    ensures var r' := RunWaves(c, plan, r, waves);
            && r'.turn.Some? == r.turn.Some?
            && (forall s :: s in Taken(plan, waves) ==> s.id in r'.status)
            && Heads(r'.errors) == Heads(r.errors) + Expected(Taken(plan, waves), r'.status, r.turn.Some?)
    decreases |waves|
  {
    var r', onBoard := RunWaves(c, plan, r, waves), r.turn.Some?;
    TakenHaveStatus(c, plan, r, waves);
    if waves != [] {
      var ws, r1 := WaveSteps(plan, waves[0]), RunWave(c, plan, r, waves[0]);
      WaveErrors(c, plan, r, waves[0]);
      NoDupTail(waves);
      WavesErrors(c, plan, r1, waves[1..]);
      ExpectedAppend(ws, Taken(plan, waves[1..]), r'.status, onBoard);
      forall s | s in ws ensures r1.status[s.id] == r'.status[s.id] {
        KeptAfter(c, plan, r1, waves, s);
      }
      ExpectedSame(ws, r1.status, r'.status, onBoard);
      Rejoin(Heads(r.errors), Expected(ws, r'.status, onBoard), Expected(Taken(plan, waves[1..]), r'.status, onBoard));
    }
  }

  lemma TakenHaveStatus(c: Context, plan: seq<Step>, r: Run, waves: seq<seq<Id>>)
    requires DistinctIds(plan) && NoDup(Flatten(waves))
    ensures forall s :: s in Taken(plan, waves) ==> s.id in RunWaves(c, plan, r, waves).status
  {
    forall s | s in Taken(plan, waves) ensures s.id in RunWaves(c, plan, r, waves).status {
      TakenIds(plan, waves, s);
      TakenOnce(c, plan, r, waves, s.id);
    }
  }

  lemma KeptAfter(c: Context, plan: seq<Step>, r1: Run, waves: seq<seq<Id>>, s: Step)
    requires DistinctIds(plan) && waves != [] && NoDup(Flatten(waves))
    requires s in WaveSteps(plan, waves[0]) && s.id in r1.status
    ensures s.id in RunWaves(c, plan, r1, waves[1..]).status
    ensures RunWaves(c, plan, r1, waves[1..]).status[s.id] == r1.status[s.id]
  {
    forall q | 0 <= q < |waves[1..]| ensures s.id !in IdsOf(WaveSteps(plan, waves[1..][q])) {
      FlattenSplitsOnce(waves, s.id, q);
    }
    UntouchedEvents(c, plan, r1, waves[1..], s.id);
  }

  /**
   * The executor's error list holds exactly one step-outcome entry for each step that did
   * not succeed and none for the others, in the order the steps were taken.
   */
  lemma OneEntryPerFailedStep(c: Context, steps: seq<Step>, parallel: bool, turn: Option<Book>)
    requires DistinctIds(steps)
    ensures var plan := Inferred(steps, c.use.lower);
            var run := Execute(c, steps, parallel, turn);
            var order := Taken(plan, WavesOf(NodesOf(plan), parallel));
            && (forall s :: s in order ==> s.id in run.status)
            && Heads(run.errors) == Expected(order, run.status, turn.Some?)
  {
    var plan := Inferred(steps, c.use.lower);
    InferredDistinct(steps, c.use.lower);
    WavesCoverOnce(NodesOf(plan), parallel);
    RunErrors(c, plan, turn, WavesOf(NodesOf(plan), parallel));
  }

  lemma RunErrors(c: Context, plan: seq<Step>, turn: Option<Book>, waves: seq<seq<Id>>)
    requires DistinctIds(plan) && NoDup(Flatten(waves))
    ensures var run := RunWaves(c, plan, Initial(plan, turn), waves);
            && (forall s :: s in Taken(plan, waves) ==> s.id in run.status)
            && Heads(run.errors) == Expected(Taken(plan, waves), run.status, turn.Some?)
  {
    WavesErrors(c, plan, Initial(plan, turn), waves);
    assert Heads([]) == [];
  }

  lemma {:induction false} TakenEach(plan: seq<Step>, waves: seq<seq<Id>>)
    requires DistinctIds(plan) && NoDup(Flatten(waves))
    ensures DistinctIds(Taken(plan, waves))
    ensures forall s :: s in plan && s.id in Flatten(waves) ==> s in Taken(plan, waves)
  {
    if waves != [] {
      var ws, rest := WaveSteps(plan, waves[0]), Taken(plan, waves[1..]);
      WaveStepsDistinct(plan, waves[0]);
      NoDupTail(waves);
      TakenEach(plan, waves[1..]);
      forall s, t | s in ws && t in rest ensures s.id != t.id {
        TakenIds(plan, waves[1..], t);
        var k :| 0 <= k < |waves[1..]| && t.id in IdsOf(WaveSteps(plan, waves[1..][k]));
        FlattenSplitsOnce(waves, s.id, k);
      }
      forall s | s in plan && s.id in waves[0] ensures s in ws {
        Selected(plan, waves[0], s);
      }
    }
  }

  /** The waves take every step of a distinct-id plan exactly once. */
  lemma EveryStepTakenOnce(steps: seq<Step>, lower: Fold, parallel: bool)
    requires DistinctIds(steps)
    ensures var plan := Inferred(steps, lower);
            var order := Taken(plan, WavesOf(NodesOf(plan), parallel));
            DistinctIds(order) && forall s :: s in plan <==> s in order
  {
    var plan := Inferred(steps, lower);
    var waves := WavesOf(NodesOf(plan), parallel);
    WavesCoverOnce(NodesOf(plan), parallel);
    TakenEach(plan, waves);
    forall s | s in Taken(plan, waves) ensures s in plan {
      TakenIds(plan, waves, s);
    }
  }

  // ---- The same entries on the blackboard ----

  /** The step-outcome entries of a ledger. */
  function StepEntries(errors: seq<TurnError>): seq<TurnError> {
    if errors == [] then []
    else
      var n := |errors| - 1;
      StepEntries(errors[..n]) + (if errors[n].code.StepCode? then [errors[n]] else [])
  }

  lemma StepEntriesSnoc(errors: seq<TurnError>, e: TurnError)
    ensures StepEntries(errors + [e]) == StepEntries(errors) + (if e.code.StepCode? then [e] else [])
  {
    assert (errors + [e])[..|errors|] == errors;
  }

  lemma {:induction false} WarningsAddNoSteps(b: Book, id: Id, warnings: seq<string>)
    ensures StepEntries(RecordWarnings(b, id, warnings).errors) == StepEntries(b.errors)
    decreases |warnings|
  {
    if warnings != [] {
      var e := TurnError(Named(warnings[0]), Fixed(warnings[0]), "PlanExecutor", Some(id), Warning);
      StepEntriesSnoc(b.errors, e.(stepId := LedgerId(e.stepId)));
      WarningsAddNoSteps(Record(b, e), id, warnings[1..]);
    }
  }

  /** The names of a ledger's other entries. */
  function NamedEntries(errors: seq<TurnError>): seq<string> {
    if errors == [] then []
    else
      var n := |errors| - 1;
      NamedEntries(errors[..n]) + (if errors[n].code.Named? then [errors[n].code.name] else [])
  }

  lemma NamedEntriesSnoc(errors: seq<TurnError>, e: TurnError)
    ensures NamedEntries(errors + [e]) == NamedEntries(errors) + (if e.code.Named? then [e.code.name] else [])
  {
    assert (errors + [e])[..|errors|] == errors;
  }

  lemma {:induction false} WarningsAddTheirNames(b: Book, id: Id, warnings: seq<string>)
    ensures NamedEntries(RecordWarnings(b, id, warnings).errors) == NamedEntries(b.errors) + warnings
    decreases |warnings|
  {
    if warnings != [] {
      var e := TurnError(Named(warnings[0]), Fixed(warnings[0]), "PlanExecutor", Some(id), Warning);
      NamedEntriesSnoc(b.errors, e.(stepId := LedgerId(e.stepId)));
      WarningsAddTheirNames(Record(b, e), id, warnings[1..]);
      assert [warnings[0]] + warnings[1..] == warnings;
    }
  }

  /** The blackboard's step entries are the earlier ones followed by the executor's own, and its other entries grow by the warnings. */
  ghost predicate Mirrors(b0: Book, r: Run) {
    && r.turn.Some?
    && StepEntries(r.turn.value.errors) == StepEntries(b0.errors) + r.errors
    && NamedEntries(r.turn.value.errors) == NamedEntries(b0.errors) + r.warnings
  }

  /** What finishing a step writes: its warnings, and its entry on the board as in the error list. */
  lemma FinishWrites(r: Run, id: Id, kind: Kind, o: Outcome)
    requires r.turn.Some?
    ensures var r' := Finish(r, id, kind, o);
            var entry := if o.status == Success then [] else [Entry(id, kind, o, true)];
            && r'.turn.Some? && r'.errors == r.errors + entry && r'.warnings == r.warnings + o.side.warnings
            && r'.turn.value.errors == RecordWarnings(r.turn.value, id, o.side.warnings).errors + entry
  {
  }

  lemma FinishMirrors(b0: Book, r: Run, id: Id, kind: Kind, o: Outcome)
    requires Mirrors(b0, r)
    ensures Mirrors(b0, Finish(r, id, kind, o))
  {
    var entry := if o.status == Success then [] else [Entry(id, kind, o, true)];
    FinishWrites(r, id, kind, o);
    BoardGrows(r.turn.value, id, o.side.warnings, entry);
    MirrorsOn(b0, r, Finish(r, id, kind, o), o.side.warnings, entry);
  }

  lemma MirrorsOn(b0: Book, r: Run, r': Run, warnings: seq<string>, entry: seq<TurnError>)
    requires Mirrors(b0, r) && r'.turn.Some? && r'.errors == r.errors + entry && r'.warnings == r.warnings + warnings
    requires StepEntries(r'.turn.value.errors) == StepEntries(r.turn.value.errors) + entry
    requires NamedEntries(r'.turn.value.errors) == NamedEntries(r.turn.value.errors) + warnings
    ensures Mirrors(b0, r')
  {
  }

  /** Warnings and then at most one step entry, on the board. */
  lemma BoardGrows(b: Book, id: Id, warnings: seq<string>, entry: seq<TurnError>)
    requires |entry| <= 1 && forall e :: e in entry ==> e.code.StepCode?
    ensures var errors := RecordWarnings(b, id, warnings).errors + entry;
            StepEntries(errors) == StepEntries(b.errors) + entry && NamedEntries(errors) == NamedEntries(b.errors) + warnings
  {
    var noted := RecordWarnings(b, id, warnings).errors;
    WarningsAddNoSteps(b, id, warnings);
    WarningsAddTheirNames(b, id, warnings);
    if entry == [] {
      assert noted + entry == noted;
    } else {
      assert entry == [entry[0]];
      StepEntriesSnoc(noted, entry[0]);
      NamedEntriesSnoc(noted, entry[0]);
    }
  }

  lemma {:induction false} FinishAllMirrors(b0: Book, c: Context, plan: map<Id, Step>, r: Run, ws: seq<Step>,
                                            wave: map<Id, Step>, bag: seq<Evidence>)
    requires forall s :: s in ws ==> s.id in wave && s.id in plan
    requires Mirrors(b0, r)
    ensures Mirrors(b0, FinishAll(c, plan, r, ws, wave, bag))
    decreases |ws|
  {
    if ws != [] {
      assert ws[0] in ws;
      var x := ws[0].id;
      var o := RunOne(c, bag, wave[x]);
      FinishMirrors(b0, r, x, plan[x].kind, o);
      FinishAllMirrors(b0, c, plan, Finish(r, x, plan[x].kind, o), ws[1..], wave, bag);
    }
  }

  lemma {:induction false} WavesMirror(b0: Book, c: Context, plan: seq<Step>, r: Run, waves: seq<seq<Id>>)
    requires Mirrors(b0, r)
    ensures Mirrors(b0, RunWaves(c, plan, r, waves))
    decreases |waves|
  {
    if waves != [] {
      var ws := WaveSteps(plan, waves[0]);
      InDictionary(plan, ws);
      MarkAllKeeps(r, ws);
      FinishAllMirrors(b0, c, ById(plan), MarkAll(r, ws), ws, ById(ws), r.bag);
      WavesMirror(b0, c, plan, RunWave(c, plan, r, waves[0]), waves[1..]);
    }
  }

  /** A run adds to the blackboard's step entries exactly its own error list. */
  lemma LedgerGainsTheErrors(c: Context, steps: seq<Step>, parallel: bool, b0: Book)
    ensures Mirrors(b0, Execute(c, steps, parallel, Some(b0)))
  {
    var plan := Inferred(steps, c.use.lower);
    WavesMirror(b0, c, plan, Initial(plan, Some(b0)), WavesOf(NodesOf(plan), parallel));
  }
}
