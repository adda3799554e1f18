/** The executor's loop over waves, working on its locals and on the shared blackboard. */
module PlanRunner {
  import opened Seqs
  import opened Plan
  import opened Waves
  import opened Dependencies
  import opened EvidenceBag
  import opened Ledger
  import opened Executor

  datatype Event = Event(id: Id, status: Status)

  function MarkLog(ws: seq<Step>): (r: seq<Event>)
    ensures |r| == |ws| && forall i :: 0 <= i < |ws| ==> r[i] == Event(ws[i].id, Running)
  {
    seq(|ws|, i requires 0 <= i < |ws| => Event(ws[i].id, Running))
  }

  function FinalLog(c: Context, ws: seq<Step>, bag: seq<Evidence>): (r: seq<Event>)
    ensures |r| == |ws|
    ensures forall i :: 0 <= i < |ws| ==> r[i] == Event(ws[i].id, RunOne(c, bag, ById(ws)[ws[i].id]).status)
  {
    seq(|ws|, i requires 0 <= i < |ws| => Event(ws[i].id, RunOne(c, bag, ById(ws)[ws[i].id]).status))
  }

  /** The status events of a run: per wave, everything starts, then everything ends. */
  function Log(c: Context, plan: seq<Step>, r: Run, waves: seq<seq<Id>>): seq<Event>
    decreases |waves|
  {
    if waves == [] then []
    else
      var ws := WaveSteps(plan, waves[0]);
      MarkLog(ws) + FinalLog(c, ws, r.bag) + Log(c, plan, RunWave(c, plan, r, waves[0]), waves[1..])
  }

  function SetStatus(steps: seq<Step>, id: Id, status: Status): (r: seq<Step>)
    ensures |r| == |steps|
    ensures forall i :: 0 <= i < |steps| ==>
              r[i] == if steps[i].id == id then steps[i].(status := status) else steps[i]
  {
    seq(|steps|, i requires 0 <= i < |steps| => if steps[i].id == id then steps[i].(status := status) else steps[i])
  }

  /** The plan after a list of announced changes, each of which sets every step with the id. */
  function Replay(plan: seq<Step>, events: seq<Event>): (r: seq<Step>)
    ensures |r| == |plan| && forall i :: 0 <= i < |plan| ==> r[i] == plan[i].(status := r[i].status)
  {
    if events == [] then plan
    else
      var n := |events| - 1;
      SetStatus(Replay(plan, events[..n]), events[n].id, events[n].status)
  }

  lemma ReplaySnoc(plan: seq<Step>, events: seq<Event>, e: Event)
    ensures Replay(plan, events + [e]) == SetStatus(Replay(plan, events), e.id, e.status)
  {
    assert (events + [e])[..|events|] == events;
  }

  /** Every plan on the way, from the first to the last. */
  function Trail(plan: seq<Step>, events: seq<Event>): (r: seq<seq<Step>>)
    ensures |r| == |events| + 1 && r[0] == plan && r[|events|] == Replay(plan, events)
  {
    if events == [] then [plan] else Trail(plan, events[..|events| - 1]) + [Replay(plan, events)]
  }

  /** The working copy of the plan differs only in statuses, and those of touched steps are recorded ones. */
  ghost predicate Tracks(plan: seq<Step>, steps: seq<Step>, status: map<Id, Status>, touched: set<Id>) {
    && |steps| == |plan|
    && (forall i :: 0 <= i < |plan| ==> steps[i] == plan[i].(status := steps[i].status))
    && (forall i :: 0 <= i < |plan| && plan[i].id in touched ==>
          plan[i].id in status && steps[i].status == status[plan[i].id])
  }

  lemma {:induction false} SelectTracked(plan: seq<Step>, steps: seq<Step>, wave: seq<Id>)
    requires |plan| == |steps| && forall i :: 0 <= i < |plan| ==> steps[i] == plan[i].(status := steps[i].status)
    ensures |WaveSteps(steps, wave)| == |WaveSteps(plan, wave)|
    ensures forall i :: 0 <= i < |WaveSteps(plan, wave)| ==>
              WaveSteps(steps, wave)[i] == WaveSteps(plan, wave)[i].(status := WaveSteps(steps, wave)[i].status)
  {
    if plan != [] {
      SelectTracked(plan[..|plan| - 1], steps[..|plan| - 1], wave);
    }
  }

  /** What a step does does not depend on its status. */
  lemma StatusBlind(c: Context, bag: seq<Evidence>, step: Step, status: Status)
    ensures RunOne(c, bag, step.(status := status)) == RunOne(c, bag, step)
  {
  }

  lemma {:induction false} LookupTracked(ws: seq<Step>, ws': seq<Step>, c: Context, bag: seq<Evidence>, id: Id)
    requires |ws| == |ws'| && forall i :: 0 <= i < |ws| ==> ws'[i] == ws[i].(status := ws'[i].status)
    ensures id in ById(ws) <==> id in ById(ws')
    ensures id in ById(ws) ==> RunOne(c, bag, ById(ws')[id]) == RunOne(c, bag, ById(ws)[id])
  {
    if ws != [] {
      var n := |ws| - 1;
      LookupTracked(ws[..n], ws'[..n], c, bag, id);
      StatusBlind(c, bag, ws[n], ws'[n].status);
    }
  }

  lemma FinishIs(r: Run, r': Run, id: Id, kind: Kind, o: Outcome)
    requires r'.bag == if o.side.evidence != [] then Merge(r.bag, o.side.evidence) else r.bag
    requires r'.traces == r.traces + o.side.trace && r'.warnings == r.warnings + o.side.warnings
    requires r'.skillResults == r.skillResults + o.side.skillResults
    requires r'.suggested == AddHints(r.suggested, o.side.suggested)
    requires r'.latency == r.latency + o.side.latency && r'.rerank == (r.rerank || o.side.rerank)
    requires r'.status == r.status[id := o.status]
    requires r'.errors == if o.status == Success then r.errors else r.errors + [Entry(id, kind, o, r.turn.Some?)]
    requires r'.turn == NoteOutcome(NoteWarnings(r.turn, id, o.side.warnings), id, kind, o)
    ensures r' == Finish(r, id, kind, o)
  {
  }

  lemma WarnNext(turn: Option<Book>, id: Id, ws: seq<string>, i: nat)
    requires i < |ws|
    ensures turn.Some? ==>
              NoteWarnings(turn, id, ws[i..])
              == NoteWarnings(Some(Record(turn.value, TurnError(Named(ws[i]), Fixed(ws[i]), "PlanExecutor", Some(id), Warning))),
                              id, ws[i + 1..])
  {
    assert ws[i..][0] == ws[i] && ws[i..][1..] == ws[i + 1..];
  }

  lemma StartDones(dones: seq<Done>, touched: set<Id>, events: seq<Event>)
    ensures dones[0..] == dones && touched + DoneIds(dones[..0]) == touched && events + DoneLog(dones[..0]) == events
  {
  }

  lemma FinishNext(r: Run, dones: seq<Done>, i: nat)
    requires i < |dones|
    ensures FinishDones(r, dones[i..]) == FinishDones(Finish(r, dones[i].id, dones[i].kind, dones[i].outcome), dones[i + 1..])
  {
    assert dones[i..][0] == dones[i] && dones[i..][1..] == dones[i + 1..];
  }

  class PlanRun {
    const c: Context
    const plan: seq<Step>
    const turn: TurnState?
    var steps: seq<Step>
    var bag: seq<Evidence>
    var traces: seq<Trace>
    var warnings: seq<string>
    var skillResults: seq<SkillResult>
    var suggested: seq<Hint>
    var latency: nat
    var rerank: bool
    var status: map<Id, Status>
    var errors: seq<TurnError>
    var events: seq<Event>

    constructor (c: Context, plan: seq<Step>, turn: TurnState?)
      ensures this.c == c && this.plan == plan && this.turn == turn
      ensures steps == plan && events == []
      ensures View() == Initial(plan, if turn == null then None else Some(turn.View()))
    {
      this.c, this.plan, this.turn := c, plan, turn;
      steps, bag, traces, warnings, skillResults, suggested := plan, [], [], [], [], [];
      latency, rerank, status, errors, events := 0, false, Statuses(plan), [], [];
    }

    function Board(): Option<Book>
      reads this, turn
    {
      if turn == null then None else Some(turn.View())
    }

    function View(): Run
      reads this, turn
    {
      Run(bag, traces, warnings, skillResults, suggested, latency, rerank, status, errors, Board())
    }

    /** The working plan is the first one under the changes announced so far. */
    ghost predicate Shown()
      reads this
    {
      steps == Replay(plan, events)
    }

    /** `_set_step` together with the status dictionary and its event. */
    method SetStep(id: Id, st: Status)
      requires Shown()
      modifies this`steps, this`status, this`events
      ensures Shown()
      ensures steps == SetStatus(old(steps), id, st)
      ensures status == old(status)[id := st]
      ensures events == old(events) + [Event(id, st)]
    {
      ReplaySnoc(plan, events, Event(id, st));
      steps := SetStatus(steps, id, st);
      status := status[id := st];
      events := events + [Event(id, st)];
    }

    method MarkRunning(ws: seq<Step>, ghost touched: set<Id>)
      requires Tracks(plan, steps, status, touched) && Shown()
      modifies this`steps, this`status, this`events
      ensures Shown()
      ensures View() == MarkAll(old(View()), ws)
      ensures Tracks(plan, steps, status, touched)
      ensures events == old(events) + MarkLog(ws)
    {
      ghost var base, target := events, MarkAll(View(), ws);
      assert ws[0..] == ws;
      for i := 0 to |ws|
        invariant MarkAll(View(), ws[i..]) == target
        invariant Tracks(plan, steps, status, touched) && Shown()
        invariant events == base + MarkLog(ws[..i])
      {
        MarkNext(ws, i, touched, base);
      }
      assert ws[..|ws|] == ws;
    }

    method MarkNext(ws: seq<Step>, i: nat, ghost touched: set<Id>, ghost base: seq<Event>)
      requires i < |ws| && Tracks(plan, steps, status, touched) && Shown()
      requires events == base + MarkLog(ws[..i])
      modifies this`steps, this`status, this`events
      ensures Tracks(plan, steps, status, touched) && Shown()
      ensures MarkAll(View(), ws[i + 1..]) == old(MarkAll(View(), ws[i..]))
      ensures events == base + MarkLog(ws[..i + 1])
    {
      assert ws[i..][0] == ws[i] && ws[i..][1..] == ws[i + 1..];
      assert MarkLog(ws[..i + 1]) == MarkLog(ws[..i]) + [Event(ws[i].id, Running)];
      SetStep(ws[i].id, Running);
    }

    method RecordSideWarnings(id: Id, ws: seq<string>)
      modifies this`warnings, if turn == null then {} else {turn}
      ensures warnings == old(warnings) + ws
      ensures Board() == NoteWarnings(old(Board()), id, ws)
    {
      assert ws[0..] == ws;
      ghost var target := NoteWarnings(Board(), id, ws);
      for i := 0 to |ws|
        invariant warnings == old(warnings) + ws[..i]
        invariant NoteWarnings(Board(), id, ws[i..]) == target
      {
        WarnNext(Board(), id, ws, i);
        warnings := warnings + [ws[i]];
        if turn != null {
          var _ := turn.RecordError(Named(ws[i]), Fixed(ws[i]), "PlanExecutor", Some(id), Warning);
        }
      }
    }

    method SuggestAll(hints: seq<Hint>)
      modifies this`suggested
      ensures suggested == AddHints(old(suggested), hints)
    {
      assert hints[0..] == hints;
      for i := 0 to |hints|
        invariant AddHints(suggested, hints[i..]) == AddHints(old(suggested), hints)
      {
        assert hints[i..][1..] == hints[i + 1..];
        if hints[i] !in suggested {
          suggested := suggested + [hints[i]];
        }
      }
    }

    method RecordOutcome(id: Id, kind: Kind, o: Outcome)
      modifies this`errors, if turn == null then {} else {turn}
      ensures errors == if o.status == Success then old(errors) else old(errors) + [Entry(id, kind, o, turn != null)]
      ensures Board() == NoteOutcome(old(Board()), id, kind, o)
    {
      if o.status != Success {
        if turn != null {
          var err := turn.RecordStepOutcome(id, kind, o.status, o.note, "PlanExecutor");
          errors := errors + [err.value];
        } else {
          errors := errors + [StepError(id, kind, o.status, o.note, "PlanExecutor")];
        }
      }
    }

    method Absorb(side: Side)
      modifies this`bag, this`traces, this`skillResults, this`suggested, this`latency, this`rerank
      ensures bag == if side.evidence != [] then Merge(old(bag), side.evidence) else old(bag)
      ensures traces == old(traces) + side.trace
      ensures skillResults == old(skillResults) + side.skillResults
      ensures suggested == AddHints(old(suggested), side.suggested)
      ensures latency == old(latency) + side.latency && rerank == (old(rerank) || side.rerank)
    {
      if side.evidence != [] {
        bag := MergeEvidence(bag, side.evidence);
      }
      traces := traces + side.trace;
      skillResults := skillResults + side.skillResults;
      SuggestAll(side.suggested);
      latency := latency + side.latency;
      rerank := rerank || side.rerank;
    }

    /** Apply one outcome to the shared state. */
    method Apply(id: Id, kind: Kind, o: Outcome, ghost touched: set<Id>)
      requires Tracks(plan, steps, status, touched) && Shown()
      modifies this, if turn == null then {} else {turn}
      ensures Shown()
      ensures View() == Finish(old(View()), id, kind, o)
      ensures Tracks(plan, steps, status, touched + {id})
      ensures events == old(events) + [Event(id, o.status)]
    {
      TracksSet(plan, steps, status, touched, id, o.status);
      ApplyOutcome(id, kind, o);
    }

    method ApplyOutcome(id: Id, kind: Kind, o: Outcome)
      requires Shown()
      modifies this, if turn == null then {} else {turn}
      ensures Shown()
      ensures View() == Finish(old(View()), id, kind, o)
      ensures steps == SetStatus(old(steps), id, o.status) && status == old(status)[id := o.status]
      ensures events == old(events) + [Event(id, o.status)]
    {
      ghost var before := View();
      TakeIn(id, o.side);
      Conclude(id, kind, o);
      FinishIs(before, View(), id, kind, o);
    }

    /** The step's status, and its ledger entry if it did not succeed. */
    method Conclude(id: Id, kind: Kind, o: Outcome)
      requires Shown()
      modifies this`steps, this`status, this`events, this`errors, if turn == null then {} else {turn}
      ensures Shown()
      ensures steps == SetStatus(old(steps), id, o.status) && status == old(status)[id := o.status]
      ensures events == old(events) + [Event(id, o.status)]
      ensures errors == if o.status == Success then old(errors) else old(errors) + [Entry(id, kind, o, turn != null)]
      ensures Board() == NoteOutcome(old(Board()), id, kind, o)
    {
      SetStep(id, o.status);
      RecordOutcome(id, kind, o);
    }

    /** What a step brought, and its warnings. */
    method TakeIn(id: Id, side: Side)
      modifies this`bag, this`traces, this`skillResults, this`suggested, this`latency, this`rerank,
               this`warnings, if turn == null then {} else {turn}
      ensures bag == if side.evidence != [] then Merge(old(bag), side.evidence) else old(bag)
      ensures traces == old(traces) + side.trace
      ensures skillResults == old(skillResults) + side.skillResults
      ensures suggested == AddHints(old(suggested), side.suggested)
      ensures latency == old(latency) + side.latency && rerank == (old(rerank) || side.rerank)
      ensures warnings == old(warnings) + side.warnings
      ensures Board() == NoteWarnings(old(Board()), id, side.warnings)
    {
      Absorb(side);
      RecordSideWarnings(id, side.warnings);
    }

    /** Run every step of a wave on the bag as it stands; outcomes by id. */
    method RunAll(waveSteps: seq<Step>) returns (outcomes: map<Id, Outcome>)
      ensures outcomes.Keys == ById(waveSteps).Keys
      ensures forall id :: id in outcomes ==> outcomes[id] == RunOne(c, bag, ById(waveSteps)[id])
    {
      outcomes := map[];
      for i := 0 to |waveSteps|
        invariant outcomes.Keys == ById(waveSteps[..i]).Keys
        invariant forall id :: id in outcomes ==> outcomes[id] == RunOne(c, bag, ById(waveSteps[..i])[id])
      {
        assert waveSteps[..i + 1][..i] == waveSteps[..i];
        outcomes := outcomes[waveSteps[i].id := RunOne(c, bag, waveSteps[i])];
      }
      assert waveSteps[..|waveSteps|] == waveSteps;
    }

    /** Apply the outcomes of a wave in plan order. */
    method ApplyAll(dones: seq<Done>, ghost touched: set<Id>)
      requires Tracks(plan, steps, status, touched) && Shown()
      modifies this, if turn == null then {} else {turn}
      ensures Shown()
      ensures View() == FinishDones(old(View()), dones)
      ensures Tracks(plan, steps, status, touched + DoneIds(dones))
      ensures events == old(events) + DoneLog(dones)
    {
      ghost var base, target := events, FinishDones(View(), dones);
      StartDones(dones, touched, events);
      for i := 0 to |dones|
        invariant FinishDones(View(), dones[i..]) == target && Shown()
        invariant Tracks(plan, steps, status, touched + DoneIds(dones[..i]))
        invariant events == base + DoneLog(dones[..i])
      {
        ApplyNext(dones, i, touched, base);
      }
      assert dones[..|dones|] == dones;
    }

    method ApplyNext(dones: seq<Done>, i: nat, ghost touched: set<Id>, ghost base: seq<Event>)
      requires i < |dones| && Tracks(plan, steps, status, touched + DoneIds(dones[..i]))
      requires events == base + DoneLog(dones[..i]) && Shown()
      modifies this, if turn == null then {} else {turn}
      ensures Shown()
      ensures FinishDones(View(), dones[i + 1..]) == old(FinishDones(View(), dones[i..]))
      ensures Tracks(plan, steps, status, touched + DoneIds(dones[..i + 1]))
      ensures events == base + DoneLog(dones[..i + 1])
    {
      FinishNext(View(), dones, i);
      DonesStep(dones, i);
      ghost var t := touched + DoneIds(dones[..i]);
      assert t + {dones[i].id} == touched + DoneIds(dones[..i + 1]);
      Apply(dones[i].id, dones[i].kind, dones[i].outcome, t);
    }

    /** One wave: mark, run every step on the bag as it stands, then apply in plan order. */
    method RunOneWave(wave: seq<Id>, ghost touched: set<Id>)
      requires Tracks(plan, steps, status, touched) && Shown()
      modifies this, if turn == null then {} else {turn}
      ensures Shown()
      ensures View() == RunWave(c, plan, old(View()), wave)
      ensures Tracks(plan, steps, status, touched + IdsOf(WaveSteps(plan, wave)))
      ensures events == old(events) + MarkLog(WaveSteps(plan, wave)) + FinalLog(c, WaveSteps(plan, wave), old(bag))
    {
      ghost var ws := WaveSteps(plan, wave);
      var waveSteps := WaveSteps(steps, wave);
      SelectTracked(plan, steps, wave);
      InDictionary(plan, ws);
      SameMarks(View(), ws, waveSteps);
      MarkRunning(waveSteps, touched);
      var outcomes := RunAll(waveSteps);
      Collectable(c, plan, ws, waveSteps, outcomes, bag);
      var dones := Collect(ById(plan), waveSteps, outcomes);
      DonesAre(c, ById(plan), View(), ws, ById(ws), bag, dones);
      DonesLogAre(c, ById(plan), ws, bag, dones);
      ApplyAll(dones, touched);
    }

    /** The loop over the waves. */
    method RunWavesInOrder(waves: seq<seq<Id>>)
      requires steps == plan && events == []
      modifies this, if turn == null then {} else {turn}
      ensures Shown()
      ensures View() == RunWaves(c, plan, old(View()), waves)
      ensures events == Log(c, plan, old(View()), waves)
      ensures Tracks(plan, steps, status, WavesIds(plan, waves))
    {
      ghost var start, r := View(), View();
      assert waves[0..] == waves;
      for i := 0 to |waves|
        invariant r == View() && Shown()
        invariant Reached(c, plan, start, waves, i, r, events)
        invariant Tracks(plan, steps, status, WavesIds(plan, waves[..i]))
      {
        ReachedNext(c, plan, start, waves, i, r, events);
        RunOneWave(waves[i], WavesIds(plan, waves[..i]));
        r := View();
      }
      assert waves[..|waves|] == waves;
    }
  }

  /** After i waves: what is left to run and to log leads to the whole run and log. */
  ghost predicate Reached(c: Context, plan: seq<Step>, start: Run, waves: seq<seq<Id>>, i: nat, r: Run, log: seq<Event>)
    requires i <= |waves|
  {
    && RunWaves(c, plan, r, waves[i..]) == RunWaves(c, plan, start, waves)
    && log + Log(c, plan, r, waves[i..]) == Log(c, plan, start, waves)
  }

  lemma ReachedNext(c: Context, plan: seq<Step>, start: Run, waves: seq<seq<Id>>, i: nat, r: Run, log: seq<Event>)
    requires i < |waves| && Reached(c, plan, start, waves, i, r, log)
    ensures var ws := WaveSteps(plan, waves[i]);
            && Reached(c, plan, start, waves, i + 1, RunWave(c, plan, r, waves[i]), log + MarkLog(ws) + FinalLog(c, ws, r.bag))
            && WavesIds(plan, waves[..i + 1]) == WavesIds(plan, waves[..i]) + IdsOf(ws)
  {
    var ws := WaveSteps(plan, waves[i]);
    NextWave(c, plan, r, waves, i);
    Associate(log, MarkLog(ws), FinalLog(c, ws, r.bag), Log(c, plan, RunWave(c, plan, r, waves[i]), waves[i + 1..]));
  }

  lemma Associate(a: seq<Event>, b: seq<Event>, c: seq<Event>, d: seq<Event>)
    ensures a + (b + c + d) == a + b + c + d
  {
  }

  /** Each step of the wave with its kind and the outcome recorded under its id. */
  function Collect(plan: map<Id, Step>, waveSteps: seq<Step>, outcomes: map<Id, Outcome>): (dones: seq<Done>)
    requires forall i :: 0 <= i < |waveSteps| ==> waveSteps[i].id in plan && waveSteps[i].id in outcomes
    ensures |dones| == |waveSteps|
    ensures forall i :: 0 <= i < |dones| ==>
              dones[i] == Done(waveSteps[i].id, plan[waveSteps[i].id].kind, outcomes[waveSteps[i].id])
  {
    seq(|waveSteps|, i requires 0 <= i < |waveSteps| =>
      Done(waveSteps[i].id, plan[waveSteps[i].id].kind, outcomes[waveSteps[i].id]))
  }

  lemma Collectable(c: Context, plan: seq<Step>, ws: seq<Step>, waveSteps: seq<Step>, outcomes: map<Id, Outcome>, bag: seq<Evidence>)
    requires |ws| == |waveSteps| && forall i :: 0 <= i < |ws| ==> waveSteps[i] == ws[i].(status := waveSteps[i].status)
    requires forall s :: s in ws ==> s.id in ById(plan)
    requires outcomes.Keys == ById(waveSteps).Keys
    requires forall id :: id in outcomes ==> outcomes[id] == RunOne(c, bag, ById(waveSteps)[id])
    ensures forall i :: 0 <= i < |waveSteps| ==> waveSteps[i].id in ById(plan) && waveSteps[i].id in outcomes
    ensures forall i :: 0 <= i < |ws| ==>
              Collect(ById(plan), waveSteps, outcomes)[i] == DoneOf(c, ById(plan), ws[i].id, ById(ws), bag)
  {
    forall i | 0 <= i < |waveSteps|
      ensures waveSteps[i].id in ById(plan) && waveSteps[i].id in outcomes
      ensures Done(waveSteps[i].id, ById(plan)[waveSteps[i].id].kind, outcomes[waveSteps[i].id])
           == DoneOf(c, ById(plan), ws[i].id, ById(ws), bag)
    {
      assert ws[i] in ws;
      LookupTracked(ws, waveSteps, c, bag, ws[i].id);
    }
  }

  /** A finished step of a wave. */
  datatype Done = Done(id: Id, kind: Kind, outcome: Outcome)

  ghost function DoneOf(c: Context, plan: map<Id, Step>, id: Id, wave: map<Id, Step>, bag: seq<Evidence>): Done {
    if id in plan && id in wave then Done(id, plan[id].kind, RunOne(c, bag, wave[id]))
    else Done(id, Retrieve, Outcome(Error, Fixed(""), NO_SIDE))
  }

  ghost function FinishDones(r: Run, dones: seq<Done>): Run
    decreases |dones|
  {
    if dones == [] then r
    else FinishDones(Finish(r, dones[0].id, dones[0].kind, dones[0].outcome), dones[1..])
  }

  ghost function DoneLog(dones: seq<Done>): (r: seq<Event>)
    ensures |r| == |dones|
    ensures forall i :: 0 <= i < |r| ==> r[i] == Event(dones[i].id, dones[i].outcome.status)
  {
    seq(|dones|, i requires 0 <= i < |dones| => Event(dones[i].id, dones[i].outcome.status))
  }

  ghost function DoneIds(dones: seq<Done>): set<Id> {
    set d | d in dones :: d.id
  }

  lemma DonesStep(dones: seq<Done>, i: nat)
    requires i < |dones|
    ensures dones[i..][0] == dones[i] && dones[i..][1..] == dones[i + 1..]
    ensures DoneIds(dones[..i + 1]) == DoneIds(dones[..i]) + {dones[i].id}
    ensures DoneLog(dones[..i + 1]) == DoneLog(dones[..i]) + [Event(dones[i].id, dones[i].outcome.status)]
  {
    assert dones[..i + 1] == dones[..i] + [dones[i]];
  }

  lemma {:induction false} DonesAre(c: Context, plan: map<Id, Step>, r: Run, ws: seq<Step>, wave: map<Id, Step>,
                                    bag: seq<Evidence>, dones: seq<Done>)
    requires forall s :: s in ws ==> s.id in plan && s.id in wave
    requires |dones| == |ws| && forall i :: 0 <= i < |ws| ==> dones[i] == DoneOf(c, plan, ws[i].id, wave, bag)
    ensures FinishDones(r, dones) == FinishAll(c, plan, r, ws, wave, bag)
    decreases |ws|
  {
    if ws != [] {
      assert ws[0] in ws;
      var id := ws[0].id;
      assert forall s :: s in ws[1..] ==> s in ws;
      DonesAre(c, plan, Finish(r, id, plan[id].kind, RunOne(c, bag, wave[id])), ws[1..], wave, bag, dones[1..]);
    }
  }

  lemma DonesLogAre(c: Context, plan: map<Id, Step>, ws: seq<Step>, bag: seq<Evidence>, dones: seq<Done>)
    requires forall s :: s in ws ==> s.id in plan && s.id in ById(ws)
    requires |dones| == |ws| && forall i :: 0 <= i < |ws| ==> dones[i] == DoneOf(c, plan, ws[i].id, ById(ws), bag)
    ensures DoneIds(dones) == IdsOf(ws) && DoneLog(dones) == FinalLog(c, ws, bag)
  {
    forall i | 0 <= i < |ws|
      ensures dones[i].id == ws[i].id
      ensures DoneLog(dones)[i] == FinalLog(c, ws, bag)[i]
    {
      assert ws[i] in ws;
    }
    SameIds(ws, dones);
  }

  lemma SameIds(ws: seq<Step>, dones: seq<Done>)
    requires |dones| == |ws| && forall i :: 0 <= i < |ws| ==> dones[i].id == ws[i].id
    ensures DoneIds(dones) == IdsOf(ws)
  {
    forall id | id in IdsOf(ws) ensures id in DoneIds(dones) {
      var i :| 0 <= i < |ws| && ws[i].id == id;
      assert dones[i] in dones;
    }
    forall id | id in DoneIds(dones) ensures id in IdsOf(ws) {
      var i :| 0 <= i < |dones| && dones[i].id == id;
      assert ws[i] in ws;
    }
  }

  lemma TracksSet(plan: seq<Step>, steps: seq<Step>, status: map<Id, Status>, touched: set<Id>, id: Id, st: Status)
    requires Tracks(plan, steps, status, touched)
    ensures Tracks(plan, SetStatus(steps, id, st), status[id := st], touched + {id})
  {
  }

  ghost function IdsOf(ws: seq<Step>): set<Id> {
    set s | s in ws :: s.id
  }

  lemma {:induction false} SameMarks(r: Run, ws: seq<Step>, ws': seq<Step>)
    requires |ws| == |ws'| && forall i :: 0 <= i < |ws| ==> ws'[i].id == ws[i].id
    ensures MarkAll(r, ws') == MarkAll(r, ws) && MarkLog(ws') == MarkLog(ws)
    decreases |ws|
  {
    if ws != [] {
      SameMarks(Mark(r, ws[0]), ws[1..], ws'[1..]);
    }
  }

  /** The plan with the recorded statuses. */
  function Overlay(plan: seq<Step>, status: map<Id, Status>): (r: seq<Step>)
    requires forall i :: 0 <= i < |plan| ==> plan[i].id in status
    ensures |r| == |plan| && forall i :: 0 <= i < |plan| ==> r[i] == plan[i].(status := status[plan[i].id])
  {
    seq(|plan|, i requires 0 <= i < |plan| => plan[i].(status := status[plan[i].id]))
  }

  /** The outcome of a run: the functional result, the final plan and the event log. */
  ghost predicate Completed(c: Context, input: seq<Step>, parallel: bool, board: Option<Book>,
                            waves: seq<seq<Id>>, result: Run, steps: seq<Step>, events: seq<Event>) {
    var plan := Inferred(input, c.use.lower);
    && waves == WavesOf(NodesOf(plan), parallel)
    && result == Execute(c, input, parallel, board)
    && (forall i :: 0 <= i < |plan| ==> plan[i].id in result.status)
    && steps == Overlay(plan, result.status)
    && events == Log(c, plan, Initial(plan, board), waves)
    && steps == Replay(plan, events)
  }

  /**
   * `PlanExecutor.run`: infer, layer, execute. The result is the functional run; the final
   * plan shows the recorded status of every step, and the blackboard holds the ledger.
   */
  method RunPlan(c: Context, input: seq<Step>, parallel: bool, turn: TurnState?) returns (run: PlanRun, waves: seq<seq<Id>>)
    modifies if turn == null then {} else {turn}
    ensures run.turn == turn
    ensures Completed(c, input, parallel, if turn == null then None else Some(old(turn.View())),
                      waves, run.View(), run.steps, run.events)
    ensures turn != null ==> turn.plan == run.steps && turn.evidence == run.bag && turn.waves == waves
    ensures turn != null ==> turn.skillResults == run.skillResults && turn.suggested == run.suggested
    ensures turn != null ==> turn.usedL2 && turn.parallelUsed == (exists w :: w in waves && |w| > 1)
  {
    run, waves := RunInferred(c, input, parallel, turn);
    if turn != null {
      PublishRun(run, waves, turn);
    }
  }

  method PublishRun(run: PlanRun, waves: seq<seq<Id>>, turn: TurnState)
    requires run.turn == turn
    modifies turn
    ensures run.View() == old(run.View())
    ensures turn.plan == run.steps && turn.evidence == run.bag && turn.waves == waves
    ensures turn.skillResults == run.skillResults && turn.suggested == run.suggested
    ensures turn.usedL2 && turn.parallelUsed == (exists w :: w in waves && |w| > 1)
  {
    var shared := SharedWave(waves);
    turn.Publish(run.steps, run.bag, run.skillResults, run.suggested, waves, shared);
  }

  method RunInferred(c: Context, input: seq<Step>, parallel: bool, turn: TurnState?) returns (run: PlanRun, waves: seq<seq<Id>>)
    modifies if turn == null then {} else {turn}
    ensures run.turn == turn
    ensures Completed(c, input, parallel, if turn == null then None else Some(old(turn.View())),
                      waves, run.View(), run.steps, run.events)
  {
    var plan := InferDependencies(input, c.use.lower);
    waves := BuildExecutionWaves(plan, parallel);
    run := new PlanRun(c, plan, turn);
    run.RunWavesInOrder(waves);
    AllTouched(plan, waves);
    TracksAll(plan, run.steps, run.status, WavesIds(plan, waves));
  }

  method SharedWave(waves: seq<seq<Id>>) returns (shared: bool)
    ensures shared <==> exists w :: w in waves && |w| > 1
  {
    shared := false;
    for i := 0 to |waves|
      invariant shared <==> exists w :: w in waves[..i] && |w| > 1
    {
      assert waves[..i + 1] == waves[..i] + [waves[i]];
      shared := shared || |waves[i]| > 1;
    }
    assert waves[..|waves|] == waves;
  }

  ghost function WavesIds(plan: seq<Step>, waves: seq<seq<Id>>): set<Id> {
    if waves == [] then {}
    else WavesIds(plan, waves[..|waves| - 1]) + IdsOf(WaveSteps(plan, waves[|waves| - 1]))
  }

  lemma NextWave(c: Context, plan: seq<Step>, r: Run, waves: seq<seq<Id>>, i: nat)
    requires i < |waves|
    ensures var ws := WaveSteps(plan, waves[i]);
            && RunWaves(c, plan, r, waves[i..]) == RunWaves(c, plan, RunWave(c, plan, r, waves[i]), waves[i + 1..])
            && Log(c, plan, r, waves[i..])
               == MarkLog(ws) + FinalLog(c, ws, r.bag) + Log(c, plan, RunWave(c, plan, r, waves[i]), waves[i + 1..])
            && WavesIds(plan, waves[..i + 1]) == WavesIds(plan, waves[..i]) + IdsOf(ws)
  {
    assert waves[i..][0] == waves[i] && waves[i..][1..] == waves[i + 1..];
    assert waves[..i + 1][..i] == waves[..i];
  }

  lemma {:induction false} WavesIdsHave(plan: seq<Step>, waves: seq<seq<Id>>, k: nat, s: Step)
    requires k < |waves| && s in plan && s.id in waves[k]
    ensures s.id in WavesIds(plan, waves)
  {
    var n := |waves| - 1;
    if k == n {
      Selected(plan, waves[n], s);
    } else {
      WavesIdsHave(plan, waves[..n], k, s);
    }
  }

  lemma {:induction false} Selected(plan: seq<Step>, wave: seq<Id>, s: Step)
    requires s in plan && s.id in wave
    ensures s in WaveSteps(plan, wave)
  {
    var n := |plan| - 1;
    if s != plan[n] {
      assert plan == plan[..n] + [plan[n]];
      Selected(plan[..n], wave, s);
    }
  }

  lemma AllTouched(plan: seq<Step>, waves: seq<seq<Id>>)
    requires forall id :: id in Flatten(waves) <==> id in ById(plan)
    ensures forall i :: 0 <= i < |plan| ==> plan[i].id in WavesIds(plan, waves)
  {
    forall i | 0 <= i < |plan| ensures plan[i].id in WavesIds(plan, waves) {
      FlattenMember(waves, plan[i].id);
      var k :| 0 <= k < |waves| && plan[i].id in waves[k];
      WavesIdsHave(plan, waves, k, plan[i]);
    }
  }

  lemma TracksAll(plan: seq<Step>, steps: seq<Step>, status: map<Id, Status>, touched: set<Id>)
    requires Tracks(plan, steps, status, touched)
    requires forall i :: 0 <= i < |plan| ==> plan[i].id in touched
    ensures forall i :: 0 <= i < |plan| ==> plan[i].id in status
    ensures steps == Overlay(plan, status)
  {
  }
}
