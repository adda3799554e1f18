/**
 * Running a plan wave by wave. Every step of a wave sees the evidence bag as it stood when
 * the wave began; results are applied afterwards in plan order.
 */
module Executor {
  import opened Seqs
  import opened Text
  import opened Plan
  import opened Waves
  import opened Dependencies
  import opened EvidenceBag
  import opened Ledger

  type Trace = string

  datatype Retrieval = Retrieval(evidence: seq<Evidence>, trace: seq<Trace>, latency: nat, rerank: bool)

  datatype Quality = Quality(retry: bool, offTopic: bool)

  /** The services a step calls, each a function of what it is given. */
  datatype Services = Services(
    lower: Fold,
    retrieve: string -> Retrieval,
    quality: (string, seq<Evidence>, Option<string>, nat) -> Quality,
    resolveSkill: Option<string> -> Option<string>,
    suggest: string -> seq<Hint>,
    execute: (string, string, seq<Evidence>, Id) -> SkillResult)

  /** What a run is given besides the plan. */
  datatype Context = Context(
    question: string,
    rewrite: Option<string>,
    fallback: string,
    canRetrieve: bool,
    enableSkill: bool,
    canExecute: bool,
    use: Services)

  datatype Side = Side(
    evidence: seq<Evidence>,
    trace: seq<Trace>,
    skillResults: seq<SkillResult>,
    suggested: seq<Hint>,
    latency: nat,
    rerank: bool,
    warnings: seq<string>)

  const NO_SIDE := Side([], [], [], [], 0, false, [])

  const OFF_TOPIC := "OFF_TOPIC_RETRIEVAL_DROPPED"

  datatype Outcome = Outcome(status: Status, note: Note, side: Side)

  function TextOf(s: Option<string>): string {
    match s case Some(t) => t case None => ""
  }

  function RetrieveQuery(c: Context, step: Step): string {
    OrElse(Strip(TextOf(step.query)), OrElse(Strip(TextOf(c.rewrite)), OrElse(c.fallback, c.question)))
  }

  /** One retrieval, retried once with the plain question, and dropped when off topic. */
  function RunRetrieve(c: Context, step: Step): Outcome {
    if !c.canRetrieve then Outcome(Error, Fixed("no knowledge base"), NO_SIDE)
    else
      var query := RetrieveQuery(c, step);
      var first := c.use.retrieve(Take(query, 4000));
      var q1 := c.use.quality(c.question, first.evidence, if query != c.question then Some(query) else None, 1);
      var again := q1.retry && query != c.question;
      var evidence := if again then c.use.retrieve(Take(c.question, 4000)).evidence else first.evidence;
      var quality := if q1.retry then c.use.quality(c.question, evidence, None, 2) else q1;
      var dropped := evidence != [] && quality.offTopic;
      var kept := if dropped then [] else evidence;
      var side := Side(kept, first.trace, [], [], first.latency, first.rerank, if dropped then [OFF_TOPIC] else []);
      if kept != [] then Outcome(Success, Hits(|kept|, Take(query, 40)), side)
      else Outcome(Error, NoHits(Take(query, 40)), side)
  }

  function SkillQuery(c: Context, step: Step): string {
    OrElse(TextOf(step.query), c.question)
  }

  /** The skill a step names, or the first one suggested, with the suggestions made. */
  function PickSkill(c: Context, step: Step): (string, seq<Hint>) {
    var named := TextOf(c.use.resolveSkill(step.skillHint));
    if named != "" then (named, [(named, named)])
    else
      var hints := c.use.suggest(SkillQuery(c, step));
      (if hints != [] then hints[0].0 else "", hints)
  }

  function RunSkill(c: Context, bag: seq<Evidence>, step: Step): Outcome {
    if !c.enableSkill then Outcome(Skipped, Fixed("skills disabled"), NO_SIDE)
    else
      var (name, hints) := PickSkill(c, step);
      var side := NO_SIDE.(suggested := hints);
      if name == "" then Outcome(Skipped, Fixed("no matching skill"), side)
      else if !c.canExecute then Outcome(Success, SkillNote("suggested", name), side)
      else if bag == [] then Outcome(Error, Fixed("no evidence"), side)
      else
        var one := c.use.execute(name, SkillQuery(c, step), bag, step.id);
        var done := side.(skillResults := [one]);
        if one.0 == "success" then Outcome(Success, SkillNote("done", name), done)
        else if one.0 == "skipped" then Outcome(Skipped, SkillNote("skipped", one.1), done)
        else Outcome(Error, SkillNote("failed", one.1), done)
  }

  /** `run_one`: what a step does, given the bag its wave began with. */
  function RunOne(c: Context, bag: seq<Evidence>, step: Step): (o: Outcome)
    ensures o.status.Terminal()
    ensures step.kind != Retrieve ==> o.side.evidence == []
    ensures o.side.evidence != [] ==> o.status == Success
  {
    match step.kind
    case Retrieve => RunRetrieve(c, step)
    case Skill => RunSkill(c, bag, step)
    case Tool => Outcome(Skipped, Fixed("tools run in the answer loop"), NO_SIDE)
    case Verify =>
      if bag == [] then Outcome(Error, Fixed("verify: no evidence"), NO_SIDE)
      else Outcome(Success, Hits(|bag|, ""), NO_SIDE)
    case Answer => Outcome(Success, Fixed("on to the answer"), NO_SIDE)
  }

  /** The accumulated state of a run. `turn` mirrors the blackboard's ledger when there is one. */
  datatype Run = Run(
    bag: seq<Evidence>,
    traces: seq<Trace>,
    warnings: seq<string>,
    skillResults: seq<SkillResult>,
    suggested: seq<Hint>,
    latency: nat,
    rerank: bool,
    status: map<Id, Status>,
    errors: seq<TurnError>,
    turn: Option<Book>)

  function AddHints(have: seq<Hint>, more: seq<Hint>): seq<Hint>
    decreases |more|
  {
    if more == [] then have
    else AddHints(if more[0] in have then have else have + [more[0]], more[1..])
  }

  function RecordWarnings(b: Book, id: Id, warnings: seq<string>): Book
    decreases |warnings|
  {
    if warnings == [] then b
    else
      RecordWarnings(
        Record(b, TurnError(Named(warnings[0]), Fixed(warnings[0]), "PlanExecutor", Some(id), Warning)),
        id, warnings[1..])
  }

  function Mark(r: Run, step: Step): Run {
    r.(status := r.status[step.id := Running])
  }

  function MarkAll(r: Run, ws: seq<Step>): Run
    decreases |ws|
  {
    if ws == [] then r else MarkAll(Mark(r, ws[0]), ws[1..])
  }

  /** The ledger entry of an outcome; on the blackboard the step id is shortened. */
  function Entry(id: Id, kind: Kind, o: Outcome, onBoard: bool): TurnError {
    var e := StepError(id, kind, o.status, o.note, "PlanExecutor");
    if onBoard then e.(stepId := LedgerId(e.stepId)) else e
  }

  function NoteWarnings(turn: Option<Book>, id: Id, warnings: seq<string>): Option<Book> {
    if turn.None? then None else Some(RecordWarnings(turn.value, id, warnings))
  }

  function NoteOutcome(turn: Option<Book>, id: Id, kind: Kind, o: Outcome): Option<Book> {
    if turn.None? || o.status == Success then turn
    else Some(Record(turn.value, StepError(id, kind, o.status, o.note, "PlanExecutor")))
  }

  /** Applying one outcome. */
  function Finish(r: Run, id: Id, kind: Kind, o: Outcome): Run {
    Run(
      if o.side.evidence != [] then Merge(r.bag, o.side.evidence) else r.bag,
      r.traces + o.side.trace,
      r.warnings + o.side.warnings,
      r.skillResults + o.side.skillResults,
      AddHints(r.suggested, o.side.suggested),
      r.latency + o.side.latency,
      r.rerank || o.side.rerank,
      r.status[id := o.status],
      if o.status == Success then r.errors else r.errors + [Entry(id, kind, o, r.turn.Some?)],
      NoteOutcome(NoteWarnings(r.turn, id, o.side.warnings), id, kind, o))
  }

  /** Applying the outcomes of a wave in plan order, all computed from the bag at its start. */
  function FinishAll(c: Context, plan: map<Id, Step>, r: Run, ws: seq<Step>, wave: map<Id, Step>, bag: seq<Evidence>): Run
    requires forall s :: s in ws ==> s.id in wave && s.id in plan
    decreases |ws|
  {
    if ws == [] then r
    else
      var id := ws[0].id;
      assert ws[0] in ws;
      FinishAll(c, plan, Finish(r, id, plan[id].kind, RunOne(c, bag, wave[id])), ws[1..], wave, bag)
  }

  function WaveSteps(plan: seq<Step>, wave: seq<Id>): (ws: seq<Step>)
    ensures forall s :: s in ws ==> s in plan && s.id in wave
  {
    if plan == [] then []
    else
      var n := |plan| - 1;
      if plan[n].id in wave then WaveSteps(plan[..n], wave) + [plan[n]] else WaveSteps(plan[..n], wave)
  }

  function RunSteps(c: Context, plan: seq<Step>, r: Run, ws: seq<Step>): Run
    requires forall s :: s in ws ==> s in plan
  {
    InDictionary(plan, ws);
    FinishAll(c, ById(plan), MarkAll(r, ws), ws, ById(ws), r.bag)
  }

  lemma InDictionary(plan: seq<Step>, ws: seq<Step>)
    requires forall s :: s in ws ==> s in plan
    ensures forall s :: s in ws ==> s.id in ById(ws) && s.id in ById(plan)
  {
  }

  function RunWave(c: Context, plan: seq<Step>, r: Run, wave: seq<Id>): Run {
    RunSteps(c, plan, r, WaveSteps(plan, wave))
  }

  function RunWaves(c: Context, plan: seq<Step>, r: Run, waves: seq<seq<Id>>): Run
    decreases |waves|
  {
    if waves == [] then r else RunWaves(c, plan, RunWave(c, plan, r, waves[0]), waves[1..])
  }

  function Initial(plan: seq<Step>, turn: Option<Book>): Run {
    Run([], [], [], [], [], 0, false, Statuses(plan), [], turn)
  }

  function Statuses(plan: seq<Step>): (m: map<Id, Status>)
    ensures m.Keys == ById(plan).Keys
  {
    map id | id in ById(plan) :: ById(plan)[id].status
  }

  /** A whole run: infer, layer, then wave by wave. */
  function Execute(c: Context, steps: seq<Step>, parallel: bool, turn: Option<Book>): Run {
    var plan := Inferred(steps, c.use.lower);
    RunWaves(c, plan, Initial(plan, turn), WavesOf(NodesOf(plan), parallel))
  }
}
