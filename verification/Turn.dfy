/** A whole turn: the life of the plan's steps on either path, and what gets published. */
module Turn {
  import opened Seqs
  import opened Text
  import opened Plan
  import opened Waves
  import opened Dependencies
  import opened EvidenceBag
  import opened Ledger
  import opened Executor
  import opened PlanRunner
  import opened StepLifecycle
  import opened Reopening
  import Compliance
  import Release

  // ---- Status updates ----

  /** Which steps an update is for: the unfinished ones of a kind, or those never started. */
  datatype Target = OfKind(kind: Kind) | NeverStarted

  predicate Targets(t: Target, s: Step) {
    match t
    case OfKind(kind) => s.kind == kind && !s.status.Terminal()
    case NeverStarted => s.status == Pending
  }

  function Apply(s: Step, t: Target, status: Status): Step {
    if Targets(t, s) then s.(status := status) else s
  }

  function Update(plan: seq<Step>, t: Target, status: Status): (r: seq<Step>)
    ensures |r| == |plan| && forall i :: 0 <= i < |plan| ==> r[i] == Apply(plan[i], t, status)
  {
    seq(|plan|, i requires 0 <= i < |plan| => Apply(plan[i], t, status))
  }

  function Changed(plan: seq<Step>, t: Target): set<Id> {
    set s | s in plan && Targets(t, s) :: s.id
  }

  /** The announcements for the steps whose ids are listed. */
  function Announce(plan: seq<Step>, ids: set<Id>): seq<Event> {
    if plan == [] then []
    else
      var n := |plan| - 1;
      Announce(plan[..n], ids) + (if plan[n].id in ids then [Event(plan[n].id, plan[n].status)] else [])
  }

  lemma {:induction false} AnnounceNobody(plan: seq<Step>)
    ensures Announce(plan, {}) == []
  {
    if plan != [] {
      AnnounceNobody(plan[..|plan| - 1]);
    }
  }

  // ---- Histories ----

  /** The plan as it stands and everything announced so far. */
  datatype Stage = Stage(plan: seq<Step>, events: seq<Event>)

  function Emit(s: Stage, t: Target, status: Status): Stage {
    var plan := Update(s.plan, t, status);
    Stage(plan, s.events + Announce(plan, Changed(s.plan, t)))
  }

  /** What has been announced about a step. */
  function Told(s: Stage, i: nat): seq<Status>
    requires i < |s.plan|
  {
    EventsOf(s.events, s.plan[i].id)
  }

  lemma {:induction false} AnnouncedOnce(plan: seq<Step>, ids: set<Id>, id: Id, i: nat)
    requires DistinctIds(plan)
    ensures i < |plan| && plan[i].id == id ==>
              EventsOf(Announce(plan, ids), id) == if id in ids then [plan[i].status] else []
    ensures (forall k :: 0 <= k < |plan| ==> plan[k].id != id) ==> EventsOf(Announce(plan, ids), id) == []
  {
    if plan != [] {
      var n := |plan| - 1;
      AnnouncedOnce(plan[..n], ids, id, if i < n then i else n);
      AnnounceLast(plan, ids, id);
      if i < n && plan[i].id == id {
        assert plan[n].id != id;
      }
    }
  }

  lemma AnnounceLast(plan: seq<Step>, ids: set<Id>, id: Id)
    requires plan != []
    ensures var n := |plan| - 1;
            EventsOf(Announce(plan, ids), id) == EventsOf(Announce(plan[..n], ids), id)
                                                 + (if plan[n].id == id && id in ids then [plan[n].status] else [])
  {
    var n := |plan| - 1;
    var tail := if plan[n].id in ids then [Event(plan[n].id, plan[n].status)] else [];
    EventsAppend(Announce(plan[..n], ids), tail, id);
    EventsOfOne(tail, id);
  }

  lemma EventsOfOne(tail: seq<Event>, id: Id)
    requires |tail| <= 1
    ensures EventsOf(tail, id) == if tail != [] && tail[0].id == id then [tail[0].status] else []
  {
    assert EventsOf([], id) == [];
    if tail != [] {
      assert tail[..0] == [];
    }
  }

  lemma TargetIsChanged(plan: seq<Step>, t: Target, i: nat)
    requires DistinctIds(plan) && i < |plan|
    ensures plan[i].id in Changed(plan, t) <==> Targets(t, plan[i])
  {
    if plan[i].id in Changed(plan, t) {
      var s :| s in plan && Targets(t, s) && s.id == plan[i].id;
      var k :| 0 <= k < |plan| && plan[k] == s;
      assert k == i;
    }
  }

  /** A step with what has been announced about it. */
  datatype Cell = Cell(step: Step, told: seq<Status>)

  function EmitCell(c: Cell, t: Target, status: Status): Cell {
    if Targets(t, c.step) then Cell(c.step.(status := status), c.told + [status]) else c
  }

  ghost predicate At(s: Stage, i: nat, c: Cell) {
    DistinctIds(s.plan) && i < |s.plan| && c == Cell(s.plan[i], Told(s, i))
  }

  /** With distinct ids an update announces exactly the steps it changes. */
  lemma EmitAt(s: Stage, t: Target, status: Status, i: nat, c: Cell)
    requires At(s, i, c)
    ensures At(Emit(s, t, status), i, EmitCell(c, t, status))
  {
    var after, ids, id := Update(s.plan, t, status), Changed(s.plan, t), s.plan[i].id;
    UpdateDistinct(s.plan, t, status);
    EventsAppend(s.events, Announce(after, ids), id);
    AnnouncedOnce(after, ids, id, i);
    TargetIsChanged(s.plan, t, i);
    assert Told(Emit(s, t, status), i) == c.told + (if Targets(t, c.step) then [status] else []);
  }

  lemma UpdateDistinct(plan: seq<Step>, t: Target, status: Status)
    requires DistinctIds(plan)
    ensures DistinctIds(Update(plan, t, status))
  {
  }

  /** The announcements of the closing loop: each pending step itself, and no other. */
  function Skips(plan: seq<Step>): seq<Event> {
    if plan == [] then []
    else
      var n := |plan| - 1;
      Skips(plan[..n]) + (if plan[n].status == Pending then [Event(plan[n].id, Skipped)] else [])
  }

  function Skip(s: Stage): Stage {
    Stage(Update(s.plan, NeverStarted, Skipped), s.events + Skips(s.plan))
  }

  lemma {:induction false} SkippedOnce(plan: seq<Step>, id: Id, i: nat)
    requires DistinctIds(plan)
    ensures i < |plan| && plan[i].id == id ==> EventsOf(Skips(plan), id) == if plan[i].status == Pending then [Skipped] else []
    ensures (forall k :: 0 <= k < |plan| ==> plan[k].id != id) ==> EventsOf(Skips(plan), id) == []
  {
    if plan != [] {
      var n := |plan| - 1;
      SkippedOnce(plan[..n], id, if i < n then i else n);
      SkipLast(plan, id);
      if i < n && plan[i].id == id {
        assert plan[n].id != id;
      }
    }
  }

  lemma SkipLast(plan: seq<Step>, id: Id)
    requires plan != []
    ensures var n := |plan| - 1;
            EventsOf(Skips(plan), id) == EventsOf(Skips(plan[..n]), id)
                                         + (if plan[n].id == id && plan[n].status == Pending then [Skipped] else [])
  {
    var n := |plan| - 1;
    var tail := if plan[n].status == Pending then [Event(plan[n].id, Skipped)] else [];
    EventsAppend(Skips(plan[..n]), tail, id);
    EventsOfOne(tail, id);
  }

  lemma SkipAt(s: Stage, i: nat, c: Cell)
    requires At(s, i, c)
    ensures At(Skip(s), i, EmitCell(c, NeverStarted, Skipped))
  {
    UpdateDistinct(s.plan, NeverStarted, Skipped);
    EventsAppend(s.events, Skips(s.plan), s.plan[i].id);
    SkippedOnce(s.plan, s.plan[i].id, i);
    assert Told(Skip(s), i) == c.told + (if c.step.status == Pending then [Skipped] else []);
  }

  /** A stage of the pipeline: its steps are announced as running and then with its result. */
  function Through(s: Stage, kind: Kind, end: Status): Stage {
    Emit(Emit(s, OfKind(kind), Running), OfKind(kind), end)
  }

  function ThroughCell(c: Cell, kind: Kind, end: Status): Cell {
    if c.step.kind == kind && !c.step.status.Terminal() then Cell(c.step.(status := end), c.told + [Running, end]) else c
  }

  lemma ThroughAt(s: Stage, kind: Kind, end: Status, i: nat, c: Cell)
    requires At(s, i, c)
    ensures At(Through(s, kind, end), i, ThroughCell(c, kind, end))
  {
    EmitAt(s, OfKind(kind), Running, i, c);
    var c1 := EmitCell(c, OfKind(kind), Running);
    EmitAt(Emit(s, OfKind(kind), Running), OfKind(kind), end, i, c1);
    ThroughCellIs(c, kind, end);
  }

  lemma ThroughCellIs(c: Cell, kind: Kind, end: Status)
    ensures EmitCell(EmitCell(c, OfKind(kind), Running), OfKind(kind), end) == ThroughCell(c, kind, end)
  {
    assert c.told + [Running] + [end] == c.told + [Running, end];
  }

  // ---- The turn ----

  /** What the answering side of a turn is set up with. */
  datatype Desk = Desk(
    drafting: Release.Drafting,
    reflector: Option<Release.Reflector>,
    tests: Compliance.Tests,
    confidence: (string, seq<Compliance.Warning>) -> real)

  datatype Reply = Reply(answer: string, confidence: real, verdict: Compliance.Verdict)

  /** How a reply came about: the draft, what reflection made of it, and the text of the last check. */
  datatype Work = Work(draft: Release.Draft, reflected: Release.Reflected, issues: seq<Compliance.Warning>, candidate: string)

  /** Every stage behind a reply keeps its own guarantees. */
  ghost predicate Worked(desk: Desk, evidence: seq<Evidence>, r: Reply, work: Work) {
    && Release.Drafted(desk.drafting, evidence, work.draft)
    && Release.MaybeReflected(desk.reflector, work.draft.answer, evidence, work.reflected)
    && Release.Checked(desk.tests, desk.reflector, work.reflected.answer, evidence, work.issues, work.candidate)
    && Release.Gated(desk.tests, evidence, work.candidate, r.answer, r.verdict)
    && Release.Reported(desk.tests, desk.confidence, evidence, work.candidate, r.answer, r.verdict, r.confidence)
  }

  /** The release gate, whatever the models said. */
  ghost predicate Published(desk: Desk, evidence: seq<Evidence>, r: Reply) {
    && r.verdict.decision != Compliance.Revise
    && (r.verdict.passed <==> r.verdict.decision == Compliance.Pass)
    && (r.verdict.passed ==> Release.Releasable(desk.tests, r.answer, evidence))
    && (!r.verdict.passed ==> r.confidence == 0.0)
    && (!r.verdict.passed && evidence != [] ==> r.answer == Release.HARD_REFUSE)
    && (evidence == [] ==> !r.verdict.passed && Compliance.HoldsAny(r.answer, Release.CAVEATS))
    && (evidence == [] && desk.drafting.hardRefuse ==> r.answer == Release.HARD_REFUSE)
  }

  /** The last stage's effect on a step. */
  function Closed(s: Step, passed: bool): Step {
    if s.status.Terminal() then s
    else if s.kind == Answer then s.(status := Success)
    else if s.kind == Verify then s.(status := if passed then Success else Error)
    else if s.status == Pending then s.(status := Skipped)
    else s
  }

  ghost predicate AllEnded(plan: seq<Step>) {
    forall i :: 0 <= i < |plan| ==> plan[i].status.Terminal()
  }

  method UpdateSteps(plan: seq<Step>, t: Target, status: Status) returns (updated: seq<Step>, changed: set<Id>)
    ensures updated == Update(plan, t, status) && changed == Changed(plan, t)
  {
    updated, changed := [], {};
    for i := 0 to |plan|
      invariant updated == Update(plan[..i], t, status)
      invariant changed == Changed(plan[..i], t)
    {
      assert plan[..i + 1] == plan[..i] + [plan[i]];
      updated := updated + [Apply(plan[i], t, status)];
      changed := changed + (if Targets(t, plan[i]) then {plan[i].id} else {});
    }
    assert plan[..|plan|] == plan;
  }

  method Announcements(plan: seq<Step>, ids: set<Id>) returns (events: seq<Event>)
    ensures events == Announce(plan, ids)
  {
    events := [];
    for i := 0 to |plan|
      invariant events == Announce(plan[..i], ids)
    {
      assert plan[..i + 1][..i] == plan[..i];
      if plan[i].id in ids {
        events := events + [Event(plan[i].id, plan[i].status)];
      }
    }
    assert plan[..|plan|] == plan;
  }

  lemma SkipNext(plan: seq<Step>, i: nat)
    requires i < |plan|
    ensures Update(plan[..i + 1], NeverStarted, Skipped)
            == Update(plan[..i], NeverStarted, Skipped) + [Apply(plan[i], NeverStarted, Skipped)]
    ensures Skips(plan[..i + 1]) == Skips(plan[..i]) + (if plan[i].status == Pending then [Event(plan[i].id, Skipped)] else [])
  {
    assert plan[..i + 1][..i] == plan[..i];
  }

  method SkipSteps(plan: seq<Step>) returns (finalized: seq<Step>, told: seq<Event>)
    ensures finalized == Update(plan, NeverStarted, Skipped) && told == Skips(plan)
  {
    finalized, told := [], [];
    for i := 0 to |plan|
      invariant finalized == Update(plan[..i], NeverStarted, Skipped)
      invariant told == Skips(plan[..i])
    {
      SkipNext(plan, i);
      if plan[i].status == Pending {
        finalized := finalized + [plan[i].(status := Skipped)];
        told := told + [Event(plan[i].id, Skipped)];
      } else {
        finalized := finalized + [plan[i]];
      }
    }
    assert plan[..|plan|] == plan;
  }

  lemma GrowTrail(trail: seq<seq<Step>>, last: seq<Step>, next: seq<Step>)
    requires trail != [] && trail[|trail| - 1] == last && Moves(last, next)
    ensures trail <= trail + [next] && (Monotone(trail) ==> Monotone(trail + [next]))
  {
    MonotoneLast(trail, next);
  }

  function EndStatus(passed: bool): Status {
    if passed then Success else Error
  }

  /** The updates of the last stage, in order. */
  function Ending(s: Stage, passed: bool): Stage {
    Skip(Through(Through(s, Answer, Success), Verify, EndStatus(passed)))
  }

  /** What the last stage does to each step. */
  lemma EndingCloses(s: Stage, passed: bool)
    ensures |Ending(s, passed).plan| == |s.plan|
    ensures forall i :: 0 <= i < |s.plan| ==> Ending(s, passed).plan[i] == Closed(s.plan[i], passed)
  {
    forall i | 0 <= i < |s.plan| ensures Ending(s, passed).plan[i] == Closed(s.plan[i], passed) {
      CloseStep(s.plan[i], passed);
    }
  }

  lemma CloseStep(s: Step, passed: bool)
    ensures Closed(s, passed) ==
            Apply(Apply(Apply(Apply(Apply(s, OfKind(Answer), Running), OfKind(Answer), Success),
                              OfKind(Verify), Running), OfKind(Verify), EndStatus(passed)), NeverStarted, Skipped)
  {
  }

  function EndingCell(c: Cell, passed: bool): Cell {
    EmitCell(ThroughCell(ThroughCell(c, Answer, Success), Verify, EndStatus(passed)), NeverStarted, Skipped)
  }

  lemma EndingAt(s: Stage, passed: bool, i: nat, c: Cell)
    requires At(s, i, c)
    ensures At(Ending(s, passed), i, EndingCell(c, passed))
  {
    var s1, c1 := Through(s, Answer, Success), ThroughCell(c, Answer, Success);
    ThroughAt(s, Answer, Success, i, c);
    ThroughAt(s1, Verify, EndStatus(passed), i, c1);
    SkipAt(Through(s1, Verify, EndStatus(passed)), i, ThroughCell(c1, Verify, EndStatus(passed)));
  }

  /** The stages together make the gate. */
  lemma GateHolds(desk: Desk, evidence: seq<Evidence>, r: Reply, work: Work)
    requires Worked(desk, evidence, r, work)
    requires !r.verdict.passed ==> r.confidence == 0.0
    requires evidence == [] ==> r.answer == work.reflected.answer && !r.verdict.passed
    ensures Published(desk, evidence, r)
  {
  }

  /** Exactly the pending and running steps of a kind get the status. */
  ghost predicate Emitted(before: seq<Step>, after: seq<Step>, kind: Kind, status: Status) {
    && |after| == |before|
    && forall i :: 0 <= i < |before| ==>
         after[i] == if before[i].kind == kind && before[i].status in {Pending, Running} then before[i].(status := status) else before[i]
  }

  /** Some step with this id is a pending or running one of the kind. */
  ghost predicate ChangesId(before: seq<Step>, kind: Kind, id: Id) {
    exists k :: 0 <= k < |before| && before[k].id == id && before[k].kind == kind && before[k].status in {Pending, Running}
  }

  /** Announced are, in plan order, the steps with the id of a changed one, each with the status it now has. */
  ghost predicate AnnouncedAt(before: seq<Step>, after: seq<Step>, told: seq<Event>, kind: Kind, at: seq<nat>) {
    && |at| == |told| && Rising(at)
    && (forall j :: 0 <= j < |at| ==> at[j] < |after| && told[j] == Event(after[at[j]].id, after[at[j]].status))
    && (forall k: nat :: k in at <==> k < |after| && ChangesId(before, kind, after[k].id))
  }

  lemma {:induction false} AnnouncePositions(plan: seq<Step>, ids: set<Id>) returns (at: seq<nat>)
    ensures ToldAt(plan, |plan|, ids, Announce(plan, ids), at)
  {
    at := [];
    if plan != [] {
      var n := |plan| - 1;
      at := AnnouncePositions(plan[..n], ids);
      ToldFurther(plan, n, ids, Announce(plan[..n], ids), at);
      if plan[n].id in ids {
        ToldOneMore(plan, n, ids, Announce(plan[..n], ids), at);
        at := at + [n];
      }
    }
  }

  /** The announcements are for the steps at these positions: those of the first n whose ids are listed. */
  ghost predicate ToldAt(plan: seq<Step>, n: nat, ids: set<Id>, told: seq<Event>, at: seq<nat>) {
    && n <= |plan| && |at| == |told| && Rising(at)
    && (forall j :: 0 <= j < |at| ==> at[j] < n && told[j] == Event(plan[at[j]].id, plan[at[j]].status))
    && (forall k: nat :: k in at <==> k < n && plan[k].id in ids)
  }

  lemma ToldFurther(plan: seq<Step>, n: nat, ids: set<Id>, told: seq<Event>, at: seq<nat>)
    requires n < |plan| && ToldAt(plan[..n], n, ids, told, at)
    ensures ToldAt(plan, n, ids, told, at) && (plan[n].id !in ids ==> ToldAt(plan, n + 1, ids, told, at))
  {
    assert forall k: nat :: k < n ==> plan[..n][k] == plan[k];
  }

  lemma ToldOneMore(plan: seq<Step>, n: nat, ids: set<Id>, told: seq<Event>, at: seq<nat>)
    requires n < |plan| && ToldAt(plan, n, ids, told, at) && plan[n].id in ids
    ensures ToldAt(plan, n + 1, ids, told + [Event(plan[n].id, plan[n].status)], at + [n])
  {
    RisingSnoc(at, n);
  }

  lemma ChangedIds(plan: seq<Step>, kind: Kind, id: Id)
    ensures id in Changed(plan, OfKind(kind)) <==> ChangesId(plan, kind, id)
  {
    if id in Changed(plan, OfKind(kind)) {
      var s :| s in plan && Targets(OfKind(kind), s) && s.id == id;
      var k :| 0 <= k < |plan| && plan[k] == s;
    }
    if ChangesId(plan, kind, id) {
      var k :| 0 <= k < |plan| && plan[k].id == id && plan[k].kind == kind && plan[k].status in {Pending, Running};
      assert plan[k] in plan && Targets(OfKind(kind), plan[k]);
    }
  }

  lemma EmitAnnounces(plan: seq<Step>, kind: Kind, status: Status) returns (at: seq<nat>)
    ensures var after := Update(plan, OfKind(kind), status);
            Emitted(plan, after, kind, status) && AnnouncedAt(plan, after, Announce(after, Changed(plan, OfKind(kind))), kind, at)
  {
    var after := Update(plan, OfKind(kind), status);
    at := AnnouncePositions(after, Changed(plan, OfKind(kind)));
    forall id ensures id in Changed(plan, OfKind(kind)) <==> ChangesId(plan, kind, id) {
      ChangedIds(plan, kind, id);
    }
  }

  class TurnRun {
    var plan: seq<Step>
    var events: seq<Event>
    ghost var trail: seq<seq<Step>>

    ghost predicate Valid()
      reads this
    {
      trail != [] && trail[|trail| - 1] == plan
    }

    ghost function View(): Stage
      reads this
    {
      Stage(plan, events)
    }

    constructor (plan: seq<Step>, events: seq<Event>, ghost trail: seq<seq<Step>>)
      requires trail != [] && trail[|trail| - 1] == plan
      ensures Valid() && View() == Stage(plan, events) && this.trail == trail
    {
      this.plan, this.events, this.trail := plan, events, trail;
    }

    /** From one moment to a later one: the trail goes on and reopens nothing. */
    twostate predicate Goes()
      reads this
    {
      && Valid() && old(trail) <= trail
      && (old(Monotone(trail)) ==> Monotone(trail))
    }

    /** `_emit_plan_kind`: the unfinished steps of a kind change, and the steps with a changed id are announced. */
    method EmitPlanKind(kind: Kind, status: Status)
      requires Valid()
      modifies this
      ensures Goes()
      ensures View() == Emit(old(View()), OfKind(kind), status)
      ensures Emitted(old(plan), plan, kind, status)
      ensures exists at :: AnnouncedAt(old(plan), plan, events[|old(events)|..], kind, at)
    {
      var updated, changed := UpdateSteps(plan, OfKind(kind), status);
      var told := Announcements(updated, changed);
      GrowTrail(trail, plan, updated);
      ghost var at := EmitAnnounces(plan, kind, status);
      plan, events, trail := updated, events + told, trail + [updated];
      assert events[|old(events)|..] == told;
    }

    /** `_run_answer_and_compliance`. */
    method AnswerAndComply(desk: Desk, multiStep: bool, evidence: seq<Evidence>) returns (r: Reply, work: Work)
      requires Valid()
      modifies this
      ensures Goes()
      ensures Published(desk, evidence, r) && Worked(desk, evidence, r, work)
      ensures View() == if multiStep then Ending(old(View()), r.verdict.passed) else old(View())
    {
      if multiStep {
        EmitPlanKind(Answer, Running);
      }
      var draft := Release.DraftAnswer(desk.drafting, evidence);
      if multiStep {
        EmitPlanKind(Answer, Success);
      }
      var reflected := Release.Reflect(desk.reflector, draft.answer, evidence);
      if multiStep {
        EmitPlanKind(Verify, Running);
      }
      var answer, confidence, verdict, candidate, issues :=
        Release.Release(desk.tests, desk.drafting.hardRefuse, desk.reflector, desk.confidence, reflected.answer, evidence);
      r, work := Reply(answer, confidence, verdict), Work(draft, reflected, issues, candidate);
      GateHolds(desk, evidence, r, work);
      if multiStep {
        EmitPlanKind(Verify, EndStatus(verdict.passed));
        SkipPending();
      }
    }

    /** The closing loop over steps that no stage ever started. */
    method SkipPending()
      requires Valid()
      modifies this
      ensures Goes()
      ensures View() == Skip(old(View()))
    {
      var finalized, told := SkipSteps(plan);
      GrowTrail(trail, plan, finalized);
      plan, events, trail := finalized, events + told, trail + [finalized];
    }
  }

  // ---- The single-pass path ----

  datatype Fitness = Accept | Retry | Unfit

  datatype Assessment = Assessment(decision: Fitness, offTopic: bool)

  /** The request and the services of the single-pass path; no request means no retrieval. */
  datatype Pass = Pass(
    query: Option<string>,
    original: string,
    search: string -> seq<Evidence>,
    assess: (seq<Evidence>, Option<string>, nat) -> Assessment,
    routerNeedsSkill: bool,
    enableSkill: bool,
    skillsFound: seq<Evidence> -> bool,
    hasTools: bool)

  /** One retrieval, one retry with the original wording, and two ways to drop what was found. */
  method RetrieveOnce(p: Pass) returns (evidence: seq<Evidence>, found: seq<Evidence>, quality: Assessment)
    ensures Searched(p, found, quality)
    ensures evidence == if quality.offTopic || quality.decision == Unfit then [] else found
  {
    found := if p.query.None? then [] else p.search(p.query.value);
    quality := p.assess(found, p.query, 1);
    if quality.decision == Retry && p.query.Some? {
      var original := Strip(p.original);
      if original != "" && original != Strip(p.query.value) {
        found := p.search(original);
      }
      quality := p.assess(found, None, 2);
    }
    evidence := found;
    if evidence != [] && quality.offTopic {
      evidence := [];
    }
    if quality.decision == Unfit && evidence != [] {
      evidence := [];
    }
  }

  /** What is searched, and on what the last assessment was made. */
  ghost predicate Searched(p: Pass, found: seq<Evidence>, quality: Assessment) {
    if p.query.None? then found == [] && quality == p.assess([], None, 1)
    else
      var first := p.search(p.query.value);
      var other := Strip(p.original);
      if p.assess(first, p.query, 1).decision != Retry then
        found == first && quality == p.assess(first, p.query, 1)
      else
        && found == (if other != "" && other != Strip(p.query.value) then p.search(other) else first)
        && quality == p.assess(found, None, 2)
  }

  predicate HasSkill(plan: seq<Step>) {
    exists s :: s in plan && s.kind == Skill
  }

  method NeedsSkill(plan: seq<Step>, fallback: bool) returns (r: bool)
    ensures r <==> fallback || HasSkill(plan)
  {
    r := fallback;
    for i := 0 to |plan|
      invariant r <==> fallback || HasSkill(plan[..i])
    {
      assert plan[..i + 1] == plan[..i] + [plan[i]];
      r := r || plan[i].kind == Skill;
    }
    assert plan[..|plan|] == plan;
  }

  /** The final status of an unfinished step, by its kind. */
  function Verdicts(kind: Kind, found: bool, skills: Status, hasTools: bool, passed: bool): (s: Status)
    requires skills.Terminal()
    ensures s.Terminal()
  {
    match kind
    case Retrieve => if found then Success else Error
    case Skill => skills
    case Tool => if hasTools then Success else Skipped
    case Answer => Success
    case Verify => if passed then Success else Error
  }

  function ToolStatus(hasTools: bool): Status {
    if hasTools then Success else Skipped
  }

  /** The updates for skill and tool steps, which are announced as running only if a skill is wanted. */
  function Outfitting(s: Stage, started: bool, skills: Status, hasTools: bool): Stage {
    var ready := if started then Emit(Emit(s, OfKind(Skill), Running), OfKind(Tool), Running) else s;
    Emit(Emit(ready, OfKind(Skill), skills), OfKind(Tool), ToolStatus(hasTools))
  }

  /** The updates before the answer stage, in order. */
  function Preparing(s: Stage, found: bool, started: bool, skills: Status, hasTools: bool): Stage {
    Outfitting(Through(s, Retrieve, EndStatus(found)), started, skills, hasTools)
  }

  /** The effect of both stages on a step. */
  function Ended(s: Step, found: bool, skills: Status, hasTools: bool, passed: bool): Step
    requires skills.Terminal()
  {
    if s.status.Terminal() then s else s.(status := Verdicts(s.kind, found, skills, hasTools, passed))
  }

  function Prepared(s: Step, found: bool, started: bool, skills: Status, hasTools: bool): Step {
    var s2 := Apply(Apply(s, OfKind(Retrieve), Running), OfKind(Retrieve), EndStatus(found));
    var s3 := if started then Apply(Apply(s2, OfKind(Skill), Running), OfKind(Tool), Running) else s2;
    Apply(Apply(s3, OfKind(Skill), skills), OfKind(Tool), ToolStatus(hasTools))
  }

  lemma PreparedStep(s: Step, found: bool, started: bool, skills: Status, hasTools: bool, passed: bool)
    requires skills.Terminal()
    ensures Closed(Prepared(s, found, started, skills, hasTools), passed) == Ended(s, found, skills, hasTools, passed)
  {
    OutfittedStep(Apply(Apply(s, OfKind(Retrieve), Running), OfKind(Retrieve), EndStatus(found)), started, skills, hasTools);
  }

  lemma OutfittedStep(s: Step, started: bool, skills: Status, hasTools: bool)
    requires skills.Terminal()
    ensures var ready := if started then Apply(Apply(s, OfKind(Skill), Running), OfKind(Tool), Running) else s;
            Apply(Apply(ready, OfKind(Skill), skills), OfKind(Tool), ToolStatus(hasTools))
            == if s.status.Terminal() || s.kind !in {Skill, Tool} then s
               else s.(status := if s.kind == Skill then skills else ToolStatus(hasTools))
  {
  }

  ghost predicate EndedPlan(plan: seq<Step>, r: seq<Step>, found: bool, skills: Status, hasTools: bool, passed: bool) {
    && skills.Terminal() && |r| == |plan|
    && forall i :: 0 <= i < |plan| ==> r[i] == Ended(plan[i], found, skills, hasTools, passed)
  }

  lemma PreparingSteps(s: Stage, found: bool, started: bool, skills: Status, hasTools: bool)
    ensures var r := Preparing(s, found, started, skills, hasTools).plan;
            |r| == |s.plan| && forall i :: 0 <= i < |r| ==> r[i] == Prepared(s.plan[i], found, started, skills, hasTools)
  {
  }

  /** Both stages together bring every step to its end, so the closing loop finds nothing to skip. */
  lemma BothStages(s: Stage, found: bool, started: bool, skills: Status, hasTools: bool, passed: bool)
    requires skills.Terminal()
    ensures EndedPlan(s.plan, Ending(Preparing(s, found, started, skills, hasTools), passed).plan, found, skills, hasTools, passed)
  {
    var mid := Preparing(s, found, started, skills, hasTools);
    PreparingSteps(s, found, started, skills, hasTools);
    EndingCloses(mid, passed);
    forall i | 0 <= i < |s.plan| ensures Closed(mid.plan[i], passed) == Ended(s.plan[i], found, skills, hasTools, passed) {
      PreparedStep(s.plan[i], found, started, skills, hasTools, passed);
    }
  }

  /** All that a single-pass turn announces about a step: running where its stage started, then its end, once. */
  function PassTold(s: Step, found: bool, started: bool, skills: Status, hasTools: bool, passed: bool): seq<Status>
    requires skills.Terminal()
  {
    if s.status.Terminal() then []
    else
      var end := Verdicts(s.kind, found, skills, hasTools, passed);
      if s.kind in {Skill, Tool} && !started then [end] else [Running, end]
  }

  function OutfittingCell(c: Cell, started: bool, skills: Status, hasTools: bool): Cell {
    var ready := if started then EmitCell(EmitCell(c, OfKind(Skill), Running), OfKind(Tool), Running) else c;
    EmitCell(EmitCell(ready, OfKind(Skill), skills), OfKind(Tool), ToolStatus(hasTools))
  }

  lemma StartAt(s: Stage, i: nat, c: Cell)
    requires At(s, i, c)
    ensures At(Emit(Emit(s, OfKind(Skill), Running), OfKind(Tool), Running), i,
               EmitCell(EmitCell(c, OfKind(Skill), Running), OfKind(Tool), Running))
  {
    EmitAt(s, OfKind(Skill), Running, i, c);
    EmitAt(Emit(s, OfKind(Skill), Running), OfKind(Tool), Running, i, EmitCell(c, OfKind(Skill), Running));
  }

  lemma SettleAt(s: Stage, skills: Status, tools: Status, i: nat, c: Cell)
    requires At(s, i, c)
    ensures At(Emit(Emit(s, OfKind(Skill), skills), OfKind(Tool), tools), i,
               EmitCell(EmitCell(c, OfKind(Skill), skills), OfKind(Tool), tools))
  {
    EmitAt(s, OfKind(Skill), skills, i, c);
    EmitAt(Emit(s, OfKind(Skill), skills), OfKind(Tool), tools, i, EmitCell(c, OfKind(Skill), skills));
  }

  lemma OutfittingAt(s: Stage, started: bool, skills: Status, hasTools: bool, i: nat, c: Cell)
    requires At(s, i, c)
    ensures At(Outfitting(s, started, skills, hasTools), i, OutfittingCell(c, started, skills, hasTools))
  {
    if started {
      StartAt(s, i, c);
      SettleAt(Emit(Emit(s, OfKind(Skill), Running), OfKind(Tool), Running), skills, ToolStatus(hasTools), i,
               EmitCell(EmitCell(c, OfKind(Skill), Running), OfKind(Tool), Running));
    } else {
      SettleAt(s, skills, ToolStatus(hasTools), i, c);
    }
  }

  function PassCell(c: Cell, found: bool, started: bool, skills: Status, hasTools: bool, passed: bool): Cell {
    EndingCell(OutfittingCell(ThroughCell(c, Retrieve, EndStatus(found)), started, skills, hasTools), passed)
  }

  lemma PassAt(s: Stage, found: bool, started: bool, skills: Status, hasTools: bool, passed: bool, i: nat, c: Cell)
    requires At(s, i, c)
    ensures At(Ending(Preparing(s, found, started, skills, hasTools), passed), i,
               PassCell(c, found, started, skills, hasTools, passed))
  {
    var s1, c1 := Through(s, Retrieve, EndStatus(found)), ThroughCell(c, Retrieve, EndStatus(found));
    ThroughAt(s, Retrieve, EndStatus(found), i, c);
    OutfittingAt(s1, started, skills, hasTools, i, c1);
    EndingAt(Outfitting(s1, started, skills, hasTools), passed, i, OutfittingCell(c1, started, skills, hasTools));
  }

  lemma PassCellTells(step: Step, found: bool, started: bool, skills: Status, hasTools: bool, passed: bool)
    requires skills.Terminal()
    ensures PassCell(Cell(step, []), found, started, skills, hasTools, passed)
            == Cell(Ended(step, found, skills, hasTools, passed), PassTold(step, found, started, skills, hasTools, passed))
  {
    var c1 := ThroughCell(Cell(step, []), Retrieve, EndStatus(found));
    OutfittingCellIs(c1, started, skills, hasTools);
    EndingCellIs(OutfittingCell(c1, started, skills, hasTools), passed);
  }

  lemma OutfittingCellIs(c: Cell, started: bool, skills: Status, hasTools: bool)
    requires skills.Terminal()
    ensures OutfittingCell(c, started, skills, hasTools)
            == if c.step.status.Terminal() || c.step.kind !in {Skill, Tool} then c
               else
                 var end := if c.step.kind == Skill then skills else ToolStatus(hasTools);
                 Cell(c.step.(status := end), c.told + (if started then [Running, end] else [end]))
  {
    if started {
      assert c.told + [Running] + [skills] == c.told + [Running, skills];
      assert c.told + [Running] + [ToolStatus(hasTools)] == c.told + [Running, ToolStatus(hasTools)];
    }
  }

  lemma EndingCellIs(c: Cell, passed: bool)
    ensures EndingCell(c, passed)
            == if c.step.status.Terminal() then c
               else if c.step.kind == Answer then Cell(c.step.(status := Success), c.told + [Running, Success])
               else if c.step.kind == Verify then Cell(c.step.(status := EndStatus(passed)), c.told + [Running, EndStatus(passed)])
               else if c.step.status == Pending then Cell(c.step.(status := Skipped), c.told + [Skipped])
               else c
  {
  }

  /** With distinct ids, the whole history of every step in a single-pass turn. */
  lemma EachStepToldOnce(steps: seq<Step>, found: bool, started: bool, skills: Status, hasTools: bool, passed: bool, i: nat)
    requires DistinctIds(steps) && i < |steps| && skills.Terminal()
    ensures var r := Ending(Preparing(Stage(steps, []), found, started, skills, hasTools), passed);
            && |r.plan| == |steps| && r.plan[i].id == steps[i].id
            && EventsOf(r.events, steps[i].id) == PassTold(steps[i], found, started, skills, hasTools, passed)
  {
    var s := Stage(steps, []);
    BothStages(s, found, started, skills, hasTools, passed);
    PassAt(s, found, started, skills, hasTools, passed, i, Cell(steps[i], []));
    PassCellTells(steps[i], found, started, skills, hasTools, passed);
  }

  /** What the request makes of a plan before the answer stage. */
  datatype Basis = Basis(found: seq<Evidence>, quality: Assessment, evidence: seq<Evidence>, started: bool, skills: Status)

  /** Evidence and skills are those the request leads to: nothing in them is left open. */
  ghost predicate BasedOn(p: Pass, plan: seq<Step>, b: Basis) {
    && Searched(p, b.found, b.quality)
    && b.evidence == (if b.quality.offTopic || b.quality.decision == Unfit then [] else b.found)
    && (b.started <==> p.enableSkill && (p.routerNeedsSkill || HasSkill(plan)))
    && b.skills == SkillStatus(p, b.started, b.evidence)
  }

  function SkillStatus(p: Pass, started: bool, evidence: seq<Evidence>): (s: Status)
    ensures s.Terminal()
  {
    if !started then Skipped else if p.skillsFound(evidence) then Success else Error
  }

  lemma KindsKept(plan: seq<Step>, t: Target, status: Status)
    ensures HasSkill(Update(plan, t, status)) <==> HasSkill(plan)
  {
    var after := Update(plan, t, status);
    if s :| s in plan && s.kind == Skill {
      var i :| 0 <= i < |plan| && plan[i] == s;
      assert after[i] in after;
    }
    if s :| s in after && s.kind == Skill {
      var i :| 0 <= i < |after| && after[i] == s;
      assert plan[i] in plan;
    }
  }

  /** The stages up to the answer. */
  method Prepare(t: TurnRun, p: Pass) returns (b: Basis)
    requires t.Valid()
    modifies t
    ensures t.Goes() && BasedOn(p, old(t.plan), b)
    ensures t.View() == Preparing(old(t.View()), b.evidence != [], b.started, b.skills, p.hasTools)
  {
    KindsKept(t.plan, OfKind(Retrieve), Running);
    t.EmitPlanKind(Retrieve, Running);
    var evidence, found, quality := RetrieveOnce(p);
    KindsKept(t.plan, OfKind(Retrieve), EndStatus(evidence != []));
    t.EmitPlanKind(Retrieve, EndStatus(evidence != []));
    var started, skills := Outfit(t, p, evidence);
    b := Basis(found, quality, evidence, started, skills);
  }

  /** The skill stage. */
  method Outfit(t: TurnRun, p: Pass, evidence: seq<Evidence>) returns (started: bool, skills: Status)
    requires t.Valid()
    modifies t
    ensures t.Goes()
    ensures started <==> p.enableSkill && (p.routerNeedsSkill || HasSkill(old(t.plan)))
    ensures skills == SkillStatus(p, started, evidence)
    ensures t.View() == Outfitting(old(t.View()), started, skills, p.hasTools)
  {
    var need := NeedsSkill(t.plan, p.routerNeedsSkill);
    started := need && p.enableSkill;
    if need && p.enableSkill {
      t.EmitPlanKind(Skill, Running);
      t.EmitPlanKind(Tool, Running);
    }
    skills := if p.skillsFound(evidence) then Success
              else if !need || !p.enableSkill then Skipped else Error;
    if !need || !p.enableSkill {
      skills := Skipped;
    }
    t.EmitPlanKind(Skill, skills);
    t.EmitPlanKind(Tool, ToolStatus(p.hasTools));
  }

  /**
   * The single-pass turn over a plan: every step ends with the status the request, the
   * services and the verdict give its kind, none is reopened, and the reply is gated.
   */
  method RunSinglePass(steps: seq<Step>, p: Pass, desk: Desk) returns (t: TurnRun, r: Reply, work: Work, b: Basis)
    ensures BasedOn(p, steps, b)
    ensures Published(desk, b.evidence, r) && Worked(desk, b.evidence, r, work)
    ensures |t.plan| == |steps|
    ensures forall i :: 0 <= i < |steps| ==> PassEnds(p, b.evidence, b.started, r.verdict.passed, steps[i], t.plan[i])
    ensures t.Valid() && [steps] <= t.trail && Monotone(t.trail)
    ensures t.View() == Ending(Preparing(Stage(steps, []), b.evidence != [], b.started, b.skills, p.hasTools), r.verdict.passed)
  {
    t, r, work, b := BothStagesOf(steps, p, desk);
    SinglePassEnds(steps, p, b, r.verdict.passed);
  }

  /**
   * How a single-pass turn leaves a step: a finished one as it was; a search succeeded exactly
   * if evidence was kept, a verification exactly if the answer passed, a skill by the skill
   * stage, a tool step exactly if there are tools, and an answer always.
   */
  ghost predicate PassEnds(p: Pass, evidence: seq<Evidence>, started: bool, passed: bool, before: Step, after: Step) {
    && after == before.(status := after.status)
    && if before.status in {Success, Skipped, Error} then after == before
       else match before.kind
         case Retrieve => after.status == (if evidence != [] then Success else Error)
         case Skill => after.status == (if !started then Skipped else if p.skillsFound(evidence) then Success else Error)
         case Tool => after.status == (if p.hasTools then Success else Skipped)
         case Answer => after.status == Success
         case Verify => after.status == (if passed then Success else Error)
  }

  lemma EndedIs(s: Step, p: Pass, evidence: seq<Evidence>, started: bool, passed: bool)
    ensures PassEnds(p, evidence, started, passed, s,
                     Ended(s, evidence != [], SkillStatus(p, started, evidence), p.hasTools, passed))
  {
  }

  lemma EndedPlanIs(steps: seq<Step>, plan: seq<Step>, p: Pass, evidence: seq<Evidence>, started: bool, passed: bool)
    requires EndedPlan(steps, plan, evidence != [], SkillStatus(p, started, evidence), p.hasTools, passed)
    ensures |plan| == |steps| && forall i :: 0 <= i < |steps| ==> PassEnds(p, evidence, started, passed, steps[i], plan[i])
  {
    forall i | 0 <= i < |steps| ensures PassEnds(p, evidence, started, passed, steps[i], plan[i]) {
      EndedIs(steps[i], p, evidence, started, passed);
    }
  }

  lemma SinglePassEnds(steps: seq<Step>, p: Pass, b: Basis, passed: bool)
    requires b.skills == SkillStatus(p, b.started, b.evidence)
    ensures var plan := Ending(Preparing(Stage(steps, []), b.evidence != [], b.started, b.skills, p.hasTools), passed).plan;
            |plan| == |steps| && forall i :: 0 <= i < |steps| ==> PassEnds(p, b.evidence, b.started, passed, steps[i], plan[i])
  {
    var plan := Ending(Preparing(Stage(steps, []), b.evidence != [], b.started, b.skills, p.hasTools), passed).plan;
    BothStages(Stage(steps, []), b.evidence != [], b.started, b.skills, p.hasTools, passed);
    EndedPlanIs(steps, plan, p, b.evidence, b.started, passed);
  }

  method BothStagesOf(steps: seq<Step>, p: Pass, desk: Desk) returns (t: TurnRun, r: Reply, work: Work, b: Basis)
    ensures BasedOn(p, steps, b)
    ensures Published(desk, b.evidence, r) && Worked(desk, b.evidence, r, work)
    ensures t.View() == Ending(Preparing(Stage(steps, []), b.evidence != [], b.started, b.skills, p.hasTools), r.verdict.passed)
    ensures t.Valid() && [steps] <= t.trail && Monotone(t.trail)
  {
    t := new TurnRun(steps, [], [steps]);
    b := Prepare(t, p);
    r, work := t.AnswerAndComply(desk, true, b.evidence);
  }

  // ---- The plan-executor path ----

  /** Over the whole turn a step is announced as running and then with its final status. */
  lemma ExecutorEvents(c: Context, steps: seq<Step>, parallel: bool, board: Option<Book>, waves: seq<seq<Id>>,
                       result: Run, plan: seq<Step>, events: seq<Event>, i: nat)
    requires DistinctIds(steps) && i < |steps|
    requires Completed(c, steps, parallel, board, waves, result, plan, events)
    ensures |plan| == |steps| && plan[i].id == steps[i].id
    ensures EventsOf(events, steps[i].id) == [Running, plan[i].status] && plan[i].status.Terminal()
  {
    var first := Inferred(steps, c.use.lower);
    SameLookup(steps, first, first[i].id);
    EachStepRunsOnce(c, steps, parallel, board, first[i].id);
  }

  lemma NoChange(s: Stage, t: Target, status: Status)
    requires AllEnded(s.plan)
    ensures Emit(s, t, status) == s
  {
    assert Changed(s.plan, t) == {};
    AnnounceNobody(s.plan);
    assert Update(s.plan, t, status) == s.plan;
    assert s.events + [] == s.events;
  }

  /** Over a finished plan the last stage changes and announces nothing. */
  lemma EndingOfEnded(s: Stage, passed: bool)
    requires AllEnded(s.plan)
    ensures Ending(s, passed) == s
  {
    NoChange(s, OfKind(Answer), Running);
    NoChange(s, OfKind(Answer), Success);
    NoChange(s, OfKind(Verify), Running);
    NoChange(s, OfKind(Verify), EndStatus(passed));
    NothingSkipped(s.plan);
    assert Update(s.plan, NeverStarted, Skipped) == s.plan;
    assert s.events + [] == s.events;
  }

  lemma {:induction false} NothingSkipped(plan: seq<Step>)
    requires AllEnded(plan)
    ensures Skips(plan) == []
  {
    if plan != [] {
      NothingSkipped(plan[..|plan| - 1]);
    }
  }

  lemma ExecutorEnds(c: Context, steps: seq<Step>, parallel: bool, board: Option<Book>, waves: seq<seq<Id>>,
                     result: Run, plan: seq<Step>, events: seq<Event>)
    requires Completed(c, steps, parallel, board, waves, result, plan, events)
    ensures AllEnded(plan) && |plan| == |steps|
    ensures forall i :: 0 <= i < |plan| ==> plan[i].id == steps[i].id && plan[i].kind == steps[i].kind
  {
    forall i | 0 <= i < |plan| ensures plan[i].status.Terminal() {
      ExecutorEndsAt(c, steps, parallel, board, waves, result, plan, events, i);
    }
  }

  lemma ExecutorEndsAt(c: Context, steps: seq<Step>, parallel: bool, board: Option<Book>, waves: seq<seq<Id>>,
                       result: Run, plan: seq<Step>, events: seq<Event>, i: nat)
    requires Completed(c, steps, parallel, board, waves, result, plan, events) && i < |steps|
    ensures |plan| == |steps| && plan[i].status.Terminal()
  {
    EveryStepEnds(c, steps, parallel, board, steps[i].id);
  }

  /** What is known of a completed run: every step ended, what was reopened, what the ledger gained. */
  lemma ExecutorFacts(c: Context, steps: seq<Step>, parallel: bool, b0: Book, waves: seq<seq<Id>>,
                      result: Run, plan: seq<Step>, events: seq<Event>)
    requires Completed(c, steps, parallel, Some(b0), waves, result, plan, events)
    ensures AllEnded(plan) && Mirrors(b0, result)
    ensures Monotone(Trail(Inferred(steps, c.use.lower), events)) <==> Unfinished(steps)
  {
    ExecutorEnds(c, steps, parallel, Some(b0), waves, result, plan, events);
    NothingReopenedExactlyWhen(c, steps, parallel, Some(b0));
    LedgerGainsTheErrors(c, steps, parallel, b0);
  }

  /** A trail that goes on without reopening anything is monotone exactly when its beginning is. */
  lemma MonotoneStart(a: seq<seq<Step>>, b: seq<seq<Step>>)
    requires a <= b && Monotone(b)
    ensures Monotone(a)
  {
    forall k | 0 < k < |a| ensures Moves(a[k - 1], a[k]) {
      assert Moves(b[k - 1], b[k]);
    }
  }

  /**
   * The turn over the plan executor: the answer stage adds no status change to the
   * executor's, and no finished step is ever changed, from the first plan to the last, if
   * and only if none was finished at the start.
   */
  method RunWithExecutor(c: Context, steps: seq<Step>, parallel: bool, board: TurnState, desk: Desk)
    returns (t: TurnRun, r: Reply, work: Work, run: PlanRun, waves: seq<seq<Id>>)
    modifies board
    ensures run.turn == board && Mirrors(old(board.View()), run.View())
    ensures Completed(c, steps, parallel, Some(old(board.View())), waves, run.View(), t.plan, t.events)
    ensures AllEnded(t.plan)
    ensures Published(desk, run.bag, r) && Worked(desk, run.bag, r, work)
    ensures t.Valid() && Trail(Inferred(steps, c.use.lower), t.events) <= t.trail
    ensures Monotone(t.trail) <==> Unfinished(steps)
  {
    ghost var trail;
    run, waves, trail := RunExecutor(c, steps, parallel, board);
    t, r, work := AnswerFinished(run.steps, run.events, trail, run.bag, desk);
  }

  /** The executor's part of the turn, with the plans between its status changes. */
  method RunExecutor(c: Context, steps: seq<Step>, parallel: bool, board: TurnState)
    returns (run: PlanRun, waves: seq<seq<Id>>, ghost trail: seq<seq<Step>>)
    modifies board
    ensures run.turn == board && Mirrors(old(board.View()), run.View())
    ensures Completed(c, steps, parallel, Some(old(board.View())), waves, run.View(), run.steps, run.events)
    ensures AllEnded(run.steps)
    ensures trail == Trail(Inferred(steps, c.use.lower), run.events) && trail[|trail| - 1] == run.steps
    ensures Monotone(trail) <==> Unfinished(steps)
  {
    run, waves := RunPlan(c, steps, parallel, board);
    ExecutorFacts(c, steps, parallel, old(board.View()), waves, run.View(), run.steps, run.events);
    trail := Trail(Inferred(steps, c.use.lower), run.events);
  }

  /** The answer stage over a finished plan. */
  method AnswerFinished(plan: seq<Step>, events: seq<Event>, ghost trail: seq<seq<Step>>, evidence: seq<Evidence>, desk: Desk)
    returns (t: TurnRun, r: Reply, work: Work)
    requires AllEnded(plan) && trail != [] && trail[|trail| - 1] == plan
    ensures Published(desk, evidence, r) && Worked(desk, evidence, r, work)
    ensures t.plan == plan && t.events == events && t.Valid()
    ensures trail <= t.trail && (Monotone(t.trail) <==> Monotone(trail))
  {
    t := new TurnRun(plan, events, trail);
    r, work := t.AnswerAndComply(desk, true, evidence);
    EndingOfEnded(Stage(plan, events), r.verdict.passed);
    if Monotone(t.trail) {
      MonotoneStart(trail, t.trail);
    }
  }

  // ---- The order of the announcements ----

  /** Every announcement is about the id of some step of the kind. */
  ghost predicate Concerns(steps: seq<Step>, kind: Kind, told: seq<Event>) {
    forall e :: e in told ==> exists k :: 0 <= k < |steps| && steps[k].id == e.id && steps[k].kind == kind
  }

  ghost predicate SameSteps(a: seq<Step>, b: seq<Step>) {
    |a| == |b| && forall i :: 0 <= i < |a| ==> a[i].id == b[i].id && a[i].kind == b[i].kind
  }

  /** One update: what it adds to the announcements concerns its kind. */
  lemma EmitTells(steps: seq<Step>, s: Stage, kind: Kind, status: Status) returns (told: seq<Event>)
    requires SameSteps(steps, s.plan)
    ensures Emit(s, OfKind(kind), status).events == s.events + told && Concerns(steps, kind, told)
    ensures SameSteps(steps, Emit(s, OfKind(kind), status).plan)
  {
    var after := Emit(s, OfKind(kind), status).plan;
    var changed := Changed(s.plan, OfKind(kind));
    told := Announce(after, changed);
    var at := AnnouncePositions(after, changed);
    forall e | e in told ensures exists k :: 0 <= k < |steps| && steps[k].id == e.id && steps[k].kind == kind {
      var j :| 0 <= j < |told| && told[j] == e;
      assert at[j] in at && e.id in changed;
      ChangedIds(s.plan, kind, e.id);
      var k :| 0 <= k < |s.plan| && s.plan[k].id == e.id && s.plan[k].kind == kind && s.plan[k].status in {Pending, Running};
      assert steps[k].id == e.id;
    }
  }

  lemma {:induction false} SkipsTell(plan: seq<Step>)
    ensures forall e :: e in Skips(plan) ==> e.status == Skipped
  {
    if plan != [] {
      SkipsTell(plan[..|plan| - 1]);
    }
  }

  lemma ThroughTells(steps: seq<Step>, s: Stage, kind: Kind, end: Status) returns (told: seq<Event>)
    requires SameSteps(steps, s.plan)
    ensures Through(s, kind, end).events == s.events + told && Concerns(steps, kind, told)
    ensures SameSteps(steps, Through(s, kind, end).plan)
  {
    var a := EmitTells(steps, s, kind, Running);
    var b := EmitTells(steps, Emit(s, OfKind(kind), Running), kind, end);
    told := a + b;
  }

  /** The skill stage: first what starts, skills before tools, and then how it ends, in the same order. */
  lemma OutfittingTells(steps: seq<Step>, s: Stage, started: bool, skills: Status, hasTools: bool)
    returns (begin: seq<seq<Event>>, end: seq<seq<Event>>)
    requires SameSteps(steps, s.plan)
    ensures |begin| == |end| == 2 && Outfitting(s, started, skills, hasTools).events == s.events + begin[0] + begin[1] + end[0] + end[1]
    ensures Concerns(steps, Skill, begin[0]) && Concerns(steps, Tool, begin[1]) && (!started ==> begin == [[], []])
    ensures Concerns(steps, Skill, end[0]) && Concerns(steps, Tool, end[1])
    ensures SameSteps(steps, Outfitting(s, started, skills, hasTools).plan)
  {
    begin := [[], []];
    var ready := s;
    if started {
      var a := EmitTells(steps, s, Skill, Running);
      var b := EmitTells(steps, Emit(s, OfKind(Skill), Running), Tool, Running);
      begin := [a, b];
      ready := Emit(Emit(s, OfKind(Skill), Running), OfKind(Tool), Running);
    }
    var c := EmitTells(steps, ready, Skill, skills);
    var d := EmitTells(steps, Emit(ready, OfKind(Skill), skills), Tool, ToolStatus(hasTools));
    end := [c, d];
  }

  /** The last stage: the answer, then the verification, then what was never started. */
  lemma EndingTells(steps: seq<Step>, s: Stage, passed: bool) returns (answer: seq<Event>, verify: seq<Event>, skipped: seq<Event>)
    requires SameSteps(steps, s.plan)
    ensures Ending(s, passed).events == s.events + answer + verify + skipped
    ensures Concerns(steps, Answer, answer) && Concerns(steps, Verify, verify) && forall e :: e in skipped ==> e.status == Skipped
  {
    answer := ThroughTells(steps, s, Answer, Success);
    var s1 := Through(s, Answer, Success);
    verify := ThroughTells(steps, s1, Verify, EndStatus(passed));
    skipped := Skips(Through(s1, Verify, EndStatus(passed)).plan);
    SkipsTell(Through(s1, Verify, EndStatus(passed)).plan);
  }

  /** A single-pass turn announces search, skills and tools, answer, verification and skips, in this order. */
  lemma StagesInOrder(steps: seq<Step>, found: bool, started: bool, skills: Status, hasTools: bool, passed: bool)
    returns (search: seq<Event>, begin: seq<seq<Event>>, end: seq<seq<Event>>, answer: seq<Event>, verify: seq<Event>, skipped: seq<Event>)
    ensures |begin| == |end| == 2
    ensures PassEvents(steps, found, started, skills, hasTools, passed)
            == search + begin[0] + begin[1] + end[0] + end[1] + answer + verify + skipped
    ensures Concerns(steps, Retrieve, search) && (!started ==> begin == [[], []])
    ensures Concerns(steps, Skill, begin[0]) && Concerns(steps, Tool, begin[1])
    ensures Concerns(steps, Skill, end[0]) && Concerns(steps, Tool, end[1])
    ensures Concerns(steps, Answer, answer) && Concerns(steps, Verify, verify) && forall e :: e in skipped ==> e.status == Skipped
  {
    var s := Stage(steps, []);
    search := ThroughTells(steps, s, Retrieve, EndStatus(found));
    begin, end, answer, verify, skipped :=
      RestTells(steps, Through(s, Retrieve, EndStatus(found)), search, started, skills, hasTools, passed);
  }

  /** All that a single-pass turn announces. */
  ghost function PassEvents(steps: seq<Step>, found: bool, started: bool, skills: Status, hasTools: bool, passed: bool): seq<Event> {
    Ending(Preparing(Stage(steps, []), found, started, skills, hasTools), passed).events
  }

  lemma RestTells(steps: seq<Step>, s: Stage, search: seq<Event>, started: bool, skills: Status, hasTools: bool, passed: bool)
    returns (begin: seq<seq<Event>>, end: seq<seq<Event>>, answer: seq<Event>, verify: seq<Event>, skipped: seq<Event>)
    requires SameSteps(steps, s.plan) && s.events == [] + search
    ensures |begin| == |end| == 2
    ensures Ending(Outfitting(s, started, skills, hasTools), passed).events
            == search + begin[0] + begin[1] + end[0] + end[1] + answer + verify + skipped
    ensures !started ==> begin == [[], []]
    ensures Concerns(steps, Skill, begin[0]) && Concerns(steps, Tool, begin[1])
    ensures Concerns(steps, Skill, end[0]) && Concerns(steps, Tool, end[1])
    ensures Concerns(steps, Answer, answer) && Concerns(steps, Verify, verify) && forall e :: e in skipped ==> e.status == Skipped
  {
    assert s.events == search;
    begin, end := OutfittingTells(steps, s, started, skills, hasTools);
    answer, verify, skipped := EndingTells(steps, Outfitting(s, started, skills, hasTools), passed);
  }
}
