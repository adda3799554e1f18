/** Turning a question and the router's proposal into a validated plan. */
module Normalize {
  import opened Seqs
  import opened Text
  import opened Plan

  datatype Complexity = Simple | MultiStep
  datatype Difficulty = Direct | Steps | Branched
  datatype Source = NoPlan | FromUser | FromRouter
  datatype Task = Checklist | Compare | Summary | OtherTask

  /** An entry of the router's plan: a typed step, a dictionary, or something unusable. */
  datatype Raw =
    | Typed(step: Step)
    | Dict(id: string, title: string, kind: Option<Kind>, query: string, skill: string, toolHints: seq<string>, dependsOn: seq<string>)
    | Junk

  datatype Router = Router(
    task: Task,
    needSkill: bool,
    rewrite: string,
    complexity: Complexity,
    difficulty: Difficulty,
    source: Source,
    plan: seq<Raw>)

  datatype Planned = Planned(complexity: Complexity, difficulty: Difficulty, source: Source, steps: seq<Step>)

  datatype Flags = Flags(enabled: bool, maxSteps: int, totEnabled: bool, totAuto: bool) {
    function Max(): (r: nat)
      ensures 1 <= r <= 10
      ensures maxSteps == 0 ==> r == 5
      ensures 1 <= maxSteps <= 10 ==> r == maxSteps
      ensures maxSteps > 10 ==> r == 10
      ensures maxSteps < 0 ==> r == 1
    {
      var asked := if maxSteps == 0 then 5 else maxSteps;
      if asked > 10 then 10 else if asked < 1 then 1 else asked
    }

    predicate Branching() {
      totEnabled && totAuto
    }
  }

  /** Readings of a text by pattern and keyword. */
  datatype Reader = Reader(
    numbered: string -> seq<string>,
    explicit: string -> bool,
    multiPhase: string -> bool,
    branchHints: string -> bool,
    connects: string -> bool,
    comparesForms: string -> bool,
    kindOf: string -> Kind,
    skillOf: Option<string> -> Option<string>)

  // ---- Steps the user numbered ----

  function UserStep(r: Reader, title: string, index: nat): Step {
    var kind := r.kindOf(title);
    Step("s" + Decimal(index), Take(title, 120), kind,
         if kind in {Retrieve, Skill, Tool} then Some(Take(title, 4000)) else None,
         if kind == Skill then r.skillOf(Some(title)) else None, [], [], Pending)
  }

  /** The step for one match, if its title is not blank. */
  function UserEntry(r: Reader, title: string, index: nat): Option<Step> {
    if Strip(title) == "" then None else Some(UserStep(r, Strip(title), index))
  }

  /** The steps for a list of matches, numbered from 1, blank titles skipped. */
  function UserSteps(r: Reader, titles: seq<string>): seq<Step> {
    if titles == [] then []
    else
      var front := UserSteps(r, titles[..|titles| - 1]);
      var last := UserEntry(r, titles[|titles| - 1], |front| + 1);
      if last.None? then front else front + [last.value]
  }

  /** `parse_user_numbered_steps`. */
  method ParseUserSteps(r: Reader, question: string, max: nat) returns (steps: seq<Step>)
    requires max >= 1
    ensures steps == Take(UserSteps(r, r.numbered(question)), max)
  {
    steps := ReadTitles(r, r.numbered(question), max);
  }

  method ReadTitles(r: Reader, titles: seq<string>, max: nat) returns (steps: seq<Step>)
    requires max >= 1
    ensures steps == Take(UserSteps(r, titles), max)
  {
    steps := [];
    var i := 0;
    while i < |titles| && |steps| < max
      invariant 0 <= i <= |titles| && |steps| <= max
      invariant steps == UserSteps(r, titles[..i])
    {
      UserStepsNext(r, titles, i);
      var step := UserEntry(r, titles[i], |steps| + 1);
      steps := if step.Some? then steps + [step.value] else steps;
      i := i + 1;
    }
    ReadEnough(r, titles, i, max);
  }

  /** Reading may stop at the end of the list or once there are enough steps. */
  lemma ReadEnough(r: Reader, titles: seq<string>, i: nat, max: nat)
    requires i <= |titles| && |UserSteps(r, titles[..i])| <= max
    requires i == |titles| || |UserSteps(r, titles[..i])| == max
    ensures Take(UserSteps(r, titles), max) == UserSteps(r, titles[..i])
  {
    UserStepsPrefix(r, titles, i);
    TakePrefix(UserSteps(r, titles[..i]), UserSteps(r, titles), max);
  }

  lemma TakePrefix(front: seq<Step>, all: seq<Step>, max: nat)
    requires front <= all && (|front| == max || (front == all && |front| <= max))
    ensures Take(all, max) == front
  {
  }

  lemma UserStepsNext(r: Reader, titles: seq<string>, i: nat)
    requires i < |titles|
    ensures var front := UserSteps(r, titles[..i]);
            var next := UserEntry(r, titles[i], |front| + 1);
            UserSteps(r, titles[..i + 1]) == if next.None? then front else front + [next.value]
  {
    assert titles[..i + 1][..i] == titles[..i];
  }

  lemma {:induction false} UserStepsPrefix(r: Reader, titles: seq<string>, i: nat)
    requires i <= |titles|
    ensures UserSteps(r, titles[..i]) <= UserSteps(r, titles)
    ensures i == |titles| ==> titles[..i] == titles
  {
    if i < |titles| {
      assert titles[..|titles| - 1][..i] == titles[..i];
      UserStepsPrefix(r, titles[..|titles| - 1], i);
    } else {
      assert titles[..i] == titles;
    }
  }

  // ---- Steps the router proposed ----

  function Clean(items: seq<string>): seq<string> {
    if items == [] then []
    else
      var front, last := Clean(items[..|items| - 1]), Strip(items[|items| - 1]);
      if last == "" then front else front + [last]
  }

  function Nonblank(s: string): Option<string> {
    if Strip(s) == "" then None else Some(Strip(s))
  }

  function SkillHint(r: Reader, raw: string, title: string, kind: Kind): Option<string> {
    var named := r.skillOf(Nonblank(raw));
    if named.Some? && named.value != "" then named
    else if kind == Skill then r.skillOf(Some(title))
    else None
  }

  function Cut(s: Option<string>): Option<string> {
    if s.None? then None else Some(Take(s.value, 4000))
  }

  function Given(s: Option<string>): string {
    if s.None? then "" else s.value
  }

  /** `_coerce_step`. */
  function Coerce(r: Reader, raw: Raw, index: nat): Option<Step> {
    match raw
    case Junk => None
    case Typed(s) =>
      var title := OrElse(Strip(s.title), "步骤 " + Decimal(index));
      Some(Step(Take(OrElse(s.id, "s" + Decimal(index)), 32), Take(title, 120), s.kind,
                Cut(Nonblank(Given(s.query))), SkillHint(r, Given(s.skillHint), title, s.kind),
                Take(Clean(s.toolHints), 8), Take(Clean(s.dependsOn), 8), Pending))
    case Dict(id, rawTitle, rawKind, query, skill, toolHints, dependsOn) =>
      var title := Strip(rawTitle);
      if title == "" then None
      else
        var kind := if rawKind.Some? then rawKind.value else r.kindOf(title);
        var asked := Cut(Nonblank(query));
        Some(Step(Take(OrElse(Strip(OrElse(id, "s" + Decimal(index))), "s" + Decimal(index)), 32), Take(title, 120), kind,
                  if asked.Some? then asked else if kind in {Retrieve, Skill, Tool} then Some(Take(title, 4000)) else None,
                  SkillHint(r, skill, title, kind), Take(Clean(toolHints), 8), Take(Clean(dependsOn), 8), Pending))
  }

  /** The usable entries; an entry's number is its position in the raw list. */
  function Coerced(r: Reader, raws: seq<Raw>): seq<Step> {
    if raws == [] then []
    else
      var front, last := Coerced(r, raws[..|raws| - 1]), Coerce(r, raws[|raws| - 1], |raws|);
      if last.Some? then front + [last.value] else front
  }

  method CoerceAll(r: Reader, raws: seq<Raw>, max: nat) returns (steps: seq<Step>)
    requires max >= 1
    ensures steps == Take(Coerced(r, raws), max)
  {
    steps := [];
    var i := 0;
    while i < |raws| && |steps| < max
      invariant 0 <= i <= |raws| && |steps| <= max
      invariant steps == Coerced(r, raws[..i])
    {
      assert raws[..i + 1][..i] == raws[..i];
      var step := Coerce(r, raws[i], i + 1);
      if step.Some? {
        steps := steps + [step.value];
      }
      i := i + 1;
    }
    CoerceEnough(r, raws, i, max);
  }

  lemma CoerceEnough(r: Reader, raws: seq<Raw>, i: nat, max: nat)
    requires i <= |raws| && |Coerced(r, raws[..i])| <= max
    requires i == |raws| || |Coerced(r, raws[..i])| == max
    ensures Take(Coerced(r, raws), max) == Coerced(r, raws[..i])
  {
    CoercedPrefix(r, raws, i);
    TakePrefix(Coerced(r, raws[..i]), Coerced(r, raws), max);
  }

  lemma {:induction false} CoercedPrefix(r: Reader, raws: seq<Raw>, i: nat)
    requires i <= |raws|
    ensures Coerced(r, raws[..i]) <= Coerced(r, raws)
    ensures i == |raws| ==> raws[..i] == raws
  {
    if i < |raws| {
      assert raws[..|raws| - 1][..i] == raws[..i];
      CoercedPrefix(r, raws[..|raws| - 1], i);
    } else {
      assert raws[..i] == raws;
    }
  }

  // ---- The answer at the end ----

  const FINAL := "整理最终回答"

  function AnswerStep(id: Id, title: string): Step {
    Step(id, title, Answer, None, None, [], [], Pending)
  }

  predicate HasAnswer(steps: seq<Step>) {
    exists s :: s in steps && s.kind == Answer
  }

  /** `_ensure_answer_tail`. */
  function WithAnswer(steps: seq<Step>, max: nat): (r: seq<Step>)
    requires max >= 1
    ensures |r| <= max
    ensures |steps| <= max ==> (r == [] <==> steps == []) && (steps != [] ==> HasAnswer(r)) && |steps| <= |r|
    ensures |steps| <= max && HasAnswer(steps) ==> r == steps
  {
    if steps == [] then steps
    else if HasAnswer(steps) then Take(steps, max)
    else if |steps| >= max then
      var last := steps[max - 1];
      var tail := AnswerStep(last.id, if '答' in last.title then last.title else FINAL);
      assert tail in steps[..max - 1] + [tail];
      steps[..max - 1] + [tail]
    else
      var tail := AnswerStep("s" + Decimal(|steps| + 1), FINAL);
      assert tail in steps + [tail];
      steps + [tail]
  }

  /** `_default_plan_for_task`. */
  function DefaultPlan(question: string, router: Router): (r: seq<Step>)
    ensures 2 <= |r| <= 3
    ensures r[0].id == "s1" && r[0].kind == Retrieve && r[|r| - 1].kind == Answer
  {
    var query := Some(OrElse(Strip(router.rewrite), Take(Strip(question), 4000)));
    var first := Step("s1", "检索相关制度证据", Retrieve, query, None, [], [], Pending);
    if router.needSkill || router.task != OtherTask then
      var skill := match router.task case Compare => "policy_compare" case Summary => "summary" case _ => "process_checklist";
      [first,
       Step("s2", "执行业务规程（" + skill + "）", Skill, query, Some(skill), ["skill.run"], [], Pending),
       AnswerStep("s3", "基于证据生成回答")]
    else [first, AnswerStep("s2", "基于证据生成回答")]
  }

  // ---- Classification ----

  predicate NumberedPath(r: Reader, text: string) {
    |Take(UserSteps(r, r.numbered(text)), 5)| >= 2
  }

  /** `should_be_branched`. */
  predicate ShouldBranch(r: Reader, question: string, router: Router) {
    var text := Strip(question);
    && text != "" && !NumberedPath(r, text)
    && (|| r.branchHints(text) || router.difficulty == Branched
        || (router.task == Compare && ((r.multiPhase(text) && |text| >= 28) || r.comparesForms(text))))
  }

  /** `should_be_multi_step`. */
  predicate ShouldPlan(r: Reader, question: string, router: Router) {
    var text := Strip(question);
    && text != ""
    && (|| r.explicit(text) || NumberedPath(r, text) || (r.multiPhase(text) && |text| >= 16)
        || ShouldBranch(r, question, router)
        || (router.task in {Checklist, Compare} && (|text| >= 24 || r.connects(text))))
  }

  predicate Branches(r: Reader, question: string, router: Router, flags: Flags) {
    flags.Branching() && (router.difficulty == Branched || ShouldBranch(r, question, router))
  }

  const NOTHING := Planned(Simple, Direct, NoPlan, [])

  /** The result of `normalize_plan`, by case. */
  function Normalized(r: Reader, question: string, router: Router, flags: Flags): Planned {
    var max := flags.Max();
    var user := Take(UserSteps(r, r.numbered(question)), max);
    var coerced := Take(Coerced(r, router.plan), max);
    var difficulty := if Branches(r, question, router, flags) then Branched else Steps;
    if !flags.enabled then NOTHING
    else if |user| >= 2 then Planned(MultiStep, Steps, FromUser, WithAnswer(user, max))
    else if |coerced| >= 2 && (router.complexity == MultiStep || Wanted(r, question, router, flags) || r.explicit(question)) then
      Planned(MultiStep, difficulty, FromRouter, WithAnswer(coerced, max))
    else if Wanted(r, question, router, flags) then
      Planned(MultiStep, difficulty, FromRouter, WithAnswer(Take(DefaultPlan(question, router), max), max))
    else if r.explicit(question) && coerced != [] then
      Planned(MultiStep, difficulty, FromRouter, WithAnswer(coerced, max))
    else NOTHING
  }

  predicate Wanted(r: Reader, question: string, router: Router, flags: Flags) {
    ShouldPlan(r, question, router) || Branches(r, question, router, flags)
  }

  /** `normalize_plan`. */
  method NormalizePlan(r: Reader, question: string, router: Router, flags: Flags) returns (p: Planned)
    ensures p == Normalized(r, question, router, flags)
  {
    var max := flags.Max();
    if !flags.enabled {
      return NOTHING;
    }
    var user := ParseUserSteps(r, question, max);
    if |user| >= 2 {
      return Planned(MultiStep, Steps, FromUser, WithAnswer(user, max));
    }
    var coerced := CoerceAll(r, router.plan, max);
    var routerSaysMulti := router.complexity == MultiStep && |coerced| >= 2;
    var branched := flags.totEnabled && flags.totAuto && (router.difficulty == Branched || ShouldBranch(r, question, router));
    var difficulty := if branched then Branched else Steps;
    if routerSaysMulti {
      return Planned(MultiStep, difficulty, FromRouter, WithAnswer(coerced, max));
    }
    if ShouldPlan(r, question, router) || branched {
      var steps := if |coerced| >= 2 then coerced else Take(DefaultPlan(question, router), max);
      return Planned(MultiStep, difficulty, FromRouter, WithAnswer(steps, max));
    }
    if r.explicit(question) && coerced != [] {
      return Planned(MultiStep, difficulty, FromRouter, WithAnswer(coerced, max));
    }
    return NOTHING;
  }

  // ---- What every plan satisfies ----

  lemma PlanShape(r: Reader, question: string, router: Router, flags: Flags)
    ensures var p := Normalized(r, question, router, flags);
            && (p.steps == [] <==> p.complexity == Simple)
            && (p.steps == [] <==> p.difficulty == Direct)
            && (p.steps == [] <==> p.source == NoPlan)
            && |p.steps| <= flags.Max()
            && (p.steps != [] ==> HasAnswer(p.steps))
  {
  }

  lemma BranchedOnlyWhenAsked(r: Reader, question: string, router: Router, flags: Flags)
    requires Normalized(r, question, router, flags).difficulty == Branched
    ensures flags.enabled && flags.totEnabled && flags.totAuto
    ensures |Take(UserSteps(r, r.numbered(question)), flags.Max())| < 2
    ensures router.difficulty == Branched || ShouldBranch(r, question, router)
  {
  }

  // ---- Normalizing twice ----

  function Feed(router: Router, p: Planned): Router {
    router.(complexity := p.complexity, difficulty := p.difficulty, source := p.source, plan := AsRaw(p.steps))
  }

  function AsRaw(steps: seq<Step>): (r: seq<Raw>)
    ensures |r| == |steps| && forall i :: 0 <= i < |r| ==> r[i] == Typed(steps[i])
  {
    seq(|steps|, i requires 0 <= i < |steps| => Typed(steps[i]))
  }

  ghost predicate SameSteps(a: seq<Step>, b: seq<Step>) {
    && |a| == |b|
    && forall i :: 0 <= i < |a| ==> a[i].id == b[i].id && a[i].kind == b[i].kind && a[i].dependsOn == b[i].dependsOn
  }

  ghost predicate SamePlan(p: Planned, q: Planned) {
    p.complexity == q.complexity && p.difficulty == q.difficulty && p.source == q.source && SameSteps(p.steps, q.steps)
  }

  ghost predicate Stripped(items: seq<string>) {
    forall i :: 0 <= i < |items| ==> items[i] != "" && Strip(items[i]) == items[i]
  }

  /** A step that a second coercion leaves as it is. */
  ghost predicate Neat(s: Step) {
    1 <= |s.id| <= 32 && |s.dependsOn| <= 8 && Stripped(s.dependsOn)
  }

  ghost predicate AllNeat(steps: seq<Step>) {
    forall i :: 0 <= i < |steps| ==> Neat(steps[i])
  }

  lemma {:induction false} CleanIsStripped(items: seq<string>)
    ensures Stripped(Clean(items))
  {
    if items != [] {
      CleanIsStripped(items[..|items| - 1]);
      StripTwice(items[|items| - 1]);
    }
  }

  lemma {:induction false} CleanKeeps(items: seq<string>)
    requires Stripped(items)
    ensures Clean(items) == items
  {
    if items != [] {
      CleanKeeps(items[..|items| - 1]);
      assert items == items[..|items| - 1] + [items[|items| - 1]];
    }
  }

  lemma CoerceIsNeat(r: Reader, raw: Raw, index: nat)
    ensures Coerce(r, raw, index).Some? ==> Neat(Coerce(r, raw, index).value)
  {
    match raw {
      case Junk =>
      case Typed(s) => CleanIsStripped(s.dependsOn);
      case Dict(_, _, _, _, _, _, dependsOn) => CleanIsStripped(dependsOn);
    }
  }

  lemma {:induction false} CoercedIsNeat(r: Reader, raws: seq<Raw>)
    ensures AllNeat(Coerced(r, raws))
  {
    if raws != [] {
      CoercedIsNeat(r, raws[..|raws| - 1]);
      CoerceIsNeat(r, raws[|raws| - 1], |raws|);
    }
  }

  lemma CoerceKeeps(r: Reader, s: Step, index: nat)
    requires Neat(s)
    ensures var c := Coerce(r, Typed(s), index);
            c.Some? && c.value.id == s.id && c.value.kind == s.kind && c.value.dependsOn == s.dependsOn
  {
    CleanKeeps(s.dependsOn);
  }

  lemma {:induction false} CoercedKeeps(r: Reader, steps: seq<Step>)
    requires AllNeat(steps)
    ensures SameSteps(Coerced(r, AsRaw(steps)), steps)
  {
    if steps != [] {
      CoercedKeeps(r, steps[..|steps| - 1]);
      KeepsOneMore(r, steps);
    }
  }

  lemma KeepsOneMore(r: Reader, steps: seq<Step>)
    requires steps != [] && Neat(steps[|steps| - 1])
    requires SameSteps(Coerced(r, AsRaw(steps[..|steps| - 1])), steps[..|steps| - 1])
    ensures SameSteps(Coerced(r, AsRaw(steps)), steps)
  {
    var c := LastCoerced(r, steps);
    SameSnoc(Coerced(r, AsRaw(steps[..|steps| - 1])), steps[..|steps| - 1], c, steps[|steps| - 1], steps);
  }

  /** The last of some typed steps is read as a step with the same id, kind and dependencies. */
  lemma LastCoerced(r: Reader, steps: seq<Step>) returns (c: Step)
    requires steps != [] && Neat(steps[|steps| - 1])
    ensures Coerced(r, AsRaw(steps)) == Coerced(r, AsRaw(steps[..|steps| - 1])) + [c]
    ensures var last := steps[|steps| - 1]; c.id == last.id && c.kind == last.kind && c.dependsOn == last.dependsOn
  {
    CoerceKeeps(r, steps[|steps| - 1], |steps|);
    CoercedTyped(r, steps);
    c := Coerce(r, Typed(steps[|steps| - 1]), |steps|).value;
  }

  lemma CoercedTyped(r: Reader, steps: seq<Step>)
    requires steps != [] && Coerce(r, Typed(steps[|steps| - 1]), |steps|).Some?
    ensures Coerced(r, AsRaw(steps))
            == Coerced(r, AsRaw(steps[..|steps| - 1])) + [Coerce(r, Typed(steps[|steps| - 1]), |steps|).value]
  {
    assert AsRaw(steps)[..|steps| - 1] == AsRaw(steps[..|steps| - 1]);
  }

  lemma SameSnoc(a: seq<Step>, b: seq<Step>, x: Step, y: Step, all: seq<Step>)
    requires SameSteps(a, b) && x.id == y.id && x.kind == y.kind && x.dependsOn == y.dependsOn
    requires all != [] && b == all[..|all| - 1] && y == all[|all| - 1]
    ensures SameSteps(a + [x], all)
  {
    assert b + [y] == all;
  }

  lemma {:induction false} UserStepsNumbered(r: Reader, titles: seq<string>, i: nat)
    requires i < |UserSteps(r, titles)|
    ensures UserSteps(r, titles)[i].id == "s" + Decimal(i + 1) && UserSteps(r, titles)[i].dependsOn == []
  {
    var front := UserSteps(r, titles[..|titles| - 1]);
    if i < |front| {
      UserStepsNumbered(r, titles[..|titles| - 1], i);
    }
  }

  lemma WithAnswerIsNeat(steps: seq<Step>, max: nat)
    requires AllNeat(steps) && 1 <= max <= 10
    ensures AllNeat(WithAnswer(steps, max))
  {
    DecimalWidth(if |steps| + 1 < 100 then |steps| + 1 else 0);
  }

  lemma DefaultIsNeat(question: string, router: Router, max: nat)
    ensures AllNeat(Take(DefaultPlan(question, router), max))
  {
  }

  /** Every plan built from the router's side is neat. */
  lemma RouterPlanIsNeat(r: Reader, question: string, router: Router, flags: Flags)
    ensures var p := Normalized(r, question, router, flags); p.source == FromRouter ==> AllNeat(p.steps)
  {
    var max := flags.Max();
    var coerced := Take(Coerced(r, router.plan), max);
    CoercedIsNeat(r, router.plan);
    WithAnswerIsNeat(coerced, max);
    DefaultIsNeat(question, router, max);
    WithAnswerIsNeat(Take(DefaultPlan(question, router), max), max);
  }

  lemma AnswerKept(a: seq<Step>, b: seq<Step>)
    requires SameSteps(a, b) && HasAnswer(b)
    ensures HasAnswer(a)
  {
    var s :| s in b && s.kind == Answer;
    var i :| 0 <= i < |b| && b[i] == s;
    assert a[i] in a;
  }

  /** Feeding a router-side plan back: the same steps are read, and the answer is already there. */
  lemma FedBack(r: Reader, p: Planned, max: nat)
    requires AllNeat(p.steps) && |p.steps| <= max && HasAnswer(p.steps) && max >= 1
    ensures var again := Take(Coerced(r, AsRaw(p.steps)), max);
            |again| == |p.steps| && SameSteps(WithAnswer(again, max), p.steps)
  {
    CoercedKeeps(r, p.steps);
    AnswerKept(Coerced(r, AsRaw(p.steps)), p.steps);
  }

  /**
   * The one way a second pass can lose the plan: room for a single step, branching switched
   * off, and a plan made only because the router called the question branched.
   */
  predicate LosesPlan(r: Reader, question: string, router: Router, flags: Flags) {
    && flags.enabled && flags.Max() == 1 && !flags.Branching() && !r.explicit(question)
    && ShouldPlan(r, question, router) && !ShouldPlan(r, question, router.(difficulty := Steps))
  }

  /** Whether a second pass branches does not depend on the first. */
  lemma BranchingIsStable(r: Reader, question: string, router: Router, flags: Flags)
    ensures var p := Normalized(r, question, router, flags);
            p.source == FromRouter ==>
              (Branches(r, question, Feed(router, p), flags) <==> Branches(r, question, router, flags))
  {
  }

  /** A plan of one step comes from room for one step, or from an explicit request. */
  lemma ShortPlans(r: Reader, question: string, router: Router, flags: Flags)
    requires Normalized(r, question, router, flags).source == FromRouter
    requires |Normalized(r, question, router, flags).steps| < 2
    ensures |Take(Coerced(r, router.plan), flags.Max())| < 2
    ensures !Wanted(r, question, router, flags) ==> r.explicit(question)
    ensures Wanted(r, question, router, flags) ==> flags.Max() == 1
  {
  }

  lemma SecondPassLong(r: Reader, question: string, router: Router, flags: Flags)
    requires Normalized(r, question, router, flags).source == FromRouter
    requires |Normalized(r, question, router, flags).steps| >= 2
    ensures var p := Normalized(r, question, router, flags);
            SamePlan(p, Normalized(r, question, Feed(router, p), flags))
  {
    var p := Normalized(r, question, router, flags);
    PlanShape(r, question, router, flags);
    RouterPlanIsNeat(r, question, router, flags);
    FedBack(r, p, flags.Max());
    RouterPlanReads(r, question, router, flags);
    EnoughSteps(r, question, Feed(router, p), flags);
    BranchingIsStable(r, question, router, flags);
  }

  /** What a plan from the router's side says about its input. */
  lemma RouterPlanReads(r: Reader, question: string, router: Router, flags: Flags)
    requires Normalized(r, question, router, flags).source == FromRouter
    ensures flags.enabled && |Take(UserSteps(r, r.numbered(question)), flags.Max())| < 2
    ensures var p := Normalized(r, question, router, flags);
            p.complexity == MultiStep && p.difficulty == (if Branches(r, question, router, flags) then Branched else Steps)
  {
  }

  /** The case in which the router's own steps are used. */
  lemma EnoughSteps(r: Reader, question: string, router: Router, flags: Flags)
    requires flags.enabled && |Take(UserSteps(r, r.numbered(question)), flags.Max())| < 2
    requires |Take(Coerced(r, router.plan), flags.Max())| >= 2 && router.complexity == MultiStep
    ensures Normalized(r, question, router, flags)
            == Planned(MultiStep, if Branches(r, question, router, flags) then Branched else Steps, FromRouter,
                       WithAnswer(Take(Coerced(r, router.plan), flags.Max()), flags.Max()))
  {
  }

  /** Classification reads no more of a router result than its task and whether it says branched. */
  lemma PlanningReads(r: Reader, question: string, router: Router, p: Planned)
    ensures p.difficulty != Branched ==>
              (ShouldPlan(r, question, Feed(router, p)) <==> ShouldPlan(r, question, router.(difficulty := Steps)))
    ensures ShouldPlan(r, question, router.(difficulty := Steps)) ==> ShouldPlan(r, question, router)
    ensures router.difficulty != Branched ==>
              (ShouldPlan(r, question, router) <==> ShouldPlan(r, question, router.(difficulty := Steps)))
  {
  }

  /** The cases that are left when neither the user nor the router gives two steps. */
  lemma FewSteps(r: Reader, question: string, router: Router, flags: Flags)
    requires flags.enabled && |Take(UserSteps(r, r.numbered(question)), flags.Max())| < 2
    requires |Take(Coerced(r, router.plan), flags.Max())| < 2
    ensures var max := flags.Max();
            var coerced := Take(Coerced(r, router.plan), max);
            var difficulty := if Branches(r, question, router, flags) then Branched else Steps;
            Normalized(r, question, router, flags)
            == if Wanted(r, question, router, flags) then
                 Planned(MultiStep, difficulty, FromRouter, WithAnswer(Take(DefaultPlan(question, router), max), max))
               else if r.explicit(question) && coerced != [] then
                 Planned(MultiStep, difficulty, FromRouter, WithAnswer(coerced, max))
               else NOTHING
  {
  }

  lemma DefaultIsStable(question: string, router: Router, p: Planned)
    ensures DefaultPlan(question, Feed(router, p)) == DefaultPlan(question, router)
  {
  }

  /** Whether a second pass still wants a plan. */
  lemma StillWanted(r: Reader, question: string, router: Router, flags: Flags, p: Planned)
    requires p.difficulty == if Branches(r, question, router, flags) then Branched else Steps
    ensures Wanted(r, question, Feed(router, p), flags) <==>
            Branches(r, question, router, flags) || ShouldPlan(r, question, router.(difficulty := Steps))
  {
    PlanningReads(r, question, router, p);
  }

  /** A wanted plan of one step, wanted again. */
  lemma WantedAgain(r: Reader, question: string, router: Router, flags: Flags)
    requires Normalized(r, question, router, flags).source == FromRouter
    requires |Normalized(r, question, router, flags).steps| < 2
    requires Wanted(r, question, router, flags)
    requires Wanted(r, question, Feed(router, Normalized(r, question, router, flags)), flags)
    ensures var p := Normalized(r, question, router, flags);
            SamePlan(p, Normalized(r, question, Feed(router, p), flags))
  {
    var p := Normalized(r, question, router, flags);
    ShortReads(r, question, router, flags);
    FewSteps(r, question, router, flags);
    FewSteps(r, question, Feed(router, p), flags);
    DefaultIsStable(question, router, p);
    BranchingIsStable(r, question, router, flags);
  }

  /** Both passes read fewer than two steps from anyone. */
  lemma ShortReads(r: Reader, question: string, router: Router, flags: Flags)
    requires Normalized(r, question, router, flags).source == FromRouter
    requires |Normalized(r, question, router, flags).steps| < 2
    ensures flags.enabled && |Take(UserSteps(r, r.numbered(question)), flags.Max())| < 2
    ensures |Take(Coerced(r, router.plan), flags.Max())| < 2
    ensures var p := Normalized(r, question, router, flags);
            var again := Take(Coerced(r, Feed(router, p).plan), flags.Max());
            |again| == |p.steps| == 1 && SameSteps(WithAnswer(again, flags.Max()), p.steps)
  {
    PlanShape(r, question, router, flags);
    RouterPlanIsNeat(r, question, router, flags);
    FedBack(r, Normalized(r, question, router, flags), flags.Max());
    ShortPlans(r, question, router, flags);
  }

  /** A plan of one step, not wanted again but explicitly asked for. */
  lemma AskedAgain(r: Reader, question: string, router: Router, flags: Flags)
    requires Normalized(r, question, router, flags).source == FromRouter
    requires |Normalized(r, question, router, flags).steps| < 2
    requires !Wanted(r, question, Feed(router, Normalized(r, question, router, flags)), flags)
    requires r.explicit(question)
    ensures var p := Normalized(r, question, router, flags);
            SamePlan(p, Normalized(r, question, Feed(router, p), flags))
  {
    var p := Normalized(r, question, router, flags);
    ShortReads(r, question, router, flags);
    FewSteps(r, question, router, flags);
    FewSteps(r, question, Feed(router, p), flags);
    BranchingIsStable(r, question, router, flags);
  }

  /** When the second pass neither wants a plan nor is asked for one. */
  lemma NotAgain(r: Reader, question: string, router: Router, flags: Flags)
    requires Normalized(r, question, router, flags).source == FromRouter
    requires |Normalized(r, question, router, flags).steps| < 2
    requires !Wanted(r, question, Feed(router, Normalized(r, question, router, flags)), flags)
    requires !r.explicit(question)
    ensures LosesPlan(r, question, router, flags)
  {
    var p := Normalized(r, question, router, flags);
    ShortReads(r, question, router, flags);
    ShortPlans(r, question, router, flags);
    FewSteps(r, question, router, flags);
    StillWanted(r, question, router, flags, p);
    PlanningReads(r, question, router, p);
  }

  /** A plan that is not wanted at first is not wanted later. */
  lemma WantedEarlier(r: Reader, question: string, router: Router, flags: Flags)
    requires Normalized(r, question, router, flags).source == FromRouter
    requires |Normalized(r, question, router, flags).steps| < 2
    requires Wanted(r, question, Feed(router, Normalized(r, question, router, flags)), flags)
    ensures Wanted(r, question, router, flags)
  {
    var p := Normalized(r, question, router, flags);
    ShortReads(r, question, router, flags);
    FewSteps(r, question, router, flags);
    StillWanted(r, question, router, flags, p);
    PlanningReads(r, question, router, p);
  }

  lemma SecondPassShort(r: Reader, question: string, router: Router, flags: Flags)
    requires Normalized(r, question, router, flags).source == FromRouter
    requires |Normalized(r, question, router, flags).steps| < 2
    requires !LosesPlan(r, question, router, flags)
    ensures var p := Normalized(r, question, router, flags);
            SamePlan(p, Normalized(r, question, Feed(router, p), flags))
  {
    if Wanted(r, question, Feed(router, Normalized(r, question, router, flags)), flags) {
      WantedEarlier(r, question, router, flags);
      WantedAgain(r, question, router, flags);
    } else if r.explicit(question) {
      AskedAgain(r, question, router, flags);
    } else {
      NotAgain(r, question, router, flags);
    }
  }

  lemma SecondPassEmpty(r: Reader, question: string, router: Router, flags: Flags)
    requires Normalized(r, question, router, flags) == NOTHING
    ensures Normalized(r, question, Feed(router, NOTHING), flags) == NOTHING
  {
    PlanningReads(r, question, router, NOTHING);
  }

  /**
   * Normalizing the normalized plan again keeps its mode and every id, kind and dependency,
   * except in the one family described by `LosesPlan`.
   */
  lemma IdempotentExactlyWhen(r: Reader, question: string, router: Router, flags: Flags)
    ensures var p := Normalized(r, question, router, flags);
            SamePlan(p, Normalized(r, question, Feed(router, p), flags)) <==> !LosesPlan(r, question, router, flags)
  {
    var p := Normalized(r, question, router, flags);
    PlanShape(r, question, router, flags);
    if LosesPlan(r, question, router, flags) {
      LostMeansDropped(r, question, router, flags);
    } else if p == NOTHING {
      SecondPassEmpty(r, question, router, flags);
    } else if p.source == FromRouter {
      if |p.steps| >= 2 {
        SecondPassLong(r, question, router, flags);
      } else {
        SecondPassShort(r, question, router, flags);
      }
    } else {
      assert |Take(UserSteps(r, r.numbered(question)), flags.Max())| >= 2;
    }
  }

  lemma IdempotentWithRoom(r: Reader, question: string, router: Router, flags: Flags)
    requires flags.Max() >= 2
    ensures var p := Normalized(r, question, router, flags);
            SamePlan(p, Normalized(r, question, Feed(router, p), flags))
  {
    IdempotentExactlyWhen(r, question, router, flags);
  }

  /** There the second pass drops the plan altogether. */
  lemma LostMeansDropped(r: Reader, question: string, router: Router, flags: Flags)
    requires LosesPlan(r, question, router, flags)
    ensures var p := Normalized(r, question, router, flags);
            p.steps != [] && Normalized(r, question, Feed(router, p), flags) == NOTHING
  {
    var p := Normalized(r, question, router, flags);
    PlanShape(r, question, router, flags);
    FewSteps(r, question, router, flags);
    RouterPlanIsNeat(r, question, router, flags);
    FedBack(r, p, flags.Max());
    FewSteps(r, question, Feed(router, p), flags);
    StillWanted(r, question, router, flags, p);
    PlanningReads(r, question, router, p);
  }

  /** The family is not empty: a plain question the router calls branched. */
  lemma PlanCanBeLost() returns (r: Reader, question: string, router: Router, flags: Flags)
    ensures LosesPlan(r, question, router, flags)
  {
    r := Reader(s => [], s => false, s => false, s => false, s => false, s => false, s => Retrieve, s => None);
    router := Router(OtherTask, false, "", Simple, Branched, NoPlan, []);
    flags := Flags(true, 1, false, true);
    question := "q";
    assert Strip(question) == question;
    assert UserSteps(r, []) == [];
    assert !NumberedPath(r, question);
    assert ShouldBranch(r, question, router);
  }

  // ---- Distinct ids ----

  ghost predicate Numbered(steps: seq<Step>) {
    forall i :: 0 <= i < |steps| ==> steps[i].id == "s" + Decimal(i + 1)
  }

  lemma NumberedIds(steps: seq<Step>)
    requires Numbered(steps)
    ensures DistinctIds(steps)
  {
    forall i, j | 0 <= i < j < |steps| ensures steps[i].id != steps[j].id {
      if steps[i].id == steps[j].id {
        assert steps[i].id[1..] == Decimal(i + 1) && steps[j].id[1..] == Decimal(j + 1);
        DecimalInjective(i + 1, j + 1);
      }
    }
  }

  lemma NumberedWithAnswer(steps: seq<Step>, max: nat)
    requires Numbered(steps) && max >= 1
    ensures Numbered(WithAnswer(steps, max))
  {
    var r := WithAnswer(steps, max);
    forall i | 0 <= i < |r| ensures r[i].id == "s" + Decimal(i + 1) {
      if i < |steps| {
        assert r[i].id == steps[i].id;
      } else {
        assert i == |steps|;
      }
    }
  }

  /** Plans the user numbered are numbered s1..sn, the answer included. */
  lemma UserPlansAreDistinct(r: Reader, question: string, router: Router, flags: Flags)
    requires Normalized(r, question, router, flags).source == FromUser
    ensures var steps := Normalized(r, question, router, flags).steps; Numbered(steps) && DistinctIds(steps)
  {
    var user := Take(UserSteps(r, r.numbered(question)), flags.Max());
    assert Numbered(user) by {
      forall i | 0 <= i < |user| ensures user[i].id == "s" + Decimal(i + 1) {
        UserStepsNumbered(r, r.numbered(question), i);
      }
    }
    NumberedWithAnswer(user, flags.Max());
    NumberedIds(WithAnswer(user, flags.Max()));
  }

  lemma DefaultPlanIsDistinct(question: string, router: Router, max: nat)
    requires max >= 1
    ensures DistinctIds(WithAnswer(Take(DefaultPlan(question, router), max), max))
  {
  }

  /** The id an appended answer would get is in use. */
  predicate NextIdTaken(steps: seq<Step>) {
    exists s :: s in steps && s.id == "s" + Decimal(|steps| + 1)
  }

  /** Whether an answer is appended, as opposed to found or put in the place of the last step. */
  predicate Appends(steps: seq<Step>, max: nat) {
    steps != [] && !HasAnswer(steps) && |steps| < max
  }

  lemma DistinctSnoc(steps: seq<Step>, s: Step)
    ensures DistinctIds(steps + [s]) <==> DistinctIds(steps) && forall k :: 0 <= k < |steps| ==> steps[k].id != s.id
  {
    var longer := steps + [s];
    if DistinctIds(longer) {
      forall k | 0 <= k < |steps| ensures steps[k].id != s.id {
        assert longer[k].id != longer[|steps|].id;
      }
      forall i, j | 0 <= i < j < |steps| ensures steps[i].id != steps[j].id {
        assert longer[i].id != longer[j].id;
      }
    }
  }

  lemma SameIdsDistinct(a: seq<Step>, b: seq<Step>)
    requires |a| == |b| && forall i :: 0 <= i < |a| ==> a[i].id == b[i].id
    ensures DistinctIds(a) <==> DistinctIds(b)
  {
  }

  /** Completing a list keeps its ids distinct exactly when they were and no appended answer takes a used one. */
  lemma WithAnswerDistinctExactlyWhen(steps: seq<Step>, max: nat)
    requires max >= 1
    ensures DistinctIds(WithAnswer(steps, max)) <==>
            DistinctIds(Take(steps, max)) && !(Appends(steps, max) && NextIdTaken(steps))
  {
    if Appends(steps, max) {
      DistinctSnoc(steps, AnswerStep("s" + Decimal(|steps| + 1), FINAL));
      assert forall k :: 0 <= k < |steps| ==> steps[k] in steps;
    } else {
      SameIdsDistinct(WithAnswer(steps, max), Take(steps, max));
    }
  }

  function RouterSteps(r: Reader, router: Router, flags: Flags): seq<Step> {
    Take(Coerced(r, router.plan), flags.Max())
  }

  /** The router gave too little and the plan is the default one. */
  predicate UsesDefault(r: Reader, question: string, router: Router, flags: Flags) {
    |RouterSteps(r, router, flags)| < 2 && Wanted(r, question, router, flags)
  }

  /**
   * A plan from the router's side has distinct ids exactly when it is the default one, or
   * the router's usable entries have distinct ids and no appended answer takes one of them.
   */
  lemma RouterPlanDistinctExactlyWhen(r: Reader, question: string, router: Router, flags: Flags)
    requires Normalized(r, question, router, flags).source == FromRouter
    ensures var steps := RouterSteps(r, router, flags);
            DistinctIds(Normalized(r, question, router, flags).steps) <==>
            UsesDefault(r, question, router, flags)
            || (DistinctIds(steps) && !(Appends(steps, flags.Max()) && NextIdTaken(steps)))
  {
    var steps, max := RouterSteps(r, router, flags), flags.Max();
    if UsesDefault(r, question, router, flags) {
      DefaultPlanIsDistinct(question, router, max);
    } else {
      assert Normalized(r, question, router, flags).steps == WithAnswer(steps, max);
      assert Take(steps, max) == steps;
      WithAnswerDistinctExactlyWhen(steps, max);
    }
  }

  /**
   * A router result with the steps s1 and s3, as the router leaves them after skipping a bad
   * second entry: the appended answer is a second s3.
   */
  lemma RouterPlansCanCollide() returns (r: Reader, question: string, router: Router, flags: Flags)
    ensures forall i :: 0 <= i < |router.plan| ==> router.plan[i].Typed?
    ensures Normalized(r, question, router, flags).source == FromRouter
    ensures DistinctIds(RouterSteps(r, router, flags)) && !DistinctIds(Normalized(r, question, router, flags).steps)
  {
    r := Reader(s => [], s => false, s => false, s => false, s => false, s => false, s => Retrieve, s => None);
    var first := Step("s1", "a", Retrieve, None, None, [], [], Pending);
    var third := Step("s3", "b", Retrieve, None, None, [], [], Pending);
    router := Router(OtherTask, false, "", MultiStep, Steps, NoPlan, AsRaw([first, third]));
    flags := Flags(true, 5, false, false);
    question := "q";
    CoercedKeeps(r, [first, third]);
    CollidesAtThree(r, question, router, flags);
  }

  lemma CollidesAtThree(r: Reader, question: string, router: Router, flags: Flags)
    requires flags.enabled && flags.Max() >= 3 && r.numbered(question) == [] && router.complexity == MultiStep
    requires var steps := Coerced(r, router.plan);
             |steps| == 2 && steps[0].id == "s1" && steps[1].id == "s3" && steps[0].kind == Retrieve && steps[1].kind == Retrieve
    ensures Normalized(r, question, router, flags).source == FromRouter
    ensures DistinctIds(RouterSteps(r, router, flags)) && !DistinctIds(Normalized(r, question, router, flags).steps)
  {
    var steps := Coerced(r, router.plan);
    assert UserSteps(r, []) == [];
    assert Decimal(3) == "3" && steps[1] in steps;
    assert steps[0].id[1] != steps[1].id[1];
    RouterPlanDistinctExactlyWhen(r, question, router, flags);
  }
}
