/** What a normalized plan holds: which texts become which steps, and when there is a plan at all. */
module PlanReading {
  import opened Seqs
  import opened Text
  import opened Plan
  import opened Normalize

  // ---- Texts ----

  /** `r` is `s`, or its first n characters if it is longer. */
  ghost predicate Cuts<T>(s: seq<T>, n: nat, r: seq<T>) {
    r <= s && |r| == if |s| <= n then |s| else n
  }

  /** `r` holds what is left of the items that are not blank, stripped and in order, up to eight of them. */
  ghost predicate Tidied(items: seq<string>, at: seq<nat>, r: seq<string>) {
    && |at| == |r| <= 8 && Rising(at)
    && (forall j :: 0 <= j < |at| ==> at[j] < |items| && r[j] == Strip(items[at[j]]) != "")
    && (forall k: nat :: k < |items| && Strip(items[k]) != "" ==> k in at || (|at| == 8 && at[7] < k))
  }

  ghost predicate TidiedTo(items: seq<string>, r: seq<string>) {
    exists at: seq<nat> :: Tidied(items, at, r)
  }

  lemma {:induction false} CleanAre(items: seq<string>) returns (at: seq<nat>)
    ensures CleanAt(items, |items|, at, Clean(items))
  {
    at := [];
    if items != [] {
      var n := |items| - 1;
      at := CleanAre(items[..n]);
      CleanFurther(items, n, at, Clean(items[..n]));
      if Strip(items[n]) != "" {
        CleanOneMore(items, n, at, Clean(items[..n]));
        at := at + [n];
      }
    }
  }

  /** What is left of the first n items that are not blank. */
  ghost predicate CleanAt(items: seq<string>, n: nat, at: seq<nat>, r: seq<string>) {
    && n <= |items| && |at| == |r| && Rising(at)
    && (forall j :: 0 <= j < |at| ==> at[j] < n && r[j] == Strip(items[at[j]]) != "")
    && (forall k: nat :: k < n && Strip(items[k]) != "" ==> k in at)
  }

  lemma CleanFurther(items: seq<string>, n: nat, at: seq<nat>, r: seq<string>)
    requires n < |items| && CleanAt(items[..n], n, at, r)
    ensures CleanAt(items, n, at, r) && (Strip(items[n]) == "" ==> CleanAt(items, n + 1, at, r))
  {
    assert forall k: nat :: k < n ==> items[..n][k] == items[k];
  }

  lemma CleanOneMore(items: seq<string>, n: nat, at: seq<nat>, r: seq<string>)
    requires n < |items| && CleanAt(items, n, at, r) && Strip(items[n]) != ""
    ensures CleanAt(items, n + 1, at + [n], r + [Strip(items[n])])
  {
    RisingSnoc(at, n);
  }

  lemma TakenAreTidied(items: seq<string>)
    ensures TidiedTo(items, Take(Clean(items), 8))
  {
    var all := CleanAre(items);
    FirstEight(items, all, Clean(items));
  }

  lemma FirstEight(items: seq<string>, all: seq<nat>, clean: seq<string>)
    requires CleanAt(items, |items|, all, clean)
    ensures TidiedTo(items, Take(clean, 8))
  {
    var at := Take(all, 8);
    forall k: nat | k < |items| && Strip(items[k]) != "" ensures k in at || (|at| == 8 && at[7] < k) {
      AmongFirst(all, 8, k);
    }
    assert Tidied(items, at, Take(clean, 8));
  }

  lemma AmongFirst(all: seq<nat>, n: nat, k: nat)
    requires Rising(all) && k in all && n > 0
    ensures k in Take(all, n) || (|Take(all, n)| == n && Take(all, n)[n - 1] < k)
  {
    var j :| 0 <= j < |all| && all[j] == k;
    if j < |Take(all, n)| {
      assert Take(all, n)[j] == k;
    }
  }

  // ---- Router entries ----

  /** The words an entry gives: none if they are blank. */
  ghost predicate Words(given: string, query: Option<string>) {
    if Strip(given) == "" then query == None else query.Some? && Cuts(Strip(given), 4000, query.value)
  }

  ghost predicate Hinted(r: Reader, given: string, title: string, kind: Kind, hint: Option<string>) {
    var named := r.skillOf(if Strip(given) == "" then None else Some(Strip(given)));
    if named != None && named != Some("") then hint == named
    else hint == if kind == Skill then r.skillOf(Some(title)) else None
  }

  ghost predicate Named(id: string, index: nat, got: Id) {
    Cuts(if id == "" then "s" + Decimal(index) else id, 32, got)
  }

  /** What a step read from an entry has whatever the entry's form. */
  ghost predicate Reads(r: Reader, title: string, hint: string, tools: seq<string>, deps: seq<string>, s: Step) {
    && Cuts(title, 120, s.title) && Hinted(r, hint, title, s.kind, s.skillHint)
    && TidiedTo(tools, s.toolHints) && TidiedTo(deps, s.dependsOn) && s.status == Pending
  }

  ghost predicate ReadsTyped(r: Reader, t: Step, index: nat, s: Step) {
    && Named(t.id, index, s.id) && s.kind == t.kind
    && Words(match t.query case None => "" case Some(q) => q, s.query)
    && Reads(r, if Strip(t.title) == "" then "步骤 " + Decimal(index) else Strip(t.title),
             match t.skillHint case None => "" case Some(h) => h, t.toolHints, t.dependsOn, s)
  }

  /** A dictionary entry without a usable kind is classified by its title; without words a step that needs some takes its title. */
  ghost predicate ReadsDict(r: Reader, d: Raw, index: nat, s: Step)
    requires d.Dict?
  {
    var title := Strip(d.title);
    && Named(Strip(if d.id == "" then "s" + Decimal(index) else d.id), index, s.id)
    && s.kind == (match d.kind case Some(k) => k case None => r.kindOf(title))
    && (if Strip(d.query) == "" && s.kind in {Retrieve, Skill, Tool} then s.query.Some? && Cuts(title, 4000, s.query.value)
        else Words(d.query, s.query))
    && Reads(r, title, d.skill, d.toolHints, d.dependsOn, s)
  }

  ghost predicate UsableEntry(raw: Raw) {
    raw.Typed? || (raw.Dict? && Strip(raw.title) != "")
  }

  /** Exactly the usable entries become steps, each with what it says. */
  lemma CoerceExactly(r: Reader, raw: Raw, index: nat)
    ensures Coerce(r, raw, index).Some? <==> UsableEntry(raw)
    ensures raw.Typed? ==> ReadsTyped(r, raw.step, index, Coerce(r, raw, index).value)
    ensures raw.Dict? && UsableEntry(raw) ==> ReadsDict(r, raw, index, Coerce(r, raw, index).value)
  {
    match raw {
      case Junk =>
      case Typed(t) => TypedExactly(r, t, index);
      case Dict(_, _, _, _, _, _, _) => DictExactly(r, raw, index);
    }
  }

  lemma TypedExactly(r: Reader, t: Step, index: nat)
    ensures Coerce(r, Typed(t), index).Some? && ReadsTyped(r, t, index, Coerce(r, Typed(t), index).value)
  {
    TakenAreTidied(t.toolHints);
    TakenAreTidied(t.dependsOn);
  }

  lemma DictExactly(r: Reader, d: Raw, index: nat)
    requires d.Dict?
    ensures Coerce(r, d, index).Some? <==> UsableEntry(d)
    ensures UsableEntry(d) ==> ReadsDict(r, d, index, Coerce(r, d, index).value)
  {
    TakenAreTidied(d.toolHints);
    TakenAreTidied(d.dependsOn);
  }

  ghost predicate ReadsEntry(r: Reader, raw: Raw, index: nat, s: Step) {
    (raw.Typed? && ReadsTyped(r, raw.step, index, s)) || (raw.Dict? && ReadsDict(r, raw, index, s))
  }

  lemma CoerceReads(r: Reader, raw: Raw, index: nat)
    ensures Coerce(r, raw, index).Some? <==> UsableEntry(raw)
    ensures UsableEntry(raw) ==> ReadsEntry(r, raw, index, Coerce(r, raw, index).value)
  {
    CoerceExactly(r, raw, index);
  }

  /** The steps are read from the entries at these positions. */
  ghost predicate ReadAt(r: Reader, raws: seq<Raw>, at: seq<nat>, steps: seq<Step>) {
    && |at| == |steps| && Rising(at)
    && forall j :: 0 <= j < |at| ==> at[j] < |raws| && ReadsEntry(r, raws[at[j]], at[j] + 1, steps[j])
  }

  lemma ReadAtFront(r: Reader, raws: seq<Raw>, n: nat, at: seq<nat>, steps: seq<Step>)
    requires n <= |raws| && ReadAt(r, raws[..n], at, steps)
    ensures ReadAt(r, raws, at, steps) && forall k :: k in at ==> k < n
  {
    forall j | 0 <= j < |at| ensures at[j] < n && ReadsEntry(r, raws[at[j]], at[j] + 1, steps[j]) {
      assert raws[..n][at[j]] == raws[at[j]];
    }
  }

  lemma ReadAtSnoc(r: Reader, raws: seq<Raw>, n: nat, at: seq<nat>, steps: seq<Step>, s: Step)
    requires n < |raws| && ReadAt(r, raws, at, steps) && (forall k :: k in at ==> k < n) && ReadsEntry(r, raws[n], n + 1, s)
    ensures ReadAt(r, raws, at + [n], steps + [s])
  {
    RisingSnoc(at, n);
  }

  /** The router's steps are its usable entries in order, numbered by their place in the raw list. */
  lemma {:induction false} CoercedAre(r: Reader, raws: seq<Raw>) returns (at: seq<nat>)
    ensures ReadAt(r, raws, at, Coerced(r, raws))
    ensures forall k: nat :: k in at <==> k < |raws| && UsableEntry(raws[k])
  {
    at := [];
    if raws != [] {
      var n := |raws| - 1;
      at := CoercedAre(r, raws[..n]);
      ReadAtFront(r, raws, n, at, Coerced(r, raws[..n]));
      UsableFront(raws, n, at);
      CoerceReads(r, raws[n], n + 1);
      if UsableEntry(raws[n]) {
        ReadAtSnoc(r, raws, n, at, Coerced(r, raws[..n]), Coerce(r, raws[n], n + 1).value);
        at := at + [n];
      }
    }
  }

  lemma UsableFront(raws: seq<Raw>, n: nat, at: seq<nat>)
    requires n <= |raws| && forall k: nat :: k in at <==> k < n && UsableEntry(raws[..n][k])
    ensures forall k: nat :: k in at <==> k < n && UsableEntry(raws[k])
  {
    assert forall k: nat :: k < n ==> raws[..n][k] == raws[k];
  }

  // ---- Numbered titles ----

  ghost predicate ReadsTitle(r: Reader, title: string, index: nat, s: Step) {
    && s.id == "s" + Decimal(index) && Cuts(title, 120, s.title) && s.kind == r.kindOf(title)
    && (if s.kind in {Retrieve, Skill, Tool} then s.query.Some? && Cuts(title, 4000, s.query.value) else s.query == None)
    && s.skillHint == (if s.kind == Skill then r.skillOf(Some(title)) else None)
    && s.toolHints == [] && s.dependsOn == [] && s.status == Pending
  }

  /** The user's steps are the titles that are not blank, stripped, in order and numbered from 1. */
  lemma {:induction false} UserStepsAre(r: Reader, titles: seq<string>) returns (at: seq<nat>)
    ensures TitlesAt(r, titles, at, UserSteps(r, titles), |titles|)
  {
    at := [];
    if titles != [] {
      var n := |titles| - 1;
      at := UserStepsAre(r, titles[..n]);
      TitlesFurther(r, titles, at, UserSteps(r, titles[..n]), n);
      if Strip(titles[n]) != "" {
        UserStepReads(r, Strip(titles[n]), |at| + 1);
        TitlesOneMore(r, titles, at, UserSteps(r, titles[..n]), n, UserStep(r, Strip(titles[n]), |at| + 1));
        at := at + [n];
      }
    }
  }

  /** The steps are read from the titles at these positions: those of the first n that are not blank. */
  ghost predicate TitlesAt(r: Reader, titles: seq<string>, at: seq<nat>, steps: seq<Step>, n: nat) {
    && |at| == |steps| && Rising(at) && n <= |titles|
    && (forall j :: 0 <= j < |at| ==> at[j] < n && ReadsTitle(r, Strip(titles[at[j]]), j + 1, steps[j]))
    && (forall k: nat :: k in at <==> k < n && Strip(titles[k]) != "")
  }

  lemma UserStepReads(r: Reader, title: string, index: nat)
    ensures ReadsTitle(r, title, index, UserStep(r, title, index))
  {
  }

  lemma TitlesFurther(r: Reader, titles: seq<string>, at: seq<nat>, steps: seq<Step>, n: nat)
    requires n < |titles| && TitlesAt(r, titles[..n], at, steps, n)
    ensures TitlesAt(r, titles, at, steps, n) && (Strip(titles[n]) == "" ==> TitlesAt(r, titles, at, steps, n + 1))
  {
    forall k: nat | k < n ensures k in at <==> Strip(titles[k]) != "" {
      assert titles[..n][k] == titles[k];
    }
  }

  lemma TitlesOneMore(r: Reader, titles: seq<string>, at: seq<nat>, steps: seq<Step>, n: nat, s: Step)
    requires n < |titles| && TitlesAt(r, titles, at, steps, n) && Strip(titles[n]) != ""
    requires ReadsTitle(r, Strip(titles[n]), |at| + 1, s)
    ensures TitlesAt(r, titles, at + [n], steps + [s], n + 1)
  {
    RisingSnoc(at, n);
    forall k: nat ensures k in at + [n] <==> k < n + 1 && Strip(titles[k]) != "" {
      assert k in at + [n] <==> k in at || k == n;
    }
  }

  // ---- The answer and the default plan ----

  ghost predicate Answers(s: Step) {
    s.kind == Answer && s.query == None && s.skillHint == None && s.toolHints == [] && s.dependsOn == [] && s.status == Pending
  }

  /**
   * Completing a list: one with an answer, or an empty one, is only cut; with room an answer is
   * appended under the next number; without room the last step gives way to an answer that
   * keeps its id, and its title if that speaks of an answer.
   */
  lemma AnswerTail(steps: seq<Step>, max: nat)
    requires max >= 1
    ensures var r := WithAnswer(steps, max);
            if steps == [] || exists i :: 0 <= i < |steps| && steps[i].kind == Answer then Cuts(steps, max, r)
            else if |steps| < max then
              && |r| == |steps| + 1 && steps <= r && Answers(r[|steps|])
              && r[|steps|].id == "s" + Decimal(|steps| + 1) && r[|steps|].title == "整理最终回答"
            else
              && |r| == max && r[..max - 1] == steps[..max - 1] && Answers(r[max - 1])
              && r[max - 1].id == steps[max - 1].id
              && r[max - 1].title == if '答' in steps[max - 1].title then steps[max - 1].title else "整理最终回答"
  {
    assert HasAnswer(steps) <==> exists i :: 0 <= i < |steps| && steps[i].kind == Answer;
  }

  /** The default plan: a search, the task's skill where one is called for, and the answer. */
  lemma DefaultSteps(question: string, router: Router)
    ensures var plan := DefaultPlan(question, router);
            var skilled := router.needSkill || router.task in {Checklist, Compare, Summary};
            && |plan| == (if skilled then 3 else 2)
            && plan[0].kind == Retrieve && plan[0].id == "s1" && plan[0].query.Some?
            && (if Strip(router.rewrite) != "" then plan[0].query.value == Strip(router.rewrite)
                else Cuts(Strip(question), 4000, plan[0].query.value))
            && (skilled ==> plan[1].kind == Skill && plan[1].id == "s2" && plan[1].query == plan[0].query && plan[1].toolHints == ["skill.run"])
            && (skilled ==> plan[1].skillHint == Some(if router.task == Compare then "policy_compare"
                                                      else if router.task == Summary then "summary" else "process_checklist"))
            && Answers(plan[|plan| - 1]) && plan[|plan| - 1].id == (if skilled then "s3" else "s2")
            && forall i :: 0 <= i < |plan| ==> plan[i].dependsOn == [] && plan[i].status == Pending
  {
  }

  // ---- When there is a plan ----

  /** At least two of the numbered titles are not blank. */
  ghost predicate TwoTitles(r: Reader, text: string) {
    exists i: nat, j: nat :: i < j < |r.numbered(text)| && Strip(r.numbered(text)[i]) != "" && Strip(r.numbered(text)[j]) != ""
  }

  lemma TwoMembers(at: seq<nat>)
    requires Rising(at)
    ensures |at| >= 2 <==> exists i, j :: i < j && i in at && j in at
  {
    if |at| >= 2 {
      assert at[0] in at && at[1] in at && at[0] < at[1];
    }
    if i, j :| i < j && i in at && j in at {
      var p :| 0 <= p < |at| && at[p] == i;
      var q :| 0 <= q < |at| && at[q] == j;
      assert p != q;
    }
  }

  lemma TwoTitlesIff(r: Reader, text: string)
    ensures TwoTitles(r, text) <==> |UserSteps(r, r.numbered(text))| >= 2
  {
    var titles := r.numbered(text);
    var at := UserStepsAre(r, titles);
    TwoMembers(at);
    if i: nat, j: nat :| i < j < |titles| && Strip(titles[i]) != "" && Strip(titles[j]) != "" {
      assert i in at && j in at;
    }
    if i: nat, j: nat :| i < j && i in at && j in at {
      assert Strip(titles[i]) != "" && Strip(titles[j]) != "";
    }
  }

  /** Two of the router's entries are usable, or one is. */
  ghost predicate TwoEntries(router: Router) {
    exists i: nat, j: nat :: i < j < |router.plan| && UsableEntry(router.plan[i]) && UsableEntry(router.plan[j])
  }

  ghost predicate SomeEntry(router: Router) {
    exists i: nat :: i < |router.plan| && UsableEntry(router.plan[i])
  }

  lemma EntriesIff(r: Reader, router: Router)
    ensures TwoEntries(router) <==> |Coerced(r, router.plan)| >= 2
    ensures SomeEntry(router) <==> Coerced(r, router.plan) != []
  {
    var at := CoercedAre(r, router.plan);
    TwoMembers(at);
    NonemptyHasMember(at);
    if i: nat, j: nat :| i < j < |router.plan| && UsableEntry(router.plan[i]) && UsableEntry(router.plan[j]) {
      assert i in at && j in at;
    }
    if i: nat, j: nat :| i < j && i in at && j in at {
      assert UsableEntry(router.plan[i]) && UsableEntry(router.plan[j]);
    }
    if i: nat :| i < |router.plan| && UsableEntry(router.plan[i]) {
      assert i in at;
    }
  }

  /** Why a question counts as branched: it says so, the router says so, or it compares in several phases or forms. */
  ghost predicate Forks(r: Reader, text: string, router: Router) {
    || r.branchHints(text) || router.difficulty == Branched
    || (router.task == Compare && r.multiPhase(text) && |text| >= 28) || (router.task == Compare && r.comparesForms(text))
  }

  lemma BranchReasons(r: Reader, question: string, router: Router)
    ensures ShouldBranch(r, question, router) <==>
              Strip(question) != "" && !TwoTitles(r, Strip(question)) && Forks(r, Strip(question), router)
  {
    TwoTitlesIff(r, Strip(question));
  }

  lemma PlanReasons(r: Reader, question: string, router: Router)
    ensures var text := Strip(question);
            ShouldPlan(r, question, router) <==>
              text != "" &&
              (|| r.explicit(text) || TwoTitles(r, text) || (r.multiPhase(text) && |text| >= 16) || Forks(r, text, router)
               || (router.task in {Checklist, Compare} && (|text| >= 24 || r.connects(text))))
  {
    TwoTitlesIff(r, Strip(question));
    BranchReasons(r, question, router);
  }

  /** The question calls for a plan. */
  ghost predicate CallsForPlan(r: Reader, question: string, router: Router, flags: Flags) {
    ShouldPlan(r, question, router)
    || (flags.totEnabled && flags.totAuto && (router.difficulty == Branched || ShouldBranch(r, question, router)))
  }

  /**
   * Where a plan comes from: from the user exactly with two numbered titles and room for two;
   * otherwise from the router's side exactly if the question calls for one, the router gives
   * two steps and says so, or one is asked for outright and the router gives something.
   */
  lemma PlanSource(r: Reader, question: string, router: Router, flags: Flags)
    ensures var p := Normalized(r, question, router, flags);
            && (p.source == FromUser <==> flags.enabled && flags.Max() >= 2 && TwoTitles(r, question))
            && (p.source == FromRouter <==>
                  flags.enabled && p.source != FromUser &&
                  (|| CallsForPlan(r, question, router, flags)
                   || (router.complexity == MultiStep && TwoEntries(router) && flags.Max() >= 2)
                   || (r.explicit(question) && SomeEntry(router))))
  {
    TwoTitlesIff(r, question);
    EntriesIff(r, router);
  }

  /** Which steps it has: the user's, the router's, or the default ones if the router gives fewer than two. */
  lemma PlanSteps(r: Reader, question: string, router: Router, flags: Flags)
    ensures var p, max := Normalized(r, question, router, flags), flags.Max();
            && (p.source == FromUser ==>
                  p.steps == WithAnswer(Take(UserSteps(r, r.numbered(question)), max), max) && p.difficulty == Steps)
            && (p.source == FromRouter ==>
                  var usesDefault := CallsForPlan(r, question, router, flags) && !(TwoEntries(router) && max >= 2);
                  p.steps == WithAnswer(Take(if usesDefault then DefaultPlan(question, router) else Coerced(r, router.plan), max), max))
            && (p.source == FromRouter ==>
                  (p.difficulty == Branched <==>
                     flags.totEnabled && flags.totAuto && (router.difficulty == Branched || ShouldBranch(r, question, router))))
  {
    EntriesIff(r, router);
  }
}
