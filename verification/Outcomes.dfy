/** What each kind of step comes to, and what a run gathers from its steps. */
module Outcomes {
  import opened Seqs
  import opened Text
  import opened Plan
  import opened Waves
  import opened Dependencies
  import opened EvidenceBag
  import opened Ledger
  import opened Executor
  import opened PlanRunner
  import opened StepLifecycle

  // ---- One step ----

  ghost predicate Says(s: Option<string>, text: string) {
    text == match s case None => "" case Some(t) => t
  }

  /** The words a retrieve step searches with: its own, the router's, the fallback or the question, whichever comes first. */
  ghost predicate SearchesWith(c: Context, step: Step, query: string) {
    exists own, rewritten :: Says(step.query, own) && Says(c.rewrite, rewritten) &&
      query == (if Strip(own) != "" then Strip(own)
                else if Strip(rewritten) != "" then Strip(rewritten)
                else if c.fallback != "" then c.fallback else c.question)
  }

  /** Which search counts, and which assessment: a retry searches for the question itself, unless that was searched for already. */
  ghost predicate Searched(c: Context, query: string, found: seq<Evidence>, quality: Quality) {
    var first := c.use.retrieve(Take(query, 4000)).evidence;
    var at1 := c.use.quality(c.question, first, if query == c.question then None else Some(query), 1);
    if !at1.retry then found == first && quality == at1
    else
      && found == (if query == c.question then first else c.use.retrieve(Take(c.question, 4000)).evidence)
      && quality == c.use.quality(c.question, found, None, 2)
  }

  /** Off-topic evidence is dropped with a warning; the step succeeds exactly when evidence is left. */
  ghost predicate Searches(c: Context, query: string, found: seq<Evidence>, quality: Quality, o: Outcome) {
    var first := c.use.retrieve(Take(query, 4000));
    && o.side.evidence == (if quality.offTopic then [] else found)
    && o.side.warnings == (if found != [] && quality.offTopic then ["OFF_TOPIC_RETRIEVAL_DROPPED"] else [])
    && o.side.trace == first.trace && o.side.latency == first.latency && o.side.rerank == first.rerank
    && o.side.skillResults == [] && o.side.suggested == []
    && o.status == (if found != [] && !quality.offTopic then Success else Error)
  }

  ghost predicate BringsNothing(o: Outcome) {
    o.side == Side([], [], [], [], 0, false, [])
  }

  ghost predicate RetrieveEnds(c: Context, step: Step, o: Outcome) {
    if !c.canRetrieve then o.status == Error && BringsNothing(o)
    else exists query, found, quality ::
      SearchesWith(c, step, query) && Searched(c, query, found, quality) && Searches(c, query, found, quality, o)
  }

  /** The skill a step's hint stands for, or else the first one suggested for its words. */
  ghost predicate PicksSkill(c: Context, step: Step, words: string, name: string, hints: seq<Hint>) {
    var named := c.use.resolveSkill(step.skillHint);
    if named != None && named != Some("") then name == named.value && hints == [(name, name)]
    else hints == c.use.suggest(words) && name == (if hints == [] then "" else hints[0].0)
  }

  /** The outcomes of a skill step whose skill is known. */
  ghost predicate SkillRuns(c: Context, bag: seq<Evidence>, step: Step, words: string, name: string, hints: seq<Hint>, o: Outcome) {
    && o.side.suggested == hints && o.side.evidence == [] && o.side.trace == [] && o.side.warnings == []
    && o.side.latency == 0 && !o.side.rerank
    && if name == "" then o.status == Skipped && o.side.skillResults == []
       else if !c.canExecute then o.status == Success && o.side.skillResults == []
       else if bag == [] then o.status == Error && o.side.skillResults == []
       else
         var one := c.use.execute(name, words, bag, step.id);
         && o.side.skillResults == [one]
         && (o.status == Success <==> one.0 == "success")
         && (o.status == Skipped <==> one.0 == "skipped")
         && (o.status == Error <==> one.0 != "success" && one.0 != "skipped")
  }

  ghost predicate SkillEnds(c: Context, bag: seq<Evidence>, step: Step, o: Outcome) {
    if !c.enableSkill then o.status == Skipped && BringsNothing(o)
    else exists words, name, hints ::
      && words == (if step.query != None && step.query != Some("") then step.query.value else c.question)
      && PicksSkill(c, step, words, name, hints)
      && SkillRuns(c, bag, step, words, name, hints, o)
  }

  /** What a step comes to on a bag, by its kind. */
  ghost predicate Ends(c: Context, bag: seq<Evidence>, step: Step, o: Outcome) {
    match step.kind
    case Retrieve => RetrieveEnds(c, step, o)
    case Skill => SkillEnds(c, bag, step, o)
    case Tool => o.status == Skipped && BringsNothing(o)
    case Verify => o.status == (if bag != [] then Success else Error) && BringsNothing(o)
    case Answer => o.status == Success && BringsNothing(o)
  }

  lemma QueryIs(c: Context, step: Step)
    ensures SearchesWith(c, step, RetrieveQuery(c, step))
  {
    assert Says(step.query, TextOf(step.query)) && Says(c.rewrite, TextOf(c.rewrite));
  }

  lemma RetrieveExactly(c: Context, step: Step)
    ensures RetrieveEnds(c, step, RunRetrieve(c, step))
  {
    if c.canRetrieve {
      QueryIs(c, step);
      var query := RetrieveQuery(c, step);
      var first := c.use.retrieve(Take(query, 4000));
      var q1 := c.use.quality(c.question, first.evidence, if query != c.question then Some(query) else None, 1);
      var found := if q1.retry && query != c.question then c.use.retrieve(Take(c.question, 4000)).evidence else first.evidence;
      var quality := if q1.retry then c.use.quality(c.question, found, None, 2) else q1;
      assert Searched(c, query, found, quality);
      assert Searches(c, query, found, quality, RunRetrieve(c, step));
    }
  }

  lemma SkillExactly(c: Context, bag: seq<Evidence>, step: Step)
    ensures SkillEnds(c, bag, step, RunSkill(c, bag, step))
  {
    if c.enableSkill {
      var words := SkillQuery(c, step);
      var (name, hints) := PickSkill(c, step);
      assert PicksSkill(c, step, words, name, hints);
      assert SkillRuns(c, bag, step, words, name, hints, RunSkill(c, bag, step));
    }
  }

  /** The exact outcome of every step, told from the services alone. */
  lemma RunOneExactly(c: Context, bag: seq<Evidence>, step: Step)
    ensures Ends(c, bag, step, RunOne(c, bag, step))
  {
    RetrieveExactly(c, step);
    SkillExactly(c, bag, step);
  }

  // ---- Many steps ----

  /** What two batches of results come to together. */
  ghost function Join(a: Side, b: Side): Side {
    Side(a.evidence + b.evidence, a.trace + b.trace, a.skillResults + b.skillResults, a.suggested + b.suggested,
         a.latency + b.latency, a.rerank || b.rerank, a.warnings + b.warnings)
  }

  ghost function Total(os: seq<Outcome>): Side {
    if os == [] then Side([], [], [], [], 0, false, []) else Join(os[0].side, Total(os[1..]))
  }

  lemma JoinAssociative(a: Side, b: Side, c: Side)
    ensures Join(Join(a, b), c) == Join(a, Join(b, c))
  {
    var l, r := Join(Join(a, b), c), Join(a, Join(b, c));
    assert l.evidence == r.evidence && l.trace == r.trace && l.skillResults == r.skillResults;
    assert l.suggested == r.suggested && l.warnings == r.warnings;
  }

  lemma JoinNothing(a: Side)
    ensures Join(Side([], [], [], [], 0, false, []), a) == a && Join(a, Side([], [], [], [], 0, false, [])) == a
  {
  }

  lemma {:induction false} TotalAppend(a: seq<Outcome>, b: seq<Outcome>)
    ensures Total(a + b) == Join(Total(a), Total(b))
  {
    if a == [] {
      assert a + b == b;
      JoinNothing(Total(b));
    } else {
      assert (a + b)[1..] == a[1..] + b;
      TotalAppend(a[1..], b);
      JoinAssociative(a[0].side, Total(a[1..]), Total(b));
    }
  }

  lemma TotalOne(o: Outcome)
    ensures Total([o]) == o.side
  {
    assert [o][1..] == [];
    JoinNothing(o.side);
  }

  /** From one state of a run to a later one, these results were taken in. */
  ghost predicate TookIn(r: Run, r': Run, side: Side) {
    && Normal(r.bag) && r'.bag == Merge(r.bag, side.evidence)
    && r'.traces == r.traces + side.trace
    && r'.warnings == r.warnings + side.warnings
    && r'.skillResults == r.skillResults + side.skillResults
    && r'.suggested == AddHints(r.suggested, side.suggested)
    && r'.latency == r.latency + side.latency && r'.rerank == (r.rerank || side.rerank)
  }

  lemma {:induction false} AddHintsTwice(have: seq<Hint>, a: seq<Hint>, b: seq<Hint>)
    ensures AddHints(AddHints(have, a), b) == AddHints(have, a + b)
    decreases |a|
  {
    if a == [] {
      assert a + b == b;
    } else {
      assert (a + b)[1..] == a[1..] + b;
      AddHintsTwice(if a[0] in have then have else have + [a[0]], a[1..], b);
    }
  }

  /** Suggestions are added in order, each once. */
  lemma {:induction false} HintsAre(have: seq<Hint>, more: seq<Hint>)
    ensures have <= AddHints(have, more)
    ensures forall h :: h in AddHints(have, more) <==> h in have || h in more
    ensures NoDup(have) ==> NoDup(AddHints(have, more))
    decreases |more|
  {
    if more != [] {
      var next := if more[0] in have then have else have + [more[0]];
      HintsAre(next, more[1..]);
      assert more == [more[0]] + more[1..];
    }
  }

  lemma MergeNone(bag: seq<Evidence>)
    requires Normal(bag)
    ensures Merge(bag, []) == bag
  {
    MergeIdempotent(bag);
  }

  lemma MergeMore(bag: seq<Evidence>, a: seq<Evidence>, b: seq<Evidence>)
    ensures Merge(Merge(bag, a), b) == Merge(bag, a + b)
  {
    MergeAbsorbsLeft(bag, a, b);
    assert bag + a + b == bag + (a + b);
  }

  lemma TookInBoth(r: Run, r1: Run, r2: Run, a: Side, b: Side)
    requires TookIn(r, r1, a) && TookIn(r1, r2, b)
    ensures TookIn(r, r2, Join(a, b))
  {
    MergeMore(r.bag, a.evidence, b.evidence);
    AddHintsTwice(r.suggested, a.suggested, b.suggested);
  }

  lemma FinishTakesIn(r: Run, id: Id, kind: Kind, o: Outcome)
    requires Normal(r.bag)
    ensures TookIn(r, Finish(r, id, kind, o), o.side) && Normal(Finish(r, id, kind, o).bag)
  {
    MergeNone(r.bag);
    MergeIsNormal(r.bag, o.side.evidence);
  }

  /** The outcomes of a wave's steps on a bag; of several steps with one id the last one runs. */
  ghost predicate WaveEnds(c: Context, bag: seq<Evidence>, ws: seq<Step>, wave: map<Id, Step>, os: seq<Outcome>) {
    |os| == |ws| && forall i :: 0 <= i < |ws| ==> ws[i].id in wave && Ends(c, bag, wave[ws[i].id], os[i])
  }

  ghost predicate AreRun(c: Context, bag: seq<Evidence>, ws: seq<Step>, wave: map<Id, Step>, os: seq<Outcome>) {
    |os| == |ws| && forall i :: 0 <= i < |ws| ==> ws[i].id in wave && os[i] == RunOne(c, bag, wave[ws[i].id])
  }

  lemma {:induction false} FinishAllTakesIn(c: Context, plan: map<Id, Step>, r: Run, ws: seq<Step>, wave: map<Id, Step>, bag: seq<Evidence>)
    returns (os: seq<Outcome>)
    requires forall s :: s in ws ==> s.id in wave && s.id in plan
    requires Normal(r.bag)
    ensures WaveEnds(c, bag, ws, wave, os) && AreRun(c, bag, ws, wave, os)
    ensures TookIn(r, FinishAll(c, plan, r, ws, wave, bag), Total(os))
    decreases |ws|
  {
    if ws == [] {
      os := [];
      MergeNone(r.bag);
    } else {
      assert ws[0] in ws;
      var id := ws[0].id;
      var o := RunOne(c, bag, wave[id]);
      var r1 := Finish(r, id, plan[id].kind, o);
      RunOneExactly(c, bag, wave[id]);
      FinishTakesIn(r, id, plan[id].kind, o);
      var rest := FinishAllTakesIn(c, plan, r1, ws[1..], wave, bag);
      os := [o] + rest;
      TookInBoth(r, r1, FinishAll(c, plan, r1, ws[1..], wave, bag), o.side, Total(rest));
      TotalCons(o, rest);
      WaveEndsCons(c, bag, ws, wave, o, rest);
    }
  }

  lemma TotalCons(o: Outcome, rest: seq<Outcome>)
    ensures Total([o] + rest) == Join(o.side, Total(rest))
  {
    TotalAppend([o], rest);
    TotalOne(o);
  }

  lemma WaveEndsCons(c: Context, bag: seq<Evidence>, ws: seq<Step>, wave: map<Id, Step>, o: Outcome, rest: seq<Outcome>)
    requires ws != [] && ws[0].id in wave && Ends(c, bag, wave[ws[0].id], o) && WaveEnds(c, bag, ws[1..], wave, rest)
    ensures WaveEnds(c, bag, ws, wave, [o] + rest)
  {
    var os := [o] + rest;
    forall i | 0 <= i < |ws| ensures ws[i].id in wave && Ends(c, bag, wave[ws[i].id], os[i]) {
      assert i > 0 ==> ws[i] == ws[1..][i - 1] && os[i] == rest[i - 1];
    }
  }

  /** A wave: every step ends on the bag as it stood, and the results are taken in in plan order. */
  lemma WaveTakesIn(c: Context, plan: seq<Step>, r: Run, wave: seq<Id>) returns (os: seq<Outcome>)
    requires Normal(r.bag)
    ensures var ws := WaveSteps(plan, wave);
            && WaveEnds(c, r.bag, ws, ById(ws), os) && TookIn(r, RunWave(c, plan, r, wave), Total(os))
            && WaveShows(ws, os, RunWave(c, plan, r, wave).status)
  {
    var ws := WaveSteps(plan, wave);
    InDictionary(plan, ws);
    MarkAllKeeps(r, ws);
    os := FinishAllTakesIn(c, ById(plan), MarkAll(r, ws), ws, ById(ws), r.bag);
    forall i | 0 <= i < |ws| ensures Shows(RunWave(c, plan, r, wave).status, ws[i].id, os[i].status) {
      assert ws[i] in ws;
      WaveStatus(c, plan, r, wave, ws[i].id);
    }
  }

  ghost predicate Shows(status: map<Id, Status>, id: Id, end: Status) {
    id in status && status[id] == end
  }

  ghost predicate WaveShows(ws: seq<Step>, os: seq<Outcome>, status: map<Id, Status>) {
    |os| == |ws| && forall i :: 0 <= i < |ws| ==> Shows(status, ws[i].id, os[i].status)
  }

  /** Every step shows the status of its outcome. */
  ghost predicate RunShows(plan: seq<Step>, waves: seq<seq<Id>>, outs: seq<seq<Outcome>>, status: map<Id, Status>) {
    |outs| == |waves| && forall k :: 0 <= k < |waves| ==> WaveShows(WaveSteps(plan, waves[k]), outs[k], status)
  }

  /** Later waves leave the statuses of a wave alone. */
  lemma StillShows(c: Context, plan: seq<Step>, r1: Run, waves: seq<seq<Id>>, os: seq<Outcome>)
    requires waves != [] && NoDup(Flatten(waves)) && WaveShows(WaveSteps(plan, waves[0]), os, r1.status)
    ensures WaveShows(WaveSteps(plan, waves[0]), os, RunWaves(c, plan, r1, waves[1..]).status)
  {
    var ws := WaveSteps(plan, waves[0]);
    forall i | 0 <= i < |ws| ensures Shows(RunWaves(c, plan, r1, waves[1..]).status, ws[i].id, os[i].status) {
      assert ws[i] in ws && Shows(r1.status, ws[i].id, os[i].status);
      NeverAgain(plan, waves, ws[i].id);
      UntouchedEvents(c, plan, r1, waves[1..], ws[i].id);
    }
  }

  lemma RunShowsCons(plan: seq<Step>, waves: seq<seq<Id>>, os: seq<Outcome>, rest: seq<seq<Outcome>>, status: map<Id, Status>)
    requires waves != [] && WaveShows(WaveSteps(plan, waves[0]), os, status) && RunShows(plan, waves[1..], rest, status)
    ensures RunShows(plan, waves, [os] + rest, status)
  {
    var outs := [os] + rest;
    forall k | 0 <= k < |waves| ensures WaveShows(WaveSteps(plan, waves[k]), outs[k], status) {
      assert k > 0 ==> waves[k] == waves[1..][k - 1] && outs[k] == rest[k - 1];
    }
  }

  /** The outcomes of a run, wave by wave, each wave on the bag of everything found before it. */
  ghost predicate RunEnds(c: Context, plan: seq<Step>, bag: seq<Evidence>, waves: seq<seq<Id>>, outs: seq<seq<Outcome>>) {
    && |outs| == |waves|
    && forall k :: 0 <= k < |waves| ==>
         var ws := WaveSteps(plan, waves[k]);
         WaveEnds(c, Merge(bag, Total(Flatten(outs[..k])).evidence), ws, ById(ws), outs[k])
  }

  lemma {:induction false} WavesTakeIn(c: Context, plan: seq<Step>, r: Run, waves: seq<seq<Id>>) returns (outs: seq<seq<Outcome>>)
    requires Normal(r.bag) && NoDup(Flatten(waves))
    ensures RunEnds(c, plan, r.bag, waves, outs) && RunShows(plan, waves, outs, RunWaves(c, plan, r, waves).status)
    ensures TookIn(r, RunWaves(c, plan, r, waves), Total(Flatten(outs)))
    decreases |waves|
  {
    MergeNone(r.bag);
    if waves == [] {
      outs := [];
    } else {
      var r1 := RunWave(c, plan, r, waves[0]);
      var os := WaveTakesIn(c, plan, r, waves[0]);
      MergeIsNormal(r.bag, Total(os).evidence);
      NoDupTail(waves);
      var rest := WavesTakeIn(c, plan, r1, waves[1..]);
      outs := [os] + rest;
      ThenTheRest(r, r1, RunWaves(c, plan, r, waves), os, rest);
      RunEndsCons(c, plan, r.bag, waves, os, rest);
      StillShows(c, plan, r1, waves, os);
      RunShowsCons(plan, waves, os, rest, RunWaves(c, plan, r, waves).status);
    }
  }

  lemma ThenTheRest(r: Run, r1: Run, r2: Run, os: seq<Outcome>, rest: seq<seq<Outcome>>)
    requires TookIn(r, r1, Total(os)) && TookIn(r1, r2, Total(Flatten(rest)))
    ensures TookIn(r, r2, Total(Flatten([os] + rest)))
  {
    var outs := [os] + rest;
    TookInBoth(r, r1, r2, Total(os), Total(Flatten(rest)));
    TotalAppend(os, Flatten(rest));
    assert outs[1..] == rest && Flatten(outs) == os + Flatten(rest);
  }

  lemma RunEndsCons(c: Context, plan: seq<Step>, bag: seq<Evidence>, waves: seq<seq<Id>>, os: seq<Outcome>, rest: seq<seq<Outcome>>)
    requires waves != [] && Normal(bag)
    requires var ws := WaveSteps(plan, waves[0]); WaveEnds(c, bag, ws, ById(ws), os)
    requires RunEnds(c, plan, Merge(bag, Total(os).evidence), waves[1..], rest)
    ensures RunEnds(c, plan, bag, waves, [os] + rest)
  {
    var outs := [os] + rest;
    forall k | 0 <= k < |waves|
      ensures var ws := WaveSteps(plan, waves[k]);
              WaveEnds(c, Merge(bag, Total(Flatten(outs[..k])).evidence), ws, ById(ws), outs[k])
    {
      if k == 0 {
        MergeNone(bag);
        assert outs[..0] == [];
      } else {
        FoundBefore(bag, os, rest, k - 1);
        assert waves[k] == waves[1..][k - 1] && outs[k] == rest[k - 1];
      }
    }
  }

  lemma FoundBefore(bag: seq<Evidence>, os: seq<Outcome>, rest: seq<seq<Outcome>>, k: nat)
    requires k <= |rest|
    ensures Merge(bag, Total(Flatten(([os] + rest)[..k + 1])).evidence)
            == Merge(Merge(bag, Total(os).evidence), Total(Flatten(rest[..k])).evidence)
  {
    var outs := [os] + rest;
    assert outs[..k + 1] == [os] + rest[..k];
    assert ([os] + rest[..k])[1..] == rest[..k];
    TotalAppend(os, Flatten(rest[..k]));
    MergeMore(bag, Total(os).evidence, Total(Flatten(rest[..k])).evidence);
  }

  /**
   * A whole run, told from the services: each step ends by its kind on the bag of everything
   * the earlier waves found, and shows that status in the end; the final bag holds exactly the
   * first occurrences of all that was found, in the order of execution; traces, warnings and
   * skill results are those of the steps in that order.
   */
  lemma RunExactly(c: Context, steps: seq<Step>, parallel: bool, turn: Option<Book>)
    returns (outs: seq<seq<Outcome>>, at: seq<nat>)
    ensures var plan := Inferred(steps, c.use.lower);
            var run, all := Execute(c, steps, parallel, turn), Total(Flatten(outs));
            && RunEnds(c, plan, [], WavesOf(NodesOf(plan), parallel), outs)
            && RunShows(plan, WavesOf(NodesOf(plan), parallel), outs, run.status)
            && Comprises(run, all, at)
  {
    var plan := Inferred(steps, c.use.lower);
    WavesCoverOnce(NodesOf(plan), parallel);
    outs := WavesTakeIn(c, plan, Initial(plan, turn), WavesOf(NodesOf(plan), parallel));
    at := FromNothing(Initial(plan, turn), Execute(c, steps, parallel, turn), Total(Flatten(outs)));
  }

  /** What a run comes to: the distinct items of all that was found, and everything else as it came; each suggestion once. */
  ghost predicate Comprises(run: Run, all: Side, at: seq<nat>) {
    && MergedFrom(all.evidence, at, run.bag)
    && run.traces == all.trace && run.warnings == all.warnings && run.skillResults == all.skillResults
    && run.latency == all.latency && run.rerank == all.rerank
    && NoDup(run.suggested) && forall h :: h in run.suggested <==> h in all.suggested
  }

  lemma FromNothing(start: Run, run: Run, all: Side) returns (at: seq<nat>)
    requires TookIn(start, run, all) && start.bag == [] && start.traces == [] && start.warnings == [] && start.skillResults == []
    requires start.suggested == [] && start.latency == 0 && !start.rerank
    ensures Comprises(run, all, at)
  {
    at := MergeExactly([], all.evidence);
    assert [] + all.evidence == all.evidence;
    HintsAre([], all.suggested);
  }

  /** A wave takes exactly the steps with its ids, in plan order. */
  lemma {:induction false} WaveInPlanOrder(plan: seq<Step>, wave: seq<Id>) returns (at: seq<nat>)
    ensures WaveAt(plan, |plan|, wave, WaveSteps(plan, wave), at)
  {
    at := [];
    if plan != [] {
      var n := |plan| - 1;
      at := WaveInPlanOrder(plan[..n], wave);
      WaveFurther(plan, n, wave, WaveSteps(plan[..n], wave), at);
      if plan[n].id in wave {
        WaveOneMore(plan, n, wave, WaveSteps(plan[..n], wave), at);
        at := at + [n];
      }
    }
  }

  /** The steps at these positions: those of the first n that belong to the wave, in plan order. */
  ghost predicate WaveAt(plan: seq<Step>, n: nat, wave: seq<Id>, ws: seq<Step>, at: seq<nat>) {
    && n <= |plan| && Rising(at) && |at| == |ws|
    && (forall j :: 0 <= j < |at| ==> at[j] < n && ws[j] == plan[at[j]])
    && (forall k: nat :: k in at <==> k < n && plan[k].id in wave)
  }

  lemma WaveFurther(plan: seq<Step>, n: nat, wave: seq<Id>, ws: seq<Step>, at: seq<nat>)
    requires n < |plan| && WaveAt(plan[..n], n, wave, ws, at)
    ensures WaveAt(plan, n, wave, ws, at) && (plan[n].id !in wave ==> WaveAt(plan, n + 1, wave, ws, at))
  {
    assert forall k: nat :: k < n ==> plan[..n][k] == plan[k];
  }

  lemma WaveOneMore(plan: seq<Step>, n: nat, wave: seq<Id>, ws: seq<Step>, at: seq<nat>)
    requires n < |plan| && WaveAt(plan, n, wave, ws, at) && plan[n].id in wave
    ensures WaveAt(plan, n + 1, wave, ws + [plan[n]], at + [n])
  {
    RisingSnoc(at, n);
  }
}
