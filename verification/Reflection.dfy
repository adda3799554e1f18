/** The critique/improve loop over a drafted answer, with its hard round cap. */
module Reflection {
  import opened Seqs
  import opened Text

  datatype Issue = Issue(isError: bool, problem: string)

  datatype Verdict = Pass | NeedsImprovement

  datatype Critique = Critique(verdict: Verdict, issues: seq<Issue>)

  /** One raw entry of the critic's JSON: not an object, or an object with a problem and a severity. */
  datatype RawIssue = NotAnObject | Raw(problem: string, severityIsError: bool)

  /** The parsed JSON object; `claimed` is the verdict the model wrote. */
  datatype RawCritique = RawCritique(claimed: string, issues: seq<RawIssue>)

  const MAX_ISSUES := 12

  function Coerce(raw: RawIssue): Option<Issue> {
    if raw.NotAnObject? || Strip(raw.problem) == "" then None
    else Some(Issue(raw.severityIsError, Take(Strip(raw.problem), 500)))
  }

  function CountErrors(issues: seq<Issue>): nat {
    if issues == [] then 0 else CountErrors(issues[..|issues| - 1]) + (if issues[|issues| - 1].isError then 1 else 0)
  }

  function CountWarnings(issues: seq<Issue>): nat {
    if issues == [] then 0 else CountWarnings(issues[..|issues| - 1]) + (if issues[|issues| - 1].isError then 0 else 1)
  }

  /** The exit rule: nothing to fix, or no errors and the warnings within budget. */
  predicate Acceptable(issues: seq<Issue>, budget: int) {
    issues == [] || (CountErrors(issues) == 0 && CountWarnings(issues) <= budget)
  }

  /** Usable entries of a list, in order. */
  function Usable(raw: seq<RawIssue>): seq<Issue> {
    if raw == [] then []
    else
      var rest, last := Usable(raw[..|raw| - 1]), Coerce(raw[|raw| - 1]);
      if last.Some? then rest + [last.value] else rest
  }

  // ---- What a critique holds ----

  ghost predicate Readable(raw: RawIssue) {
    raw.Raw? && Strip(raw.problem) != ""
  }

  /** `issue` is what an entry says, its problem stripped and cut to 500 characters. */
  ghost predicate Reads(raw: RawIssue, issue: Issue) {
    && Readable(raw) && issue.isError == raw.severityIsError
    && issue.problem == (if |Strip(raw.problem)| <= 500 then Strip(raw.problem) else Strip(raw.problem)[..500])
  }

  /** The issues are the readable entries at these positions; all of them, or the first twelve. */
  ghost predicate ReadAt(raw: seq<RawIssue>, issues: seq<Issue>, at: seq<nat>) {
    && |at| == |issues| <= 12 && Rising(at)
    && (forall j :: 0 <= j < |at| ==> at[j] < |raw| && Reads(raw[at[j]], issues[j]))
    && (forall k: nat :: k < |raw| && Readable(raw[k]) ==> k in at || (|at| == 12 && at[11] < k))
  }

  ghost predicate ReadFrom(raw: seq<RawIssue>, issues: seq<Issue>) {
    exists at: seq<nat> :: ReadAt(raw, issues, at)
  }

  /** Nothing to fix, or nothing but warnings and no more of them than allowed. */
  ghost predicate Fine(issues: seq<Issue>, budget: int) {
    issues == [] || ((forall i :: 0 <= i < |issues| ==> !issues[i].isError) && |issues| <= budget)
  }

  lemma {:induction false} CountsAre(issues: seq<Issue>)
    ensures CountErrors(issues) + CountWarnings(issues) == |issues|
    ensures CountErrors(issues) == 0 <==> forall i :: 0 <= i < |issues| ==> !issues[i].isError
  {
    if issues != [] {
      CountsAre(issues[..|issues| - 1]);
    }
  }

  lemma AcceptableMeans(issues: seq<Issue>, budget: int)
    ensures Acceptable(issues, budget) <==> Fine(issues, budget)
  {
    CountsAre(issues);
  }

  /** The usable entries are the readable ones, in order. */
  lemma {:induction false} UsableAre(raw: seq<RawIssue>) returns (at: seq<nat>)
    ensures AllReadAt(raw, Usable(raw), at, |raw|)
  {
    at := [];
    if raw != [] {
      var n := |raw| - 1;
      at := UsableAre(raw[..n]);
      ReadFurther(raw, Usable(raw[..n]), at, n);
      if Readable(raw[n]) {
        ReadOneMore(raw, Usable(raw[..n]), at, n, Coerce(raw[n]).value);
        at := at + [n];
      }
    }
  }

  /** The issues are the readable ones among the first n entries. */
  ghost predicate AllReadAt(raw: seq<RawIssue>, issues: seq<Issue>, at: seq<nat>, n: nat) {
    && |at| == |issues| && Rising(at) && n <= |raw|
    && (forall j :: 0 <= j < |at| ==> at[j] < n && Reads(raw[at[j]], issues[j]))
    && (forall k: nat :: k < n && Readable(raw[k]) ==> k in at)
  }

  lemma ReadFurther(raw: seq<RawIssue>, issues: seq<Issue>, at: seq<nat>, n: nat)
    requires n < |raw| && AllReadAt(raw[..n], issues, at, n)
    ensures AllReadAt(raw, issues, at, n) && (!Readable(raw[n]) ==> AllReadAt(raw, issues, at, n + 1))
  {
    forall k: nat | k < n && Readable(raw[k]) ensures k in at {
      assert raw[..n][k] == raw[k];
    }
  }

  lemma ReadOneMore(raw: seq<RawIssue>, issues: seq<Issue>, at: seq<nat>, n: nat, issue: Issue)
    requires n < |raw| && AllReadAt(raw, issues, at, n) && Reads(raw[n], issue)
    ensures AllReadAt(raw, issues + [issue], at + [n], n + 1)
  {
    RisingSnoc(at, n);
    forall k: nat | k < n + 1 && Readable(raw[k]) ensures k in at + [n] {
      assert k < n ==> k in at;
    }
  }

  lemma TakenAreRead(raw: seq<RawIssue>)
    ensures ReadFrom(raw, Take(Usable(raw), MAX_ISSUES))
  {
    var all := UsableAre(raw);
    var at := Take(all, 12);
    forall k: nat | k < |raw| && Readable(raw[k]) ensures k in at || (|at| == 12 && at[11] < k) {
      var j :| 0 <= j < |all| && all[j] == k;
      assert j < |at| ==> at[j] == k;
    }
    assert ReadAt(raw, Take(Usable(raw), MAX_ISSUES), at);
  }

  /**
   * `normalize_critique_result`: the first twelve usable issues, and a verdict that follows
   * from them alone; what the model claimed never turns a failing critique into a pass.
   */
  method NormalizeCritique(data: Option<RawCritique>, budget: int) returns (c: Option<Critique>)
    ensures c.None? <==> data.None?
    ensures c.Some? ==> ReadFrom(data.value.issues, c.value.issues)
    ensures c.Some? ==> (c.value.verdict == Pass <==> Fine(c.value.issues, budget))
  {
    if data.None? {
      return None;
    }
    var issues := ReadIssues(data.value.issues);
    AcceptableMeans(issues, budget);
    var verdict := if Acceptable(issues, budget) then Pass else NeedsImprovement;
    c := Some(Critique(verdict, issues));
  }

  method ReadIssues(raw: seq<RawIssue>) returns (issues: seq<Issue>)
    ensures issues == Take(Usable(raw), MAX_ISSUES) && ReadFrom(raw, issues)
  {
    issues := [];
    var i := 0;
    while i < |raw| && |issues| < MAX_ISSUES
      invariant 0 <= i <= |raw| && |issues| <= MAX_ISSUES
      invariant issues == Usable(raw[..i])
    {
      assert raw[..i + 1][..i] == raw[..i];
      var issue := Coerce(raw[i]);
      if issue.Some? {
        issues := issues + [issue.value];
      }
      i := i + 1;
    }
    UsablePrefix(raw, i);
    TakenAreRead(raw);
  }

  lemma {:induction false} UsablePrefix(raw: seq<RawIssue>, i: nat)
    requires i <= |raw|
    ensures |Usable(raw[..i])| <= |Usable(raw)| && Usable(raw)[..|Usable(raw[..i])|] == Usable(raw[..i])
    ensures i == |raw| ==> raw[..i] == raw
  {
    if i < |raw| {
      assert raw[..|raw| - 1][..i] == raw[..i];
      UsablePrefix(raw[..|raw| - 1], i);
    } else {
      assert raw[..i] == raw;
    }
  }

  // ---- The loop ----

  /** What the critic's model call comes to. */
  datatype Reply = NoModel | CallFailed | Crashed | Answered(parsed: Option<RawCritique>)

  datatype Judgement = Judged(critique: Critique) | ParseError | OtherError

  /** The critique a reply amounts to: a pass without a model, otherwise what the reply says. */
  ghost predicate Amounts(reply: Reply, budget: int, c: Critique) {
    match reply
    case NoModel | CallFailed => c == Critique(Pass, [])
    case Crashed => false
    case Answered(parsed) =>
      parsed.Some? && ReadFrom(parsed.value.issues, c.issues) && (c.verdict == Pass <==> Fine(c.issues, budget))
  }

  /** `evaluate`: fail-open without a model or when the call fails, an error when the JSON is unusable. */
  method Evaluate(reply: Reply, budget: int) returns (j: Judgement)
    ensures j.Judged? ==> Amounts(reply, budget, j.critique)
    ensures j.ParseError? <==> reply == Answered(None)
    ensures j.OtherError? <==> reply == Crashed
  {
    match reply {
      case NoModel | CallFailed => j := Judged(Critique(Pass, []));
      case Crashed => j := OtherError;
      case Answered(parsed) =>
        var c := NormalizeCritique(parsed, budget);
        j := if c.None? then ParseError else Judged(c.value);
    }
  }

  datatype Reason = PassReason | MaxRounds | ParseFailed | Errored | ImproveEmpty | NotRun(why: string)

  datatype Round = Round(index: nat, critique: Critique, improved: bool, before: string, after: string)

  /** The critic and the editor, each free to answer differently every round. */
  datatype Models = Models(critic: (nat, string, seq<Issue>) -> Reply, editor: (nat, string, Critique) -> string)

  /** Each round starts from the answer the previous one left; the first from `first`, the last ends in `last`. */
  ghost predicate Chained(rounds: seq<Round>, first: string, last: string) {
    if rounds == [] then first == last
    else rounds[|rounds| - 1].after == last && Chained(rounds[..|rounds| - 1], first, rounds[|rounds| - 1].before)
  }

  function CappedRounds(setting: int): nat {
    var asked := if setting == 0 then 2 else setting;
    if asked < 0 then 0 else if asked > 3 then 3 else asked
  }

  /** The gate, with the tests on text and settings given as their results. */
  datatype Gate = Gate(allowed: bool, enabled: bool, setting: int, blank: bool, hasEvidence: bool, refusal: bool, highStakes: bool) {
    predicate Open() {
      allowed && enabled && setting >= 1 && !blank && hasEvidence && !refusal && highStakes
    }
  }

  /**
   * A round: its critique is the critic's reply to the answer it began with and the issues of
   * the round before. A pass or the last allowed round leaves the answer alone; otherwise the
   * editor's text replaces it, unless that is blank.
   */
  ghost predicate RoundAt(models: Models, budget: int, cap: nat, rounds: seq<Round>, i: nat)
    requires i < |rounds|
  {
    var r := rounds[i];
    && r.index == i + 1
    && Amounts(models.critic(i + 1, r.before, if i == 0 then [] else rounds[i - 1].critique.issues), budget, r.critique)
    && (r.critique.verdict == Pass || i + 1 == cap ==> i + 1 == |rounds| && r.after == r.before && !r.improved)
    && (r.critique.verdict != Pass && i + 1 < cap ==>
          var text := models.editor(i + 1, r.before, r.critique);
          && r.after == (if Strip(text) == "" then r.before else text)
          && (r.improved <==> Strip(text) != "" && Strip(text) != Strip(r.before)))
  }

  ghost predicate Rounds(models: Models, budget: int, cap: nat, rounds: seq<Round>) {
    forall i :: 0 <= i < |rounds| ==> RoundAt(models, budget, cap, rounds, i)
  }

  /** The last round passed, or was the last one allowed. */
  ghost predicate Over(cap: nat, rounds: seq<Round>) {
    rounds != [] && (rounds[|rounds| - 1].critique.verdict == Pass || |rounds| == cap)
  }

  /** Why the loop stopped after these rounds, and how often each model was called. */
  ghost predicate Stopped(models: Models, cap: nat, rounds: seq<Round>, answer: string, reason: Reason, evaluations: nat, rewrites: nat) {
    if Over(cap, rounds) then
      && evaluations == |rounds| && rewrites == |rounds| - 1
      && reason == (if rounds[|rounds| - 1].critique.verdict == Pass then PassReason else MaxRounds)
    else
      && evaluations == |rounds| + 1 && rewrites == |rounds| < cap
      && var reply := models.critic(evaluations, answer, if rounds == [] then [] else rounds[|rounds| - 1].critique.issues);
         (reason == ParseFailed && reply == Answered(None)) || (reason == Errored && reply == Crashed)
  }

  /** `should_run_reflection` said yes. */
  ghost predicate LetIn(g: Gate) {
    g.allowed && g.enabled && g.setting >= 1 && !g.blank && g.hasEvidence && !g.refusal && g.highStakes
  }

  /**
   * `ReflectionLoop.run`. Returns the answer, the rounds, why it stopped, and how often each
   * model was called.
   */
  method RunReflection(gate: Gate, models: Models, budget: int, draft: string)
    returns (answer: string, rounds: seq<Round>, reason: Reason, evaluations: nat, rewrites: nat)
    ensures Chained(rounds, draft, answer)
    ensures !LetIn(gate) ==> rounds == [] && reason.NotRun? && evaluations == rewrites == 0
    ensures LetIn(gate) ==>
              var cap := if gate.setting > 3 then 3 else gate.setting;
              && |rounds| <= evaluations <= cap
              && Rounds(models, budget, cap, rounds)
              && Stopped(models, cap, rounds, answer, reason, evaluations, rewrites)
  {
    var maxRounds := CappedRounds(gate.setting);
    answer, rounds, reason, evaluations, rewrites := draft, [], MaxRounds, 0, 0;
    if !gate.Open() {
      return answer, rounds, NotRun("gate"), 0, 0;
    }
    var prior: seq<Issue> := [];
    var index := 1;
    while index <= maxRounds
      invariant 1 <= index <= maxRounds
      invariant evaluations == rewrites == |rounds| == index - 1
      invariant Chained(rounds, draft, answer) && prior == if rounds == [] then [] else rounds[|rounds| - 1].critique.issues
      invariant Rounds(models, budget, maxRounds, rounds) && Failing(rounds)
      decreases maxRounds - index
    {
      var reply := models.critic(index, answer, prior);
      var judgement := Evaluate(reply, budget);
      evaluations := evaluations + 1;
      if judgement.ParseError? {
        return answer, rounds, ParseFailed, evaluations, rewrites;
      }
      if judgement.OtherError? {
        return answer, rounds, Errored, evaluations, rewrites;
      }
      var critique := judgement.critique;
      if critique.verdict == Pass {
        rounds := Append(models, budget, maxRounds, rounds, Round(index, critique, false, answer, answer), draft, answer);
        return answer, rounds, PassReason, evaluations, rewrites;
      }
      if index >= maxRounds {
        rounds := Append(models, budget, maxRounds, rounds, Round(index, critique, false, answer, answer), draft, answer);
        return answer, rounds, MaxRounds, evaluations, rewrites;
      }
      var before := answer;
      var revised := models.editor(index, before, critique);
      rewrites := rewrites + 1;
      var improved := Strip(revised) != "" && Strip(revised) != Strip(before);
      if Strip(revised) == "" {
        revised, improved, reason := before, false, ImproveEmpty;
      }
      answer := revised;
      rounds := Append(models, budget, maxRounds, rounds, Round(index, critique, improved, before, revised), draft, before);
      prior := critique.issues;
      index := index + 1;
    }
  }

  /** So far no round passed. */
  ghost predicate Failing(rounds: seq<Round>) {
    forall i :: 0 <= i < |rounds| ==> rounds[i].critique.verdict != Pass
  }

  /** A round that keeps the rules where the rounds so far leave off. */
  ghost predicate Follows(models: Models, budget: int, cap: nat, rounds: seq<Round>, round: Round) {
    RoundAt(models, budget, cap, rounds + [round], |rounds|)
  }

  lemma FollowsOn(models: Models, budget: int, cap: nat, rounds: seq<Round>, round: Round)
    requires Rounds(models, budget, cap, rounds) && Failing(rounds) && |rounds| < cap
    requires Follows(models, budget, cap, rounds, round)
    ensures Rounds(models, budget, cap, rounds + [round])
  {
    var r := rounds + [round];
    forall i | 0 <= i < |r| ensures RoundAt(models, budget, cap, r, i) {
      if i < |rounds| {
        assert RoundAt(models, budget, cap, rounds, i);
        assert r[..i] == rounds[..i];
      }
    }
  }

  method Append(ghost models: Models, ghost budget: int, ghost cap: nat, rounds: seq<Round>, round: Round,
                ghost first: string, ghost last: string) returns (r: seq<Round>)
    requires Chained(rounds, first, last) && round.before == last
    requires Rounds(models, budget, cap, rounds) && Failing(rounds) && |rounds| < cap
    requires Follows(models, budget, cap, rounds, round)
    ensures r == rounds + [round] && Chained(r, first, round.after)
    ensures Rounds(models, budget, cap, r)
  {
    FollowsOn(models, budget, cap, rounds, round);
    r := rounds + [round];
    assert r[..|r| - 1] == rounds;
  }

  /** Read pairwise: adjacent rounds meet, the first starts at the draft, the last ends at the answer. */
  lemma {:induction false} ChainedMeans(rounds: seq<Round>, first: string, last: string)
    requires Chained(rounds, first, last) && rounds != []
    ensures rounds[0].before == first && rounds[|rounds| - 1].after == last
    ensures forall i :: 0 < i < |rounds| ==> rounds[i - 1].after == rounds[i].before
  {
    var n := |rounds| - 1;
    if n > 0 {
      ChainedMeans(rounds[..n], first, rounds[n].before);
    }
  }

  /**
   * What the stop reason says: a pass only on a fine last critique, the limit only on one that
   * is not; an empty rewrite is never the reason, and there is always one rewrite fewer than
   * the rounds allowed.
   */
  lemma StopReasons(models: Models, budget: int, cap: nat, rounds: seq<Round>, answer: string, reason: Reason, evaluations: nat, rewrites: nat)
    requires Rounds(models, budget, cap, rounds) && 1 <= cap && |rounds| <= cap
    requires Stopped(models, cap, rounds, answer, reason, evaluations, rewrites)
    ensures reason != ImproveEmpty && !reason.NotRun? && rewrites < cap
    ensures reason == PassReason ==> rounds != [] && Fine(rounds[|rounds| - 1].critique.issues, budget)
    ensures reason == MaxRounds ==> |rounds| == cap && !Fine(rounds[|rounds| - 1].critique.issues, budget)
  {
    if rounds != [] {
      assert RoundAt(models, budget, cap, rounds, |rounds| - 1);
    }
  }
}
