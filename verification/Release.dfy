/** From draft to published answer: the answer agent, the reflection gate and the release gate. */
module Release {
  import opened Seqs
  import opened Text
  import opened EvidenceBag
  import opened Compliance
  import ToolLoop
  import Reflection

  const HARD_REFUSE :=
    "当前授权知识库没有检索到可靠制度证据，无法给出可作为制度依据的回答。" +
    "请补充更具体的制度问题、选择正确知识库，或联系归口部门确认。"

  const DISCLAIMER :=
    "【未检索到知识库依据 · 模型参考回答 · 不可信，需你自行判断】\n" +
    "当前授权知识库没有检索到可靠制度证据。以下内容由模型基于通用知识生成，" +
    "不能作为正式制度依据，请你自行判断，并与相关部门确认后再执行。\n\n"

  const NO_REPLY := "暂无法给出可参考的模型回答。"

  /** Phrases that tell the reader there is no evidence behind a text. */
  const CAVEATS := ["未检索到", "没有检索到", "不可信", "仅供参考"]

  // ---- The evidence as the model sees it ----

  const UNTITLED := "未命名文档"

  function Number(n: int): string {
    if n < 0 then "-" + Decimal(-n) else Decimal(n)
  }

  /** The marker an item is printed with. */
  function Tag(n: int): string {
    "[" + Number(n) + "]"
  }

  function EvidenceLine(e: Evidence): string {
    Tag(e.rank) + " " + (if Given(e.title) then e.title.value else UNTITLED) + ": " + e.snippet
  }

  function EvidenceLines(evidence: seq<Evidence>): (r: seq<string>)
    ensures |r| == |evidence| && forall i :: 0 <= i < |r| ==> r[i] == EvidenceLine(evidence[i])
  {
    seq(|evidence|, i requires 0 <= i < |evidence| => EvidenceLine(evidence[i]))
  }

  function JoinLines(lines: seq<string>): string {
    if lines == [] then ""
    else if |lines| == 1 then lines[0]
    else JoinLines(lines[..|lines| - 1]) + "\n" + lines[|lines| - 1]
  }

  /** A line opens with the item's marker, names its document and ends with its text. */
  lemma LineTells(e: Evidence)
    ensures var line := EvidenceLine(e);
            && Tag(e.rank) <= line
            && Holds(line, if e.title == None || e.title == Some("") then UNTITLED else e.title.value)
            && |line| >= |e.snippet| && line[|line| - |e.snippet|..] == e.snippet
  {
    var line := EvidenceLine(e);
    var title := if e.title == None || e.title == Some("") then UNTITLED else e.title.value;
    var front := Tag(e.rank) + " ";
    assert line == front + title + ": " + e.snippet;
    assert line[|front|..|front| + |title|] == title;
    assert PartAt(line, title, |front|);
  }

  lemma {:induction false} HoldsLonger(a: string, b: string, part: string)
    requires Holds(a, part)
    ensures Holds(a + b, part)
  {
    var i :| 0 <= i <= |a| - |part| && PartAt(a, part, i);
    assert (a + b)[i..i + |part|] == a[i..i + |part|];
    assert PartAt(a + b, part, i);
  }

  /** Joined lines show every one of them. */
  lemma {:induction false} LinesShown(lines: seq<string>, i: nat)
    requires i < |lines|
    ensures Holds(JoinLines(lines), lines[i])
  {
    var n := |lines| - 1;
    var all := JoinLines(lines);
    if i < n {
      LinesShown(lines[..n], i);
      HoldsLonger(JoinLines(lines[..n]), "\n" + lines[n], lines[i]);
      assert all == JoinLines(lines[..n]) + ("\n" + lines[n]);
    } else {
      var at := |all| - |lines[n]|;
      assert all[at..at + |lines[n]|] == lines[n];
      assert PartAt(all, lines[n], at);
    }
  }

  // ---- Drafting ----

  /**
   * The answer agent's settings and models. Prompt and reply are made from the evidence
   * lines; `general` is the evidence-free reply, absent when that call fails.
   */
  datatype Drafting = Drafting(
    hardRefuse: bool,
    tools: bool,
    toolRounds: int,
    toolModels: ToolLoop.Models,
    systemPrompt: string,
    userPrompt: string -> string,
    plain: (string, string) -> string,
    general: Option<string>) {

    function Prompt(evidence: seq<Evidence>): string {
      userPrompt(JoinLines(EvidenceLines(evidence)))
    }
  }

  /** A draft with the conversation that led to it. */
  datatype Draft = Draft(
    answer: string,
    messages: seq<ToolLoop.Message>,
    trace: seq<ToolLoop.TraceEntry>,
    modelCalls: nat)

  lemma HoldsPrefix(prefix: string, rest: string, part: string, i: nat)
    requires i + |part| <= |prefix| && PartAt(prefix, part, i)
    ensures Holds(prefix + rest, part)
  {
    assert (prefix + rest)[i..i + |part|] == prefix[i..i + |part|];
    assert PartAt(prefix + rest, part, i);
  }

  lemma HoldsCaveat(text: string, k: nat)
    requires k < |CAVEATS| && Holds(text, CAVEATS[k])
    ensures HoldsAny(text, CAVEATS)
  {
  }

  lemma DisclaimerHasCaveat(rest: string)
    ensures HoldsAny(DISCLAIMER + rest, CAVEATS)
  {
    var d := DISCLAIMER;
    assert d[1] == '未' && d[2] == '检' && d[3] == '索' && d[4] == '到';
    assert d[1..5] == "未检索到";
    HoldsPrefix(DISCLAIMER, rest, CAVEATS[0], 1);
    HoldsCaveat(DISCLAIMER + rest, 0);
  }

  lemma RefusalHasCaveat()
    ensures HoldsAny(HARD_REFUSE, CAVEATS)
  {
    var r := HARD_REFUSE;
    assert r[7] == '没' && r[8] == '有' && r[9] == '检' && r[10] == '索' && r[11] == '到';
    assert r[7..12] == "没有检索到";
    assert HARD_REFUSE + "" == HARD_REFUSE;
    HoldsPrefix(HARD_REFUSE, "", CAVEATS[1], 7);
    HoldsCaveat(HARD_REFUSE, 1);
  }

  /** Without evidence: the refusal, or the model's text, which gets the disclaimer unless it carries a caveat itself. */
  ghost predicate Ungrounded(d: Drafting, answer: string) {
    if d.hardRefuse || d.general.None? then answer == HARD_REFUSE
    else
      var text := if Strip(d.general.value) == "" then NO_REPLY else Strip(d.general.value);
      answer == (if HoldsAny(text, CAVEATS) then text else DISCLAIMER + text)
  }

  /** `_run_without_evidence`: a refusal, or a model text that always carries a caveat. */
  method DraftWithoutEvidence(d: Drafting) returns (answer: string)
    ensures Ungrounded(d, answer) && HoldsAny(answer, CAVEATS)
  {
    if d.hardRefuse || d.general.None? {
      RefusalHasCaveat();
      return HARD_REFUSE;
    }
    answer := Strip(d.general.value);
    if answer == "" {
      answer := NO_REPLY;
    }
    var warned := FindsAny(answer, CAVEATS);
    if !warned {
      DisclaimerHasCaveat(answer);
      answer := DISCLAIMER + answer;
    }
  }

  /** `AnswerAgent.run`. */
  method DraftAnswer(d: Drafting, evidence: seq<Evidence>) returns (draft: Draft)
    ensures Drafted(d, evidence, draft)
  {
    if evidence == [] {
      var answer := DraftWithoutEvidence(d);
      draft := Draft(answer, [], [], if d.hardRefuse then 0 else 1);
    } else if !d.tools {
      draft := Draft(d.plain(d.systemPrompt, d.Prompt(evidence)), [], [], 1);
    } else {
      var answer, messages, trace, calls :=
        ToolLoop.CompleteWithTools(d.toolModels, d.systemPrompt, d.Prompt(evidence), d.toolRounds);
      draft := Draft(answer, messages, trace, calls);
    }
  }

  /** The guarantees of a draft, by the way it came about. */
  ghost predicate Drafted(d: Drafting, evidence: seq<Evidence>, draft: Draft) {
    if evidence == [] then
      && draft.trace == [] && Ungrounded(d, draft.answer) && HoldsAny(draft.answer, CAVEATS)
      && (d.hardRefuse ==> draft.modelCalls == 0)
    else if !d.tools then
      draft.trace == [] && draft.modelCalls == 1 && draft.answer == d.plain(d.systemPrompt, d.Prompt(evidence))
    else ToolDraft(d, evidence, draft)
  }

  /** A draft from the tool loop keeps the loop's transcript, and its text is the one the loop came to. */
  ghost predicate ToolDraft(d: Drafting, evidence: seq<Evidence>, draft: Draft) {
    && |draft.messages| >= 2
    && draft.messages[..2] == [ToolLoop.System(d.systemPrompt), ToolLoop.User(d.Prompt(evidence))]
    && ToolLoop.Transcript(draft.messages[..2], draft.messages[2..], draft.trace)
    && ToolLoop.Executed(d.toolModels, draft.trace, 0)
    && ToolLoop.Prompted(d.toolModels, draft.messages[..2], draft.messages[2..])
    && ToolLoop.CameTo(d.toolModels, if d.toolRounds < 1 then 1 else d.toolRounds, draft.messages, draft.answer, draft.modelCalls)
    && draft.answer != ""
  }

  // ---- Reflecting ----

  datatype Reflector = Reflector(
    allowed: bool,
    enabled: bool,
    rounds: int,
    highStakes: string -> bool,
    budget: int,
    models: Reflection.Models,
    reviseRounds: int,
    improve: Option<(string, seq<Warning>) -> string>)

  const REFLECTION_MARKERS :=
    ["没有检索到可靠制度证据", "未检索到知识库依据", "无法给出可作为制度依据", HARD_REFUSE[..20]]

  /** What the critique loop came to. */
  datatype Reflected = Reflected(
    answer: string,
    rounds: seq<Reflection.Round>,
    reason: Reflection.Reason,
    evaluations: nat,
    rewrites: nat)

  /** `should_run_reflection`, with its tests on the text spelled out. */
  ghost function GateFor(r: Reflector, draft: string, evidence: seq<Evidence>): Reflection.Gate {
    var text := Strip(draft);
    Reflection.Gate(r.allowed, r.enabled, r.rounds, text == "", evidence != [],
                    HoldsAny(text, REFLECTION_MARKERS) || HARD_REFUSE[..40] <= text, r.highStakes(draft))
  }

  /** The loop's guarantees; a closed gate, whatever closed it, leaves the draft alone. */
  ghost predicate ReflectedOn(r: Reflector, draft: string, evidence: seq<Evidence>, f: Reflected) {
    && Reflection.Chained(f.rounds, draft, f.answer)
    && if !Reflection.LetIn(GateFor(r, draft, evidence)) then
         f.answer == draft && f.rounds == [] && f.reason.NotRun? && f.evaluations == f.rewrites == 0
       else
         var cap := if r.rounds > 3 then 3 else r.rounds;
         && |f.rounds| <= f.evaluations <= cap
         && Reflection.Rounds(r.models, r.budget, cap, f.rounds)
         && Reflection.Stopped(r.models, cap, f.rounds, f.answer, f.reason, f.evaluations, f.rewrites)
  }

  ghost predicate MaybeReflected(r: Option<Reflector>, draft: string, evidence: seq<Evidence>, f: Reflected) {
    if r.None? then f.answer == draft && f.rounds == [] && f.evaluations == 0
    else ReflectedOn(r.value, draft, evidence, f)
  }

  /** The optional critique loop. */
  method Reflect(r: Option<Reflector>, draft: string, evidence: seq<Evidence>) returns (f: Reflected)
    ensures MaybeReflected(r, draft, evidence, f)
  {
    if r.None? {
      return Reflected(draft, [], Reflection.NotRun("no loop"), 0, 0);
    }
    var text := Strip(draft);
    var marked := FindsAny(text, REFLECTION_MARKERS);
    var refusal := marked || HARD_REFUSE[..40] <= text;
    var gate := Reflection.Gate(r.value.allowed, r.value.enabled, r.value.rounds, text == "", evidence != [],
                                refusal, r.value.highStakes(draft));
    var answer, rounds, reason, evaluations, rewrites :=
      Reflection.RunReflection(gate, r.value.models, r.value.budget, draft);
    f := Reflected(answer, rounds, reason, evaluations, rewrites);
  }

  // ---- Releasing ----

  /** Non-blank, every citation in 1..n, cited or openly a refusal, no ungrounded number. */
  ghost predicate Releasable(t: Tests, answer: string, evidence: seq<Evidence>) {
    !MustRefuse(t, answer, evidence) && !MustRevise(t, answer, evidence)
  }

  predicate CanRevise(r: Option<Reflector>) {
    r.Some? && r.value.reviseRounds > 0 && r.value.improve.Some?
  }

  /** The confidence heuristic: none without evidence, otherwise any value cut to 0..0.95. */
  function Estimate(raw: (string, seq<Warning>) -> real, answer: string, evidence: seq<Evidence>, warnings: seq<Warning>): (r: real)
    ensures 0.0 <= r <= 0.95 && (evidence == [] ==> r == 0.0)
  {
    var base := raw(answer, warnings);
    if evidence == [] || base < 0.0 then 0.0 else if base > 0.95 then 0.95 else base
  }

  /** The heuristic's value, cut to 0..0.95. */
  ghost predicate Rated(value: real, confidence: real) {
    0.0 <= confidence <= 0.95 && (0.0 <= value <= 0.95 ==> confidence == value)
    && (value < 0.0 ==> confidence == 0.0) && (value > 0.95 ==> confidence == 0.95)
  }

  method Issues(warnings: seq<Warning>) returns (r: seq<Warning>)
    ensures forall w :: w in r <==> w in warnings && w in REVISE_CODES
  {
    r := [];
    for i := 0 to |warnings|
      invariant forall w :: w in r <==> w in warnings[..i] && w in REVISE_CODES
    {
      assert warnings[..i + 1] == warnings[..i] + [warnings[i]];
      if warnings[i] in REVISE_CODES {
        r := r + [warnings[i]];
      }
    }
    assert warnings[..|warnings|] == warnings;
  }

  /**
   * What the gate may publish. `candidate` is the text of the last check: the draft, or the
   * one revision a draft gets that is neither releasable nor refused outright.
   */
  ghost predicate Gated(t: Tests, evidence: seq<Evidence>, candidate: string, answer: string, verdict: Verdict) {
    && verdict.decision != Revise
    && (verdict.passed <==> verdict.decision == Pass)
    && (verdict.passed <==> Releasable(t, candidate, evidence))
    && (verdict.passed || evidence == [] ==> answer == candidate)
    && (!verdict.passed && evidence != [] ==> answer == HARD_REFUSE)
  }

  /** One revision is due, and there is an editor to ask. */
  ghost predicate IsRevised(t: Tests, r: Option<Reflector>, draft: string, evidence: seq<Evidence>) {
    && r.Some? && r.value.reviseRounds >= 1 && r.value.improve.Some?
    && !MustRefuse(t, draft, evidence) && MustRevise(t, draft, evidence)
  }

  /** The text of the last check: the draft, or the editor's answer to exactly the issues that call for a revision. */
  ghost predicate Checked(t: Tests, r: Option<Reflector>, draft: string, evidence: seq<Evidence>, issues: seq<Warning>, candidate: string) {
    if !IsRevised(t, r, draft, evidence) then candidate == draft && issues == []
    else
      && candidate == r.value.improve.value(draft, issues) && issues != []
      && forall w :: w in issues <==> w in {MissingMarkers, UngroundedNumbers} && Due(t, Strip(draft), evidence, w)
  }

  /** What is returned with a text: the warnings due for it and a confidence. */
  ghost predicate Reported(t: Tests, raw: (string, seq<Warning>) -> real, evidence: seq<Evidence>, candidate: string,
                           answer: string, verdict: Verdict, confidence: real) {
    && (forall w :: w in verdict.warnings <==> Due(t, Strip(candidate), evidence, w))
    && if verdict.passed then Rated(raw(answer, verdict.warnings), confidence) else confidence == 0.0
  }

  /** The release gate of `_run_answer_and_compliance`. */
  method Release(t: Tests, hardRefuse: bool, r: Option<Reflector>, raw: (string, seq<Warning>) -> real,
                 draft: string, evidence: seq<Evidence>)
    returns (answer: string, confidence: real, verdict: Verdict, candidate: string, issues: seq<Warning>)
    ensures Checked(t, r, draft, evidence, issues, candidate)
    ensures Gated(t, evidence, candidate, answer, verdict)
    ensures Reported(t, raw, evidence, candidate, answer, verdict, confidence)
    ensures evidence == [] ==> answer == draft && !verdict.passed
  {
    candidate, issues := draft, [];
    verdict := CheckAnswer(t, hardRefuse, draft, evidence);
    if verdict.decision == Revise && CanRevise(r) {
      issues := Issues(verdict.warnings);
      assert issues != [] by {
        SomeIssue(t, draft, evidence, issues);
      }
      candidate := r.value.improve.value(draft, issues);
      verdict := CheckAnswer(t, hardRefuse, candidate, evidence);
    }
    if verdict.decision == Revise {
      verdict := verdict.(decision := Refuse, passed := false);
    }
    answer := candidate;
    confidence := Estimate(raw, answer, evidence, verdict.warnings);
    if verdict.decision == Refuse && evidence != [] {
      answer, confidence := HARD_REFUSE, 0.0;
    }
  }

  lemma SomeIssue(t: Tests, draft: string, evidence: seq<Evidence>, issues: seq<Warning>)
    requires MustRevise(t, draft, evidence)
    requires forall w :: Due(t, Strip(draft), evidence, w) && w in REVISE_CODES ==> w in issues
    ensures issues != []
  {
    assert Due(t, Strip(draft), evidence, MissingMarkers) ==> MissingMarkers in issues;
    assert Due(t, Strip(draft), evidence, UngroundedNumbers) ==> UngroundedNumbers in issues;
  }

  /** What a released text promises its reader: it says something and every number in brackets names an item. */
  lemma ReleasedTextCitesEvidence(t: Tests, answer: string, evidence: seq<Evidence>, n: nat)
    requires Releasable(t, answer, evidence)
    ensures Strip(answer) != "" && evidence != [] && t.suspicious(Strip(answer), evidence) == 0
    ensures Cites(t.digits, Strip(answer), n) ==> 1 <= n <= |evidence|
    ensures CitesNothing(t, Strip(answer)) ==>
              Holds(Strip(answer), CANNOT) || HoldsAny(Strip(answer), REFUSE_MARKERS)
  {
  }

  // ---- Citations and the evidence they name ----

  /** The digits of every script include the ten of decimal notation, with their values. */
  ghost predicate ReadsDecimal(d: DigitTable) {
    forall k: nat :: k < 10 ==> d(Digit(k)) == Some(k)
  }

  /** Decimal notation standing at the end of a text reads as its number. */
  lemma {:induction false} DecimalReads(d: DigitTable, s: string, lo: nat, hi: nat, n: nat)
    requires ReadsDecimal(d) && lo <= hi <= |s| && s[lo..hi] == Decimal(n)
    ensures Digits(d, s, lo, hi) && Value(d, s, lo, hi) == n
    decreases n
  {
    var r := Decimal(n);
    assert s[hi - 1] == r[|r| - 1];
    if n >= 10 {
      assert r == Decimal(n / 10) + [Digit(n % 10)];
      assert s[lo..hi - 1] == r[..|r| - 1] == Decimal(n / 10);
      DecimalReads(d, s, lo, hi - 1, n / 10);
    } else {
      assert hi == lo + 1;
      assert Value(d, s, lo, lo) == 0;
    }
  }

  ghost predicate NoneAfterFirst(s: string) {
    forall k :: 1 <= k < |s| ==> s[k] != '['
  }

  lemma TagShape(d: DigitTable, n: nat)
    requires ReadsDecimal(d)
    ensures var s, j := Tag(n), |Tag(n)| - 1;
            && CiteAt(d, s, 0, j) && Value(d, s, 1, j) == n && d(s[j]).None?
            && NoneAfterFirst(s)
  {
    var s, j := Tag(n), |Tag(n)| - 1;
    assert s[1..j] == Decimal(n) && s[0] == '[' && s[j] == ']';
    DecimalReads(d, s, 1, j, n);
  }

  /** The marker an item is printed with is read by the citation check as that number and no other. */
  lemma TagReads(d: DigitTable, n: nat, m: nat)
    requires ReadsDecimal(d)
    ensures Cites(d, Tag(n), m) <==> m == n
  {
    var s, j := Tag(n), |Tag(n)| - 1;
    TagShape(d, n);
    if Cites(d, s, m) {
      var a, b :| a < |s| && CiteAt(d, s, a, b) && Value(d, s, a + 1, b) == m;
      CiteEndsAt(d, s, 0, j, b);
    }
  }

  /**
   * In a released text over a bag ranked 1..n, a citation names exactly one item: the one
   * the model was shown under that very marker.
   */
  lemma CitationNamesTheShownItem(t: Tests, answer: string, bag: seq<Evidence>, n: nat, i: nat)
    requires Normal(bag) && Releasable(t, answer, bag) && Cites(t.digits, Strip(answer), n) && i < |bag|
    ensures 1 <= n <= |bag|
    ensures Tag(bag[i].rank) == Tag(n) <==> i == n - 1
    ensures var line := EvidenceLines(bag)[n - 1];
            && Tag(n) <= line && Holds(JoinLines(EvidenceLines(bag)), line)
            && |line| >= |bag[n - 1].snippet| && line[|line| - |bag[n - 1].snippet|..] == bag[n - 1].snippet
  {
    ReleasedTextCitesEvidence(t, answer, bag, n);
    TagsDiffer(bag[i].rank, n);
    LineTells(bag[n - 1]);
    LinesShown(EvidenceLines(bag), n - 1);
  }

  lemma TagsDiffer(a: nat, b: nat)
    ensures Tag(a) == Tag(b) <==> a == b
  {
    if Tag(a) == Tag(b) {
      assert Tag(a)[1..|Tag(a)| - 1] == Decimal(a) && Tag(b)[1..|Tag(b)| - 1] == Decimal(b);
      DecimalInjective(a, b);
    }
  }
}
