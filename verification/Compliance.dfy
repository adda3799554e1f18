/** The rule-based release check: citations, refusals and grounding of an answer. */
module Compliance {
  import opened Seqs
  import opened Text
  import opened EvidenceBag

  // ---- Citations ----

  /** The decimal value of a character, for every script's digits; brackets are never digits. */
  type DigitTable = f: char -> Option<nat> | f('[').None? && f(']').None? witness (c => None)

  predicate Digits(d: DigitTable, s: string, lo: int, hi: int) {
    0 <= lo && hi <= |s| && forall k :: lo <= k < hi ==> d(s[k]).Some?
  }

  /** The decimal value of the characters from `lo` up to `hi`. */
  function Value(d: DigitTable, s: string, lo: nat, hi: nat): nat
    requires lo <= hi && Digits(d, s, lo, hi)
  {
    if lo == hi then 0 else 10 * Value(d, s, lo, hi - 1) + d(s[hi - 1]).value
  }

  /** `[digits]` stands at positions i..j of the text. */
  predicate CiteAt(d: DigitTable, s: string, i: int, j: int) {
    0 <= i && i + 1 < j < |s| && s[i] == '[' && s[j] == ']' && Digits(d, s, i + 1, j)
  }

  /** Some marker with this number starts before position `end`. */
  ghost predicate CitedBefore(d: DigitTable, s: string, n: nat, end: int) {
    exists i, j :: i < end && CiteAt(d, s, i, j) && Value(d, s, i + 1, j) == n
  }

  ghost predicate Cites(d: DigitTable, s: string, n: nat) {
    CitedBefore(d, s, n, |s|)
  }

  /** The end of the run of digits that starts at `i`. */
  method DigitsEnd(d: DigitTable, s: string, i: nat) returns (j: nat)
    requires i <= |s|
    ensures i <= j <= |s| && Digits(d, s, i, j) && (j < |s| ==> d(s[j]).None?)
  {
    j := i;
    while j < |s| && d(s[j]).Some?
      invariant i <= j <= |s| && Digits(d, s, i, j)
    {
      j := j + 1;
    }
  }

  /** A marker that starts at `i` can only close where the digits after it end. */
  lemma CiteEndsAt(d: DigitTable, s: string, i: nat, j: nat, k: int)
    requires i + 1 <= j <= |s| && Digits(d, s, i + 1, j) && (j < |s| ==> d(s[j]).None?)
    requires CiteAt(d, s, i, k)
    ensures k == j
  {
  }

  lemma StepOver(d: DigitTable, s: string, i: nat, n: nat)
    ensures CitedBefore(d, s, n, i + 1) <==>
            CitedBefore(d, s, n, i) || exists k :: CiteAt(d, s, i, k) && Value(d, s, i + 1, k) == n
  {
  }

  /** No marker starts inside another one. */
  lemma NoneInside(d: DigitTable, s: string, i: nat, j: nat, n: nat)
    requires CiteAt(d, s, i, j)
    ensures CitedBefore(d, s, n, j + 1) <==> CitedBefore(d, s, n, i) || n == Value(d, s, i + 1, j)
  {
    if CitedBefore(d, s, n, j + 1) {
      var a, b :| a < j + 1 && CiteAt(d, s, a, b) && Value(d, s, a + 1, b) == n;
      if a == i {
        CiteEndsAt(d, s, i, j, b);
      }
    }
  }

  /** The indices cited in a text: one left-to-right scan finds every marker. */
  method CitedIndices(d: DigitTable, s: string) returns (r: set<nat>)
    ensures forall n :: n in r <==> Cites(d, s, n)
  {
    r := {};
    var i := 0;
    while i < |s|
      invariant 0 <= i <= |s|
      invariant forall n :: n in r <==> CitedBefore(d, s, n, i)
    {
      if s[i] == '[' {
        var j := DigitsEnd(d, s, i + 1);
        if i + 1 < j < |s| && s[j] == ']' {
          forall n: nat { NoneInside(d, s, i, j, n); }
          r := r + {Value(d, s, i + 1, j)};
          i := j + 1;
        } else {
          forall n: nat { NotHere(d, s, i, j, n); }
          i := i + 1;
        }
      } else {
        forall n: nat { StepOver(d, s, i, n); }
        i := i + 1;
      }
    }
  }

  lemma NotHere(d: DigitTable, s: string, i: nat, j: nat, n: nat)
    requires i + 1 <= j <= |s| && Digits(d, s, i + 1, j) && (j < |s| ==> d(s[j]).None?)
    requires !(i + 1 < j < |s| && s[j] == ']')
    ensures CitedBefore(d, s, n, i + 1) <==> CitedBefore(d, s, n, i)
  {
    if k :| CiteAt(d, s, i, k) {
      CiteEndsAt(d, s, i, j, k);
    }
    StepOver(d, s, i, n);
  }

  // ---- Markers ----

  ghost predicate Holds(text: string, part: string) {
    exists i :: 0 <= i <= |text| - |part| && PartAt(text, part, i)
  }

  predicate PartAt(text: string, part: string, i: nat)
    requires i + |part| <= |text|
  {
    text[i..i + |part|] == part
  }

  method Finds(text: string, part: string) returns (found: bool)
    ensures found <==> Holds(text, part)
  {
    found := false;
    var i := 0;
    while i + |part| <= |text| && !found
      invariant found <==> exists k :: 0 <= k < i && k <= |text| - |part| && PartAt(text, part, k)
      decreases |text| - i, !found
    {
      found := PartAt(text, part, i);
      i := i + 1;
    }
  }

  const REFUSE_MARKERS := ["没有检索到可靠制度证据", "未检索到知识库依据", "无法给出可作为制度依据", "没有检索到"]
  const CANNOT := "无法给出"

  ghost predicate HoldsAny(text: string, parts: seq<string>) {
    exists k :: 0 <= k < |parts| && Holds(text, parts[k])
  }

  method FindsAny(text: string, parts: seq<string>) returns (found: bool)
    ensures found <==> HoldsAny(text, parts)
  {
    found := false;
    for i := 0 to |parts|
      invariant found <==> exists k :: 0 <= k < i && Holds(text, parts[k])
    {
      var here := Finds(text, parts[i]);
      found := found || here;
    }
  }

  // ---- The verdict ----

  datatype Warning =
    | EmptyAnswer | NoReliableEvidence | SoftAnswer | DanglingCitations
    | Mismatch | MissingMarkers | UngroundedNumbers | WeakClaims

  datatype Decision = Pass | Revise | Refuse

  datatype Verdict = Verdict(passed: bool, warnings: seq<Warning>, decision: Decision)

  /** Tests whose details stay abstract: word sets, numbers missing from the evidence, weak claims. */
  datatype Tests = Tests(
    digits: DigitTable,
    tokens: string -> set<string>,
    suspicious: (string, seq<Evidence>) -> nat,
    weakClaims: (string, seq<Evidence>) -> bool)

  ghost predicate CitesNothing(t: Tests, text: string) {
    forall n :: !Cites(t.digits, text, n)
  }

  ghost predicate Dangling(t: Tests, text: string, count: nat) {
    exists n: nat :: Cites(t.digits, text, n) && !(1 <= n <= count)
  }

  predicate OffSnippet(t: Tests, text: string, e: Evidence) {
    t.tokens(e.snippet) != {} && t.tokens(text) * t.tokens(e.snippet) == {}
  }

  ghost predicate CitesOffSnippet(t: Tests, text: string, evidence: seq<Evidence>) {
    exists n :: 1 <= n <= |evidence| && Cites(t.digits, text, n) && Unrelated(t.tokens(text), t.tokens(evidence[n - 1].snippet))
  }

  /** There are words to look for, and none of them is used. */
  ghost predicate Unrelated(used: set<string>, words: set<string>) {
    (exists w :: w in words) && forall w :: w in words ==> w !in used
  }

  lemma OffMeansUnrelated(t: Tests, text: string, e: Evidence)
    ensures OffSnippet(t, text, e) <==> Unrelated(t.tokens(text), t.tokens(e.snippet))
  {
    var words := t.tokens(e.snippet);
    if w :| w in words && w in t.tokens(text) {
      assert w in t.tokens(text) * words;
    }
    if words != {} {
      var w :| w in words;
    }
  }

  /** When each warning is due, for a stripped answer. */
  ghost predicate Due(t: Tests, text: string, evidence: seq<Evidence>, w: Warning) {
    match w
    case EmptyAnswer => text == ""
    case NoReliableEvidence => evidence == []
    case SoftAnswer => evidence == [] && text != "" && !HoldsAny(text, REFUSE_MARKERS)
    case DanglingCitations => evidence != [] && Dangling(t, text, |evidence|)
    case Mismatch => evidence != [] && CitesOffSnippet(t, text, evidence)
    case MissingMarkers =>
      evidence != [] && CitesNothing(t, text) && !Holds(text, CANNOT) && !HoldsAny(text, REFUSE_MARKERS)
    case UngroundedNumbers => evidence != [] && t.suspicious(text, evidence) >= 1
    case WeakClaims => evidence != [] && t.weakClaims(text, evidence)
  }

  const REFUSE_CODES := {EmptyAnswer, NoReliableEvidence, SoftAnswer, DanglingCitations}
  const REVISE_CODES := {MissingMarkers, UngroundedNumbers}

  /** A text that may not be released, whatever else it says. */
  ghost predicate MustRefuse(t: Tests, answer: string, evidence: seq<Evidence>) {
    Strip(answer) == "" || evidence == [] || Dangling(t, Strip(answer), |evidence|)
  }

  ghost predicate MustRevise(t: Tests, answer: string, evidence: seq<Evidence>) {
    Due(t, Strip(answer), evidence, MissingMarkers) || Due(t, Strip(answer), evidence, UngroundedNumbers)
  }

  method Among(warnings: seq<Warning>, codes: set<Warning>) returns (some: bool)
    ensures some <==> exists w :: w in warnings && w in codes
  {
    some := false;
    for i := 0 to |warnings|
      invariant some <==> exists w :: w in warnings[..i] && w in codes
    {
      assert warnings[..i + 1] == warnings[..i] + [warnings[i]];
      some := some || warnings[i] in codes;
    }
    assert warnings[..|warnings|] == warnings;
  }

  method Dedupe(warnings: seq<Warning>) returns (r: seq<Warning>)
    ensures NoDup(r) && forall w :: w in r <==> w in warnings
  {
    r := [];
    for i := 0 to |warnings|
      invariant NoDup(r) && forall w :: w in r <==> w in warnings[..i]
    {
      assert warnings[..i + 1] == warnings[..i] + [warnings[i]];
      if warnings[i] !in r {
        r := r + [warnings[i]];
      }
    }
    assert warnings[..|warnings|] == warnings;
  }

  method Unsupported(t: Tests, text: string, cited: set<nat>, evidence: seq<Evidence>) returns (some: bool)
    requires forall n :: n in cited <==> Cites(t.digits, text, n)
    ensures some <==> CitesOffSnippet(t, text, evidence)
  {
    var unsupported := 0;
    for k := 0 to |evidence|
      invariant unsupported >= 0
      invariant unsupported > 0 <==>
                exists n :: 1 <= n <= k && Cites(t.digits, text, n) && Unrelated(t.tokens(text), t.tokens(evidence[n - 1].snippet))
    {
      OffMeansUnrelated(t, text, evidence[k]);
      if k + 1 in cited && OffSnippet(t, text, evidence[k]) {
        unsupported := unsupported + 1;
        assert Cites(t.digits, text, k + 1);
      }
    }
    some := unsupported > 0;
  }

  method CheckCitations(t: Tests, text: string, evidence: seq<Evidence>) returns (warnings: seq<Warning>)
    requires evidence != []
    ensures forall w :: w in warnings <==>
                        w in {DanglingCitations, Mismatch, MissingMarkers} && Due(t, text, evidence, w)
  {
    warnings := [];
    var cited := CitedIndices(t.digits, text);
    var valid := Numbers(|evidence|);
    if cited != {} {
      var n :| n in cited;
      assert !CitesNothing(t, text);
      Outside(cited, valid);
      if cited - valid != {} {
        warnings := warnings + [DanglingCitations];
      }
      var off := Unsupported(t, text, cited, evidence);
      if off {
        warnings := warnings + [Mismatch];
      }
    } else {
      var cannot := Finds(text, CANNOT);
      var refuses := FindsAny(text, REFUSE_MARKERS);
      if !cannot && !refuses {
        warnings := warnings + [MissingMarkers];
      }
    }
  }

  /** The numbers 1..n. */
  function Numbers(n: nat): (r: set<nat>)
    ensures forall k :: k in r <==> 1 <= k <= n
  {
    if n == 0 then {} else Numbers(n - 1) + {n}
  }

  lemma Outside(cited: set<nat>, valid: set<nat>)
    ensures (exists n :: n in cited && n !in valid) <==> cited - valid != {}
  {
    if n :| n in cited && n !in valid {
      assert n in cited - valid;
    }
  }

  /** Every warning that is due, and no other. */
  method Collect(t: Tests, text: string, evidence: seq<Evidence>) returns (warnings: seq<Warning>)
    ensures forall w :: w in warnings <==> Due(t, text, evidence, w)
  {
    warnings := [];
    if text == "" {
      warnings := warnings + [EmptyAnswer];
    }
    if evidence == [] {
      warnings := warnings + [NoReliableEvidence];
      var refuses := FindsAny(text, REFUSE_MARKERS);
      if text != "" && !refuses {
        warnings := warnings + [SoftAnswer];
      }
    } else {
      var more := CheckCitations(t, text, evidence);
      warnings := warnings + more;
      if t.suspicious(text, evidence) >= 1 {
        warnings := warnings + [UngroundedNumbers];
      }
      if t.weakClaims(text, evidence) {
        warnings := warnings + [WeakClaims];
      }
    }
  }

  /** `ComplianceAgent.run`. */
  method CheckAnswer(t: Tests, hardRefuse: bool, answer: string, evidence: seq<Evidence>) returns (v: Verdict)
    ensures v.decision == Refuse <==> MustRefuse(t, answer, evidence)
    ensures v.decision == Revise <==> !MustRefuse(t, answer, evidence) && MustRevise(t, answer, evidence)
    ensures v.passed <==> v.decision == Pass
    ensures NoDup(v.warnings) && forall w :: w in v.warnings <==> Due(t, Strip(answer), evidence, w)
  {
    var text := Strip(answer);
    var warnings := Collect(t, text, evidence);
    var hardFail := {EmptyAnswer} + (if hardRefuse then {NoReliableEvidence, SoftAnswer} else {});
    var refuse := Among(warnings, REFUSE_CODES);
    var revise := Among(warnings, REVISE_CODES);
    var hard := Among(warnings, hardFail);
    assert hard ==> refuse;
    assert refuse <==> MustRefuse(t, answer, evidence) by {
      Refusing(t, answer, evidence, warnings);
    }
    assert revise <==> MustRevise(t, answer, evidence) by {
      Revising(t, answer, evidence, warnings);
    }
    var decision := if refuse then Refuse else if revise then Revise else Pass;
    var deduped := Dedupe(warnings);
    v := Verdict(decision == Pass && !hard, deduped, decision);
  }

  lemma Refusing(t: Tests, answer: string, evidence: seq<Evidence>, warnings: seq<Warning>)
    requires forall w :: w in warnings <==> Due(t, Strip(answer), evidence, w)
    ensures (exists w :: w in warnings && w in REFUSE_CODES) <==> MustRefuse(t, answer, evidence)
  {
    var text := Strip(answer);
    assert EmptyAnswer in warnings <==> text == "";
    assert NoReliableEvidence in warnings <==> evidence == [];
    assert DanglingCitations in warnings <==> evidence != [] && Dangling(t, text, |evidence|);
    assert SoftAnswer in warnings ==> evidence == [];
  }

  lemma Revising(t: Tests, answer: string, evidence: seq<Evidence>, warnings: seq<Warning>)
    requires forall w :: w in warnings <==> Due(t, Strip(answer), evidence, w)
    ensures (exists w :: w in warnings && w in REVISE_CODES) <==> MustRevise(t, answer, evidence)
  {
    assert MissingMarkers in warnings <==> Due(t, Strip(answer), evidence, MissingMarkers);
    assert UngroundedNumbers in warnings <==> Due(t, Strip(answer), evidence, UngroundedNumbers);
  }
}
