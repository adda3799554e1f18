/** Filling in missing dependencies of a plan. */
module Dependencies {
  import opened Seqs
  import opened Text
  import opened Plan
  import opened Waves
  import opened Depth

  /** Case folding of a string, left to the runtime. */
  type Fold = string -> string

  function QueryKey(step: Step, lower: Fold): string {
    lower(Strip(match step.query case Some(q) => q case None => ""))
  }

  /** The explicit dependencies that name another step of the plan. */
  function KeepDeps(deps: seq<Id>, known: map<Id, Step>, self: Id): (r: seq<Id>)
    ensures forall d :: d in r ==> d in deps && d in known && d != self
    ensures (forall d :: d in deps ==> d in known && d != self) ==> r == deps
  {
    if deps == [] then []
    else
      var n := |deps| - 1;
      assert deps == deps[..n] + [deps[n]] && forall d :: d in deps[..n] ==> d in deps;
      var r := KeepDeps(deps[..n], known, self);
      if deps[n] in known && deps[n] != self then r + [deps[n]] else r
  }

  predicate Productive(kind: Kind) {
    kind == Retrieve || kind == Skill || kind == Tool
  }

  /** Ids before position i whose dictionary entry is a retrieve, skill or tool step. */
  function PriorProductive(steps: seq<Step>, known: map<Id, Step>, i: nat): seq<Id>
    requires i <= |steps|
    requires forall k :: 0 <= k < i ==> steps[k].id in known
  {
    if i == 0 then []
    else
      var r := PriorProductive(steps, known, i - 1);
      if Productive(known[steps[i - 1].id].kind) then r + [steps[i - 1].id] else r
  }

  function PriorRetrieves(steps: seq<Step>, i: nat): seq<Id>
    requires i <= |steps|
  {
    if i == 0 then []
    else
      var r := PriorRetrieves(steps, i - 1);
      if steps[i - 1].kind == Retrieve then r + [steps[i - 1].id] else r
  }

  /** A dictionary as its items in key order; assigning to a present key keeps its place. */
  type Items = seq<(Id, string)>

  function Put(items: Items, key: Id, value: string): Items
  {
    if items == [] then [(key, value)]
    else if items[0].0 == key then [(key, value)] + items[1..]
    else [items[0]] + Put(items[1..], key, value)
  }

  function PriorQueries(steps: seq<Step>, lower: Fold, i: nat): Items
    requires i <= |steps|
  {
    if i == 0 then []
    else
      var r := PriorQueries(steps, lower, i - 1);
      if steps[i - 1].kind == Retrieve then Put(r, steps[i - 1].id, QueryKey(steps[i - 1], lower)) else r
  }

  /** The first key holding the value, as a list of at most one dependency. */
  function FirstWith(items: Items, value: string): seq<Id> {
    if items == [] then []
    else if items[0].1 == value then [items[0].0]
    else FirstWith(items[1..], value)
  }

  function LastPrior(steps: seq<Step>, i: nat): seq<Id>
    requires i <= |steps|
  {
    if i == 0 then [] else [steps[i - 1].id]
  }

  /** What is inferred for a step without explicit dependencies, by kind. */
  function Guess(steps: seq<Step>, lower: Fold, i: nat): seq<Id>
    requires i < |steps|
  {
    match steps[i].kind
    case Answer | Verify =>
      var productive := PriorProductive(steps, ById(steps), i);
      if productive != [] then productive else LastPrior(steps, i)
    case Skill | Tool =>
      var retrieves := PriorRetrieves(steps, i);
      if retrieves != [] then retrieves else LastPrior(steps, i)
    case Retrieve =>
      var q := QueryKey(steps[i], lower);
      var retrieves := PriorRetrieves(steps, i);
      if q != "" then FirstWith(PriorQueries(steps, lower, i), q)
      else if retrieves != [] then [retrieves[|retrieves| - 1]]
      else []
  }

  function Explicit(steps: seq<Step>, i: nat): seq<Id>
    requires i < |steps|
  {
    KeepDeps(steps[i].dependsOn, ById(steps), steps[i].id)
  }

  function DepsFor(steps: seq<Step>, lower: Fold, i: nat): seq<Id>
    requires i < |steps|
  {
    if Explicit(steps, i) != [] then Explicit(steps, i) else Guess(steps, lower, i)
  }

  /** The plan with its dependencies filled in. */
  function Inferred(steps: seq<Step>, lower: Fold): (r: seq<Step>)
    ensures |r| == |steps|
    ensures forall i :: 0 <= i < |steps| ==> r[i] == steps[i].(dependsOn := DepsFor(steps, lower, i))
  {
    seq(|steps|, i requires 0 <= i < |steps| => steps[i].(dependsOn := DepsFor(steps, lower, i)))
  }

  lemma InferredDistinct(steps: seq<Step>, lower: Fold)
    requires DistinctIds(steps)
    ensures DistinctIds(Inferred(steps, lower))
  {
  }

  /** `infer_dependencies`: one pass that carries the ids and queries seen so far. */
  method InferDependencies(steps: seq<Step>, lower: Fold) returns (out: seq<Step>)
    ensures out == Inferred(steps, lower)
    ensures forall i :: 0 <= i < |steps| ==> Explained(steps, lower, i, out[i].dependsOn)
  {
    out := InferInOrder(steps, lower);
    AllExplained(steps, lower);
  }

  method InferInOrder(steps: seq<Step>, lower: Fold) returns (out: seq<Step>)
    ensures out == Inferred(steps, lower)
  {
    var known := ById(steps);
    out := [];
    var priorIds: seq<Id> := [];
    var priorRetrieves: seq<Id> := [];
    var priorQueries: Items := [];
    for i := 0 to |steps|
      invariant out == Inferred(steps, lower)[..i]
      invariant priorIds == Ids(steps)[..i]
      invariant priorRetrieves == PriorRetrieves(steps, i)
      invariant priorQueries == PriorQueries(steps, lower, i)
    {
      var step := steps[i];
      var deps := StepDeps(steps, lower, i, known, priorIds, priorRetrieves, priorQueries);
      out := out + [step.(dependsOn := deps)];
      Extend(Inferred(steps, lower), i);
      Extend(Ids(steps), i);
      priorIds := priorIds + [step.id];
      if step.kind == Retrieve {
        priorRetrieves := priorRetrieves + [step.id];
        priorQueries := Put(priorQueries, step.id, QueryKey(step, lower));
      }
    }
  }

  lemma Extend<T>(s: seq<T>, i: nat)
    requires i < |s|
    ensures s[..i + 1] == s[..i] + [s[i]]
  {
  }

  method StepDeps(steps: seq<Step>, lower: Fold, i: nat, known: map<Id, Step>,
                  priorIds: seq<Id>, priorRetrieves: seq<Id>, priorQueries: Items)
    returns (deps: seq<Id>)
    requires i < |steps| && known == ById(steps)
    requires priorIds == Ids(steps)[..i]
    requires priorRetrieves == PriorRetrieves(steps, i)
    requires priorQueries == PriorQueries(steps, lower, i)
    ensures deps == DepsFor(steps, lower, i)
  {
    deps := KeepDeps(steps[i].dependsOn, known, steps[i].id);
    if deps == [] {
      deps := GuessDeps(steps, lower, i, known, priorIds, priorRetrieves, priorQueries);
    }
  }

  method GuessDeps(steps: seq<Step>, lower: Fold, i: nat, known: map<Id, Step>,
                   priorIds: seq<Id>, priorRetrieves: seq<Id>, priorQueries: Items)
    returns (deps: seq<Id>)
    requires i < |steps| && known == ById(steps)
    requires priorIds == Ids(steps)[..i]
    requires priorRetrieves == PriorRetrieves(steps, i)
    requires priorQueries == PriorQueries(steps, lower, i)
    ensures deps == Guess(steps, lower, i)
  {
    deps := [];
    match steps[i].kind {
      case Answer | Verify =>
        var productive := ProductiveIds(steps, priorIds, known);
        deps := if productive != [] then productive else LastOf(priorIds);
      case Skill | Tool =>
        deps := if priorRetrieves != [] then priorRetrieves else LastOf(priorIds);
      case Retrieve =>
        var q := QueryKey(steps[i], lower);
        if q != "" {
          deps := FirstWith(priorQueries, q);
        }
        if deps == [] && q == "" && priorRetrieves != [] {
          deps := [priorRetrieves[|priorRetrieves| - 1]];
        }
    }
  }

  function LastOf(ids: seq<Id>): seq<Id> {
    if ids == [] then [] else [ids[|ids| - 1]]
  }

  method ProductiveIds(ghost steps: seq<Step>, priorIds: seq<Id>, known: map<Id, Step>) returns (r: seq<Id>)
    requires |priorIds| <= |steps| && priorIds == Ids(steps)[..|priorIds|]
    requires forall k :: 0 <= k < |steps| ==> steps[k].id in known
    ensures r == PriorProductive(steps, known, |priorIds|)
  {
    r := [];
    for k := 0 to |priorIds|
      invariant r == PriorProductive(steps, known, k)
    {
      if Productive(known[priorIds[k]].kind) {
        r := r + [priorIds[k]];
      }
    }
  }

  // ---- What inference guarantees ----

  ghost predicate IdBefore(steps: seq<Step>, i: nat, d: Id)
    requires i <= |steps|
  {
    exists k :: 0 <= k < i && steps[k].id == d
  }

  lemma {:induction false} ProductiveBefore(steps: seq<Step>, known: map<Id, Step>, i: nat, d: Id)
    requires i <= |steps| && forall k :: 0 <= k < i ==> steps[k].id in known
    requires d in PriorProductive(steps, known, i)
    ensures IdBefore(steps, i, d)
  {
    if d != steps[i - 1].id {
      ProductiveBefore(steps, known, i - 1, d);
    }
  }

  ghost predicate RetrieveBefore(steps: seq<Step>, i: nat, d: Id)
    requires i <= |steps|
  {
    exists k :: 0 <= k < i && steps[k].id == d && steps[k].kind == Retrieve
  }

  lemma {:induction false} RetrievesBefore(steps: seq<Step>, i: nat, d: Id)
    requires i <= |steps|
    ensures d in PriorRetrieves(steps, i) <==> RetrieveBefore(steps, i, d)
  {
    if i > 0 {
      RetrievesBefore(steps, i - 1, d);
    }
  }

  lemma {:induction false} PutKeys(items: Items, key: Id, value: string, e: (Id, string))
    requires e in Put(items, key, value)
    ensures e == (key, value) || e in items
  {
    if items != [] && items[0].0 != key && e != items[0] {
      PutKeys(items[1..], key, value, e);
    }
  }

  lemma {:induction false} QueriesBefore(steps: seq<Step>, lower: Fold, i: nat, e: (Id, string))
    requires i <= |steps| && e in PriorQueries(steps, lower, i)
    ensures IdBefore(steps, i, e.0)
  {
    var last := steps[i - 1];
    if last.kind == Retrieve {
      PutKeys(PriorQueries(steps, lower, i - 1), last.id, QueryKey(last, lower), e);
    }
    if e.0 != last.id {
      QueriesBefore(steps, lower, i - 1, e);
    }
  }

  lemma {:induction false} FirstWithKey(items: Items, value: string, d: Id) returns (e: (Id, string))
    requires d in FirstWith(items, value)
    ensures e in items && e.0 == d
  {
    if items[0].1 == value {
      e := items[0];
    } else {
      e := FirstWithKey(items[1..], value, d);
    }
  }

  /** Inferred dependencies point only backwards. */
  lemma GuessPointsBack(steps: seq<Step>, lower: Fold, i: nat, d: Id)
    requires i < |steps| && d in Guess(steps, lower, i)
    ensures IdBefore(steps, i, d)
  {
    if i > 0 && d == steps[i - 1].id {
    } else if steps[i].kind == Answer || steps[i].kind == Verify {
      ProductiveBefore(steps, ById(steps), i, d);
    } else if steps[i].kind == Retrieve && QueryKey(steps[i], lower) != "" {
      var e := FirstWithKey(PriorQueries(steps, lower, i), QueryKey(steps[i], lower), d);
      QueriesBefore(steps, lower, i, e);
    } else {
      RetrievesBefore(steps, i, d);
    }
  }

  /** After inference every dependency names a step of the plan. */
  lemma DepsAreKnown(steps: seq<Step>, lower: Fold, i: nat, d: Id)
    requires i < |steps| && d in DepsFor(steps, lower, i)
    ensures d in ById(steps)
  {
    if Explicit(steps, i) == [] {
      GuessPointsBack(steps, lower, i, d);
    }
  }

  ghost predicate ExplicitPointsBack(steps: seq<Step>) {
    forall i: nat, d :: i < |steps| && d in Explicit(steps, i) ==> IdBefore(steps, i, d)
  }

  /** A chain of backward dependencies climbs strictly through the plan. */
  lemma {:induction false} ChainClimbs(steps: seq<Step>, lower: Fold, c: seq<Id>, i: nat) returns (h: nat)
    requires DistinctIds(steps) && ExplicitPointsBack(steps)
    requires Chain(ById(Inferred(steps, lower)), c)
    requires i < |steps| && steps[i].id == c[|c| - 1]
    ensures h < |steps| && steps[h].id == c[0] && h + |c| - 1 <= i
    decreases |c|
  {
    h := i;
    if |c| > 1 {
      var k := StepBack(steps, lower, c[|c| - 2], i);
      ChainFront(ById(Inferred(steps, lower)), c);
      h := ChainClimbs(steps, lower, c[..|c| - 1], k);
    }
  }

  /** A dependency of a step of the inferred plan is an earlier step. */
  lemma StepBack(steps: seq<Step>, lower: Fold, d: Id, i: nat) returns (k: nat)
    requires DistinctIds(steps) && ExplicitPointsBack(steps) && i < |steps|
    requires steps[i].id in ById(Inferred(steps, lower)) && d in ById(Inferred(steps, lower))[steps[i].id].dependsOn
    ensures k < i && steps[k].id == d
  {
    InferredDistinct(steps, lower);
    DistinctLookup(Inferred(steps, lower), i);
    assert d in DepsFor(steps, lower, i);
    if Explicit(steps, i) == [] {
      GuessPointsBack(steps, lower, i, d);
    }
    assert IdBefore(steps, i, d);
    k :| 0 <= k < i && steps[k].id == d;
  }

  /**
   * When the explicit dependencies point backwards too, the inferred plan has no cycle and
   * no unknown dependency: the flush never fires and each dependency of a step lies in a
   * strictly earlier wave, with or without parallelism.
   */
  lemma BackwardPlansNeverFlush(steps: seq<Step>, lower: Fold, parallel: bool)
    requires DistinctIds(steps) && ExplicitPointsBack(steps)
    ensures var n := NodesOf(Inferred(steps, lower));
            && Leftover(n) == []
            && ValidSchedule(n.byId, WavesOf(n, parallel))
  {
    var out := Inferred(steps, lower);
    var n := NodesOf(out);
    if HasCycle(n.byId) {
      var c :| Chain(n.byId, c) && |c| > 1 && c[0] == c[|c| - 1];
      var i := LastIndex(out, c[|c| - 1]);
      var h := ChainClimbs(steps, lower, c, i);
    }
    NoDanglingAfterInference(steps, lower);
    FlushIffCyclicOrDangling(n);
    WavesAreValid(n, parallel);
  }

  lemma NoDanglingAfterInference(steps: seq<Step>, lower: Fold)
    ensures !HasDangling(ById(Inferred(steps, lower)))
  {
    var out := Inferred(steps, lower);
    forall id, d | id in ById(out) && d in ById(out)[id].dependsOn ensures d in ById(out) {
      DepsAreKnown(steps, lower, LastIndex(out, id), d);
      assert out[LastIndex(steps, d)].id == d;
    }
  }

  // ---- Idempotence ----

  /** The two plans differ at most in their dependencies. */
  ghost predicate SameButDeps(a: seq<Step>, b: seq<Step>) {
    && |a| == |b|
    && forall i :: 0 <= i < |a| ==> b[i] == a[i].(dependsOn := b[i].dependsOn)
  }

  lemma {:induction false} SameLookup(a: seq<Step>, b: seq<Step>, id: Id)
    requires SameButDeps(a, b)
    ensures id in ById(a) <==> id in ById(b)
    ensures id in ById(a) ==> ById(a)[id].kind == ById(b)[id].kind
  {
    if a != [] {
      var n := |a| - 1;
      SameLookup(a[..n], b[..n], id);
    }
  }

  lemma {:induction false} SamePrior(a: seq<Step>, b: seq<Step>, lower: Fold, i: nat)
    requires SameButDeps(a, b) && i <= |a|
    ensures PriorRetrieves(a, i) == PriorRetrieves(b, i)
    ensures PriorQueries(a, lower, i) == PriorQueries(b, lower, i)
  {
    if i > 0 {
      SamePrior(a, b, lower, i - 1);
    }
  }

  lemma {:induction false} SameProductive(a: seq<Step>, b: seq<Step>, i: nat)
    requires SameButDeps(a, b) && i <= |a|
    ensures PriorProductive(a, ById(a), i) == PriorProductive(b, ById(b), i)
  {
    if i > 0 {
      SameProductive(a, b, i - 1);
      SameLookup(a, b, a[i - 1].id);
    }
  }

  lemma SameExplicit(a: seq<Step>, b: seq<Step>, deps: seq<Id>, self: Id)
    requires SameButDeps(a, b)
    ensures KeepDeps(deps, ById(a), self) == KeepDeps(deps, ById(b), self)
  {
    if deps != [] {
      var n := |deps| - 1;
      SameExplicit(a, b, deps[..n], self);
      SameLookup(a, b, deps[n]);
    }
  }

  ghost predicate ProductiveAt(steps: seq<Step>, i: nat, d: Id)
    requires i <= |steps|
  {
    exists k :: 0 <= k < i && steps[k].id == d && Productive(ById(steps)[d].kind)
  }

  /**
   * A step without usable explicit dependencies whose id is already that of an earlier step
   * of the sort its kind waits for, while another earlier step of that sort has another id.
   */
  ghost predicate MixesSelf(steps: seq<Step>, i: nat)
    requires i < |steps|
  {
    var self := steps[i].id;
    && Explicit(steps, i) == []
    && match steps[i].kind
       case Retrieve => false
       case Skill | Tool => RetrieveBefore(steps, i, self) && exists d :: d != self && RetrieveBefore(steps, i, d)
       case Answer | Verify => ProductiveAt(steps, i, self) && exists d :: d != self && ProductiveAt(steps, i, d)
  }

  /** The same, seen on what is guessed. */
  ghost predicate GuessMixes(steps: seq<Step>, lower: Fold, i: nat)
    requires i < |steps|
  {
    && Explicit(steps, i) == []
    && steps[i].id in Guess(steps, lower, i)
    && exists d :: d in Guess(steps, lower, i) && d != steps[i].id
  }

  lemma {:induction false} ProductiveMember(steps: seq<Step>, i: nat, d: Id)
    requires i <= |steps|
    ensures d in PriorProductive(steps, ById(steps), i) <==> ProductiveAt(steps, i, d)
  {
    if i > 0 {
      ProductiveMember(steps, i - 1, d);
    }
  }

  lemma AtMostOne(ids: seq<Id>, self: Id)
    requires |ids| <= 1
    ensures !(self in ids && exists d :: d in ids && d != self)
  {
  }

  lemma {:induction false} FirstWithShort(items: Items, value: string)
    ensures |FirstWith(items, value)| <= 1
  {
    if items != [] {
      FirstWithShort(items[1..], value);
    }
  }

  /** A guess mixes a step's own id with others exactly when the plan has the shape described by `MixesSelf`. */
  lemma GuessMixesExactlyWhen(steps: seq<Step>, lower: Fold, i: nat)
    requires i < |steps|
    ensures GuessMixes(steps, lower, i) <==> MixesSelf(steps, i)
  {
    var self, guess := steps[i].id, Guess(steps, lower, i);
    if |guess| <= 1 {
      AtMostOne(guess, self);
    }
    match steps[i].kind {
      case Answer | Verify =>
        forall d ensures d in PriorProductive(steps, ById(steps), i) <==> ProductiveAt(steps, i, d) {
          ProductiveMember(steps, i, d);
        }
      case Skill | Tool =>
        forall d ensures d in PriorRetrieves(steps, i) <==> RetrieveBefore(steps, i, d) {
          RetrievesBefore(steps, i, d);
        }
      case Retrieve => FirstWithShort(PriorQueries(steps, lower, i), QueryKey(steps[i], lower));
    }
  }

  /** For every plan: a second application changes nothing exactly when no guess mixes a step's own id with others. */
  lemma IdempotentExactlyWhen(steps: seq<Step>, lower: Fold)
    ensures Inferred(Inferred(steps, lower), lower) == Inferred(steps, lower)
            <==> forall i :: 0 <= i < |steps| ==> !MixesSelf(steps, i)
  {
    var out := Inferred(steps, lower);
    forall i | 0 <= i < |steps|
      ensures Inferred(out, lower)[i] == out[i] <==> !MixesSelf(steps, i)
    {
      StableExactlyWhen(steps, lower, i);
      GuessMixesExactlyWhen(steps, lower, i);
    }
  }

  /** With distinct ids a second application changes nothing. */
  lemma InferenceIsIdempotent(steps: seq<Step>, lower: Fold)
    requires DistinctIds(steps)
    ensures Inferred(Inferred(steps, lower), lower) == Inferred(steps, lower)
  {
    assert forall i, k :: 0 <= k < i < |steps| ==> steps[k].id != steps[i].id;
    IdempotentExactlyWhen(steps, lower);
  }

  /** A plan with a repeated id that inference does not leave alone. */
  lemma RepeatedIdsCanShift(lower: Fold) returns (steps: seq<Step>)
    ensures Inferred(Inferred(steps, lower), lower) != Inferred(steps, lower)
  {
    var a := Step("a", "", Retrieve, None, None, [], [], Pending);
    var b := a.(id := "b");
    steps := [a, b, b.(kind := Skill)];
    assert steps[0].id == "a" && steps[1].id == "b" && steps[2].id == "b";
    assert RetrieveBefore(steps, 2, "a") && RetrieveBefore(steps, 2, "b");
    assert MixesSelf(steps, 2);
    IdempotentExactlyWhen(steps, lower);
  }

  lemma KeepSingle(d: Id, known: map<Id, Step>, self: Id)
    ensures KeepDeps([], known, self) == []
    ensures KeepDeps([d], known, self) == if d in known && d != self then [d] else []
  {
    assert [d][..0] == [];
  }

  lemma {:induction false} KeepsKnown(deps: seq<Id>, known: map<Id, Step>, self: Id, d: Id)
    requires d in deps && d in known && d != self
    ensures d in KeepDeps(deps, known, self)
  {
    var n := |deps| - 1;
    if d != deps[n] {
      KeepsKnown(deps[..n], known, self, d);
    }
  }

  lemma SameGuess(steps: seq<Step>, out: seq<Step>, lower: Fold, i: nat)
    requires SameButDeps(steps, out) && i < |steps|
    ensures Guess(out, lower, i) == Guess(steps, lower, i)
  {
    if steps[i].kind == Answer || steps[i].kind == Verify {
      SameProductive(steps, out, i);
    } else {
      SamePrior(steps, out, lower, i);
    }
  }

  lemma {:induction false} KeepsNone(deps: seq<Id>, known: map<Id, Step>, self: Id)
    requires forall i :: 0 <= i < |deps| ==> deps[i] == self
    ensures KeepDeps(deps, known, self) == []
  {
    if deps != [] {
      KeepsNone(deps[..|deps| - 1], known, self);
    }
  }

  /** Filtering a list of known ids for a step: nothing changes, or nothing is left, unless it mixes the step's own id with others. */
  lemma KeepAgain(deps: seq<Id>, known: map<Id, Step>, self: Id)
    requires forall d :: d in deps ==> d in known
    ensures var kept := KeepDeps(deps, known, self);
            (kept == [] || kept == deps) <==> !(self in deps && exists d :: d in deps && d != self)
  {
    if d :| d in deps && d != self {
      KeepsKnown(deps, known, self, d);
    } else {
      assert forall i :: 0 <= i < |deps| ==> deps[i] in deps;
      KeepsNone(deps, known, self);
    }
  }

  lemma SecondReading(steps: seq<Step>, lower: Fold, i: nat)
    requires i < |steps|
    ensures var out := Inferred(steps, lower);
            var kept := KeepDeps(DepsFor(steps, lower, i), ById(steps), steps[i].id);
            DepsFor(out, lower, i) == if kept != [] then kept else Guess(steps, lower, i)
  {
    var out := Inferred(steps, lower);
    SameGuess(steps, out, lower, i);
    SameExplicit(steps, out, out[i].dependsOn, steps[i].id);
  }

  lemma StableExactlyWhen(steps: seq<Step>, lower: Fold, i: nat)
    requires i < |steps|
    ensures DepsFor(Inferred(steps, lower), lower, i) == DepsFor(steps, lower, i) <==> !GuessMixes(steps, lower, i)
  {
    var deps := DepsFor(steps, lower, i);
    SecondReading(steps, lower, i);
    forall d | d in deps ensures d in ById(steps) {
      DepsAreKnown(steps, lower, i, d);
    }
    KeepAgain(deps, ById(steps), steps[i].id);
  }

  // ---- What exactly is inferred ----

  /** `r` holds the ids of the steps at these positions, in plan order. */
  ghost predicate IdsAt(steps: seq<Step>, at: seq<nat>, r: seq<Id>) {
    && |r| == |at| && Rising(at)
    && forall j :: 0 <= j < |at| ==> at[j] < |steps| && r[j] == steps[at[j]].id
  }

  lemma IdsAtSnoc(steps: seq<Step>, at: seq<nat>, r: seq<Id>, n: nat)
    requires IdsAt(steps, at, r) && n < |steps| && forall k :: k in at ==> k < n
    ensures IdsAt(steps, at + [n], r + [steps[n].id])
  {
    RisingSnoc(at, n);
  }

  /** The dictionary entry of an id, which is the last step that carries it, is a retrieve, skill or tool step. */
  ghost predicate ProducesLast(steps: seq<Step>, id: Id) {
    exists l: nat :: LastWith(steps, id, l) && steps[l].kind in {Retrieve, Skill, Tool}
  }

  /** Step k is of the sort that a step of this kind waits for when no explicit dependency is left to it. */
  ghost predicate WaitedFor(steps: seq<Step>, kind: Kind, k: nat)
    requires k < |steps|
  {
    match kind
    case Skill | Tool => steps[k].kind == Retrieve
    case Answer | Verify => ProducesLast(steps, steps[k].id)
    case Retrieve => false
  }

  /** `at` lists the positions before i of exactly those steps. */
  ghost predicate WaitsAt(steps: seq<Step>, kind: Kind, i: nat, at: seq<nat>)
    requires i <= |steps|
  {
    forall k: nat :: k in at <==> k < i && WaitedFor(steps, kind, k)
  }

  /** One more position. */
  lemma WaitsNext(steps: seq<Step>, kind: Kind, i: nat, at: seq<nat>)
    requires i < |steps| && WaitsAt(steps, kind, i, at)
    ensures WaitedFor(steps, kind, i) ==> WaitsAt(steps, kind, i + 1, at + [i])
    ensures !WaitedFor(steps, kind, i) ==> WaitsAt(steps, kind, i + 1, at)
  {
    var more := WaitedFor(steps, kind, i);
    forall k: nat ensures (k in at || (more && k == i)) <==> k < i + 1 && WaitedFor(steps, kind, k) {
      assert k in at <==> k < i && WaitedFor(steps, kind, k);
    }
  }

  /** One more step, and its id if it is waited for. */
  lemma IdsNext(steps: seq<Step>, kind: Kind, i: nat, at: seq<nat>, r: seq<Id>, next: seq<Id>) returns (at': seq<nat>)
    requires i < |steps| && WaitsAt(steps, kind, i, at) && IdsAt(steps, at, r)
    requires next == if WaitedFor(steps, kind, i) then r + [steps[i].id] else r
    ensures IdsAt(steps, at', next) && WaitsAt(steps, kind, i + 1, at')
  {
    at' := at;
    WaitsNext(steps, kind, i, at);
    if WaitedFor(steps, kind, i) {
      IdsAtSnoc(steps, at, r, i);
      at' := at + [i];
    }
  }

  lemma {:induction false} RetrievesAre(steps: seq<Step>, kind: Kind, i: nat) returns (at: seq<nat>)
    requires i <= |steps| && kind in {Skill, Tool}
    ensures IdsAt(steps, at, PriorRetrieves(steps, i)) && WaitsAt(steps, kind, i, at)
  {
    at := [];
    if i > 0 {
      at := RetrievesAre(steps, kind, i - 1);
      at := IdsNext(steps, kind, i - 1, at, PriorRetrieves(steps, i - 1), PriorRetrieves(steps, i));
    }
  }

  lemma ProductiveIsLast(steps: seq<Step>, id: Id)
    requires id in ById(steps)
    ensures Productive(ById(steps)[id].kind) <==> ProducesLast(steps, id)
  {
    LastWins(steps, id, LastIndex(steps, id));
    if ProducesLast(steps, id) {
      var l: nat :| LastWith(steps, id, l) && steps[l].kind in {Retrieve, Skill, Tool};
      LastWins(steps, id, l);
    }
  }

  lemma ProductiveNext(steps: seq<Step>, kind: Kind, i: nat)
    requires i < |steps| && kind in {Answer, Verify}
    ensures var r := PriorProductive(steps, ById(steps), i);
            PriorProductive(steps, ById(steps), i + 1) == if WaitedFor(steps, kind, i) then r + [steps[i].id] else r
  {
    ProductiveIsLast(steps, steps[i].id);
  }

  lemma {:induction false} ProductivesAre(steps: seq<Step>, kind: Kind, i: nat) returns (at: seq<nat>)
    requires i <= |steps| && kind in {Answer, Verify}
    ensures IdsAt(steps, at, PriorProductive(steps, ById(steps), i)) && WaitsAt(steps, kind, i, at)
  {
    at := [];
    if i > 0 {
      at := ProductivesAre(steps, kind, i - 1);
      at := ProductivesNext(steps, kind, i, at);
    }
  }

  lemma ProductivesNext(steps: seq<Step>, kind: Kind, i: nat, at: seq<nat>) returns (at': seq<nat>)
    requires 0 < i <= |steps| && kind in {Answer, Verify}
    requires IdsAt(steps, at, PriorProductive(steps, ById(steps), i - 1)) && WaitsAt(steps, kind, i - 1, at)
    ensures IdsAt(steps, at', PriorProductive(steps, ById(steps), i)) && WaitsAt(steps, kind, i, at')
  {
    ProductiveNext(steps, kind, i - 1);
    at' := IdsNext(steps, kind, i - 1, at, PriorProductive(steps, ById(steps), i - 1), PriorProductive(steps, ById(steps), i));
  }

  /** A retrieve step whose folded query is q. */
  ghost predicate Asks(s: Step, lower: Fold, q: string) {
    s.kind == Retrieve && lower(Strip(if s.query.None? then "" else s.query.value)) == q
  }

  ghost predicate RetrieveBetween(steps: seq<Step>, k: int, i: nat, id: Id)
    requires i <= |steps|
  {
    exists m :: 0 <= m && k < m < i && steps[m].kind == Retrieve && steps[m].id == id
  }

  /** The last retrieve step before i with this id asks q. */
  ghost predicate LastAsked(steps: seq<Step>, lower: Fold, i: nat, id: Id, q: string)
    requires i <= |steps|
  {
    exists k :: 0 <= k < i && steps[k].id == id && Asks(steps[k], lower, q) && !RetrieveBetween(steps, k, i, id)
  }

  /** Step k is the first retrieve step with its id, and the last one before i asks q. */
  ghost predicate Asker(steps: seq<Step>, lower: Fold, i: nat, q: string, k: nat)
    requires i <= |steps|
  {
    FirstRetrieve(steps, i, k) && LastAsked(steps, lower, i, steps[k].id, q)
  }

  ghost predicate FirstRetrieve(steps: seq<Step>, i: nat, k: nat)
    requires i <= |steps|
  {
    k < i && steps[k].kind == Retrieve && !RetrieveBetween(steps, -1, k, steps[k].id)
  }

  /** The table of queries: one entry per id, in the order of first retrieval, with the latest query. */
  ghost predicate Tabled(steps: seq<Step>, lower: Fold, i: nat, items: Items, at: seq<nat>)
    requires i <= |steps|
  {
    && |at| == |items| && Rising(at)
    && (forall p :: 0 <= p < |at| ==> TabledAt(steps, lower, i, items[p], at[p]))
    && (forall k: nat :: FirstRetrieve(steps, i, k) ==> k in at)
  }

  ghost predicate TabledAt(steps: seq<Step>, lower: Fold, i: nat, item: (Id, string), k: nat)
    requires i <= |steps|
  {
    FirstRetrieve(steps, i, k) && item.0 == steps[k].id && LastAsked(steps, lower, i, item.0, item.1)
  }

  lemma {:induction false} PutAt(items: Items, key: Id, value: string, p: nat)
    requires p < |items| && items[p].0 == key && forall m :: 0 <= m < p ==> items[m].0 != key
    ensures Put(items, key, value) == items[p := (key, value)]
  {
    if p > 0 {
      PutAt(items[1..], key, value, p - 1);
    }
  }

  lemma {:induction false} PutNew(items: Items, key: Id, value: string)
    requires forall m :: 0 <= m < |items| ==> items[m].0 != key
    ensures Put(items, key, value) == items + [(key, value)]
  {
    if items != [] {
      PutNew(items[1..], key, value);
    }
  }

  lemma TabledKeeps(steps: seq<Step>, lower: Fold, i: nat, item: (Id, string), k: nat)
    requires i < |steps| && TabledAt(steps, lower, i, item, k)
    requires steps[i].kind != Retrieve || steps[i].id != item.0
    ensures TabledAt(steps, lower, i + 1, item, k)
  {
    var l :| 0 <= l < i && steps[l].id == item.0 && Asks(steps[l], lower, item.1) && !RetrieveBetween(steps, l, i, item.0);
    assert !RetrieveBetween(steps, l, i + 1, item.0);
  }

  lemma TabledNow(steps: seq<Step>, lower: Fold, i: nat, k: nat)
    requires i < |steps| && steps[i].kind == Retrieve && FirstRetrieve(steps, i + 1, k) && steps[k].id == steps[i].id
    ensures TabledAt(steps, lower, i + 1, (steps[i].id, QueryKey(steps[i], lower)), k)
  {
    var q := QueryKey(steps[i], lower);
    assert Asks(steps[i], lower, q) && !RetrieveBetween(steps, i, i + 1, steps[i].id);
  }

  /** Two entries of the table are for different ids. */
  lemma TabledDiffer(steps: seq<Step>, lower: Fold, i: nat, items: Items, at: seq<nat>, p: nat, m: nat)
    requires i <= |steps| && Tabled(steps, lower, i, items, at) && m < p < |items|
    ensures items[m].0 != items[p].0
  {
    assert TabledAt(steps, lower, i, items[m], at[m]) && TabledAt(steps, lower, i, items[p], at[p]);
    assert at[m] < at[p];
    assert RetrieveBetween(steps, -1, at[p], items[m].0);
  }

  /** The other entries are for other ids. */
  lemma OneEntry(steps: seq<Step>, lower: Fold, i: nat, items: Items, at: seq<nat>, p: nat)
    requires i <= |steps| && Tabled(steps, lower, i, items, at) && p < |items|
    ensures forall m :: 0 <= m < |items| && m != p ==> items[m].0 != items[p].0
  {
    forall m | 0 <= m < |items| && m != p ensures items[m].0 != items[p].0 {
      if m < p {
        TabledDiffer(steps, lower, i, items, at, p, m);
      } else {
        TabledDiffer(steps, lower, i, items, at, m, p);
      }
    }
  }

  lemma TabledUpdate(steps: seq<Step>, lower: Fold, i: nat, items: Items, at: seq<nat>, p: nat)
    requires i < |steps| && steps[i].kind == Retrieve && Tabled(steps, lower, i, items, at)
    requires p < |items| && items[p].0 == steps[i].id
    ensures Tabled(steps, lower, i + 1, items[p := (steps[i].id, QueryKey(steps[i], lower))], at)
  {
    var next := items[p := (steps[i].id, QueryKey(steps[i], lower))];
    OneEntry(steps, lower, i, items, at, p);
    forall m | 0 <= m < |at| ensures TabledAt(steps, lower, i + 1, next[m], at[m]) {
      assert TabledAt(steps, lower, i, items[m], at[m]);
      if m != p {
        TabledKeeps(steps, lower, i, items[m], at[m]);
      } else {
        TabledNow(steps, lower, i, at[p]);
      }
    }
    assert TabledAt(steps, lower, i, items[p], at[p]);
    NoNewRetrieve(steps, i, at[p]);
  }

  lemma NoNewRetrieve(steps: seq<Step>, i: nat, f: nat)
    requires i < |steps| && f < i && steps[f].kind == Retrieve && steps[f].id == steps[i].id
    ensures forall k: nat :: FirstRetrieve(steps, i + 1, k) ==> FirstRetrieve(steps, i, k)
  {
    assert RetrieveBetween(steps, -1, i, steps[i].id);
  }

  lemma TabledAppend(steps: seq<Step>, lower: Fold, i: nat, items: Items, at: seq<nat>)
    requires i < |steps| && steps[i].kind == Retrieve && Tabled(steps, lower, i, items, at)
    requires forall m :: 0 <= m < |items| ==> items[m].0 != steps[i].id
    ensures Tabled(steps, lower, i + 1, items + [(steps[i].id, QueryKey(steps[i], lower))], at + [i])
  {
    var next, at' := items + [(steps[i].id, QueryKey(steps[i], lower))], at + [i];
    FirstOfId(steps, lower, i, items, at);
    TabledNow(steps, lower, i, i);
    forall m | 0 <= m < |at'| ensures TabledAt(steps, lower, i + 1, next[m], at'[m]) {
      if m < |at| {
        assert TabledAt(steps, lower, i, items[m], at[m]);
        TabledKeeps(steps, lower, i, items[m], at[m]);
      }
    }
    assert forall m :: 0 <= m < |at| ==> TabledAt(steps, lower, i, items[m], at[m]);
    RisingSnoc(at, i);
    forall k: nat | FirstRetrieve(steps, i + 1, k) ensures k in at' {
      assert k == i || FirstRetrieve(steps, i, k);
    }
  }

  /** An id that is not in the table has not been retrieved. */
  lemma FirstOfId(steps: seq<Step>, lower: Fold, i: nat, items: Items, at: seq<nat>)
    requires i < |steps| && steps[i].kind == Retrieve && Tabled(steps, lower, i, items, at)
    requires forall m :: 0 <= m < |items| ==> items[m].0 != steps[i].id
    ensures FirstRetrieve(steps, i + 1, i)
  {
    if RetrieveBetween(steps, -1, i, steps[i].id) {
      var k := FirstBetween(steps, i, steps[i].id);
      InTable(steps, lower, i, items, at, k);
    }
  }

  lemma InTable(steps: seq<Step>, lower: Fold, i: nat, items: Items, at: seq<nat>, k: nat)
    requires i <= |steps| && Tabled(steps, lower, i, items, at) && FirstRetrieve(steps, i, k)
    ensures exists m :: 0 <= m < |items| && items[m].0 == steps[k].id
  {
    var m :| 0 <= m < |at| && at[m] == k;
    assert TabledAt(steps, lower, i, items[m], at[m]);
  }

  lemma {:induction false} FirstBetween(steps: seq<Step>, i: nat, id: Id) returns (k: nat)
    requires i <= |steps| && RetrieveBetween(steps, -1, i, id)
    ensures FirstRetrieve(steps, i, k) && steps[k].id == id
  {
    var m :| 0 <= m < i && steps[m].kind == Retrieve && steps[m].id == id;
    k := m;
    if RetrieveBetween(steps, -1, m, id) {
      k := FirstBetween(steps, m, id);
    }
  }

  lemma {:induction false} QueriesAre(steps: seq<Step>, lower: Fold, i: nat) returns (at: seq<nat>)
    requires i <= |steps|
    ensures Tabled(steps, lower, i, PriorQueries(steps, lower, i), at)
  {
    at := [];
    if i == 0 {
      NothingAsked(steps, lower);
    } else {
      at := QueriesAre(steps, lower, i - 1);
      at := QueriesNext(steps, lower, i, at);
    }
  }

  lemma QueriesNext(steps: seq<Step>, lower: Fold, i: nat, at: seq<nat>) returns (at': seq<nat>)
    requires 0 < i <= |steps| && Tabled(steps, lower, i - 1, PriorQueries(steps, lower, i - 1), at)
    ensures Tabled(steps, lower, i, PriorQueries(steps, lower, i), at')
  {
    at' := TabledNext(steps, lower, i - 1, PriorQueries(steps, lower, i - 1), PriorQueries(steps, lower, i), at);
  }

  lemma NothingAsked(steps: seq<Step>, lower: Fold)
    ensures Tabled(steps, lower, 0, PriorQueries(steps, lower, 0), [])
  {
  }

  lemma TabledNext(steps: seq<Step>, lower: Fold, i: nat, items: Items, next: Items, at: seq<nat>) returns (at': seq<nat>)
    requires i < |steps| && Tabled(steps, lower, i, items, at)
    requires next == if steps[i].kind == Retrieve then Put(items, steps[i].id, QueryKey(steps[i], lower)) else items
    ensures Tabled(steps, lower, i + 1, next, at')
  {
    at' := at;
    if steps[i].kind != Retrieve {
      TabledOther(steps, lower, i, items, at);
    } else if p :| 0 <= p < |items| && items[p].0 == steps[i].id {
      OneEntry(steps, lower, i, items, at, p);
      PutAt(items, steps[i].id, QueryKey(steps[i], lower), p);
      TabledUpdate(steps, lower, i, items, at, p);
    } else {
      PutNew(items, steps[i].id, QueryKey(steps[i], lower));
      TabledAppend(steps, lower, i, items, at);
      at' := at + [i];
    }
  }

  lemma TabledOther(steps: seq<Step>, lower: Fold, i: nat, items: Items, at: seq<nat>)
    requires i < |steps| && steps[i].kind != Retrieve && Tabled(steps, lower, i, items, at)
    ensures Tabled(steps, lower, i + 1, items, at)
  {
    forall m | 0 <= m < |at| ensures TabledAt(steps, lower, i + 1, items[m], at[m]) {
      assert TabledAt(steps, lower, i, items[m], at[m]);
      TabledKeeps(steps, lower, i, items[m], at[m]);
    }
    assert forall k: nat :: FirstRetrieve(steps, i + 1, k) ==> FirstRetrieve(steps, i, k);
  }

  lemma {:induction false} FirstWithIs(items: Items, value: string) returns (p: nat)
    ensures p <= |items| && forall m :: 0 <= m < p ==> items[m].1 != value
    ensures p < |items| ==> items[p].1 == value && FirstWith(items, value) == [items[p].0]
    ensures p == |items| ==> FirstWith(items, value) == []
  {
    p := 0;
    if items != [] && items[0].1 != value {
      p := FirstWithIs(items[1..], value);
      p := p + 1;
      assert forall m :: 0 < m < p ==> items[m] == items[1..][m - 1];
    }
  }

  lemma LastAskedOnce(steps: seq<Step>, lower: Fold, i: nat, id: Id, q: string, q': string)
    requires i <= |steps| && LastAsked(steps, lower, i, id, q) && LastAsked(steps, lower, i, id, q')
    ensures q == q'
  {
    var k :| 0 <= k < i && steps[k].id == id && Asks(steps[k], lower, q) && !RetrieveBetween(steps, k, i, id);
    var l :| 0 <= l < i && steps[l].id == id && Asks(steps[l], lower, q') && !RetrieveBetween(steps, l, i, id);
    LaterOne(steps, i, id, k, l);
    LaterOne(steps, i, id, l, k);
  }

  lemma LaterOne(steps: seq<Step>, i: nat, id: Id, k: int, l: int)
    requires i <= |steps|
    ensures 0 <= k < l < i && steps[l].kind == Retrieve && steps[l].id == id ==> RetrieveBetween(steps, k, i, id)
  {
  }

  /** The earliest step of those whose id was last retrieved with this query. */
  ghost predicate FirstAsker(steps: seq<Step>, lower: Fold, i: nat, q: string, k: nat)
    requires i <= |steps|
  {
    Asker(steps, lower, i, q, k) && forall m: nat :: m < k ==> !Asker(steps, lower, i, q, m)
  }

  ghost predicate RepeatsQuery(steps: seq<Step>, lower: Fold, i: nat, q: string, deps: seq<Id>)
    requires i <= |steps|
  {
    || (exists k: nat :: FirstAsker(steps, lower, i, q, k) && deps == [steps[k].id])
    || (deps == [] && forall k: nat :: !Asker(steps, lower, i, q, k))
  }

  ghost predicate ContinuesSearch(steps: seq<Step>, i: nat, deps: seq<Id>)
    requires i <= |steps|
  {
    || (exists k: nat :: NearestRetrieve(steps, i, k) && deps == [steps[k].id])
    || (deps == [] && forall k :: 0 <= k < i ==> steps[k].kind != Retrieve)
  }

  ghost predicate NearestRetrieve(steps: seq<Step>, i: nat, k: nat)
    requires i <= |steps|
  {
    k < i && steps[k].kind == Retrieve && forall m :: k < m < i ==> steps[m].kind != Retrieve
  }

  /** The dependencies of a step that has no usable explicit ones. */
  ghost predicate Implied(steps: seq<Step>, lower: Fold, i: nat, deps: seq<Id>)
    requires i < |steps|
  {
    if steps[i].kind == Retrieve then
      forall q :: Asks(steps[i], lower, q) ==>
        if q != "" then RepeatsQuery(steps, lower, i, q, deps) else ContinuesSearch(steps, i, deps)
    else
      exists at: seq<nat> :: WaitsAt(steps, steps[i].kind, i, at) &&
        (if at != [] then IdsAt(steps, at, deps) else deps == if i > 0 then [steps[i - 1].id] else [])
  }

  /** The positions, among a step's explicit dependencies, of those that name another step. */
  ghost predicate UsableAt(steps: seq<Step>, i: nat, at: seq<nat>)
    requires i < |steps|
  {
    && Rising(at)
    && forall p: nat :: p in at <==> p < |steps[i].dependsOn| && NamesOther(steps, steps[i].dependsOn[p], steps[i].id)
  }

  ghost predicate NamesOther(steps: seq<Step>, d: Id, self: Id) {
    d != self && exists k :: 0 <= k < |steps| && steps[k].id == d
  }

  ghost predicate TakenAt(all: seq<Id>, at: seq<nat>, r: seq<Id>) {
    |r| == |at| && forall j :: 0 <= j < |at| ==> at[j] < |all| && r[j] == all[at[j]]
  }

  /** What inference makes of a step: its usable explicit dependencies, in order, or the implied ones. */
  ghost predicate Explained(steps: seq<Step>, lower: Fold, i: nat, deps: seq<Id>)
    requires i < |steps|
  {
    exists at: seq<nat> :: UsableAt(steps, i, at) &&
      (if at != [] then TakenAt(steps[i].dependsOn, at, deps) else Implied(steps, lower, i, deps))
  }

  lemma AskerIsTabled(steps: seq<Step>, lower: Fold, i: nat, items: Items, at: seq<nat>, q: string, k: nat)
    requires i <= |steps| && Tabled(steps, lower, i, items, at)
    ensures Asker(steps, lower, i, q, k) <==> exists p :: 0 <= p < |items| && at[p] == k && items[p].1 == q
  {
    if Asker(steps, lower, i, q, k) {
      var p :| 0 <= p < |at| && at[p] == k;
      assert TabledAt(steps, lower, i, items[p], at[p]);
      LastAskedOnce(steps, lower, i, items[p].0, items[p].1, q);
    }
    if p :| 0 <= p < |items| && at[p] == k && items[p].1 == q {
      assert TabledAt(steps, lower, i, items[p], at[p]);
    }
  }

  /** A repeated query waits for the earliest step that asks it. */
  lemma QueryImplies(steps: seq<Step>, lower: Fold, i: nat, q: string)
    requires i <= |steps|
    ensures RepeatsQuery(steps, lower, i, q, FirstWith(PriorQueries(steps, lower, i), q))
  {
    var items := PriorQueries(steps, lower, i);
    var at := QueriesAre(steps, lower, i);
    var p := FirstWithIs(items, q);
    forall k: nat ensures Asker(steps, lower, i, q, k) <==> exists m :: 0 <= m < |items| && at[m] == k && items[m].1 == q {
      AskerIsTabled(steps, lower, i, items, at, q, k);
    }
    if p < |items| {
      assert TabledAt(steps, lower, i, items[p], at[p]);
      assert FirstAsker(steps, lower, i, q, at[p]);
    }
  }

  lemma {:induction false} LastRetrieve(steps: seq<Step>, i: nat) returns (k: nat)
    requires i <= |steps|
    ensures var r := PriorRetrieves(steps, i);
            if r != [] then NearestRetrieve(steps, i, k) && r[|r| - 1] == steps[k].id
            else forall m :: 0 <= m < i ==> steps[m].kind != Retrieve
  {
    k := 0;
    if i > 0 {
      k := LastRetrieve(steps, i - 1);
      if steps[i - 1].kind == Retrieve {
        k := i - 1;
      }
    }
  }

  lemma GuessIsImplied(steps: seq<Step>, lower: Fold, i: nat)
    requires i < |steps|
    ensures Implied(steps, lower, i, Guess(steps, lower, i))
  {
    match steps[i].kind {
      case Answer | Verify =>
        var at := ProductivesAre(steps, steps[i].kind, i);
      case Skill | Tool =>
        var at := RetrievesAre(steps, steps[i].kind, i);
      case Retrieve =>
        QueryImplies(steps, lower, i, QueryKey(steps[i], lower));
        var k := LastRetrieve(steps, i);
    }
  }

  lemma {:induction false} KeptAre(steps: seq<Step>, deps: seq<Id>, self: Id) returns (at: seq<nat>)
    ensures Rising(at) && TakenAt(deps, at, KeepDeps(deps, ById(steps), self))
    ensures forall p: nat :: p in at <==> p < |deps| && NamesOther(steps, deps[p], self)
  {
    at := [];
    if deps != [] {
      var n := |deps| - 1;
      at := KeptAre(steps, deps[..n], self);
      NamesOtherIff(steps, deps[n], self);
      KeptNext(steps, deps, self, KeepDeps(deps[..n], ById(steps), self), at);
      if NamesOther(steps, deps[n], self) {
        at := at + [n];
      }
    }
  }

  lemma KeptNext(steps: seq<Step>, deps: seq<Id>, self: Id, kept: seq<Id>, at: seq<nat>)
    requires deps != [] && Rising(at) && TakenAt(deps[..|deps| - 1], at, kept)
    requires forall p: nat :: p in at <==> p < |deps| - 1 && NamesOther(steps, deps[..|deps| - 1][p], self)
    ensures var n := |deps| - 1;
            if NamesOther(steps, deps[n], self) then
              && Rising(at + [n]) && TakenAt(deps, at + [n], kept + [deps[n]])
              && forall p: nat :: p in at + [n] <==> p < |deps| && NamesOther(steps, deps[p], self)
            else
              TakenAt(deps, at, kept) && forall p: nat :: p in at <==> p < |deps| && NamesOther(steps, deps[p], self)
  {
    var n := |deps| - 1;
    assert forall p: nat :: p < n ==> deps[..n][p] == deps[p];
    RisingSnoc(at, n);
  }

  lemma NamesOtherIff(steps: seq<Step>, d: Id, self: Id)
    ensures NamesOther(steps, d, self) <==> d in ById(steps) && d != self
  {
    if d in ById(steps) {
      assert steps[LastIndex(steps, d)].id == d;
    }
  }

  /**
   * The dependencies after inference, for every plan and every step, told from the plan
   * alone: which explicit ones stay, and which earlier steps the others wait for.
   */
  lemma InferredExactly(steps: seq<Step>, lower: Fold, i: nat)
    requires i < |steps|
    ensures Explained(steps, lower, i, Inferred(steps, lower)[i].dependsOn)
  {
    var at := KeptAre(steps, steps[i].dependsOn, steps[i].id);
    assert UsableAt(steps, i, at);
    GuessIsImplied(steps, lower, i);
  }

  lemma AllExplained(steps: seq<Step>, lower: Fold)
    ensures forall i :: 0 <= i < |steps| ==> Explained(steps, lower, i, Inferred(steps, lower)[i].dependsOn)
  {
    forall i | 0 <= i < |steps| ensures Explained(steps, lower, i, Inferred(steps, lower)[i].dependsOn) {
      InferredExactly(steps, lower, i);
    }
  }

  /** Step k is the first search before i with this query. */
  ghost predicate FirstAsking(steps: seq<Step>, lower: Fold, i: nat, q: string, k: nat)
    requires i <= |steps|
  {
    k < i && Asks(steps[k], lower, q) && forall m :: 0 <= m < k ==> !Asks(steps[m], lower, q)
  }

  /**
   * With distinct ids a search waits for the first earlier search with the same folded query
   * and for nothing else; one without a query waits for the nearest earlier search.
   */
  lemma SearchWaitsFor(steps: seq<Step>, lower: Fold, i: nat, q: string)
    requires DistinctIds(steps) && i < |steps| && Asks(steps[i], lower, q)
    requires forall p :: 0 <= p < |steps[i].dependsOn| ==> !NamesOther(steps, steps[i].dependsOn[p], steps[i].id)
    ensures var deps := Inferred(steps, lower)[i].dependsOn;
            if q == "" then ContinuesSearch(steps, i, deps)
            else || (exists k: nat :: FirstAsking(steps, lower, i, q, k) && deps == [steps[k].id])
                 || (deps == [] && forall k :: 0 <= k < i ==> !Asks(steps[k], lower, q))
  {
    var deps := Inferred(steps, lower)[i].dependsOn;
    NothingExplicit(steps, lower, i);
    if q != "" {
      assert RepeatsQuery(steps, lower, i, q, deps);
      if k: nat :| FirstAsker(steps, lower, i, q, k) && deps == [steps[k].id] {
        forall m: nat | m <= k { DistinctAsker(steps, lower, i, q, m); }
        assert FirstAsking(steps, lower, i, q, k);
      } else {
        forall m: nat { DistinctAsker(steps, lower, i, q, m); }
      }
    }
  }

  lemma NothingExplicit(steps: seq<Step>, lower: Fold, i: nat)
    requires i < |steps|
    requires forall p :: 0 <= p < |steps[i].dependsOn| ==> !NamesOther(steps, steps[i].dependsOn[p], steps[i].id)
    ensures Implied(steps, lower, i, Inferred(steps, lower)[i].dependsOn)
  {
    var at := KeptAre(steps, steps[i].dependsOn, steps[i].id);
    NonemptyHasMember(at);
    GuessIsImplied(steps, lower, i);
  }

  lemma DistinctAsker(steps: seq<Step>, lower: Fold, i: nat, q: string, k: nat)
    requires DistinctIds(steps) && i <= |steps|
    ensures Asker(steps, lower, i, q, k) <==> k < i && Asks(steps[k], lower, q)
  {
    if k < i {
      assert forall m :: 0 <= m < |steps| && steps[m].id == steps[k].id ==> m == k;
      assert !RetrieveBetween(steps, -1, k, steps[k].id) && !RetrieveBetween(steps, k, i, steps[k].id);
    }
  }
}
