/** Giving the steps of a plan option fresh ids, and why that never changes its schedule. */
module Renaming {
  import opened Seqs
  import opened Text
  import opened Plan
  import opened Waves
  import opened Dependencies

  function NewId(option: string, index: nat): Id {
    option + "_s" + Decimal(index + 1)
  }

  /** `id_map.get(d, d)`. */
  function Ren(names: map<Id, Id>, d: Id): Id {
    if d in names then names[d] else d
  }

  function RenAll(names: map<Id, Id>, s: seq<Id>): (r: seq<Id>)
    ensures |r| == |s|
    ensures forall i :: 0 <= i < |s| ==> r[i] == Ren(names, s[i])
  {
    seq(|s|, i requires 0 <= i < |s| => Ren(names, s[i]))
  }

  function RenWaves(names: map<Id, Id>, ws: seq<seq<Id>>): (r: seq<seq<Id>>)
    ensures |r| == |ws|
    ensures forall i :: 0 <= i < |ws| ==> r[i] == RenAll(names, ws[i])
  {
    seq(|ws|, i requires 0 <= i < |ws| => RenAll(names, ws[i]))
  }

  function NonEmpty(deps: seq<Id>): (r: seq<Id>)
    ensures forall d :: d in r <==> d in deps && d != ""
  {
    if deps == [] then []
    else
      var n := |deps| - 1;
      if deps[n] == "" then NonEmpty(deps[..n]) else NonEmpty(deps[..n]) + [deps[n]]
  }

  /** The renaming of a plan: the last step with an id decides. */
  function Names(steps: seq<Step>, option: string): (m: map<Id, Id>)
    ensures forall i :: 0 <= i < |steps| ==> steps[i].id in m
  {
    if steps == [] then map[]
    else
      var n := |steps| - 1;
      Names(steps[..n], option)[steps[n].id := NewId(option, n)]
  }

  function Reindexed(steps: seq<Step>, option: string): (r: seq<Step>)
    ensures |r| == |steps|
    ensures forall i :: 0 <= i < |steps| ==>
              r[i] == steps[i].(id := NewId(option, i), status := Pending,
                                dependsOn := RenAll(Names(steps, option), NonEmpty(steps[i].dependsOn)))
  {
    seq(|steps|, i requires 0 <= i < |steps| =>
      steps[i].(id := NewId(option, i), status := Pending,
                dependsOn := RenAll(Names(steps, option), NonEmpty(steps[i].dependsOn))))
  }

  /** `_reindex_steps`: fresh ids first, then the dependencies through the id map. */
  method ReindexSteps(steps: seq<Step>, option: string) returns (remapped: seq<Step>)
    ensures remapped == Reindexed(steps, option)
    ensures DistinctIds(remapped) && |remapped| == |steps|
    ensures forall i :: 0 <= i < |steps| ==> RenamedStep(steps, option, i, remapped[i])
  {
    var out, names := FreshIds(steps, option);
    remapped := [];
    for i := 0 to |out|
      invariant remapped == Reindexed(steps, option)[..i]
    {
      remapped := remapped + [out[i].(dependsOn := RenAll(names, NonEmpty(out[i].dependsOn)))];
    }
    ReindexedDistinct(steps, option);
    AllRenamed(steps, option);
  }

  /** What a dependency becomes: the new id of the last step that carries it, or itself if none does. */
  ghost predicate NewName(steps: seq<Step>, option: string, d: Id, got: Id) {
    && (forall l: nat :: LastWith(steps, d, l) ==> got == option + "_s" + Decimal(l + 1))
    && ((forall k :: 0 <= k < |steps| ==> steps[k].id != d) ==> got == d)
  }

  /** The dependencies that are not empty, in order, under their new names. */
  ghost predicate NewNames(steps: seq<Step>, option: string, deps: seq<Id>, at: seq<nat>, got: seq<Id>) {
    && |at| == |got| && Rising(at)
    && (forall p: nat :: p in at <==> p < |deps| && deps[p] != "")
    && (forall j :: 0 <= j < |at| ==> at[j] < |deps| && NewName(steps, option, deps[at[j]], got[j]))
  }

  /** A reindexed step: a new id, pending again, its dependencies renamed, and otherwise as it was. */
  ghost predicate RenamedStep(steps: seq<Step>, option: string, i: nat, got: Step)
    requires i < |steps|
  {
    && got.id == option + "_s" + Decimal(i + 1) && got.status == Pending
    && got == steps[i].(id := got.id, status := Pending, dependsOn := got.dependsOn)
    && exists at :: NewNames(steps, option, steps[i].dependsOn, at, got.dependsOn)
  }

  lemma {:induction false} NamesAreLast(steps: seq<Step>, option: string, d: Id)
    ensures NewName(steps, option, d, Ren(Names(steps, option), d))
  {
    if steps != [] {
      var n := |steps| - 1;
      NamesAreLast(steps[..n], option, d);
      if steps[n].id != d {
        forall l: nat | LastWith(steps, d, l) ensures LastWith(steps[..n], d, l) {
          assert forall m :: l < m < n ==> steps[..n][m] == steps[m];
        }
        assert forall k :: 0 <= k < n ==> steps[..n][k] == steps[k];
      } else {
        assert forall l: nat :: LastWith(steps, d, l) ==> l == n;
      }
    }
  }

  lemma {:induction false} NonEmptyAre(deps: seq<Id>) returns (at: seq<nat>)
    ensures ListedAt(deps, |deps|, at, NonEmpty(deps))
    ensures forall p: nat :: p in at <==> p < |deps| && deps[p] != ""
  {
    at := [];
    if deps != [] {
      var n := |deps| - 1;
      at := NonEmptyAre(deps[..n]);
      ListedFurther(deps, n, at, NonEmpty(deps[..n]));
      NonEmptyNext(deps, n, at);
      if deps[n] != "" {
        at := at + [n];
      }
    }
  }

  lemma NonEmptyNext(deps: seq<Id>, n: nat, at: seq<nat>)
    requires n < |deps| && forall p: nat :: p in at <==> p < n && deps[..n][p] != ""
    ensures forall p: nat :: p in (if deps[n] != "" then at + [n] else at) <==> p < n + 1 && deps[p] != ""
  {
    assert forall p: nat :: p < n ==> deps[..n][p] == deps[p];
  }

  lemma AllRenamed(steps: seq<Step>, option: string)
    ensures forall i :: 0 <= i < |steps| ==> RenamedStep(steps, option, i, Reindexed(steps, option)[i])
  {
    forall i | 0 <= i < |steps| ensures RenamedStep(steps, option, i, Reindexed(steps, option)[i]) {
      DepsRenamed(steps, option, steps[i].dependsOn);
    }
  }

  lemma DepsRenamed(steps: seq<Step>, option: string, deps: seq<Id>)
    ensures exists at :: NewNames(steps, option, deps, at, RenAll(Names(steps, option), NonEmpty(deps)))
  {
    var at := NonEmptyAre(deps);
    forall j | 0 <= j < |at| ensures NewName(steps, option, deps[at[j]], RenAll(Names(steps, option), NonEmpty(deps))[j]) {
      NamesAreLast(steps, option, deps[at[j]]);
    }
    assert NewNames(steps, option, deps, at, RenAll(Names(steps, option), NonEmpty(deps)));
  }

  method FreshIds(steps: seq<Step>, option: string) returns (out: seq<Step>, names: map<Id, Id>)
    ensures |out| == |steps| && names == Names(steps, option)
    ensures forall k :: 0 <= k < |steps| ==> out[k] == steps[k].(id := NewId(option, k), status := Pending)
  {
    out, names := [], map[];
    for i := 0 to |steps|
      invariant |out| == i
      invariant forall k :: 0 <= k < i ==> out[k] == steps[k].(id := NewId(option, k), status := Pending)
      invariant names == Names(steps[..i], option)
    {
      var newId := NewId(option, i);
      names := names[steps[i].id := newId];
      out := out + [steps[i].(id := newId, status := Pending)];
      assert steps[..i + 1][..i] == steps[..i];
    }
    assert steps[..|steps|] == steps;
  }

  lemma NewIdInjective(option: string, i: nat, j: nat)
    requires NewId(option, i) == NewId(option, j)
    ensures i == j
  {
    var p := option + "_s";
    assert (p + Decimal(i + 1))[|p|..] == Decimal(i + 1);
    assert (p + Decimal(j + 1))[|p|..] == Decimal(j + 1);
    DecimalInjective(i + 1, j + 1);
  }

  /** Reindexed plans have distinct ids, whatever the ids were. */
  lemma ReindexedDistinct(steps: seq<Step>, option: string)
    ensures DistinctIds(Reindexed(steps, option))
  {
    forall i, j | 0 <= i < j < |steps| ensures NewId(option, i) != NewId(option, j) {
      if NewId(option, i) == NewId(option, j) {
        NewIdInjective(option, i, j);
      }
    }
  }

  lemma {:induction false} NamesAt(steps: seq<Step>, option: string, i: nat)
    requires DistinctIds(steps) && i < |steps|
    ensures Names(steps, option)[steps[i].id] == NewId(option, i)
  {
    var n := |steps| - 1;
    if i < n {
      NamesAt(steps[..n], option, i);
      assert steps[i].id != steps[n].id;
    }
  }

  lemma {:induction false} NamesKnown(steps: seq<Step>, option: string, d: Id)
    ensures d in Names(steps, option) <==> d in ById(steps)
  {
    if steps != [] {
      NamesKnown(steps[..|steps| - 1], option, d);
    }
  }

  // ---- A renamed plan ----

  /**
   * `b` is `a` under the injective renaming `names`: ids, and the dependencies that name a
   * step, are renamed; dependencies that name no step of `a` name none of `b` either.
   */
  ghost predicate Renames(names: map<Id, Id>, a: seq<Step>, b: seq<Step>) {
    && |a| == |b|
    && DistinctIds(a) && DistinctIds(b)
    && (forall d :: d in names <==> d in ById(a))
    && (forall i :: 0 <= i < |a| ==> b[i].id == names[a[i].id])
    && (forall i :: 0 <= i < |a| ==> b[i].kind == a[i].kind && b[i].query == a[i].query)
  }

  lemma RenInjective(names: map<Id, Id>, a: seq<Step>, b: seq<Step>, x: Id, y: Id)
    requires Renames(names, a, b) && x in ById(a) && y in ById(a)
    ensures names[x] == names[y] <==> x == y
  {
    var i, j := LastIndex(a, x), LastIndex(a, y);
    assert b[i].id == names[x] && b[j].id == names[y];
    assert i != j ==> b[i].id != b[j].id;
  }

  lemma RenKnown(names: map<Id, Id>, a: seq<Step>, b: seq<Step>, x: Id)
    requires Renames(names, a, b) && x in ById(a)
    ensures names[x] in ById(b) && ById(b)[names[x]].kind == ById(a)[x].kind
  {
    var i := LastIndex(a, x);
    assert b[i].id == names[x];
    DistinctLookup(b, i);
  }

  lemma RenAppend(names: map<Id, Id>, s: seq<Id>, x: Id)
    ensures RenAll(names, s + [x]) == RenAll(names, s) + [Ren(names, x)]
  {
  }

  lemma {:induction false} RenProductive(names: map<Id, Id>, a: seq<Step>, b: seq<Step>, i: nat)
    requires Renames(names, a, b) && i <= |a|
    ensures PriorProductive(b, ById(b), i) == RenAll(names, PriorProductive(a, ById(a), i))
  {
    if i > 0 {
      RenProductive(names, a, b, i - 1);
      RenKnown(names, a, b, a[i - 1].id);
      RenAppend(names, PriorProductive(a, ById(a), i - 1), a[i - 1].id);
    }
  }

  lemma {:induction false} RenRetrieves(names: map<Id, Id>, a: seq<Step>, b: seq<Step>, i: nat)
    requires Renames(names, a, b) && i <= |a|
    ensures PriorRetrieves(b, i) == RenAll(names, PriorRetrieves(a, i))
  {
    if i > 0 {
      RenRetrieves(names, a, b, i - 1);
      assert a[i - 1].id in ById(a);
      RenAppend(names, PriorRetrieves(a, i - 1), a[i - 1].id);
    }
  }

  /** Renaming the keys of a dictionary of queries. */
  ghost predicate RenItems(names: map<Id, Id>, p: Items, q: Items) {
    && |p| == |q|
    && forall k :: 0 <= k < |p| ==> p[k].0 in names && q[k] == (names[p[k].0], p[k].1)
  }

  lemma {:induction false} RenPut(names: map<Id, Id>, a: seq<Step>, b: seq<Step>, p: Items, q: Items, key: Id, value: string)
    requires Renames(names, a, b) && RenItems(names, p, q) && key in ById(a)
    ensures RenItems(names, Put(p, key, value), Put(q, names[key], value))
  {
    if p != [] {
      RenInjective(names, a, b, p[0].0, key);
      if p[0].0 != key {
        RenPut(names, a, b, p[1..], q[1..], key, value);
        RenItemsCons(names, p[0], q[0], Put(p[1..], key, value), Put(q[1..], names[key], value));
      } else {
        RenItemsCons(names, (key, value), (names[key], value), p[1..], q[1..]);
      }
    }
  }

  lemma RenItemsCons(names: map<Id, Id>, x: (Id, string), y: (Id, string), p: Items, q: Items)
    requires RenItems(names, p, q) && x.0 in names && y == (names[x.0], x.1)
    ensures RenItems(names, [x] + p, [y] + q)
  {
  }

  lemma {:induction false} RenQueries(names: map<Id, Id>, a: seq<Step>, b: seq<Step>, lower: Fold, i: nat)
    requires Renames(names, a, b) && i <= |a|
    ensures RenItems(names, PriorQueries(a, lower, i), PriorQueries(b, lower, i))
  {
    if i > 0 {
      RenQueries(names, a, b, lower, i - 1);
      if a[i - 1].kind == Retrieve {
        assert a[i - 1].id in ById(a);
        RenPut(names, a, b, PriorQueries(a, lower, i - 1), PriorQueries(b, lower, i - 1),
               a[i - 1].id, QueryKey(a[i - 1], lower));
      }
    }
  }

  lemma {:induction false} RenFirstWith(names: map<Id, Id>, p: Items, q: Items, value: string)
    requires RenItems(names, p, q)
    ensures FirstWith(q, value) == RenAll(names, FirstWith(p, value))
  {
    if p != [] && p[0].1 != value {
      RenFirstWith(names, p[1..], q[1..], value);
    }
  }

  lemma RenGuess(names: map<Id, Id>, a: seq<Step>, b: seq<Step>, lower: Fold, i: nat)
    requires Renames(names, a, b) && i < |a|
    ensures Guess(b, lower, i) == RenAll(names, Guess(a, lower, i))
  {
    RenLastPrior(names, a, b, i);
    match a[i].kind {
      case Answer | Verify =>
        RenProductive(names, a, b, i);
      case Skill | Tool =>
        RenRetrieves(names, a, b, i);
      case Retrieve =>
        RenRetrieves(names, a, b, i);
        RenQueries(names, a, b, lower, i);
        RenFirstWith(names, PriorQueries(a, lower, i), PriorQueries(b, lower, i), QueryKey(a[i], lower));
    }
  }

  lemma RenLastPrior(names: map<Id, Id>, a: seq<Step>, b: seq<Step>, i: nat)
    requires Renames(names, a, b) && i < |a|
    ensures LastPrior(b, i) == RenAll(names, LastPrior(a, i))
  {
    assert i > 0 ==> a[i - 1].id in ById(a);
  }

  lemma {:induction false} RenKeep(names: map<Id, Id>, a: seq<Step>, b: seq<Step>, deps: seq<Id>, self: Id)
    requires Renames(names, a, b) && self in ById(a)
    requires "" in deps && "" in ById(a) ==> self == ""
    requires forall d :: d in deps && d != "" && d !in ById(a) ==> d !in ById(b) || d == names[self]
    ensures KeepDeps(RenAll(names, NonEmpty(deps)), ById(b), names[self])
         == RenAll(names, KeepDeps(deps, ById(a), self))
  {
    if deps != [] {
      var n := |deps| - 1;
      var front, d := deps[..n], deps[n];
      RenKeep(names, a, b, front, self);
      if d != "" {
        RenAppend(names, NonEmpty(front), d);
        assert RenAll(names, NonEmpty(deps))[..|NonEmpty(front)|] == RenAll(names, NonEmpty(front));
        if d in ById(a) {
          RenKnown(names, a, b, d);
          RenInjective(names, a, b, d, self);
          RenAppend(names, KeepDeps(front, ById(a), self), d);
        }
      }
    }
  }

  // ---- Isomorphic schedules ----

  function RenSet(names: map<Id, Id>, s: set<Id>): set<Id> {
    set x | x in s :: Ren(names, x)
  }

  ghost predicate Iso(names: map<Id, Id>, n: Nodes, m: Nodes) {
    && m.keys == RenAll(names, n.keys) && m.order == RenAll(names, n.order)
    && (forall x :: x in names <==> x in n.byId)
    && (forall x, y :: x in names && y in names && names[x] == names[y] ==> x == y)
    && (forall x :: x in n.byId ==> SameNode(names, n.byId, m.byId, x))
  }

  ghost predicate SameNode(names: map<Id, Id>, p: map<Id, Step>, q: map<Id, Step>, x: Id)
    requires x in p
  {
    && x in names && names[x] in q
    && q[names[x]].kind == p[x].kind
    && q[names[x]].dependsOn == RenAll(names, p[x].dependsOn)
    && forall d :: d in p[x].dependsOn ==> d in names
  }

  lemma IsoMember(names: map<Id, Id>, n: Nodes, m: Nodes, done: set<Id>, x: Id)
    requires Iso(names, n, m) && done <= n.byId.Keys && x in names
    ensures names[x] in RenSet(names, done) <==> x in done
  {
    if names[x] in RenSet(names, done) {
      var y :| y in done && Ren(names, y) == names[x];
    }
    assert x in done ==> Ren(names, x) in RenSet(names, done);
  }

  lemma IsoDepsDone(names: map<Id, Id>, n: Nodes, m: Nodes, done: set<Id>, x: Id)
    requires Iso(names, n, m) && done <= n.byId.Keys && x in n.byId
    ensures names[x] in m.byId
    ensures DepsDone(m.byId, names[x], RenSet(names, done)) <==> DepsDone(n.byId, x, done)
  {
    assert SameNode(names, n.byId, m.byId, x);
    var p, q := n.byId[x].dependsOn, m.byId[names[x]].dependsOn;
    forall k | 0 <= k < |p| ensures q[k] in RenSet(names, done) <==> p[k] in done {
      IsoMember(names, n, m, done, p[k]);
    }
  }

  /** Filtering by readiness commutes with renaming when readiness agrees pointwise. */
  lemma {:induction false} RenReadyIn(names: map<Id, Id>, p: map<Id, Step>, q: map<Id, Step>,
                                      order: seq<Id>, done: set<Id>, done': set<Id>)
    requires forall x :: x in order ==> x in p
    requires forall x :: x in RenAll(names, order) ==> x in q
    requires forall k :: 0 <= k < |order| ==> SameReady(names, p, q, order[k], done, done')
    ensures ReadyIn(RenAll(names, order), q, done') == RenAll(names, ReadyIn(order, p, done))
  {
    if order != [] {
      var k := |order| - 1;
      var front := order[..k];
      assert RenAll(names, order)[..k] == RenAll(names, front);
      RenReadyIn(names, p, q, front, done, done');
      RenAppend(names, ReadyIn(front, p, done), order[k]);
      assert SameReady(names, p, q, order[k], done, done');
    }
  }

  ghost predicate SameReady(names: map<Id, Id>, p: map<Id, Step>, q: map<Id, Step>, x: Id, done: set<Id>, done': set<Id>)
  {
    && x in p && Ren(names, x) in q
    && (Ren(names, x) in done' <==> x in done)
    && (DepsDone(q, Ren(names, x), done') <==> DepsDone(p, x, done))
  }

  lemma IsoSameReady(names: map<Id, Id>, n: Nodes, m: Nodes, done: set<Id>, x: Id)
    requires Iso(names, n, m) && done <= n.byId.Keys && x in n.byId
    ensures SameReady(names, n.byId, m.byId, x, done, RenSet(names, done))
  {
    IsoMember(names, n, m, done, x);
    IsoDepsDone(names, n, m, done, x);
  }

  lemma IsoReady(names: map<Id, Id>, n: Nodes, m: Nodes, done: set<Id>)
    requires Iso(names, n, m) && done <= n.byId.Keys
    ensures Ready(m, RenSet(names, done)) == RenAll(names, Ready(n, done))
  {
    forall k | 0 <= k < |n.order|
      ensures SameReady(names, n.byId, m.byId, n.order[k], done, RenSet(names, done))
    {
      assert n.order[k] in n.byId;
      IsoSameReady(names, n, m, done, n.order[k]);
    }
    RenReadyIn(names, n.byId, m.byId, n.order, done, RenSet(names, done));
  }

  lemma RenToSet(names: map<Id, Id>, done: set<Id>, s: seq<Id>)
    ensures RenSet(names, done + ToSet(s)) == RenSet(names, done) + ToSet(RenAll(names, s))
  {
    forall x | x in RenSet(names, done + ToSet(s)) ensures x in RenSet(names, done) + ToSet(RenAll(names, s)) {
      var y :| y in done + ToSet(s) && x == Ren(names, y);
      if y !in done {
        var k :| 0 <= k < |s| && s[k] == y;
        assert RenAll(names, s)[k] == x;
      }
    }
    forall x | x in RenAll(names, s) ensures x in RenSet(names, done + ToSet(s)) {
      var k :| 0 <= k < |s| && RenAll(names, s)[k] == x;
      assert s[k] in done + ToSet(s);
    }
  }

  lemma {:induction false} IsoRounds(names: map<Id, Id>, n: Nodes, m: Nodes, done: set<Id>)
    requires Iso(names, n, m) && done <= n.byId.Keys
    ensures Rounds(m, RenSet(names, done)) == RenWaves(names, Rounds(n, done))
    decreases |n.byId.Keys - done|
  {
    var ready := Ready(n, done);
    IsoReady(names, n, m, done);
    if ready == [] {
      NoRounds(n, done);
      NoRounds(m, RenSet(names, done));
    } else {
      Shrinks(n.byId.Keys, done, ToSet(ready), ready[0]);
      RenToSet(names, done, ready);
      IsoRounds(names, n, m, done + ToSet(ready));
      RoundsUnfold(n, done);
      RoundsUnfold(m, RenSet(names, done));
      RenCons(names, ready, Rounds(n, done + ToSet(ready)));
    }
  }

  lemma NoRounds(n: Nodes, done: set<Id>)
    requires Ready(n, done) == []
    ensures Rounds(n, done) == []
  {
  }

  lemma RenCons(names: map<Id, Id>, w: seq<Id>, ws: seq<seq<Id>>)
    ensures RenWaves(names, [w] + ws) == [RenAll(names, w)] + RenWaves(names, ws)
  {
  }

  lemma {:induction false} RenFlatten(names: map<Id, Id>, ws: seq<seq<Id>>)
    ensures Flatten(RenWaves(names, ws)) == RenAll(names, Flatten(ws))
  {
    if ws != [] {
      RenFlatten(names, ws[1..]);
      assert RenWaves(names, ws)[1..] == RenWaves(names, ws[1..]);
    }
  }

  lemma {:induction false} RenWithout(names: map<Id, Id>, s: seq<Id>, gone: set<Id>, gone': set<Id>)
    requires forall k :: 0 <= k < |s| ==> (Ren(names, s[k]) in gone' <==> s[k] in gone)
    ensures Without(RenAll(names, s), gone') == RenAll(names, Without(s, gone))
  {
    if s != [] {
      var k := |s| - 1;
      RenWithout(names, s[..k], gone, gone');
      assert RenAll(names, s)[..k] == RenAll(names, s[..k]);
      RenAppend(names, Without(s[..k], gone), s[k]);
    }
  }

  lemma IsoSettled(names: map<Id, Id>, n: Nodes, m: Nodes)
    requires Iso(names, n, m)
    ensures Settled(n, {}) <= n.byId.Keys
    ensures Settled(m, {}) == RenSet(names, Settled(n, {}))
  {
    assert RenSet(names, {}) == {};
    IsoRounds(names, n, m, {});
    RenFlatten(names, Rounds(n, {}));
    RenToSet(names, {}, Flatten(Rounds(n, {})));
    RoundsKnown(n, {});
  }

  lemma IsoLeftover(names: map<Id, Id>, n: Nodes, m: Nodes)
    requires Iso(names, n, m)
    ensures Leftover(m) == RenAll(names, Leftover(n))
  {
    var gone, gone' := Settled(n, {}), Settled(m, {});
    IsoSettled(names, n, m);
    forall k | 0 <= k < |n.keys| ensures Ren(names, n.keys[k]) in gone' <==> n.keys[k] in gone {
      assert n.keys[k] in n.byId;
      IsoMember(names, n, m, gone, n.keys[k]);
    }
    RenWithout(names, n.keys, gone, gone');
  }

  ghost predicate SameKinds(names: map<Id, Id>, p: map<Id, Step>, q: map<Id, Step>, ready: seq<Id>) {
    forall k :: 0 <= k < |ready| ==>
      ready[k] in p && Ren(names, ready[k]) in q && q[Ren(names, ready[k])].kind == p[ready[k]].kind
  }

  lemma {:induction false} RenSplit(names: map<Id, Id>, p: map<Id, Step>, q: map<Id, Step>, ready: seq<Id>, batch: seq<Id>)
    requires SameKinds(names, p, q, ready)
    ensures Split(q, RenAll(names, ready), RenAll(names, batch)) == RenWaves(names, Split(p, ready, batch))
    decreases |ready|
  {
    assert Close(RenAll(names, batch)) == RenWaves(names, Close(batch));
    if ready != [] {
      assert RenAll(names, ready)[1..] == RenAll(names, ready[1..]);
      if Parallelizable(p[ready[0]].kind) {
        RenSplit(names, p, q, ready[1..], batch + [ready[0]]);
        RenAppend(names, batch, ready[0]);
      } else {
        RenSplit(names, p, q, ready[1..], []);
        assert RenAll(names, []) == [];
        RenConcat(names, Close(batch), ready[0], Split(p, ready[1..], []));
      }
    }
  }

  lemma RenConcat(names: map<Id, Id>, a: seq<seq<Id>>, x: Id, c: seq<seq<Id>>)
    ensures RenWaves(names, a + [[x]] + c) == RenWaves(names, a) + [[Ren(names, x)]] + RenWaves(names, c)
  {
    assert RenAll(names, [x]) == [Ren(names, x)];
  }

  lemma RenSingletons(names: map<Id, Id>, s: seq<Id>)
    ensures Singletons(RenAll(names, s)) == RenWaves(names, Singletons(s))
  {
    assert forall i :: 0 <= i < |s| ==> RenAll(names, [s[i]]) == [Ren(names, s[i])];
  }

  lemma RenSplitRound(names: map<Id, Id>, n: Nodes, m: Nodes, ready: seq<Id>, parallel: bool)
    requires SameKinds(names, n.byId, m.byId, ready)
    ensures SplitRound(m, RenAll(names, ready), parallel) == RenWaves(names, SplitRound(n, ready, parallel))
  {
    assert RenAll(names, []) == [];
    RenSplit(names, n.byId, m.byId, ready, []);
    RenSingletons(names, ready);
  }

  lemma {:induction false} RenSplitRounds(names: map<Id, Id>, n: Nodes, m: Nodes, rounds: seq<seq<Id>>, parallel: bool)
    requires forall r, x :: r in rounds && x in r ==> x in n.byId
    requires forall r, x :: r in RenWaves(names, rounds) && x in r ==> x in m.byId
    requires forall r :: r in rounds ==> SameKinds(names, n.byId, m.byId, r)
    ensures SplitRounds(m, RenWaves(names, rounds), parallel) == RenWaves(names, SplitRounds(n, rounds, parallel))
  {
    if rounds != [] {
      var head, tail := rounds[0], rounds[1..];
      assert head in rounds && RenWaves(names, rounds)[0] in RenWaves(names, rounds);
      assert RenWaves(names, rounds)[1..] == RenWaves(names, tail);
      assert forall r :: r in tail ==> r in rounds;
      assert forall r :: r in RenWaves(names, tail) ==> r in RenWaves(names, rounds);
      RenSplitRound(names, n, m, head, parallel);
      RenSplitRounds(names, n, m, tail, parallel);
      RenJoin(names, SplitRound(n, head, parallel), SplitRounds(n, tail, parallel));
    }
  }

  lemma RenJoin(names: map<Id, Id>, a: seq<seq<Id>>, b: seq<seq<Id>>)
    ensures RenWaves(names, a + b) == RenWaves(names, a) + RenWaves(names, b)
  {
  }

  lemma IsoKinds(names: map<Id, Id>, n: Nodes, m: Nodes, r: seq<Id>)
    requires Iso(names, n, m) && forall x :: x in r ==> x in n.byId
    ensures SameKinds(names, n.byId, m.byId, r)
  {
    forall k | 0 <= k < |r| ensures SameNode(names, n.byId, m.byId, r[k]) {
      assert r[k] in n.byId;
    }
  }

  lemma IsoSplitRounds(names: map<Id, Id>, n: Nodes, m: Nodes, rounds: seq<seq<Id>>, parallel: bool)
    requires Iso(names, n, m) && forall r, x :: r in rounds && x in r ==> x in n.byId
    requires forall r, x :: r in RenWaves(names, rounds) && x in r ==> x in m.byId
    ensures SplitRounds(m, RenWaves(names, rounds), parallel) == RenWaves(names, SplitRounds(n, rounds, parallel))
  {
    forall r | r in rounds ensures SameKinds(names, n.byId, m.byId, r) {
      IsoKinds(names, n, m, r);
    }
    RenSplitRounds(names, n, m, rounds, parallel);
  }

  /** Isomorphic dictionaries have the same waves up to the renaming. */
  lemma IsoWaves(names: map<Id, Id>, n: Nodes, m: Nodes, parallel: bool)
    requires Iso(names, n, m)
    ensures WavesOf(m, parallel) == RenWaves(names, WavesOf(n, parallel))
  {
    assert RenSet(names, {}) == {};
    RoundsKnown(n, {});
    RoundsKnown(m, {});
    IsoRounds(names, n, m, {});
    IsoSplitRounds(names, n, m, Rounds(n, {}), parallel);
    IsoLeftover(names, n, m);
    RenSingletons(names, Leftover(n));
    RenJoin(names, SplitRounds(n, Rounds(n, {}), parallel), Singletons(Leftover(n)));
  }

  // ---- The theorem ----

  /**
   * An explicit dependency that does not come through: an empty name that names another
   * step, which reindexing drops, or the name of no step that is the new id of another one.
   */
  ghost predicate Stray(steps: seq<Step>, option: string, i: nat, d: Id)
    requires i < |steps|
  {
    || (d == "" && "" in ById(steps) && steps[i].id != "")
    || (d != "" && d !in ById(steps) && d in ById(Reindexed(steps, option)) && d != NewId(option, i))
  }

  ghost predicate NoCapture(steps: seq<Step>, option: string) {
    forall i, d :: 0 <= i < |steps| && d in steps[i].dependsOn ==> !Stray(steps, option, i, d)
  }

  /** A single explicit dependency is carried over by reindexing exactly when it is not a stray one. */
  lemma CarriedExactlyWhen(steps: seq<Step>, option: string, i: nat, d: Id)
    requires DistinctIds(steps) && i < |steps|
    ensures var names := Names(steps, option);
            KeepDeps(RenAll(names, NonEmpty([d])), ById(Reindexed(steps, option)), NewId(option, i))
            == RenAll(names, KeepDeps([d], ById(steps), steps[i].id))
            <==> !Stray(steps, option, i, d)
  {
    var names, b := Names(steps, option), Reindexed(steps, option);
    ReindexRenames(steps, option);
    NamesAt(steps, option, i);
    OneDep(names, d);
    if d != "" {
      CarriedName(names, steps, b, d, steps[i].id);
    } else {
      KeepSingle(d, ById(steps), steps[i].id);
      KeepSingle(d, ById(b), NewId(option, i));
      OneDep(names, d);
    }
  }

  /** A non-empty name is filtered alike on both sides unless it is unknown here and another step's there. */
  lemma CarriedName(names: map<Id, Id>, a: seq<Step>, b: seq<Step>, d: Id, self: Id)
    requires Renames(names, a, b) && self in ById(a)
    ensures KeepDeps([Ren(names, d)], ById(b), names[self]) == RenAll(names, KeepDeps([d], ById(a), self))
            <==> !(d !in ById(a) && d in ById(b) && d != names[self])
  {
    OneDep(names, d);
    KeepSingle(d, ById(a), self);
    KeepSingle(Ren(names, d), ById(b), names[self]);
    if d in ById(a) {
      RenKnown(names, a, b, d);
      RenInjective(names, a, b, d, self);
    }
  }

  lemma OneDep(names: map<Id, Id>, d: Id)
    ensures NonEmpty([d]) == (if d == "" then [] else [d])
    ensures RenAll(names, [d]) == [Ren(names, d)] && RenAll(names, []) == []
  {
    assert [d][..0] == [];
  }

  // ---- A whole list of explicit dependencies ----

  /** The dependencies that filtering keeps, as a set. */
  lemma {:induction false} KeptSet(deps: seq<Id>, known: map<Id, Step>, self: Id, e: Id)
    ensures e in KeepDeps(deps, known, self) <==> e in deps && e in known && e != self
  {
    if deps != [] {
      var n := |deps| - 1;
      KeptSet(deps[..n], known, self, e);
      assert deps == deps[..n] + [deps[n]];
    }
  }

  lemma RenMember(names: map<Id, Id>, s: seq<Id>, e: Id)
    ensures e in RenAll(names, s) <==> exists x :: x in s && Ren(names, x) == e
  {
    if x :| x in s && Ren(names, x) == e {
      var i :| 0 <= i < |s| && s[i] == x;
      assert RenAll(names, s)[i] == e;
    }
  }

  /** Kept before reindexing, and then renamed. */
  ghost predicate Renamed(names: map<Id, Id>, a: seq<Step>, deps: seq<Id>, self: Id, e: Id) {
    exists x :: x in deps && x in ById(a) && x != self && Ren(names, x) == e
  }

  /** An unknown name that reindexing turns into a dependency on the step with that new id. */
  ghost predicate Captured(names: map<Id, Id>, a: seq<Step>, b: seq<Step>, deps: seq<Id>, self: Id, e: Id)
    requires self in names
  {
    e in deps && e != "" && e !in ById(a) && e in ById(b) && e != names[self]
  }

  lemma KeptBefore(names: map<Id, Id>, a: seq<Step>, deps: seq<Id>, self: Id, e: Id)
    ensures e in RenAll(names, KeepDeps(deps, ById(a), self)) <==> Renamed(names, a, deps, self, e)
  {
    var kept := KeepDeps(deps, ById(a), self);
    RenMember(names, kept, e);
    forall x ensures x in kept <==> x in deps && x in ById(a) && x != self {
      KeptSet(deps, ById(a), self, x);
    }
  }

  /** Kept after reindexing: a renamed dependency other than the empty name, or a captured one. */
  lemma KeptAfter(names: map<Id, Id>, a: seq<Step>, b: seq<Step>, deps: seq<Id>, self: Id, e: Id)
    requires Renames(names, a, b) && self in ById(a)
    ensures e in KeepDeps(RenAll(names, NonEmpty(deps)), ById(b), names[self]) <==>
            Renamed(names, a, NonEmpty(deps), self, e) || Captured(names, a, b, deps, self, e)
  {
    var renamed := RenAll(names, NonEmpty(deps));
    KeptSet(renamed, ById(b), names[self], e);
    RenMember(names, NonEmpty(deps), e);
    if e in KeepDeps(renamed, ById(b), names[self]) {
      var x :| x in NonEmpty(deps) && Ren(names, x) == e;
      if x in ById(a) {
        RenInjective(names, a, b, x, self);
      }
    }
    if Renamed(names, a, NonEmpty(deps), self, e) {
      var x :| x in NonEmpty(deps) && x in ById(a) && x != self && Ren(names, x) == e;
      RenKnown(names, a, b, x);
      RenInjective(names, a, b, x, self);
    }
    if Captured(names, a, b, deps, self, e) {
      assert e in NonEmpty(deps) && Ren(names, e) == e;
    }
  }

  /** The empty name is an explicit dependency on another step, which reindexing drops. */
  ghost predicate LosesEmpty(a: seq<Step>, deps: seq<Id>, self: Id) {
    "" in deps && "" in ById(a) && self != ""
  }

  /** The same dependencies, as sets, before and after. */
  ghost predicate SameKept(names: map<Id, Id>, a: seq<Step>, b: seq<Step>, deps: seq<Id>, self: Id)
    requires self in names
  {
    ToSet(KeepDeps(RenAll(names, NonEmpty(deps)), ById(b), names[self])) == ToSet(RenAll(names, KeepDeps(deps, ById(a), self)))
  }

  /** Every loss is made good: a lost empty name is captured under its new id, a captured name is a dependency anyway. */
  ghost predicate MadeGood(names: map<Id, Id>, a: seq<Step>, b: seq<Step>, deps: seq<Id>, self: Id)
    requires self in names
  {
    && (LosesEmpty(a, deps, self) ==> Captured(names, a, b, deps, self, Ren(names, "")))
    && forall e :: Captured(names, a, b, deps, self, e) ==> Renamed(names, a, deps, self, e)
  }

  /**
   * For a step's whole list: reindexing keeps the set of explicit dependencies exactly when
   * a lost empty name is captured under its new id and every captured name is a dependency anyway.
   */
  lemma ListCarriedExactlyWhen(steps: seq<Step>, option: string, i: nat)
    requires DistinctIds(steps) && i < |steps|
    ensures var names, b := Names(steps, option), Reindexed(steps, option);
            SameKept(names, steps, b, steps[i].dependsOn, steps[i].id) <==> MadeGood(names, steps, b, steps[i].dependsOn, steps[i].id)
  {
    var names, b, deps, self := Names(steps, option), Reindexed(steps, option), steps[i].dependsOn, steps[i].id;
    ReindexRenames(steps, option);
    assert self in ById(steps);
    if SameKept(names, steps, b, deps, self) {
      SameMeansGood(names, steps, b, deps, self);
    } else {
      DifferentMeansBad(names, steps, b, deps, self);
    }
  }

  lemma SameMeansGood(names: map<Id, Id>, a: seq<Step>, b: seq<Step>, deps: seq<Id>, self: Id)
    requires Renames(names, a, b) && self in ById(a) && SameKept(names, a, b, deps, self)
    ensures MadeGood(names, a, b, deps, self)
  {
    var after, before := KeepDeps(RenAll(names, NonEmpty(deps)), ById(b), names[self]), RenAll(names, KeepDeps(deps, ById(a), self));
    forall e ensures Renamed(names, a, NonEmpty(deps), self, e) || Captured(names, a, b, deps, self, e) <==> Renamed(names, a, deps, self, e) {
      KeptAfter(names, a, b, deps, self, e);
      KeptBefore(names, a, deps, self, e);
      assert e in ToSet(after) <==> e in ToSet(before);
    }
    if LosesEmpty(a, deps, self) {
      assert Renamed(names, a, deps, self, Ren(names, ""));
      OnlyEmpty(names, a, b, deps, self);
    }
  }

  /** No other dependency has the new name of the empty one. */
  lemma OnlyEmpty(names: map<Id, Id>, a: seq<Step>, b: seq<Step>, deps: seq<Id>, self: Id)
    requires Renames(names, a, b) && "" in ById(a)
    ensures !Renamed(names, a, NonEmpty(deps), self, Ren(names, ""))
  {
    forall x | x in NonEmpty(deps) && x in ById(a) ensures Ren(names, x) != Ren(names, "") {
      RenInjective(names, a, b, x, "");
    }
  }

  lemma RenamedAnyway(names: map<Id, Id>, a: seq<Step>, deps: seq<Id>, self: Id, e: Id)
    ensures Renamed(names, a, NonEmpty(deps), self, e) ==> Renamed(names, a, deps, self, e)
  {
  }

  lemma DifferentMeansBad(names: map<Id, Id>, a: seq<Step>, b: seq<Step>, deps: seq<Id>, self: Id)
    requires Renames(names, a, b) && self in ById(a) && !SameKept(names, a, b, deps, self)
    ensures !MadeGood(names, a, b, deps, self)
  {
    var after, before := KeepDeps(RenAll(names, NonEmpty(deps)), ById(b), names[self]), RenAll(names, KeepDeps(deps, ById(a), self));
    var e :| e in ToSet(after) <==> e !in ToSet(before);
    KeptAfter(names, a, b, deps, self, e);
    KeptBefore(names, a, deps, self, e);
    if e in after {
      RenamedAnyway(names, a, deps, self, e);
      assert Captured(names, a, b, deps, self, e);
    } else {
      var x :| x in deps && x in ById(a) && x != self && Ren(names, x) == e;
      assert x == "" by {
        assert x != "" ==> x in NonEmpty(deps);
      }
    }
  }

  lemma ReindexRenames(steps: seq<Step>, option: string)
    requires DistinctIds(steps)
    ensures Renames(Names(steps, option), steps, Reindexed(steps, option))
  {
    var names := Names(steps, option);
    forall d ensures d in names <==> d in ById(steps) {
      NamesKnown(steps, option, d);
    }
    ReindexedDistinct(steps, option);
    forall i | 0 <= i < |steps| ensures Reindexed(steps, option)[i].id == names[steps[i].id] {
      NamesAt(steps, option, i);
    }
  }

  lemma ReindexDeps(steps: seq<Step>, option: string, lower: Fold, i: nat)
    requires DistinctIds(steps) && NoCapture(steps, option) && i < |steps|
    ensures DepsFor(Reindexed(steps, option), lower, i) == RenAll(Names(steps, option), DepsFor(steps, lower, i))
  {
    var names, b := Names(steps, option), Reindexed(steps, option);
    ReindexRenames(steps, option);
    assert steps[i].id in ById(steps);
    NamesAt(steps, option, i);
    forall d | d in steps[i].dependsOn ensures !Stray(steps, option, i, d) {
    }
    RenKeep(names, steps, b, steps[i].dependsOn, steps[i].id);
    RenGuess(names, steps, b, lower, i);
  }

  lemma ReindexIso(steps: seq<Step>, option: string, lower: Fold)
    requires DistinctIds(steps) && NoCapture(steps, option)
    ensures Iso(Names(steps, option), NodesOf(Inferred(steps, lower)),
                NodesOf(Inferred(Reindexed(steps, option), lower)))
  {
    var names, b := Names(steps, option), Reindexed(steps, option);
    var p, q := Inferred(steps, lower), Inferred(b, lower);
    ReindexRenames(steps, option);
    DistinctOrders(p);
    DistinctOrders(q);
    assert Ids(q) == RenAll(names, Ids(p)) by {
      assert forall i :: 0 <= i < |steps| ==> steps[i].id in ById(steps);
    }
    forall x ensures x in names <==> x in ById(p) {
      SameLookup(steps, p, x);
    }
    forall x, y | x in names && y in names && names[x] == names[y] ensures x == y {
      RenInjective(names, steps, b, x, y);
    }
    forall x | x in ById(p) ensures SameNode(names, ById(p), ById(q), x) {
      ReindexNode(steps, option, lower, LastIndex(p, x));
    }
  }

  lemma ReindexNode(steps: seq<Step>, option: string, lower: Fold, i: nat)
    requires DistinctIds(steps) && NoCapture(steps, option) && i < |steps|
    ensures SameNode(Names(steps, option), ById(Inferred(steps, lower)),
                     ById(Inferred(Reindexed(steps, option), lower)), Inferred(steps, lower)[i].id)
  {
    var names, b := Names(steps, option), Reindexed(steps, option);
    var p, q := Inferred(steps, lower), Inferred(b, lower);
    ReindexRenames(steps, option);
    DistinctLookup(p, i);
    DistinctLookup(q, i);
    ReindexDeps(steps, option, lower, i);
    forall d | d in p[i].dependsOn ensures d in names {
      DepsAreKnown(steps, lower, i, d);
    }
    assert steps[i].id in names && names[steps[i].id] == q[i].id;
  }

  /**
   * Scheduling commutes with renaming: inferring and layering a reindexed plan gives
   * exactly the renamed waves of the original plan.
   */
  lemma SchedulingCommutesWithRenaming(steps: seq<Step>, option: string, lower: Fold, parallel: bool)
    requires DistinctIds(steps) && NoCapture(steps, option)
    ensures WavesOf(NodesOf(Inferred(Reindexed(steps, option), lower)), parallel)
         == RenWaves(Names(steps, option), WavesOf(NodesOf(Inferred(steps, lower)), parallel))
  {
    ReindexIso(steps, option, lower);
    IsoWaves(Names(steps, option), NodesOf(Inferred(steps, lower)),
             NodesOf(Inferred(Reindexed(steps, option), lower)), parallel);
  }
}
