/** The plan of a multi-step turn: typed steps with ids and dependencies. */
module Plan {
  import opened Seqs

  type Id = string

  datatype Kind = Retrieve | Skill | Answer | Tool | Verify

  datatype Status = Pending | Running | Success | Skipped | Error {
    predicate Terminal() {
      this == Success || this == Skipped || this == Error
    }
  }

  datatype Step = Step(
    id: Id,
    title: string,
    kind: Kind,
    query: Option<string>,
    skillHint: Option<string>,
    toolHints: seq<string>,
    dependsOn: seq<Id>,
    status: Status)

  /** Kinds that may share a parallel wave; the other kinds always run alone. */
  predicate Parallelizable(kind: Kind) {
    kind == Retrieve || kind == Skill
  }

  function Ids(steps: seq<Step>): (r: seq<Id>)
    ensures |r| == |steps|
    ensures forall i :: 0 <= i < |steps| ==> r[i] == steps[i].id
  {
    seq(|steps|, i requires 0 <= i < |steps| => steps[i].id)
  }

  ghost predicate DistinctIds(steps: seq<Step>) {
    forall i, j :: 0 <= i < j < |steps| ==> steps[i].id != steps[j].id
  }

  /** A dictionary from id to step: a later step with the same id replaces an earlier one. */
  function ById(steps: seq<Step>): (m: map<Id, Step>)
    ensures forall i :: 0 <= i < |steps| ==> steps[i].id in m
  {
    if steps == [] then map[]
    else ById(steps[..|steps| - 1])[steps[|steps| - 1].id := steps[|steps| - 1]]
  }

  /** The key order of that dictionary: ids by first occurrence. */
  function KeyOrder(steps: seq<Step>): (r: seq<Id>)
    ensures NoDup(r)
    ensures forall id :: id in r <==> id in ById(steps)
    ensures |r| <= |steps|
  {
    if steps == [] then []
    else
      var n := |steps| - 1;
      var r := KeyOrder(steps[..n]);
      if steps[n].id in r then r else r + [steps[n].id]
  }

  /** Ids by last occurrence: ascending order of the dictionary id -> index. */
  function LastOrder(steps: seq<Step>): (r: seq<Id>)
    ensures NoDup(r)
    ensures forall id :: id in r <==> id in ById(steps)
  {
    if steps == [] then []
    else
      var n := |steps| - 1;
      WithoutNoDup(LastOrder(steps[..n]), {steps[n].id});
      Without(LastOrder(steps[..n]), {steps[n].id}) + [steps[n].id]
  }

  /** The position the index dictionary holds for an id: that of its last step. */
  function LastIndex(steps: seq<Step>, id: Id): (i: nat)
    requires id in ById(steps)
    ensures i < |steps| && steps[i].id == id && ById(steps)[id] == steps[i]
  {
    var n := |steps| - 1;
    if steps[n].id == id then n else LastIndex(steps[..n], id)
  }

  /** `LastOrder` is the ascending order of that dictionary. */
  lemma {:induction false} LastOrderAscends(steps: seq<Step>, i: nat, j: nat)
    requires i < j < |LastOrder(steps)|
    ensures LastIndex(steps, LastOrder(steps)[i]) < LastIndex(steps, LastOrder(steps)[j])
  {
    var n := |steps| - 1;
    var front := LastOrder(steps[..n]);
    var kept := Without(front, {steps[n].id});
    assert LastOrder(steps)[i] == kept[i] != steps[n].id;
    if j < |kept| {
      assert kept[j] != steps[n].id;
      var p, q := WithoutKeepsOrder(front, {steps[n].id}, i, j);
      LastOrderAscends(steps[..n], p, q);
    }
  }

  lemma {:induction false} WithoutKeepsOrder(s: seq<Id>, gone: set<Id>, i: nat, j: nat) returns (p: nat, q: nat)
    requires i < j < |Without(s, gone)|
    ensures p < q < |s| && s[p] == Without(s, gone)[i] && s[q] == Without(s, gone)[j]
  {
    var n := |s| - 1;
    var kept := Without(s[..n], gone);
    if j < |kept| {
      p, q := WithoutKeepsOrder(s[..n], gone, i, j);
    } else {
      assert kept[i] in kept;
      p :| 0 <= p < n && s[..n][p] == kept[i];
      q := n;
    }
  }

  function Without(s: seq<Id>, gone: set<Id>): (r: seq<Id>)
    ensures forall x :: x in r <==> x in s && x !in gone
  {
    if s == [] then []
    else
      var n := |s| - 1;
      if s[n] in gone then Without(s[..n], gone) else Without(s[..n], gone) + [s[n]]
  }

  /** With distinct ids every dictionary order is the plan order. */
  lemma {:induction false} DistinctOrders(steps: seq<Step>)
    requires DistinctIds(steps)
    ensures KeyOrder(steps) == LastOrder(steps) == Ids(steps)
  {
    if steps == [] {
    } else {
      var n := |steps| - 1;
      var front, last := steps[..n], steps[n].id;
      DistinctOrders(front);
      assert Ids(steps) == Ids(front) + [last];
      assert last !in Ids(front) by {
        forall i | 0 <= i < n ensures Ids(front)[i] != last {
          assert steps[i].id != steps[n].id;
        }
      }
      WithoutNone(Ids(front), {last});
    }
  }

  lemma {:induction false} DistinctLookup(steps: seq<Step>, i: nat)
    requires DistinctIds(steps) && i < |steps|
    ensures ById(steps)[steps[i].id] == steps[i]
  {
    var n := |steps| - 1;
    if i < n {
      DistinctLookup(steps[..n], i);
      assert steps[i].id != steps[n].id;
    }
  }

  lemma {:induction false} WithoutNoDup(s: seq<Id>, gone: set<Id>)
    requires NoDup(s)
    ensures NoDup(Without(s, gone))
  {
    if s != [] {
      WithoutNoDup(s[..|s| - 1], gone);
    }
  }

  lemma {:induction false} WithoutTwice(s: seq<Id>, a: set<Id>, b: set<Id>)
    ensures Without(Without(s, a), b) == Without(s, a + b)
  {
    if s != [] {
      var n := |s| - 1;
      WithoutTwice(s[..n], a, b);
      assert (Without(s[..n], a) + [s[n]])[..|Without(s[..n], a)|] == Without(s[..n], a);
    }
  }

  /** Removing something that is there leaves a shorter sequence. */
  lemma WithoutShorter(s: seq<Id>, gone: set<Id>, x: Id)
    requires NoDup(s) && x in s && x in gone
    ensures |Without(s, gone)| < |s|
  {
    NoDupCard(s);
    WithoutNoDup(s, gone);
    NoDupCard(Without(s, gone));
    SubsetCard(ToSet(Without(s, gone)), ToSet(s) - {x});
  }

  lemma {:induction false} WithoutNone(s: seq<Id>, gone: set<Id>)
    requires forall x :: x in s ==> x !in gone
    ensures Without(s, gone) == s
  {
    if s != [] {
      WithoutNone(s[..|s| - 1], gone);
      assert s == s[..|s| - 1] + [s[|s| - 1]];
    }
  }

  // ---- Statuses over time ----

  /** No change is a change back: a step moves to a new status, never out of a final one. */
  ghost predicate Moves(p: seq<Step>, q: seq<Step>) {
    && |p| == |q|
    && forall i :: 0 <= i < |p| ==>
         q[i] == p[i].(status := q[i].status) && (p[i].status.Terminal() ==> q[i] == p[i])
  }

  ghost predicate Monotone(trail: seq<seq<Step>>) {
    forall k :: 0 < k < |trail| ==> Moves(trail[k - 1], trail[k])
  }

  lemma {:induction false} MonotoneOverall(trail: seq<seq<Step>>, a: nat, b: nat)
    requires Monotone(trail) && a <= b < |trail|
    ensures Moves(trail[a], trail[b])
    decreases b
  {
    if a < b {
      MonotoneOverall(trail, a, b - 1);
      assert Moves(trail[b - 1], trail[b]);
    }
  }

  // ---- What the dictionaries hold ----

  /** Step l is the last one that carries the id. */
  ghost predicate LastWith(steps: seq<Step>, id: Id, l: nat) {
    l < |steps| && steps[l].id == id && forall m :: l < m < |steps| ==> steps[m].id != id
  }

  /** The dictionary from id to step holds the last step with each id. */
  lemma {:induction false} LastWins(steps: seq<Step>, id: Id, l: nat)
    ensures LastWith(steps, id, l) ==> id in ById(steps) && ById(steps)[id] == steps[l] && LastIndex(steps, id) == l
    ensures id in ById(steps) ==> LastWith(steps, id, LastIndex(steps, id))
  {
    if steps != [] {
      var n := |steps| - 1;
      LastWins(steps[..n], id, l);
      if steps[n].id != id && id in ById(steps) {
        var k := LastIndex(steps[..n], id);
        forall m | k < m < |steps| ensures steps[m].id != id {
          assert m < n ==> steps[m] == steps[..n][m];
        }
      }
      if LastWith(steps, id, l) && l < n {
        assert steps[n].id != id && forall m :: l < m < n ==> steps[m].id != id;
        assert LastWith(steps[..n], id, l);
      }
    }
  }

  /** Step k is the first one that carries its id. */
  ghost predicate Introduces(steps: seq<Step>, k: nat) {
    k < |steps| && forall m :: 0 <= m < k ==> steps[m].id != steps[k].id
  }

  /** The keys are the ids at these positions, and every id is introduced at one of them. */
  ghost predicate KeysAt(steps: seq<Step>, keys: seq<Id>, at: seq<nat>) {
    && |at| == |keys| && Rising(at)
    && (forall i :: 0 <= i < |at| ==> Introduces(steps, at[i]) && keys[i] == steps[at[i]].id)
    && (forall k: nat :: Introduces(steps, k) ==> k in at)
  }

  lemma IntroducesFront(steps: seq<Step>, k: nat)
    requires steps != [] && k < |steps| - 1
    ensures Introduces(steps, k) <==> Introduces(steps[..|steps| - 1], k)
  {
    var front := steps[..|steps| - 1];
    assert front[k] == steps[k] && forall m :: 0 <= m < k ==> front[m] == steps[m];
  }

  lemma IntroducesLast(steps: seq<Step>)
    requires steps != []
    ensures Introduces(steps, |steps| - 1) <==> steps[|steps| - 1].id !in KeyOrder(steps[..|steps| - 1])
  {
    var n := |steps| - 1;
    var front := steps[..n];
    assert forall m :: 0 <= m < n ==> front[m].id == steps[m].id && front[m].id in ById(front);
    if steps[n].id in KeyOrder(front) {
      assert steps[LastIndex(front, steps[n].id)].id == steps[n].id;
    }
  }

  lemma KeysAtNext(steps: seq<Step>, keys: seq<Id>, at: seq<nat>)
    requires steps != [] && KeysAt(steps[..|steps| - 1], keys, at)
    ensures var n := |steps| - 1;
            if Introduces(steps, n) then KeysAt(steps, keys + [steps[n].id], at + [n]) else KeysAt(steps, keys, at)
  {
    var n := |steps| - 1;
    forall i | 0 <= i < |at| ensures Introduces(steps, at[i]) && keys[i] == steps[at[i]].id {
      assert Introduces(steps[..n], at[i]);
      IntroducesFront(steps, at[i]);
    }
    forall k: nat | Introduces(steps, k) ensures k in at || k == n {
      if k < n {
        IntroducesFront(steps, k);
      }
    }
    assert forall k :: k in at ==> k < n;
    RisingSnoc(at, n);
  }

  /** Its keys stand in the order in which the ids first occur. */
  lemma {:induction false} KeysByFirst(steps: seq<Step>) returns (at: seq<nat>)
    ensures KeysAt(steps, KeyOrder(steps), at)
  {
    at := [];
    if steps != [] {
      var n := |steps| - 1;
      at := KeysByFirst(steps[..n]);
      KeysAtNext(steps, KeyOrder(steps[..n]), at);
      IntroducesLast(steps);
      if Introduces(steps, n) {
        at := at + [n];
      }
    }
  }
}
