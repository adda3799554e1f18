/**
 * How deep the schedule is: the round of a step is the length of its longest dependency
 * chain, the flush fires exactly on cyclic or dangling dependencies, and no schedule that
 * respects the dependencies has fewer waves.
 */
module Depth {
  import opened Seqs
  import opened Plan
  import opened Waves

  /** Each element depends on the one before it. */
  ghost predicate Chain(byId: map<Id, Step>, c: seq<Id>) {
    && |c| > 0
    && (forall k :: 0 <= k < |c| ==> c[k] in byId)
    && (forall k :: 0 < k < |c| ==> c[k - 1] in byId[c[k]].dependsOn)
  }

  ghost predicate ChainTo(byId: map<Id, Step>, c: seq<Id>, id: Id) {
    Chain(byId, c) && c[|c| - 1] == id
  }

  ghost predicate LongestChainIs(byId: map<Id, Step>, id: Id, len: nat) {
    && (exists c :: ChainTo(byId, c, id) && |c| == len)
    && (forall c :: ChainTo(byId, c, id) ==> |c| <= len)
  }

  ghost predicate HasCycle(byId: map<Id, Step>) {
    exists c :: Chain(byId, c) && |c| > 1 && c[0] == c[|c| - 1]
  }

  ghost predicate HasDangling(byId: map<Id, Step>) {
    exists id, d :: id in byId && d in byId[id].dependsOn && d !in byId
  }

  ghost predicate InRound(n: Nodes, r: nat, id: Id) {
    r < |Rounds(n, {})| && id in Rounds(n, {})[r]
  }

  // ---- Dependencies and rounds ----

  /** A dependency finished before the rounds began or lies in an earlier round. */
  lemma {:induction false} DepsEarlier(n: Nodes, done: set<Id>, r: nat, id: Id, d: Id)
    requires r < |Rounds(n, done)| && id in Rounds(n, done)[r]
    requires id in n.byId && d in n.byId[id].dependsOn
    ensures d in done || exists q: nat :: q < r && d in Rounds(n, done)[q]
    decreases r
  {
    var ready := Ready(n, done);
    RoundsUnfold(n, done);
    if r > 0 {
      DepsEarlier(n, done + ToSet(ready), r - 1, id, d);
      if d in ready {
        assert d in Rounds(n, done)[0];
      } else if d !in done {
        var q: nat :| q < r - 1 && d in Rounds(n, done + ToSet(ready))[q];
        assert d in Rounds(n, done)[q + 1];
      }
    }
  }

  /** What delayed a step to round r > 0 is a dependency in the round just before. */
  lemma {:induction false} DelayedBy(n: Nodes, done: set<Id>, r: nat, id: Id) returns (d: Id)
    requires 0 < r < |Rounds(n, done)| && id in Rounds(n, done)[r]
    ensures id in n.byId && d in n.byId[id].dependsOn && d in Rounds(n, done)[r - 1]
    decreases r
  {
    var ready := Ready(n, done);
    RoundsUnfold(n, done);
    if r > 1 {
      d := DelayedBy(n, done + ToSet(ready), r - 1, id);
    } else {
      RoundsUnfold(n, done + ToSet(ready));
      d := ReadyLater(n, done, id);
    }
  }

  /** What becomes ready in the next round waited for something in this one. */
  lemma ReadyLater(n: Nodes, done: set<Id>, id: Id) returns (d: Id)
    requires id in Ready(n, done + ToSet(Ready(n, done)))
    ensures id in n.byId && d in n.byId[id].dependsOn && d in Ready(n, done)
  {
    var ready := Ready(n, done);
    assert id !in ready && id !in done && DepsDone(n.byId, id, done + ToSet(ready));
    d :| d in n.byId[id].dependsOn && d !in done;
  }

  lemma {:induction false} SettledRound(n: Nodes, id: Id)
    requires id in Settled(n, {})
    ensures exists r: nat :: InRound(n, r, id)
  {
    FlattenMember(Rounds(n, {}), id);
    var r :| 0 <= r < |Rounds(n, {})| && id in Rounds(n, {})[r];
    assert InRound(n, r, id);
  }

  lemma {:induction false} RoundUnique(n: Nodes, done: set<Id>, q: nat, r: nat, id: Id)
    requires q < |Rounds(n, done)| && r < |Rounds(n, done)|
    requires id in Rounds(n, done)[q] && id in Rounds(n, done)[r]
    ensures q == r
    decreases q
  {
    var ready := Ready(n, done);
    RoundsUnfold(n, done);
    if q > 0 && r > 0 {
      RoundUnique(n, done + ToSet(ready), q - 1, r - 1, id);
    } else if q != r {
      RoundFresh(n, done + ToSet(ready), if q == 0 then r - 1 else q - 1, id);
    }
  }

  lemma RoundFresh(n: Nodes, done: set<Id>, r: nat, id: Id)
    requires r < |Rounds(n, done)| && id in Rounds(n, done)[r]
    ensures id in n.byId && id !in done
  {
    RoundsKnown(n, done);
    assert Rounds(n, done)[r] in Rounds(n, done);
  }

  // ---- Longest chains ----

  lemma {:induction false} ChainOfRound(n: Nodes, r: nat, id: Id) returns (c: seq<Id>)
    requires InRound(n, r, id)
    ensures ChainTo(n.byId, c, id) && |c| == r + 1
    decreases r
  {
    RoundsKnown(n, {});
    assert Rounds(n, {})[r] in Rounds(n, {});
    if r == 0 {
      c := [id];
    } else {
      var d := DelayedBy(n, {}, r, id);
      var front := ChainOfRound(n, r - 1, d);
      c := front + [id];
      ChainSnoc(n.byId, front, d, id);
    }
  }

  lemma ChainSnoc(byId: map<Id, Step>, c: seq<Id>, d: Id, id: Id)
    requires ChainTo(byId, c, d) && id in byId && d in byId[id].dependsOn
    ensures ChainTo(byId, c + [id], id)
  {
    var s := c + [id];
    forall k | 0 <= k < |s| ensures s[k] in byId {
      assert k < |c| ==> s[k] == c[k];
    }
    forall k | 0 < k < |s| ensures s[k - 1] in byId[s[k]].dependsOn {
      assert k < |c| ==> s[k] == c[k];
      assert s[k - 1] == c[k - 1];
    }
  }

  lemma {:induction false} ChainBound(n: Nodes, r: nat, id: Id, c: seq<Id>)
    requires InRound(n, r, id) && ChainTo(n.byId, c, id)
    ensures |c| <= r + 1
    decreases |c|
  {
    if |c| > 1 {
      var q := RoundBefore(n, r, id, c[|c| - 2]);
      ChainFront(n.byId, c);
      ChainBound(n, q, c[|c| - 2], c[..|c| - 1]);
    }
  }

  /** A dependency of a step of a round is in an earlier round. */
  lemma RoundBefore(n: Nodes, r: nat, id: Id, d: Id) returns (q: nat)
    requires InRound(n, r, id) && id in n.byId && d in n.byId[id].dependsOn
    ensures q < r && InRound(n, q, d)
  {
    DepsEarlier(n, {}, r, id, d);
    q :| q < r && d in Rounds(n, {})[q];
  }

  lemma ChainFront(byId: map<Id, Step>, c: seq<Id>)
    requires Chain(byId, c) && |c| > 1
    ensures Chain(byId, c[..|c| - 1]) && c[|c| - 2] in byId[c[|c| - 1]].dependsOn
  {
  }

  /** The round of a step (counted from 1) is the length of its longest dependency chain. */
  lemma RoundIsLongestChain(n: Nodes, r: nat, id: Id)
    requires InRound(n, r, id)
    ensures LongestChainIs(n.byId, id, r + 1)
  {
    var c := ChainOfRound(n, r, id);
    forall c' | ChainTo(n.byId, c', id) ensures |c'| <= r + 1 {
      ChainBound(n, r, id, c');
    }
  }

  // ---- When the flush fires ----

  /** Along a chain that ends in a round, the rounds strictly increase. */
  lemma {:induction false} ChainStart(n: Nodes, r: nat, c: seq<Id>) returns (q: nat)
    requires Chain(n.byId, c) && InRound(n, r, c[|c| - 1])
    ensures InRound(n, q, c[0]) && q + |c| - 1 <= r
    decreases |c|
  {
    q := r;
    if |c| > 1 {
      var p := RoundBefore(n, r, c[|c| - 1], c[|c| - 2]);
      ChainFront(n.byId, c);
      q := ChainStart(n, p, c[..|c| - 1]);
    }
  }

  /** A step that never becomes ready has a dependency that never finishes. */
  lemma LeftoverBlocked(n: Nodes, id: Id) returns (d: Id)
    requires id in Leftover(n) && !HasDangling(n.byId)
    ensures d in n.byId[id].dependsOn && d in Leftover(n)
  {
    SettledIsFinal(n, {});
    assert id in n.order && id !in Ready(n, Settled(n, {}));
    d :| d in n.byId[id].dependsOn && d !in Settled(n, {});
    assert id in n.byId && d in n.byId;
  }

  lemma LeftoverKnown(n: Nodes, id: Id)
    requires id in Leftover(n)
    ensures id in n.byId
  {
  }

  /** Blocked steps lead back through blocked steps for as long as one likes. */
  lemma {:induction false} WalkBack(n: Nodes, id: Id, len: nat) returns (c: seq<Id>)
    requires id in Leftover(n) && !HasDangling(n.byId) && len > 0
    ensures ChainTo(n.byId, c, id) && |c| == len
    decreases len
  {
    if len == 1 {
      c := [id];
      LeftoverKnown(n, id);
    } else {
      var d := LeftoverBlocked(n, id);
      var front := WalkBack(n, d, len - 1);
      c := front + [id];
      LeftoverKnown(n, id);
      ChainSnoc(n.byId, front, d, id);
    }
  }

  lemma StuckHasCycle(n: Nodes)
    requires Leftover(n) != [] && !HasDangling(n.byId)
    ensures HasCycle(n.byId)
  {
    var c := WalkBack(n, Leftover(n)[0], |n.byId.Keys| + 1);
    LongChainRepeats(n.byId, c);
  }

  lemma LongChainRepeats(byId: map<Id, Step>, c: seq<Id>)
    requires Chain(byId, c) && |c| > |byId.Keys|
    ensures HasCycle(byId)
  {
    ChainKnown(byId, c);
    var i, j := Pigeonhole(c, byId.Keys);
    SubChain(byId, c, i, j);
    Closes(byId, c[i..j + 1]);
  }

  lemma Closes(byId: map<Id, Step>, c: seq<Id>)
    requires Chain(byId, c) && |c| > 1 && c[0] == c[|c| - 1]
    ensures HasCycle(byId)
  {
  }

  lemma ChainKnown(byId: map<Id, Step>, c: seq<Id>)
    requires Chain(byId, c)
    ensures ToSet(c) <= byId.Keys
  {
  }

  lemma SubChain(byId: map<Id, Step>, c: seq<Id>, i: nat, j: nat)
    requires Chain(byId, c) && i <= j < |c|
    ensures Chain(byId, c[i..j + 1])
  {
    var s := c[i..j + 1];
    forall k | 0 < k < |s| ensures s[k - 1] in byId[s[k]].dependsOn {
      assert s[k] == c[i + k] && s[k - 1] == c[i + k - 1];
    }
  }

  lemma AllSettled(n: Nodes, id: Id)
    requires Leftover(n) == [] && id in n.byId
    ensures exists r: nat :: InRound(n, r, id)
  {
    assert id in n.keys && id !in Leftover(n);
    SettledRound(n, id);
  }

  lemma CycleIsStuck(n: Nodes, c: seq<Id>)
    requires Chain(n.byId, c) && |c| > 1 && c[0] == c[|c| - 1]
    ensures Leftover(n) != []
  {
    if Leftover(n) == [] {
      AllSettled(n, c[0]);
      var r: nat :| InRound(n, r, c[|c| - 1]);
      var q := ChainStart(n, r, c);
      RoundUnique(n, {}, q, r, c[0]);
    }
  }

  lemma DanglingIsStuck(n: Nodes, id: Id, d: Id)
    requires id in n.byId && d in n.byId[id].dependsOn && d !in n.byId
    ensures Leftover(n) != []
  {
    if Leftover(n) == [] {
      AllSettled(n, id);
      var r: nat :| InRound(n, r, id);
      DepsEarlier(n, {}, r, id, d);
      var q: nat :| q < r && d in Rounds(n, {})[q];
      assert Rounds(n, {})[q] in Rounds(n, {});
      RoundsKnown(n, {});
    }
  }

  /** The flush fires exactly when a dependency is unknown or the dependencies are cyclic. */
  lemma FlushIffCyclicOrDangling(n: Nodes)
    ensures Leftover(n) != [] <==> HasCycle(n.byId) || HasDangling(n.byId)
  {
    if HasCycle(n.byId) {
      var c :| Chain(n.byId, c) && |c| > 1 && c[0] == c[|c| - 1];
      CycleIsStuck(n, c);
    } else if HasDangling(n.byId) {
      var id, d :| id in n.byId && d in n.byId[id].dependsOn && d !in n.byId;
      DanglingIsStuck(n, id, d);
    } else if Leftover(n) != [] {
      StuckHasCycle(n);
    }
  }

  // ---- Optimality ----

  ghost predicate Covered(waves: seq<seq<Id>>, id: Id) {
    exists i: nat :: i < |waves| && id in waves[i]
  }

  ghost predicate Before(waves: seq<seq<Id>>, i: nat, id: Id) {
    exists j: nat :: j < i && j < |waves| && id in waves[j]
  }

  /** A schedule covers every step and takes each dependency in a strictly earlier wave. */
  ghost predicate ValidSchedule(byId: map<Id, Step>, waves: seq<seq<Id>>) {
    && (forall id :: id in byId ==> Covered(waves, id))
    && RespectsAfter(byId, waves, {})
  }

  ghost predicate RespectsAfter(byId: map<Id, Step>, waves: seq<seq<Id>>, done: set<Id>) {
    forall i: nat, id, d :: i < |waves| && id in waves[i] && id in byId && d in byId[id].dependsOn ==>
      d in done || Before(waves, i, d)
  }

  lemma {:induction false} NotBeforeItsRound(n: Nodes, v: seq<seq<Id>>, r: nat, id: Id, i: nat)
    requires RespectsAfter(n.byId, v, {})
    requires InRound(n, r, id) && i < |v| && id in v[i]
    ensures r <= i
    decreases r
  {
    if r > 0 {
      var d := DelayedBy(n, {}, r, id);
      assert Before(v, i, d);
      var j: nat :| j < i && j < |v| && d in v[j];
      NotBeforeItsRound(n, v, r - 1, d, j);
    }
  }

  /** No schedule that respects the dependencies has fewer waves than there are rounds. */
  lemma NoShorterSchedule(n: Nodes, v: seq<seq<Id>>)
    requires ValidSchedule(n.byId, v)
    ensures |Rounds(n, {})| <= |v|
  {
    var rounds := Rounds(n, {});
    if rounds != [] {
      var r := |rounds| - 1;
      RoundNonempty(n, {}, r);
      var id := rounds[r][0];
      RoundFresh(n, {}, r, id);
      assert Covered(v, id);
      var i: nat :| i < |v| && id in v[i];
      NotBeforeItsRound(n, v, r, id, i);
    }
  }

  lemma {:induction false} RoundNonempty(n: Nodes, done: set<Id>, r: nat)
    requires r < |Rounds(n, done)|
    ensures Rounds(n, done)[r] != []
    decreases r
  {
    RoundsUnfold(n, done);
    if r > 0 {
      RoundNonempty(n, done + ToSet(Ready(n, done)), r - 1);
    }
  }

  lemma {:induction false} SplitRespects(n: Nodes, done: set<Id>, parallel: bool)
    requires forall r, id :: r in Rounds(n, done) && id in r ==> id in n.byId
    ensures RespectsAfter(n.byId, SplitRounds(n, Rounds(n, done), parallel), done)
    decreases |n.byId.Keys - done|
  {
    var ready := Ready(n, done);
    if ready != [] {
      Shrinks(n.byId.Keys, done, ToSet(ready), ready[0]);
      RoundsUnfold(n, done);
      var more := done + ToSet(ready);
      var rest := Rounds(n, more);
      assert forall r :: r in rest ==> r in Rounds(n, done);
      SplitRespects(n, more, parallel);
      var a, b := SplitRound(n, ready, parallel), SplitRounds(n, rest, parallel);
      assert SplitRounds(n, Rounds(n, done), parallel) == a + b;
      assert Flatten(a) == ready by {
        FlattenSplit(n.byId, ready, []);
        FlattenSingletons(ready);
      }
      RespectsAppend(n.byId, a, b, done, ready);
    }
  }

  lemma RespectsAppend(byId: map<Id, Step>, a: seq<seq<Id>>, b: seq<seq<Id>>, done: set<Id>, ready: seq<Id>)
    requires Flatten(a) == ready
    requires forall id :: id in ready ==> id in byId && DepsDone(byId, id, done)
    requires RespectsAfter(byId, b, done + ToSet(ready))
    ensures RespectsAfter(byId, a + b, done)
  {
    forall i: nat, id, d | i < |a + b| && id in (a + b)[i] && id in byId && d in byId[id].dependsOn
      ensures d in done || Before(a + b, i, d)
    {
      if i < |a| {
        FlattenMember(a, id);
        assert id in ready;
      } else if d !in done {
        assert id in b[i - |a|];
        if d in ready {
          FlattenMember(a, d);
          var j :| 0 <= j < |a| && d in a[j];
          assert d in (a + b)[j];
        } else {
          assert Before(b, i - |a|, d);
          var j: nat :| j < i - |a| && j < |b| && d in b[j];
          assert d in (a + b)[j + |a|];
        }
      }
    }
  }

  /** Without a flush every dependency lies in a strictly earlier wave. */
  lemma WavesAreValid(n: Nodes, parallel: bool)
    requires Leftover(n) == []
    ensures ValidSchedule(n.byId, WavesOf(n, parallel))
  {
    var waves := WavesOf(n, parallel);
    RoundsKnown(n, {});
    SplitRespects(n, {}, parallel);
    assert waves == SplitRounds(n, Rounds(n, {}), parallel);
    forall id | id in n.byId ensures Covered(waves, id) {
      WavesCoverOnce(n, parallel);
      FlattenMember(waves, id);
    }
  }

  lemma {:induction false} SplitAllParallel(byId: map<Id, Step>, ready: seq<Id>, batch: seq<Id>)
    requires forall id :: id in ready ==> id in byId && Parallelizable(byId[id].kind)
    ensures Split(byId, ready, batch) == Close(batch + ready)
    decreases |ready|
  {
    if ready == [] {
      assert batch + ready == batch;
    } else {
      SplitAllParallel(byId, ready[1..], batch + [ready[0]]);
      assert batch + [ready[0]] + ready[1..] == batch + ready;
    }
  }

  lemma {:induction false} OneWavePerRound(n: Nodes, rounds: seq<seq<Id>>)
    requires forall r, id :: r in rounds && id in r ==> id in n.byId
    requires forall r :: r in rounds ==> r != []
    requires forall id :: id in n.byId ==> Parallelizable(n.byId[id].kind)
    ensures SplitRounds(n, rounds, true) == rounds
  {
    if rounds != [] {
      assert rounds[0] in rounds;
      SplitAllParallel(n.byId, rounds[0], []);
      assert [] + rounds[0] == rounds[0];
      assert forall r :: r in rounds[1..] ==> r in rounds;
      OneWavePerRound(n, rounds[1..]);
    }
  }

  /**
   * Depth optimality: with parallelism on, only retrieve/skill steps and no cycle, the
   * waves are the rounds, their number is the longest dependency chain of the plan, and
   * no valid schedule has fewer.
   */
  lemma WavesAreDepthOptimal(n: Nodes)
    requires forall id :: id in n.byId ==> n.byId[id].kind == Retrieve || n.byId[id].kind == Skill
    requires !HasCycle(n.byId) && !HasDangling(n.byId)
    ensures var waves := WavesOf(n, true);
            && ValidSchedule(n.byId, waves)
            && (forall v :: ValidSchedule(n.byId, v) ==> |waves| <= |v|)
            && (forall c :: Chain(n.byId, c) ==> |c| <= |waves|)
            && (|n.byId| > 0 ==> exists c :: Chain(n.byId, c) && |c| == |waves|)
  {
    var rounds, waves := Rounds(n, {}), WavesOf(n, true);
    FlushIffCyclicOrDangling(n);
    WavesAreValid(n, true);
    RoundsKnown(n, {});
    forall r | r in rounds ensures r != [] {
      var k: nat :| k < |rounds| && rounds[k] == r;
      RoundNonempty(n, {}, k);
    }
    OneWavePerRound(n, rounds);
    assert waves == rounds;
    forall v | ValidSchedule(n.byId, v) ensures |waves| <= |v| {
      NoShorterSchedule(n, v);
    }
    forall c | Chain(n.byId, c) ensures |c| <= |waves| {
      AllSettled(n, c[|c| - 1]);
      var r: nat :| InRound(n, r, c[|c| - 1]);
      ChainBound(n, r, c[|c| - 1], c);
    }
    if |n.byId| > 0 {
      LastRoundChain(n);
    }
  }

  lemma LastRoundChain(n: Nodes)
    requires Leftover(n) == [] && |n.byId| > 0
    ensures exists c :: Chain(n.byId, c) && |c| == |Rounds(n, {})|
  {
    var id :| id in n.byId;
    AllSettled(n, id);
    var r := |Rounds(n, {})| - 1;
    RoundNonempty(n, {}, r);
    var c := ChainOfRound(n, r, Rounds(n, {})[r][0]);
  }
}
