/**
 * Layering a plan into execution waves (Kahn's algorithm by rounds).
 *
 * A round holds every unfinished step whose dependencies all finished in earlier
 * rounds. With parallelism off a round becomes singleton waves; with it on, runs of
 * retrieve/skill steps share a wave and every other step stands alone. When no step is
 * ready although some remain, the rest is flushed as singletons.
 */
module Waves {
  import opened Seqs
  import opened Plan

  /** The two dictionaries the scheduler builds: id -> step (key order, values) and id -> index. */
  datatype NodeTable = NodeTable(keys: seq<Id>, order: seq<Id>, byId: map<Id, Step>) {
    ghost predicate Valid() {
      && NoDup(keys) && NoDup(order)
      && (forall id :: id in keys <==> id in byId)
      && (forall id :: id in order <==> id in byId)
    }
  }

  type Nodes = n: NodeTable | n.Valid() witness NodeTable([], [], map[])

  function NodesOf(steps: seq<Step>): Nodes {
    NodeTable(KeyOrder(steps), LastOrder(steps), ById(steps))
  }

  predicate DepsDone(byId: map<Id, Step>, id: Id, done: set<Id>)
    requires id in byId
  {
    forall d :: d in byId[id].dependsOn ==> d in done
  }

  /** The ready steps, arranged by position in `order`. */
  function ReadyIn(order: seq<Id>, byId: map<Id, Step>, done: set<Id>): (r: seq<Id>)
    requires forall id :: id in order ==> id in byId
    ensures forall id :: id in r <==> id in order && id !in done && DepsDone(byId, id, done)
  {
    if order == [] then []
    else
      var n := |order| - 1;
      var r := ReadyIn(order[..n], byId, done);
      if order[n] !in done && DepsDone(byId, order[n], done) then r + [order[n]] else r
  }

  lemma {:induction false} ReadyNoDup(order: seq<Id>, byId: map<Id, Step>, done: set<Id>)
    requires forall id :: id in order ==> id in byId
    requires NoDup(order)
    ensures NoDup(ReadyIn(order, byId, done))
  {
    if order != [] {
      ReadyNoDup(order[..|order| - 1], byId, done);
    }
  }

  function Ready(n: Nodes, done: set<Id>): seq<Id>
  {
    ReadyIn(n.order, n.byId, done)
  }

  /** The proper rounds from the point where `done` has finished. */
  function Rounds(n: Nodes, done: set<Id>): seq<seq<Id>>
    decreases |n.byId.Keys - done|
  {
    var ready := Ready(n, done);
    if ready == [] then []
    else
      assert ready[0] in n.byId.Keys - done;
      Shrinks(n.byId.Keys, done, ToSet(ready), ready[0]);
      [ready] + Rounds(n, done + ToSet(ready))
  }

  lemma Shrinks(all: set<Id>, done: set<Id>, more: set<Id>, x: Id)
    requires x in more && x in all && x !in done
    ensures |all - (done + more)| < |all - done|
  {
    assert x !in all - (done + more);
    SubsetCard(all - (done + more), all - done - {x});
  }

  /** What has finished once no further step becomes ready. */
  function Settled(n: Nodes, done: set<Id>): set<Id>
  {
    done + ToSet(Flatten(Rounds(n, done)))
  }

  /** The steps that never become ready, in key order: those the flush emits. */
  function Leftover(n: Nodes): seq<Id>
  {
    Without(n.keys, Settled(n, {}))
  }

  /** One round cut into waves, `batch` being the wave under construction. */
  function Split(byId: map<Id, Step>, ready: seq<Id>, batch: seq<Id>): seq<seq<Id>>
    requires forall id :: id in ready ==> id in byId
  {
    if ready == [] then Close(batch)
    else if Parallelizable(byId[ready[0]].kind) then Split(byId, ready[1..], batch + [ready[0]])
    else Close(batch) + [[ready[0]]] + Split(byId, ready[1..], [])
  }

  function Close(batch: seq<Id>): seq<seq<Id>> {
    if batch == [] then [] else [batch]
  }

  function SplitRound(n: Nodes, ready: seq<Id>, parallel: bool): seq<seq<Id>>
    requires forall id :: id in ready ==> id in n.byId
  {
    if parallel then Split(n.byId, ready, []) else Singletons(ready)
  }

  function SplitRounds(n: Nodes, rounds: seq<seq<Id>>, parallel: bool): seq<seq<Id>>
    requires forall r, id :: r in rounds && id in r ==> id in n.byId
  {
    if rounds == [] then []
    else
      assert rounds[0] in rounds;
      SplitRound(n, rounds[0], parallel) + SplitRounds(n, rounds[1..], parallel)
  }

  /** The wave schedule of a plan. */
  function WavesOf(n: Nodes, parallel: bool): seq<seq<Id>>
  {
    RoundsKnown(n, {});
    SplitRounds(n, Rounds(n, {}), parallel) + Singletons(Leftover(n))
  }

  // ---- Rounds ----

  /** Rounds are disjoint, repetition-free and hold only unfinished steps. */
  lemma {:induction false} RoundsKnown(n: Nodes, done: set<Id>)
    ensures forall r, id :: r in Rounds(n, done) && id in r ==> id in n.byId && id !in done
    ensures NoDup(Flatten(Rounds(n, done)))
    ensures forall id :: id in Flatten(Rounds(n, done)) ==> id in n.byId && id !in done
    decreases |n.byId.Keys - done|
  {
    var ready := Ready(n, done);
    if ready != [] {
      Shrinks(n.byId.Keys, done, ToSet(ready), ready[0]);
      var rest := Rounds(n, done + ToSet(ready));
      RoundsKnown(n, done + ToSet(ready));
      assert Rounds(n, done) == [ready] + rest;
      assert Flatten([ready] + rest) == ready + Flatten(rest) by {
        assert ([ready] + rest)[1..] == rest;
      }
      ReadyNoDup(n.order, n.byId, done);
      NoDupAppend(ready, Flatten(rest));
    }
  }

  /** Once the rounds are over nothing more is ready. */
  lemma {:induction false} SettledIsFinal(n: Nodes, done: set<Id>)
    ensures Ready(n, Settled(n, done)) == []
    decreases |n.byId.Keys - done|
  {
    var ready := Ready(n, done);
    if ready == [] {
      NothingSettles(n, done);
    } else {
      ReadyShrinks(n, done);
      SettledStep(n, done);
      SettledIsFinal(n, done + ToSet(ready));
    }
  }

  lemma NothingSettles(n: Nodes, done: set<Id>)
    requires Ready(n, done) == []
    ensures Settled(n, done) == done
  {
    assert Rounds(n, done) == [];
  }

  lemma ReadyShrinks(n: Nodes, done: set<Id>)
    requires Ready(n, done) != []
    ensures |n.byId.Keys - (done + ToSet(Ready(n, done)))| < |n.byId.Keys - done|
  {
    var ready := Ready(n, done);
    assert ready[0] in ready;
    Shrinks(n.byId.Keys, done, ToSet(ready), ready[0]);
  }

  lemma SettledStep(n: Nodes, done: set<Id>)
    requires Ready(n, done) != []
    ensures Settled(n, done) == Settled(n, done + ToSet(Ready(n, done)))
  {
    var ready := Ready(n, done);
    var rest := Rounds(n, done + ToSet(ready));
    assert Rounds(n, done) == [ready] + rest;
    assert ([ready] + rest)[1..] == rest;
    assert Flatten([ready] + rest) == ready + Flatten(rest);
  }

  // ---- Waves ----

  lemma {:induction false} FlattenSplit(byId: map<Id, Step>, ready: seq<Id>, batch: seq<Id>)
    requires forall id :: id in ready ==> id in byId
    ensures Flatten(Split(byId, ready, batch)) == batch + ready
    decreases |ready|
  {
    if ready == [] {
      FlattenClose(batch);
    } else {
      FlattenSplit(byId, ready[1..], if Parallelizable(byId[ready[0]].kind) then batch + [ready[0]] else []);
      if Parallelizable(byId[ready[0]].kind) {
        OneOver(batch, ready);
      } else {
        FlattenAlone(batch, ready, Split(byId, ready[1..], []));
      }
    }
  }

  lemma FlattenAlone(batch: seq<Id>, ready: seq<Id>, rest: seq<seq<Id>>)
    requires ready != [] && Flatten(rest) == [] + ready[1..]
    ensures Flatten(Close(batch) + [[ready[0]]] + rest) == batch + ready
  {
    FlattenClosed(batch, ready[0], rest);
    assert [ready[0]] + Flatten(rest) == ready;
  }

  lemma FlattenClose(batch: seq<Id>)
    ensures Flatten(Close(batch)) == batch
  {
  }

  lemma OneOver(batch: seq<Id>, ready: seq<Id>)
    requires ready != []
    ensures (batch + [ready[0]]) + ready[1..] == batch + ready
  {
  }

  lemma FlattenClosed(batch: seq<Id>, id: Id, rest: seq<seq<Id>>)
    ensures Flatten(Close(batch) + [[id]] + rest) == batch + ([id] + Flatten(rest))
  {
    FlattenClose(batch);
    FlattenAppend(Close(batch) + [[id]], rest);
    FlattenAppend(Close(batch), [[id]]);
    assert Flatten([[id]]) == [id];
  }

  /** Cutting into waves never reorders: the flattened rounds come out whatever the mode. */
  lemma {:induction false} FlattenSplitRounds(n: Nodes, rounds: seq<seq<Id>>, parallel: bool)
    requires forall r, id :: r in rounds && id in r ==> id in n.byId
    ensures Flatten(SplitRounds(n, rounds, parallel)) == Flatten(rounds)
  {
    if rounds != [] {
      assert rounds[0] in rounds;
      FlattenSplitRounds(n, rounds[1..], parallel);
      FlattenAppend(SplitRound(n, rounds[0], parallel), SplitRounds(n, rounds[1..], parallel));
      FlattenSplit(n.byId, rounds[0], []);
      FlattenSingletons(rounds[0]);
    }
  }

  lemma FlattenWaves(n: Nodes, parallel: bool)
    ensures Flatten(WavesOf(n, parallel)) == Flatten(Rounds(n, {})) + Leftover(n)
  {
    RoundsKnown(n, {});
    FlattenSplitRounds(n, Rounds(n, {}), parallel);
    FlattenAppend(SplitRounds(n, Rounds(n, {}), parallel), Singletons(Leftover(n)));
    FlattenSingletons(Leftover(n));
  }

  /** Parallelism changes how steps are grouped, never the order in which they are taken. */
  lemma OrderIndependentOfMode(n: Nodes)
    ensures Flatten(WavesOf(n, true)) == Flatten(WavesOf(n, false))
  {
    FlattenWaves(n, true);
    FlattenWaves(n, false);
  }

  /** Every id is scheduled exactly once, also with cyclic or dangling dependencies. */
  lemma WavesCoverOnce(n: Nodes, parallel: bool)
    ensures NoDup(Flatten(WavesOf(n, parallel)))
    ensures forall id :: id in Flatten(WavesOf(n, parallel)) <==> id in n.byId
  {
    RoundsKnown(n, {});
    FlattenWaves(n, parallel);
    WithoutNoDup(n.keys, Settled(n, {}));
    NoDupAppend(Flatten(Rounds(n, {})), Leftover(n));
  }

  /** A wave is a singleton or holds only retrieve and skill steps. */
  predicate WaveKinds(byId: map<Id, Step>, wave: seq<Id>) {
    || |wave| == 1
    || (|wave| > 1 && forall id :: id in wave ==> id in byId && (byId[id].kind == Retrieve || byId[id].kind == Skill))
  }

  lemma {:induction false} SplitKinds(byId: map<Id, Step>, ready: seq<Id>, batch: seq<Id>)
    requires forall id :: id in ready ==> id in byId
    requires forall id :: id in batch ==> id in byId && Parallelizable(byId[id].kind)
    ensures forall w :: w in Split(byId, ready, batch) ==> WaveKinds(byId, w)
    decreases |ready|
  {
    if ready != [] {
      if Parallelizable(byId[ready[0]].kind) {
        SplitKinds(byId, ready[1..], batch + [ready[0]]);
      } else {
        SplitKinds(byId, ready[1..], []);
      }
    }
  }

  lemma {:induction false} SplitRoundsKinds(n: Nodes, rounds: seq<seq<Id>>, parallel: bool)
    requires forall r, id :: r in rounds && id in r ==> id in n.byId
    ensures forall w :: w in SplitRounds(n, rounds, parallel) ==> WaveKinds(n.byId, w)
  {
    if rounds != [] {
      assert rounds[0] in rounds;
      SplitKinds(n.byId, rounds[0], []);
      SplitRoundsKinds(n, rounds[1..], parallel);
    }
  }

  /** Answer, tool and verify steps never share a wave; without parallelism nothing does. */
  lemma SharedWavesAreParallelizable(n: Nodes, parallel: bool)
    ensures forall w :: w in WavesOf(n, parallel) ==> WaveKinds(n.byId, w)
  {
    RoundsKnown(n, {});
    SplitRoundsKinds(n, Rounds(n, {}), parallel);
  }

  lemma {:induction false} SerialWavesAreSingletons(n: Nodes, rounds: seq<seq<Id>>)
    requires forall r, id :: r in rounds && id in r ==> id in n.byId
    ensures SplitRounds(n, rounds, false) == Singletons(Flatten(rounds))
  {
    if rounds != [] {
      assert rounds[0] in rounds;
      SerialWavesAreSingletons(n, rounds[1..]);
      assert Singletons(rounds[0] + Flatten(rounds[1..]))
          == Singletons(rounds[0]) + Singletons(Flatten(rounds[1..]));
    }
  }

  lemma {:induction false} SplitRoundsAppend(n: Nodes, a: seq<seq<Id>>, b: seq<Id>, parallel: bool)
    requires forall r, id :: r in a && id in r ==> id in n.byId
    requires forall id :: id in b ==> id in n.byId
    ensures forall r, id :: r in a + [b] && id in r ==> id in n.byId
    ensures SplitRounds(n, a + [b], parallel) == SplitRounds(n, a, parallel) + SplitRound(n, b, parallel)
  {
    assert forall r :: r in a + [b] ==> r in a || r == b;
    if a == [] {
      assert a + [b] == [b];
      assert SplitRounds(n, [b][1..], parallel) == [];
    } else {
      assert (a + [b])[1..] == a[1..] + [b];
      assert a[0] in a;
      SplitRoundsAppend(n, a[1..], b, parallel);
    }
  }

  // ---- The scheduler ----

  /** `ready.sort(key=order)`: the keys are distinct, so this is the one sorted arrangement. */
  function SortBy(order: seq<Id>, ready: seq<Id>): (r: seq<Id>)
    ensures forall x :: x in r <==> x in order && x in ready
  {
    if order == [] then []
    else
      var n := |order| - 1;
      if order[n] in ready then SortBy(order[..n], ready) + [order[n]] else SortBy(order[..n], ready)
  }

  lemma {:induction false} SortByIsReadyIn(order: seq<Id>, byId: map<Id, Step>, done: set<Id>, ready: seq<Id>)
    requires forall id :: id in order ==> id in byId
    requires forall id :: id in order ==> (id in ready <==> id !in done && DepsDone(byId, id, done))
    ensures SortBy(order, ready) == ReadyIn(order, byId, done)
  {
    if order != [] {
      SortByIsReadyIn(order[..|order| - 1], byId, done, ready);
    }
  }

  /** The waves of a serial round. */
  method EmitSerial(waves0: seq<seq<Id>>, ready: seq<Id>, completed0: set<Id>, remaining0: seq<Id>)
    returns (waves: seq<seq<Id>>, completed: set<Id>, remaining: seq<Id>)
    ensures waves == waves0 + Singletons(ready)
    ensures completed == completed0 + ToSet(ready)
    ensures remaining == Without(remaining0, ToSet(ready))
  {
    waves, completed, remaining := waves0, completed0, remaining0;
    ghost var gone: set<Id> := {};
    WithoutNone(remaining0, gone);
    for i := 0 to |ready|
      invariant waves == waves0 + Singletons(ready[..i])
      invariant gone == ToSet(ready[..i])
      invariant Retired(remaining0, completed0, gone, completed, remaining)
    {
      waves := waves + [[ready[i]]];
      gone, completed, remaining := Retire(remaining0, completed0, gone, {ready[i]}, completed, remaining);
      assert ready[..i + 1] == ready[..i] + [ready[i]];
      assert Singletons(ready[..i + 1]) == Singletons(ready[..i]) + [[ready[i]]];
    }
    assert ready[..|ready|] == ready;
  }

  /** The waves of a round that may batch: a serial kind closes the batch and stands alone. */
  method EmitBatched(byId: map<Id, Step>, waves0: seq<seq<Id>>, ready: seq<Id>, completed0: set<Id>, remaining0: seq<Id>)
    returns (waves: seq<seq<Id>>, completed: set<Id>, remaining: seq<Id>)
    requires forall id :: id in ready ==> id in byId
    ensures waves == waves0 + Split(byId, ready, [])
    ensures completed == completed0 + ToSet(ready)
    ensures remaining == Without(remaining0, ToSet(ready))
  {
    waves, completed, remaining := waves0, completed0, remaining0;
    var batch: seq<Id> := [];
    ghost var gone: set<Id> := {};
    WithoutNone(remaining0, gone);
    assert ready[0..] == ready;
    for i := 0 to |ready|
      invariant waves + Split(byId, ready[i..], batch) == waves0 + Split(byId, ready, [])
      invariant gone + ToSet(batch) == ToSet(ready[..i])
      invariant Retired(remaining0, completed0, gone, completed, remaining)
    {
      var sid := ready[i];
      SplitNext(byId, waves, ready, batch, i);
      if Parallelizable(byId[sid].kind) {
        batch := batch + [sid];
      } else {
        waves, gone, completed, remaining := CloseBatch(waves, batch, remaining0, completed0, gone, completed, remaining);
        batch := [];
        waves := waves + [[sid]];
        gone, completed, remaining := Retire(remaining0, completed0, gone, {sid}, completed, remaining);
      }
    }
    assert ready[..|ready|] == ready;
    waves, gone, completed, remaining := CloseBatch(waves, batch, remaining0, completed0, gone, completed, remaining);
    assert gone == ToSet(ready);
  }

  lemma SplitNext(byId: map<Id, Step>, waves: seq<seq<Id>>, ready: seq<Id>, batch: seq<Id>, i: nat)
    requires i < |ready| && forall id :: id in ready ==> id in byId
    ensures ToSet(ready[..i + 1]) == ToSet(ready[..i]) + {ready[i]}
    ensures waves + Split(byId, ready[i..], batch)
            == if Parallelizable(byId[ready[i]].kind) then waves + Split(byId, ready[i + 1..], batch + [ready[i]])
               else waves + Close(batch) + [[ready[i]]] + Split(byId, ready[i + 1..], [])
  {
    assert ready[i..][0] == ready[i] && ready[i..][1..] == ready[i + 1..];
    assert ready[..i + 1] == ready[..i] + [ready[i]];
  }

  method CloseBatch(waves: seq<seq<Id>>, batch: seq<Id>, ghost remaining0: seq<Id>, ghost completed0: set<Id>,
                    ghost gone: set<Id>, completed: set<Id>, remaining: seq<Id>)
    returns (waves': seq<seq<Id>>, ghost gone': set<Id>, completed': set<Id>, remaining': seq<Id>)
    requires Retired(remaining0, completed0, gone, completed, remaining)
    ensures waves' == waves + Close(batch) && gone' == gone + ToSet(batch)
    ensures Retired(remaining0, completed0, gone', completed', remaining')
  {
    waves', gone', completed', remaining' := waves, gone, completed, remaining;
    if batch != [] {
      waves' := waves + [batch];
      gone', completed', remaining' := Retire(remaining0, completed0, gone, ToSet(batch), completed, remaining);
    }
  }

  ghost predicate Retired(remaining0: seq<Id>, completed0: set<Id>, gone: set<Id>, completed: set<Id>, remaining: seq<Id>) {
    completed == completed0 + gone && remaining == Without(remaining0, gone)
  }

  /** Mark a wave completed and take it out of the remaining steps. */
  method Retire(ghost remaining0: seq<Id>, ghost completed0: set<Id>, ghost gone0: set<Id>,
                wave: set<Id>, completed: set<Id>, remaining: seq<Id>)
    returns (ghost gone: set<Id>, completed': set<Id>, remaining': seq<Id>)
    requires Retired(remaining0, completed0, gone0, completed, remaining)
    ensures gone == gone0 + wave
    ensures Retired(remaining0, completed0, gone, completed', remaining')
  {
    gone := gone0 + wave;
    completed' := completed + wave;
    remaining' := Without(remaining, wave);
    WithoutTwice(remaining0, gone0, wave);
  }

  /** The flush: everything that remains becomes a wave of its own. */
  method Flush(waves0: seq<seq<Id>>, remaining: seq<Id>) returns (waves: seq<seq<Id>>)
    ensures waves == waves0 + Singletons(remaining)
  {
    waves := waves0;
    for i := 0 to |remaining|
      invariant waves == waves0 + Singletons(remaining[..i])
    {
      waves := waves + [[remaining[i]]];
      assert Singletons(remaining[..i + 1]) == Singletons(remaining[..i]) + [[remaining[i]]];
    }
    assert remaining[..|remaining|] == remaining;
  }

  /** Where the scheduling loop stands after the given rounds. */
  ghost predicate Progress(n: Nodes, rounds: seq<seq<Id>>, completed: set<Id>, remaining: seq<Id>) {
    && rounds + Rounds(n, completed) == Rounds(n, {})
    && completed == ToSet(Flatten(rounds))
    && remaining == Without(n.keys, completed)
  }

  /**
   * `build_execution_waves`. The loop carries the source's safety counter; the proof shows
   * it never ends the loop with steps still remaining.
   */
  method BuildExecutionWaves(steps: seq<Step>, parallel: bool) returns (waves: seq<seq<Id>>)
    ensures waves == WavesOf(NodesOf(steps), parallel)
    ensures NoDup(Flatten(waves))
    ensures forall id :: id in Flatten(waves) <==> id in ById(steps)
    ensures forall w :: w in waves ==> WaveKinds(ById(steps), w)
  {
    var n := NodesOf(steps);
    var remaining := n.keys;
    var completed: set<Id> := {};
    waves := [];
    var safety := 0;
    ghost var rounds: seq<seq<Id>> := [];
    WithoutNone(n.keys, {});
    WavesCoverOnce(n, parallel);
    SharedWavesAreParallelizable(n, parallel);
    while |remaining| > 0 && safety < |steps| + 5
      invariant Progress(n, rounds, completed, remaining)
      invariant forall r, id :: r in rounds && id in r ==> id in n.byId
      invariant waves == SplitRounds(n, rounds, parallel)
      invariant safety + |remaining| <= |steps|
      decreases |remaining|
    {
      safety := safety + 1;
      var found := ReadyIn(remaining, n.byId, completed);
      if found == [] {
        Stuck(n, rounds, completed, remaining);
        waves := Flush(waves, remaining);
        return;
      }
      var ready := SortBy(n.order, found);
      SortByIsReadyIn(n.order, n.byId, completed, found);
      RemainingShrinks(n, completed, remaining);
      RoundStep(n, rounds, completed, remaining, ready);
      SplitRoundsAppend(n, rounds, ready, parallel);
      rounds := rounds + [ready];
      if !parallel {
        waves, completed, remaining := EmitSerial(waves, ready, completed, remaining);
      } else {
        waves, completed, remaining := EmitBatched(n.byId, waves, ready, completed, remaining);
      }
    }
    Stuck(n, rounds, completed, remaining);
  }

  /** One more round, seen from the rounds already emitted. */
  lemma RoundStep(n: Nodes, rounds: seq<seq<Id>>, completed: set<Id>, remaining: seq<Id>, ready: seq<Id>)
    requires Progress(n, rounds, completed, remaining)
    requires ready == Ready(n, completed) && ready != []
    ensures Progress(n, rounds + [ready], completed + ToSet(ready), Without(remaining, ToSet(ready)))
  {
    var rest := Rounds(n, completed + ToSet(ready));
    WithoutTwice(n.keys, completed, ToSet(ready));
    FlattenSnoc(rounds, ready);
    RoundsUnfold(n, completed);
    Reassociate(rounds, ready, rest);
  }

  lemma Reassociate(rounds: seq<seq<Id>>, ready: seq<Id>, rest: seq<seq<Id>>)
    ensures rounds + [ready] + rest == rounds + ([ready] + rest)
  {
  }

  lemma FlattenSnoc(rounds: seq<seq<Id>>, ready: seq<Id>)
    ensures ToSet(Flatten(rounds + [ready])) == ToSet(Flatten(rounds)) + ToSet(ready)
  {
    FlattenAppend(rounds, [ready]);
    assert Flatten([ready]) == ready;
  }

  lemma RemainingShrinks(n: Nodes, completed: set<Id>, remaining: seq<Id>)
    requires remaining == Without(n.keys, completed)
    requires ReadyIn(remaining, n.byId, completed) != []
    ensures Ready(n, completed) != []
    ensures |Without(remaining, ToSet(Ready(n, completed)))| < |remaining|
  {
    var x := ReadyIn(remaining, n.byId, completed)[0];
    assert x in Ready(n, completed);
    WithoutNoDup(n.keys, completed);
    WithoutShorter(remaining, ToSet(Ready(n, completed)), x);
  }

  lemma RoundsUnfold(n: Nodes, done: set<Id>)
    requires Ready(n, done) != []
    ensures Rounds(n, done) == [Ready(n, done)] + Rounds(n, done + ToSet(Ready(n, done)))
  {
  }

  /** Nothing is ready: the rounds so far are all of them and what remains is the leftover. */
  lemma Stuck(n: Nodes, rounds: seq<seq<Id>>, completed: set<Id>, remaining: seq<Id>)
    requires Progress(n, rounds, completed, remaining)
    requires ReadyIn(remaining, n.byId, completed) == []
    ensures rounds == Rounds(n, {}) && remaining == Leftover(n)
  {
    NothingReady(n, completed, remaining);
    assert rounds + [] == rounds;
    assert Settled(n, {}) == completed;
  }

  lemma NothingReady(n: Nodes, completed: set<Id>, remaining: seq<Id>)
    requires remaining == Without(n.keys, completed)
    requires ReadyIn(remaining, n.byId, completed) == []
    ensures Ready(n, completed) == []
  {
    NonemptyHasMember(Ready(n, completed));
  }

  // ---- Order and grouping ----

  ghost predicate RunsAlone(byId: map<Id, Step>, wave: seq<Id>) {
    |wave| == 1 && wave[0] in byId && byId[wave[0]].kind in {Answer, Tool, Verify}
  }

  /** Of two waves cut next to each other out of one round, one is a step that runs alone: the others share as far as they can. */
  ghost predicate Greedy(byId: map<Id, Step>, waves: seq<seq<Id>>) {
    forall i :: 0 < i < |waves| ==> RunsAlone(byId, waves[i - 1]) || RunsAlone(byId, waves[i])
  }

  lemma GreedyJoin(byId: map<Id, Step>, a: seq<seq<Id>>, w: seq<Id>, b: seq<seq<Id>>)
    requires |a| <= 1 && RunsAlone(byId, w) && Greedy(byId, b)
    ensures Greedy(byId, a + [w] + b)
  {
    var all := a + [w] + b;
    forall i | 0 < i < |all| ensures RunsAlone(byId, all[i - 1]) || RunsAlone(byId, all[i]) {
      if i > |a| + 1 {
        var k := i - |a| - 1;
        assert all[i] == b[k] && all[i - 1] == b[k - 1];
      }
    }
  }

  lemma {:induction false} SplitIsGreedy(byId: map<Id, Step>, ready: seq<Id>, batch: seq<Id>)
    requires forall id :: id in ready ==> id in byId
    ensures Greedy(byId, Split(byId, ready, batch))
    decreases |ready|
  {
    if ready != [] {
      if Parallelizable(byId[ready[0]].kind) {
        SplitIsGreedy(byId, ready[1..], batch + [ready[0]]);
      } else {
        SplitIsGreedy(byId, ready[1..], []);
        GreedyJoin(byId, Close(batch), [ready[0]], Split(byId, ready[1..], []));
      }
    }
  }

  lemma {:induction false} ReadyKeepsOrder(order: seq<Id>, byId: map<Id, Step>, done: set<Id>) returns (at: seq<nat>)
    requires forall id :: id in order ==> id in byId
    ensures ListedAt(order, |order|, at, ReadyIn(order, byId, done))
  {
    at := [];
    if order != [] {
      var n := |order| - 1;
      at := ReadyKeepsOrder(order[..n], byId, done);
      ListedFurther(order, n, at, ReadyIn(order[..n], byId, done));
      if order[n] !in done && DepsDone(byId, order[n], done) {
        at := at + [n];
      }
    }
  }

  /** A round takes its steps in plan order, an id standing where its last step stands. */
  lemma RoundInPlanOrder(steps: seq<Step>, done: set<Id>, i: nat, j: nat)
    requires i < j < |Ready(NodesOf(steps), done)|
    ensures var ready := Ready(NodesOf(steps), done);
            && ready[i] in ById(steps) && ready[j] in ById(steps)
            && LastIndex(steps, ready[i]) < LastIndex(steps, ready[j])
  {
    var n := NodesOf(steps);
    var at := ReadyKeepsOrder(n.order, n.byId, done);
    assert at[i] < at[j];
    LastOrderAscends(steps, at[i], at[j]);
  }

  /** The flush takes what is left in the order in which the ids first occur. */
  lemma LeftoverByFirst(steps: seq<Step>, i: nat, j: nat) returns (a: nat, b: nat)
    requires i < j < |Leftover(NodesOf(steps))|
    ensures a < b && Introduces(steps, a) && Introduces(steps, b)
    ensures Leftover(NodesOf(steps))[i] == steps[a].id && Leftover(NodesOf(steps))[j] == steps[b].id
  {
    var n := NodesOf(steps);
    var p, q := WithoutKeepsOrder(n.keys, Settled(n, {}), i, j);
    var at := KeysByFirst(steps);
    a, b := at[p], at[q];
  }
}
