/**
 * Whether a finished step is ever changed again while the executor runs. Read on the plans
 * between any two announced changes, for every plan, repeated ids included.
 */
module Reopening {
  import opened Seqs
  import opened Plan
  import opened Waves
  import opened Dependencies
  import opened Ledger
  import opened Executor
  import opened PlanRunner
  import opened StepLifecycle

  function Latest(from: Status, told: seq<Status>): Status {
    if told == [] then from else told[|told| - 1]
  }

  /** A list of announcements after which a final status is never replaced by another one. */
  ghost predicate Orderly(from: Status, told: seq<Status>) {
    told == [] ||
    var front := told[..|told| - 1];
    Orderly(from, front) && (Latest(from, front).Terminal() ==> Latest(from, told) == Latest(from, front))
  }

  lemma OrderlySnoc(from: Status, told: seq<Status>, status: Status)
    ensures Orderly(from, told + [status]) <==>
            Orderly(from, told) && (Latest(from, told).Terminal() ==> status == Latest(from, told))
    ensures Latest(from, told + [status]) == status
  {
    assert (told + [status])[..|told|] == told;
  }

  /** The status a plan shows for a step is the last one announced for its id. */
  lemma {:induction false} ReplayStatus(plan: seq<Step>, events: seq<Event>, i: nat)
    requires i < |plan|
    ensures Replay(plan, events)[i].status == Latest(plan[i].status, EventsOf(events, plan[i].id))
  {
    if events != [] {
      var n := |events| - 1;
      ReplayStatus(plan, events[..n], i);
      if events[n].id == plan[i].id {
        OrderlySnoc(plan[i].status, EventsOf(events[..n], plan[i].id), events[n].status);
      } else {
        assert EventsOf(events, plan[i].id) == EventsOf(events[..n], plan[i].id);
      }
    }
  }

  ghost predicate AllOrderly(plan: seq<Step>, events: seq<Event>) {
    forall i :: 0 <= i < |plan| ==> Orderly(plan[i].status, EventsOf(events, plan[i].id))
  }

  /** One more announcement keeps a step's history orderly if and only if it keeps the step, when finished. */
  lemma OneMore(plan: seq<Step>, events: seq<Event>, i: nat)
    requires i < |plan| && events != []
    ensures var n := |events| - 1;
            var before, after := Replay(plan, events[..n]), Replay(plan, events);
            Orderly(plan[i].status, EventsOf(events, plan[i].id)) <==>
            Orderly(plan[i].status, EventsOf(events[..n], plan[i].id)) && (before[i].status.Terminal() ==> after[i] == before[i])
  {
    var n := |events| - 1;
    ReplayStatus(plan, events[..n], i);
    if events[n].id == plan[i].id {
      OrderlySnoc(plan[i].status, EventsOf(events[..n], plan[i].id), events[n].status);
    } else {
      assert EventsOf(events, plan[i].id) == EventsOf(events[..n], plan[i].id);
    }
  }

  lemma LastMove(plan: seq<Step>, events: seq<Event>)
    requires events != []
    ensures var n := |events| - 1;
            AllOrderly(plan, events) <==> AllOrderly(plan, events[..n]) && Moves(Replay(plan, events[..n]), Replay(plan, events))
  {
    forall i | 0 <= i < |plan| {
      OneMore(plan, events, i);
    }
  }

  lemma MonotoneLast(trail: seq<seq<Step>>, next: seq<Step>)
    requires trail != []
    ensures Monotone(trail + [next]) <==> Monotone(trail) && Moves(trail[|trail| - 1], next)
  {
    var longer := trail + [next];
    if Monotone(longer) {
      assert Moves(longer[|trail| - 1], longer[|trail|]);
      forall k | 0 < k < |trail| ensures Moves(trail[k - 1], trail[k]) {
        assert Moves(longer[k - 1], longer[k]);
      }
    } else if Monotone(trail) {
      var k :| 0 < k < |longer| && !Moves(longer[k - 1], longer[k]);
      assert k < |trail| ==> Moves(trail[k - 1], trail[k]);
    }
  }

  /** No plan on the way reopens a finished step if and only if every history is orderly. */
  lemma {:induction false} TrailIsMonotone(plan: seq<Step>, events: seq<Event>)
    ensures Monotone(Trail(plan, events)) <==> AllOrderly(plan, events)
  {
    if events == [] {
      forall i | 0 <= i < |plan| ensures Orderly(plan[i].status, EventsOf(events, plan[i].id)) {
        assert EventsOf(events, plan[i].id) == [];
      }
    } else {
      var n := |events| - 1;
      TrailIsMonotone(plan, events[..n]);
      LastMove(plan, events);
      MonotoneLast(Trail(plan, events[..n]), Replay(plan, events));
    }
  }

  // ---- The executor ----

  lemma {:induction false} TimesOrderly(from: Status, told: seq<Status>, status: Status, m: nat)
    requires Orderly(from, told) && (Latest(from, told).Terminal() ==> Latest(from, told) == status)
    ensures Orderly(from, told + Times(status, m))
    ensures Latest(from, told + Times(status, m)) == if m == 0 then Latest(from, told) else status
  {
    if m == 0 {
      assert told + Times(status, m) == told;
    } else {
      TimesOrderly(from, told, status, m - 1);
      OrderlySnoc(from, told + Times(status, m - 1), status);
      assert told + Times(status, m) == told + Times(status, m - 1) + [status];
    }
  }

  lemma {:induction false} ReopenedAtOnce(from: Status, told: seq<Status>)
    requires from.Terminal() && told != [] && told[0] == Running
    ensures !Orderly(from, told)
  {
    if |told| > 1 {
      ReopenedAtOnce(from, told[..|told| - 1]);
    } else {
      assert told[..0] == [];
    }
  }

  /** Running and then one final status: orderly exactly when the step was not finished before. */
  lemma LifetimeOrderly(plan: seq<Step>, id: Id, from: Status, end: Status)
    requires Occurs(plan, id) > 0 && end.Terminal()
    ensures Orderly(from, Lifetime(plan, id, end)) <==> !from.Terminal()
  {
    var m := Occurs(plan, id);
    if from.Terminal() {
      ReopenedAtOnce(from, Lifetime(plan, id, end));
    } else {
      TimesOrderly(from, [], Running, m);
      assert [] + Times(Running, m) == Times(Running, m);
      TimesOrderly(from, Times(Running, m), end, m);
    }
  }

  ghost predicate Unfinished(steps: seq<Step>) {
    forall i :: 0 <= i < |steps| ==> !steps[i].status.Terminal()
  }

  lemma LogOrderly(c: Context, steps: seq<Step>, parallel: bool, turn: Option<Book>, i: nat)
    requires i < |steps|
    ensures var plan := Inferred(steps, c.use.lower);
            Orderly(plan[i].status, EventsOf(Log(c, plan, Initial(plan, turn), WavesOf(NodesOf(plan), parallel)), plan[i].id))
            <==> !steps[i].status.Terminal()
  {
    var plan := Inferred(steps, c.use.lower);
    var id := steps[i].id;
    StepLifetime(c, steps, parallel, turn, id);
    OccursNone(plan, id);
    assert plan[i] in plan;
    LifetimeOrderly(plan, id, plan[i].status, Execute(c, steps, parallel, turn).status[id]);
  }

  /**
   * For every plan, in both modes: no step that is finished in one of the plans of a run is
   * different in a later one, if and only if no step was finished at the start.
   */
  lemma NothingReopenedExactlyWhen(c: Context, steps: seq<Step>, parallel: bool, turn: Option<Book>)
    ensures var plan := Inferred(steps, c.use.lower);
            Monotone(Trail(plan, Log(c, plan, Initial(plan, turn), WavesOf(NodesOf(plan), parallel)))) <==> Unfinished(steps)
  {
    var plan := Inferred(steps, c.use.lower);
    LogAllOrderly(c, steps, parallel, turn);
    TrailIsMonotone(plan, Log(c, plan, Initial(plan, turn), WavesOf(NodesOf(plan), parallel)));
  }

  lemma LogAllOrderly(c: Context, steps: seq<Step>, parallel: bool, turn: Option<Book>)
    ensures var plan := Inferred(steps, c.use.lower);
            AllOrderly(plan, Log(c, plan, Initial(plan, turn), WavesOf(NodesOf(plan), parallel))) <==> Unfinished(steps)
  {
    forall i | 0 <= i < |steps| {
      LogOrderly(c, steps, parallel, turn, i);
    }
  }
}
