/** The main-thread drain loop (`BroadcastEventsExecutor.Update`) over the
    shared queue of deferred actions (`BroadcastEventDispatcher.actions`).

    An action is named by an `ActionId`; the queue holds nullable entries.
    What running an action does is given by a `behaviour` function: the
    entries it enqueues while it runs and whether it then throws. The
    source loop only stops when the queue is empty, so a behaviour that
    keeps re-enqueueing would run forever; the model bounds the number of
    invocations by `fuel` and reports `OutOfFuel` when that bound, rather
    than the source, stops the loop. */
module Executor {
  import opened Common

  type ActionId = nat

  /** What invoking one action does: the entries it enqueues (in order)
      and whether it then throws. */
  datatype Effect = Effect(enqueues: seq<Option<ActionId>>, throws: bool)

  datatype DrainOutcome =
    | Drained              // the queue became empty and Update returned
    | Threw(action: ActionId)  // an action threw; Update stopped
    | OutOfFuel            // the model's invocation bound was reached

  /** The invoked actions in invocation order, the queue left behind and how
      the drain ended. */
  datatype DrainResult = DrainResult(invoked: seq<ActionId>, rest: seq<Option<ActionId>>, outcome: DrainOutcome)

  // ---------------------------------------------------------------------
  // Specification

  /** The non-null entries of a queue, in queue order. */
  function Present(q: seq<Option<ActionId>>): seq<ActionId>
    decreases |q|
  {
    if q == [] then []
    else if q[0].Some? then [q[0].value] + Present(q[1..])
    else Present(q[1..])
  }

  /** Everything the given invocations enqueue (null entries dropped), in
      invocation order. */
  function Spawned(invoked: seq<ActionId>, behaviour: ActionId -> Effect): seq<ActionId>
    decreases |invoked|
  {
    if invoked == [] then [] else Present(behaviour(invoked[0]).enqueues) + Spawned(invoked[1..], behaviour)
  }

  /** `while (actions.Count > 0) actions.Dequeue()?.Invoke();` run on the
      queue `q`, with at most `fuel` invocations. */
  function Drain(q: seq<Option<ActionId>>, behaviour: ActionId -> Effect, fuel: nat): (r: DrainResult)
    ensures |r.invoked| <= fuel
    ensures r.outcome.Drained? ==> r.rest == []
    ensures r.outcome.OutOfFuel? ==> |r.invoked| == fuel
    decreases fuel, |q|
  {
    if q == [] then DrainResult([], [], Drained)
    else if q[0].None? then Drain(q[1..], behaviour, fuel)
    else if fuel == 0 then DrainResult([], q, OutOfFuel)
    else
      var id := q[0].value;
      var e := behaviour(id);
      var next := q[1..] + e.enqueues;
      if e.throws then DrainResult([id], next, Threw(id))
      else
        var r := Drain(next, behaviour, fuel - 1);
        DrainResult([id] + r.invoked, r.rest, r.outcome)
  }

  /** The first invocations, followed by the rest of a drain. */
  function After(done: seq<ActionId>, r: DrainResult): DrainResult {
    DrainResult(done + r.invoked, r.rest, r.outcome)
  }

  // ---------------------------------------------------------------------
  // The shared queue and the loop

  /** `BroadcastEventDispatcher.actions`, with the history of invocations
      the drain has made. */
  class Dispatcher {
    var actions: seq<Option<ActionId>>
    var invoked: seq<ActionId>

    constructor(initial: seq<Option<ActionId>>)
      ensures actions == initial && invoked == []
    {
      actions := initial;
      invoked := [];
    }
  }

  /** `BroadcastEventsExecutor.Update`: dequeue and invoke until the queue
      is empty. A null entry is dequeued and skipped. An action that throws
      has already been dequeued, and the exception ends the loop. */
  method Update(d: Dispatcher, behaviour: ActionId -> Effect, fuel: nat) returns (outcome: DrainOutcome)
    modifies d
    ensures var r := Drain(old(d.actions), behaviour, fuel);
      && d.invoked == old(d.invoked) + r.invoked
      && d.actions == r.rest
      && outcome == r.outcome
  {
    ghost var done: seq<ActionId> := [];
    var left := fuel;
    while |d.actions| > 0
      invariant Drain(old(d.actions), behaviour, fuel) == After(done, Drain(d.actions, behaviour, left))
      invariant d.invoked == old(d.invoked) + done
      decreases left, |d.actions|
    {
      DrainStep(d.actions, behaviour, left);
      var entry := d.actions[0];
      if entry.Some? && left == 0 {
        outcome := OutOfFuel;
        return;
      }
      d.actions := d.actions[1..];
      if entry.Some? {
        var e := behaviour(entry.value);
        AfterAfter(done, entry.value, Drain(d.actions + e.enqueues, behaviour, left - 1));
        d.invoked := d.invoked + [entry.value];
        d.actions := d.actions + e.enqueues;
        done := done + [entry.value];
        left := left - 1;
        if e.throws {
          outcome := Threw(entry.value);
          return;
        }
      }
    }
    outcome := Drained;
  }

  /** One iteration of the loop, read off `Drain`. */
  lemma DrainStep(q: seq<Option<ActionId>>, behaviour: ActionId -> Effect, fuel: nat)
    requires q != []
    ensures q[0].None? ==> Drain(q, behaviour, fuel) == Drain(q[1..], behaviour, fuel)
    ensures q[0].Some? && fuel == 0 ==> Drain(q, behaviour, fuel) == DrainResult([], q, OutOfFuel)
    ensures q[0].Some? && fuel > 0 && behaviour(q[0].value).throws ==>
      Drain(q, behaviour, fuel) == DrainResult([q[0].value], q[1..] + behaviour(q[0].value).enqueues, Threw(q[0].value))
    ensures q[0].Some? && fuel > 0 && !behaviour(q[0].value).throws ==>
      Drain(q, behaviour, fuel) == After([q[0].value], Drain(q[1..] + behaviour(q[0].value).enqueues, behaviour, fuel - 1))
  {
  }

  lemma AfterAfter(done: seq<ActionId>, id: ActionId, r: DrainResult)
    ensures After(done, After([id], r)) == After(done + [id], r)
  {
    assert done + ([id] + r.invoked) == (done + [id]) + r.invoked;
  }

  // ---------------------------------------------------------------------
  // Properties of the drain

  lemma {:induction false} PresentAppend(a: seq<Option<ActionId>>, b: seq<Option<ActionId>>)
    ensures Present(a + b) == Present(a) + Present(b)
    decreases |a|
  {
    if a == [] {
      assert a + b == b;
    } else {
      assert (a + b)[0] == a[0];
      assert (a + b)[1..] == a[1..] + b;
      PresentAppend(a[1..], b);
    }
  }

  /** Nothing is lost and nothing is run twice: the actions that were
      queued, followed by the actions the invoked ones enqueued, are
      exactly the invoked actions (in invocation order) followed by what is
      still queued. So actions run in FIFO order, actions enqueued during
      the drain run in the same `Update` after those queued before them,
      and each dequeued entry is invoked at most once. */
  lemma {:induction false} DrainConservation(q: seq<Option<ActionId>>, behaviour: ActionId -> Effect, fuel: nat)
    ensures var r := Drain(q, behaviour, fuel);
      Present(q) + Spawned(r.invoked, behaviour) == r.invoked + Present(r.rest)
    decreases fuel, |q|
  {
    if q == [] {
    } else if q[0].None? {
      DrainConservation(q[1..], behaviour, fuel);
    } else if fuel == 0 {
      assert Spawned([], behaviour) == [];
    } else {
      var id := q[0].value;
      var next := q[1..] + behaviour(id).enqueues;
      PresentAppend(q[1..], behaviour(id).enqueues);
      if behaviour(id).throws {
        SpawnedOne(id, behaviour);
      } else {
        DrainConservation(next, behaviour, fuel - 1);
        ConservationStep(q, behaviour, fuel);
      }
    }
  }

  lemma SpawnedOne(id: ActionId, behaviour: ActionId -> Effect)
    ensures Spawned([id], behaviour) == Present(behaviour(id).enqueues)
  {
    assert [id][1..] == [];
  }

  lemma SpawnedCons(id: ActionId, rest: seq<ActionId>, behaviour: ActionId -> Effect)
    ensures Spawned([id] + rest, behaviour) == Present(behaviour(id).enqueues) + Spawned(rest, behaviour)
  {
    assert ([id] + rest)[1..] == rest;
  }

  lemma Rebalance(id: ActionId, before: seq<ActionId>, enqueued: seq<ActionId>, later: seq<ActionId>,
    invoked: seq<ActionId>, rest: seq<ActionId>)
    requires (before + enqueued) + later == invoked + rest
    ensures ([id] + before) + (enqueued + later) == ([id] + invoked) + rest
  {
    calc {
      ([id] + before) + (enqueued + later);
      [id] + ((before + enqueued) + later);
      [id] + (invoked + rest);
      ([id] + invoked) + rest;
    }
  }

  /** One invocation that returns normally keeps the balance. */
  lemma ConservationStep(q: seq<Option<ActionId>>, behaviour: ActionId -> Effect, fuel: nat)
    requires q != [] && q[0].Some? && fuel > 0 && !behaviour(q[0].value).throws
    requires var next := q[1..] + behaviour(q[0].value).enqueues;
      var r := Drain(next, behaviour, fuel - 1);
      && Present(next) == Present(q[1..]) + Present(behaviour(q[0].value).enqueues)
      && Present(next) + Spawned(r.invoked, behaviour) == r.invoked + Present(r.rest)
    ensures var r := Drain(q, behaviour, fuel);
      Present(q) + Spawned(r.invoked, behaviour) == r.invoked + Present(r.rest)
  {
    var id := q[0].value;
    var next := q[1..] + behaviour(id).enqueues;
    var r' := Drain(next, behaviour, fuel - 1);
    DrainStep(q, behaviour, fuel);
    SpawnedCons(id, r'.invoked, behaviour);
    assert Present(q) == [id] + Present(q[1..]);
    Rebalance(id, Present(q[1..]), Present(behaviour(id).enqueues), Spawned(r'.invoked, behaviour), r'.invoked, Present(r'.rest));
  }

  /** When `Update` returns normally, everything ever queued has run:
      first the entries queued before the drain, then, in order, what each
      invoked action enqueued. */
  lemma DrainedRunsEverything(q: seq<Option<ActionId>>, behaviour: ActionId -> Effect, fuel: nat)
    requires Drain(q, behaviour, fuel).outcome.Drained?
    ensures var r := Drain(q, behaviour, fuel);
      && r.rest == []
      && r.invoked == Present(q) + Spawned(r.invoked, behaviour)
  {
    DrainConservation(q, behaviour, fuel);
  }

  /** The drain stops at the first action that throws, and only there:
      every action before it returned normally, and when the drain ends
      normally no invoked action threw. */
  lemma {:induction false} StopsAtFirstThrow(q: seq<Option<ActionId>>, behaviour: ActionId -> Effect, fuel: nat)
    ensures var r := Drain(q, behaviour, fuel);
      && (forall i | 0 <= i < |r.invoked| - 1 :: !behaviour(r.invoked[i]).throws)
      && (r.outcome.Threw? ==>
            |r.invoked| > 0 && r.invoked[|r.invoked| - 1] == r.outcome.action && behaviour(r.outcome.action).throws)
      && (r.outcome.Drained? && r.invoked != [] ==> !behaviour(r.invoked[|r.invoked| - 1]).throws)
    decreases fuel, |q|
  {
    if q != [] {
      if q[0].None? {
        StopsAtFirstThrow(q[1..], behaviour, fuel);
      } else if fuel > 0 {
        var id := q[0].value;
        var e := behaviour(id);
        if !e.throws {
          var next := q[1..] + e.enqueues;
          StopsAtFirstThrow(next, behaviour, fuel - 1);
          var r' := Drain(next, behaviour, fuel - 1);
          assert Drain(q, behaviour, fuel).invoked == [id] + r'.invoked;
        }
      }
    }
  }

  /** When `Update` stops on a throwing action, the entries after it are
      still queued, in their original order, followed by what it enqueued
      before throwing. Here: the first present entry throws. */
  lemma FirstActionThrows(q: seq<Option<ActionId>>, behaviour: ActionId -> Effect, fuel: nat)
    requires fuel > 0 && |q| > 0 && q[0].Some? && behaviour(q[0].value).throws
    ensures Drain(q, behaviour, fuel) == DrainResult([q[0].value], q[1..] + behaviour(q[0].value).enqueues, Threw(q[0].value))
  {
  }

  lemma {:induction false} NothingSpawned(invoked: seq<ActionId>, behaviour: ActionId -> Effect)
    requires forall id :: behaviour(id).enqueues == []
    ensures Spawned(invoked, behaviour) == []
    decreases |invoked|
  {
    if invoked != [] {
      NothingSpawned(invoked[1..], behaviour);
    }
  }

  /** When no action enqueues anything, an `Update` that stops on a
      throwing action has invoked a prefix of the queued actions, ending
      with the one that threw, and every later queued action is still in
      the queue, in its original order. */
  lemma ThrowLeavesLaterActionsQueued(q: seq<Option<ActionId>>, behaviour: ActionId -> Effect, fuel: nat)
    requires forall id :: behaviour(id).enqueues == []
    requires Drain(q, behaviour, fuel).outcome.Threw?
    ensures var r := Drain(q, behaviour, fuel);
      && 0 < |r.invoked| <= |Present(q)|
      && r.invoked == Present(q)[..|r.invoked|]
      && r.invoked[|r.invoked| - 1] == r.outcome.action
      && Present(r.rest) == Present(q)[|r.invoked|..]
  {
    var r := Drain(q, behaviour, fuel);
    DrainConservation(q, behaviour, fuel);
    NothingSpawned(r.invoked, behaviour);
    StopsAtFirstThrow(q, behaviour, fuel);
    assert Present(q) + [] == Present(q);
    assert Present(q) == r.invoked + Present(r.rest);
  }

  /** Without re-enqueueing and exceptions, and with enough fuel, `Update`
      invokes exactly the non-null queued entries, in queue order, and
      leaves the queue empty. */
  lemma {:induction false} FifoWithoutReentry(q: seq<Option<ActionId>>, behaviour: ActionId -> Effect, fuel: nat)
    requires forall id :: behaviour(id) == Effect([], false)
    requires fuel >= |Present(q)|
    ensures Drain(q, behaviour, fuel) == DrainResult(Present(q), [], Drained)
    decreases |q|
  {
    if q != [] {
      assert q[1..] + [] == q[1..];
      FifoWithoutReentry(q[1..], behaviour, if q[0].Some? then fuel - 1 else fuel);
    }
  }

  lemma {:induction false} SpawnedAppend(x: seq<ActionId>, y: seq<ActionId>, behaviour: ActionId -> Effect)
    ensures Spawned(x + y, behaviour) == Spawned(x, behaviour) + Spawned(y, behaviour)
    decreases |x|
  {
    if x == [] {
      assert x + y == y;
    } else {
      assert (x + y)[0] == x[0];
      assert (x + y)[1..] == x[1..] + y;
      SpawnedAppend(x[1..], y, behaviour);
    }
  }

  /** Actions enqueued by a running action are invoked in the same
      `Update`: when the drain empties the queue, what the `i`-th invoked
      action enqueued runs right after everything queued before it (the
      entries queued before the drain and what the first `i` invoked
      actions enqueued), and before what the later ones enqueue. */
  lemma ReentrantActionRunsInSameUpdate(q: seq<Option<ActionId>>, behaviour: ActionId -> Effect, fuel: nat, i: nat)
    requires Drain(q, behaviour, fuel).outcome.Drained?
    requires i < |Drain(q, behaviour, fuel).invoked|
    ensures var r := Drain(q, behaviour, fuel);
      r.invoked == Present(q) + Spawned(r.invoked[..i], behaviour)
                 + Present(behaviour(r.invoked[i]).enqueues) + Spawned(r.invoked[i + 1..], behaviour)
  {
    var r := Drain(q, behaviour, fuel);
    DrainedRunsEverything(q, behaviour, fuel);
    RunsAfterQueued(r.invoked, Present(q), i, behaviour);
  }

  lemma RunsAfterQueued(invoked: seq<ActionId>, queued: seq<ActionId>, i: nat, behaviour: ActionId -> Effect)
    requires invoked == queued + Spawned(invoked, behaviour)
    requires i < |invoked|
    ensures invoked == queued + Spawned(invoked[..i], behaviour)
                     + Present(behaviour(invoked[i]).enqueues) + Spawned(invoked[i + 1..], behaviour)
  {
    SpawnedAt(invoked, i, behaviour);
  }

  /** What the invocations enqueue, split at the `i`-th one. */
  lemma SpawnedAt(invoked: seq<ActionId>, i: nat, behaviour: ActionId -> Effect)
    requires i < |invoked|
    ensures Spawned(invoked, behaviour)
         == Spawned(invoked[..i], behaviour) + Present(behaviour(invoked[i]).enqueues) + Spawned(invoked[i + 1..], behaviour)
  {
    Decompose(invoked, i);
    SpawnedSplit(invoked, invoked[..i], invoked[i], invoked[i + 1..], behaviour);
  }

  lemma Decompose(s: seq<ActionId>, i: nat)
    requires i < |s|
    ensures s == s[..i] + ([s[i]] + s[i + 1..])
  {
    assert s[i..] == [s[i]] + s[i + 1..];
    assert s == s[..i] + s[i..];
  }

  lemma SpawnedSplit(invoked: seq<ActionId>, before: seq<ActionId>, id: ActionId, after: seq<ActionId>, behaviour: ActionId -> Effect)
    requires invoked == before + ([id] + after)
    ensures Spawned(invoked, behaviour)
         == Spawned(before, behaviour) + Present(behaviour(id).enqueues) + Spawned(after, behaviour)
  {
    SpawnedAppend(before, [id] + after, behaviour);
    SpawnedCons(id, after, behaviour);
  }

  /** `Update` on an empty queue invokes nothing and leaves the queue as it is. */
  lemma EmptyQueueDoesNothing(behaviour: ActionId -> Effect, fuel: nat)
    ensures Drain([], behaviour, fuel) == DrainResult([], [], Drained)
  {
  }
}
