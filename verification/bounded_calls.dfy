/**
 * BoundedCalls.run: a caller and its worker thread share one permit, an outcome list and an event, while any
 * number of other calls interleave with them. Every atomic action of either side is one step.
 */
module BoundedCalls {
  import opened Base

  datatype Outcome<V> = NotStarted | Completed(value: V) | Error | TimedOut

  /** Where the caller of run is: it holds its permit from Acquired until its worker exists. */
  datatype Caller<V> = Acquired | Waiting | Returned(outcome: Outcome<V>)

  /** Where the worker is. It frees the permit before it sets the event. */
  datatype Worker = Unborn | Born | Operating | Recorded | Freed | Signalled

  /** runs counts entries of the operation and releases counts permit releases of this call. */
  datatype Call<V> = Call(caller: Caller<V>, worker: Worker, outcome: seq<Outcome<V>>, done: bool, runs: nat,
                          releases: nat)

  datatype Pool<V> = Pool(maximum: nat, free: nat, calls: map<nat, Call<V>>)

  datatype Step<V> =
    | Refuse(id: nat)
    | Acquire(id: nat)
    | StartThread(id: nat)
    | StartFails(id: nat)
    | FindLate(id: nat)
    | Enter(id: nat)
    | Finish(id: nat, outcome: Outcome<V>)
    | Release(id: nat)
    | Signal(id: nat)
    | ReadOutcome(id: nat)
    | GiveUp(id: nat)

  function Fresh<V>(maximum: nat): Pool<V> {
    Pool(maximum, maximum, map[])
  }

  function Put<V>(pool: Pool<V>, id: nat, call: Call<V>): Pool<V> {
    pool.(calls := pool.calls[id := call])
  }

  /** Which steps the program text allows from here. */
  predicate Enabled<V>(pool: Pool<V>, step: Step<V>) {
    match step
    case Refuse(id) => id !in pool.calls
    case Acquire(id) => id !in pool.calls && pool.free > 0
    case StartThread(id) => id in pool.calls && pool.calls[id].caller.Acquired?
    case StartFails(id) => id in pool.calls && pool.calls[id].caller.Acquired?
    case FindLate(id) => id in pool.calls && pool.calls[id].worker.Born?
    case Enter(id) => id in pool.calls && pool.calls[id].worker.Born?
    case Finish(id, outcome) =>
      id in pool.calls && pool.calls[id].worker.Operating? && (outcome.Completed? || outcome.Error?)
    case Release(id) => id in pool.calls && pool.calls[id].worker.Recorded?
    case Signal(id) => id in pool.calls && pool.calls[id].worker.Freed?
    case ReadOutcome(id) => id in pool.calls && pool.calls[id].caller.Waiting? && pool.calls[id].done
    case GiveUp(id) => id in pool.calls && pool.calls[id].caller.Waiting?
  }

  /** One action of a caller or worker. Reading an empty outcome list, which would raise, changes nothing. */
  function Next<V>(pool: Pool<V>, step: Step<V>): Pool<V> {
    if !Enabled(pool, step) then pool else
    match step
    case Refuse(id) => Put(pool, id, Call(Returned(NotStarted), Unborn, [], false, 0, 0))
    case Acquire(id) => Put(pool, id, Call(Acquired, Unborn, [], false, 0, 0)).(free := pool.free - 1)
    case StartThread(id) => Put(pool, id, pool.calls[id].(caller := Waiting, worker := Born))
    case StartFails(id) =>
      var call := pool.calls[id].(caller := Returned(NotStarted), releases := pool.calls[id].releases + 1);
      Put(pool, id, call).(free := pool.free + 1)
    case FindLate(id) =>
      Put(pool, id, pool.calls[id].(worker := Recorded, outcome := pool.calls[id].outcome + [NotStarted]))
    case Enter(id) => Put(pool, id, pool.calls[id].(worker := Operating, runs := pool.calls[id].runs + 1))
    case Finish(id, outcome) =>
      Put(pool, id, pool.calls[id].(worker := Recorded, outcome := pool.calls[id].outcome + [outcome]))
    case Release(id) =>
      Put(pool, id, pool.calls[id].(worker := Freed, releases := pool.calls[id].releases + 1)).(free := pool.free + 1)
    case Signal(id) => Put(pool, id, pool.calls[id].(worker := Signalled, done := true))
    case ReadOutcome(id) =>
      if |pool.calls[id].outcome| == 0 then pool
      else Put(pool, id, pool.calls[id].(caller := Returned(pool.calls[id].outcome[0])))
    case GiveUp(id) => Put(pool, id, pool.calls[id].(caller := Returned(TimedOut)))
  }

  function Run<V>(pool: Pool<V>, steps: seq<Step<V>>): Pool<V>
    decreases |steps|
  {
    if steps == [] then pool else Run(Next(pool, steps[0]), steps[1..])
  }

  // ----- invariant -----

  /** A call owns a permit from its acquisition to its single release. */
  predicate Holds<V>(call: Call<V>) {
    call.caller.Acquired? || call.worker.Born? || call.worker.Operating? || call.worker.Recorded?
  }

  ghost predicate CallFit<V>(call: Call<V>) {
    && (call.worker.Unborn? ==> call.caller in {Acquired, Returned(NotStarted)} && call.outcome == [])
    && (!call.worker.Unborn? ==> !call.caller.Acquired?)
    && (call.worker.Born? ==> call.outcome == [] && call.caller in {Waiting, Returned(TimedOut)})
    && (call.worker.Operating? ==> call.outcome == [] && call.caller in {Waiting, Returned(TimedOut)})
    && (call.worker.Recorded? || call.worker.Freed? || call.worker.Signalled? ==>
          |call.outcome| == 1 && !call.outcome[0].TimedOut?
          && call.runs == (if call.outcome[0].NotStarted? then 0 else 1))
    && (call.done <==> call.worker.Signalled?)
    && (call.worker.Recorded? || call.worker.Freed? ==> call.caller in {Waiting, Returned(TimedOut)})
    && (call.worker.Signalled? ==> call.caller in {Waiting, Returned(TimedOut), Returned(call.outcome[0])})
    && (call.worker.Unborn? || call.worker.Born? ==> call.runs == 0)
    && (call.worker.Operating? ==> call.runs == 1)
    && (Holds(call) ==> call.releases == 0)
    && (call.worker.Freed? || call.worker.Signalled? ==> call.releases == 1)
    && call.releases <= 1
  }

  function Holders<V>(calls: map<nat, Call<V>>): set<nat> {
    set id | id in calls && Holds(calls[id])
  }

  ghost predicate Inv<V>(pool: Pool<V>) {
    && (forall id :: id in pool.calls ==> CallFit(pool.calls[id]))
    && pool.free + |Holders(pool.calls)| == pool.maximum
  }

  /** Writing one call changes the holders by at most that call. */
  lemma HoldersAfter<V>(calls: map<nat, Call<V>>, id: nat, call: Call<V>)
    ensures Holders(calls[id := call]) == if Holds(call) then Holders(calls) + {id} else Holders(calls) - {id}
  {
  }

  lemma NextKeeps<V>(pool: Pool<V>, step: Step<V>)
    requires Inv(pool)
    ensures Inv(Next(pool, step))
  {
    hide Next, CallFit, Enabled;
    if Enabled(pool, step) {
      var id, after := step.id, Next(pool, step);
      NextFits(pool, step);
      NextPermits(pool, step);
      HoldersAfter(pool.calls, id, after.calls[id]);
      assert id in Holders(pool.calls) <==> id in pool.calls && Holds(pool.calls[id]);
      hide Holders;
    } else {
      Stutters(pool, step);
    }
  }

  lemma Stutters<V>(pool: Pool<V>, step: Step<V>)
    requires !Enabled(pool, step)
    ensures Next(pool, step) == pool
  {
  }

  /** One call changes, and the free permits by what that call takes or gives back. */
  lemma NextPermits<V>(pool: Pool<V>, step: Step<V>)
    requires Enabled(pool, step) && (step.id in pool.calls ==> CallFit(pool.calls[step.id]))
    ensures var id, after := step.id, Next(pool, step);
      && id in after.calls && after.calls == pool.calls[id := after.calls[id]] && after.maximum == pool.maximum
      && after.free + (if Holds(after.calls[id]) then 1 else 0)
         == pool.free + (if id in pool.calls && Holds(pool.calls[id]) then 1 else 0)
  {
  }

  lemma NextFits<V>(pool: Pool<V>, step: Step<V>)
    requires Enabled(pool, step) && (step.id in pool.calls ==> CallFit(pool.calls[step.id]))
    ensures step.id in Next(pool, step).calls && CallFit(Next(pool, step).calls[step.id])
  {
  }

  lemma {:induction false} RunKeeps<V>(pool: Pool<V>, steps: seq<Step<V>>)
    requires Inv(pool)
    ensures Inv(Run(pool, steps))
    decreases |steps|
  {
    hide Inv, Next;
    if steps != [] {
      NextKeeps(pool, steps[0]);
      RunKeeps(Next(pool, steps[0]), steps[1..]);
    }
  }

  lemma FreshFits<V>(maximum: nat)
    ensures Inv(Fresh<V>(maximum))
  {
    assert Holders<V>(map[]) == {};
  }

  // ----- what a caller may rely on -----

  function OperatingNow<V>(pool: Pool<V>): set<nat> {
    set id | id in pool.calls && pool.calls[id].worker.Operating?
  }

  /** Permits are conserved, so at most maximum operations run at once, whatever their callers did. */
  lemma PermitsConserved<V>(maximum: nat, steps: seq<Step<V>>)
    ensures var pool := Run(Fresh<V>(maximum), steps);
      pool.free + |Holders(pool.calls)| == pool.maximum && |OperatingNow(pool)| <= pool.maximum
  {
    FreshFits<V>(maximum);
    RunKeeps(Fresh<V>(maximum), steps);
    var pool := Run(Fresh<V>(maximum), steps);
    SubsetSize(OperatingNow(pool), Holders(pool.calls));
  }

  /** The event is set only after one outcome is recorded and the permit is back: reading outcome[0] is safe. */
  lemma OutcomeReadable<V>(maximum: nat, steps: seq<Step<V>>, id: nat)
    ensures var pool := Run(Fresh<V>(maximum), steps);
      id in pool.calls ==>
        && (pool.calls[id].done ==> |pool.calls[id].outcome| == 1 && pool.calls[id].releases == 1)
        && pool.calls[id].releases <= 1 && |pool.calls[id].outcome| <= 1 && pool.calls[id].runs <= 1
  {
    FreshFits<V>(maximum);
    RunKeeps(Fresh<V>(maximum), steps);
  }

  /** What a returned outcome says, now: not started means no run, a value or an error means one finished run. */
  lemma OutcomeMeaning<V>(pool: Pool<V>, id: nat)
    requires Inv(pool) && id in pool.calls && pool.calls[id].caller.Returned?
    ensures match pool.calls[id].caller.outcome
            case NotStarted => pool.calls[id].runs == 0 && !pool.calls[id].worker.Born?
            case Completed(_) => pool.calls[id].runs == 1 && pool.calls[id].worker.Signalled?
            case Error => pool.calls[id].runs == 1 && pool.calls[id].worker.Signalled?
            case TimedOut => pool.calls[id].runs <= 1
  {
    assert CallFit(pool.calls[id]);
  }

  lemma SettledStays<V>(pool: Pool<V>, step: Step<V>, id: nat)
    requires Inv(pool) && id in pool.calls && pool.calls[id].caller.Returned?
    requires !pool.calls[id].caller.outcome.TimedOut?
    ensures var after := Next(pool, step); id in after.calls && after.calls[id] == pool.calls[id]
  {
    assert CallFit(pool.calls[id]);
  }

  /**
   * And for ever after: once run returned anything but a timeout, no later step touches that call. A call reported
   * as not started never runs; a reported value or error comes from the only run there will be.
   */
  lemma {:induction false} OutcomeIsFinal<V>(pool: Pool<V>, steps: seq<Step<V>>, id: nat)
    requires Inv(pool) && id in pool.calls && pool.calls[id].caller.Returned?
    requires !pool.calls[id].caller.outcome.TimedOut?
    ensures var after := Run(pool, steps); id in after.calls && after.calls[id] == pool.calls[id]
    decreases |steps|
  {
    hide Inv, Next;
    if steps != [] {
      NextKeeps(pool, steps[0]);
      SettledStays(pool, steps[0], id);
      OutcomeIsFinal(Next(pool, steps[0]), steps[1..], id);
    }
  }

  // ----- where an outcome comes from -----

  /** The action that gives the call this outcome. */
  ghost predicate Tells<V>(step: Step<V>, id: nat, outcome: Outcome<V>) {
    match outcome
    case Completed(_) => step == Finish(id, outcome)
    case Error => step == Finish(id, outcome)
    case NotStarted => step == Refuse(id) || step == StartFails(id) || step == FindLate(id)
    case TimedOut => step == GiveUp(id)
  }

  /** The call's worker recorded this outcome or its caller returned it. */
  ghost predicate Has<V>(pool: Pool<V>, id: nat, outcome: Outcome<V>) {
    && id in pool.calls
    && (pool.calls[id].caller == Returned(outcome) || outcome in pool.calls[id].outcome)
  }

  lemma OutcomeComes<V>(pool: Pool<V>, step: Step<V>, id: nat, outcome: Outcome<V>)
    requires Has(Next(pool, step), id, outcome)
    ensures Has(pool, id, outcome) || (Enabled(pool, step) && Tells(step, id, outcome))
  {
  }

  lemma {:induction false} RunLast<V>(pool: Pool<V>, steps: seq<Step<V>>)
    requires steps != []
    ensures Run(pool, steps) == Next(Run(pool, steps[..|steps| - 1]), steps[|steps| - 1])
    decreases |steps|
  {
    hide Next;
    if |steps| > 1 {
      RunLast(Next(pool, steps[0]), steps[1..]);
      assert steps[1..][..|steps| - 2] == steps[..|steps| - 1][1..];
    }
  }

  /**
   * Over every run the outcome a caller gets is the one that came about for its own call: the very value or error its
   * operation ended with, a refusal, a thread that did not start or started late, or its own patience ending.
   */
  lemma {:induction false} OutcomeStory<V>(maximum: nat, steps: seq<Step<V>>, id: nat, outcome: Outcome<V>)
    requires Has(Run(Fresh<V>(maximum), steps), id, outcome)
    ensures exists i :: && 0 <= i < |steps| && Enabled(Run(Fresh<V>(maximum), steps[..i]), steps[i])
                        && Tells(steps[i], id, outcome)
    decreases |steps|
  {
    hide Next, Tells, Enabled;
    if steps == [] {
      assert false;
    } else {
      var n := |steps| - 1;
      var pool := Run(Fresh<V>(maximum), steps[..n]);
      RunLast(Fresh<V>(maximum), steps);
      OutcomeComes(pool, steps[n], id, outcome);
      if !(Enabled(pool, steps[n]) && Tells(steps[n], id, outcome)) {
        OutcomeStory(maximum, steps[..n], id, outcome);
        var i :| && 0 <= i < n && Enabled(Run(Fresh<V>(maximum), steps[..n][..i]), steps[..n][i])
                 && Tells(steps[..n][i], id, outcome);
        assert steps[..n][..i] == steps[..i];
      }
    }
  }

  // ----- the object itself -----

  /** The shared pool: a semaphore's free permits and, per call of run, the closure state its two threads share. */
  class CallPool<V> {
    const maximum: nat
    var free: nat
    var calls: map<nat, Call<V>>

    function View(): Pool<V>
      reads this
    {
      Pool(maximum, free, calls)
    }

    constructor (maximum: nat)
      ensures View() == Fresh<V>(maximum)
    {
      this.maximum, free, calls := maximum, maximum, map[];
    }

    /** The entry of run: a spent deadline or an exhausted pool is reported at once. */
    method Admit(id: nat, positive: bool) returns (admitted: bool)
      requires id !in calls
      modifies this
      ensures admitted == (positive && old(free) > 0)
      ensures View() == Next(old(View()), if admitted then Step.Acquire(id) else Refuse(id))
    {
      admitted := positive && free > 0;
      if admitted {
        free := free - 1;
        calls := calls[id := Call(Acquired, Unborn, [], false, 0, 0)];
      } else {
        calls := calls[id := Call(Returned(NotStarted), Unborn, [], false, 0, 0)];
      }
    }

    /** Thread.start, which may raise: then the caller itself gives the permit back. */
    method Start(id: nat, starts: bool)
      requires id in calls && calls[id].caller.Acquired?
      modifies this
      ensures View() == Next(old(View()), if starts then StartThread(id) else StartFails(id))
    {
      if starts {
        calls := calls[id := calls[id].(caller := Waiting, worker := Born)];
      } else {
        free := free + 1;
        calls := calls[id := calls[id].(caller := Returned(NotStarted), releases := calls[id].releases + 1)];
      }
    }

    /** The worker's own deadline check, then the operation or a recorded refusal. */
    method Check(id: nat, late: bool)
      requires id in calls && calls[id].worker.Born?
      modifies this`calls
      ensures View() == Next(old(View()), if late then FindLate(id) else Enter(id))
    {
      if late {
        calls := calls[id := calls[id].(worker := Recorded, outcome := calls[id].outcome + [NotStarted])];
      } else {
        calls := calls[id := calls[id].(worker := Worker.Operating, runs := calls[id].runs + 1)];
      }
    }

    /** The worker's finally block: the permit first, then the event. Other threads may run between the two. */
    method GiveBack(id: nat)
      requires id in calls && calls[id].worker.Recorded?
      modifies this
      ensures View() == Next(old(View()), Release(id))
    {
      free := free + 1;
      calls := calls[id := calls[id].(worker := Freed, releases := calls[id].releases + 1)];
    }

    method SetDone(id: nat)
      requires id in calls && calls[id].worker.Freed?
      modifies this`calls
      ensures View() == Next(old(View()), Signal(id))
    {
      calls := calls[id := calls[id].(worker := Signalled, done := true)];
    }

    /** The end of run: outcome[0] once the event is set, otherwise a timeout. The read is in bounds. */
    method Wait(id: nat, patient: bool) returns (outcome: Outcome<V>)
      requires Inv(View()) && id in calls && calls[id].caller.Waiting?
      modifies this`calls
      ensures var read := patient && old(calls)[id].done;
        && View() == Next(old(View()), if read then ReadOutcome(id) else GiveUp(id))
        && id in calls && calls[id].caller == Returned(outcome)
    {
      assert CallFit(calls[id]);
      outcome := if patient && calls[id].done then calls[id].outcome[0] else TimedOut;
      calls := calls[id := calls[id].(caller := Returned(outcome))];
    }
  }
}
