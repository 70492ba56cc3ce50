/**
 * Callers and workers of the capability gateway on the shared pool of BoundedCalls. The pool and the gateway move
 * together: every step of a bounded call is a step of the gateway's run, or none, and what run returns to its caller is
 * what the gateway's closing transaction is given. So the runs of CapabilityRuns are those of the pool's callers and
 * workers.
 */
module CapabilityCalls {
  import opened Base
  import opened CapabilityLedger
  import opened CapabilityRuns
  import CapabilityTheorems
  import Pool = BoundedCalls

  type Value = Option<Observation>

  /** ids names the bounded call of each dispatched operation once its caller has entered run. */
  datatype Joint = Joint(pool: Pool.Pool<Value>, sys: Sys, ids: map<Key, nat>)

  /**
   * An action in the gateway, an action of the bounded call of an operation, or one of another bounded call, such as a
   * readback's, in the same pool.
   */
  datatype Step =
    | Gateway(step: CapabilityRuns.Step)
    | Own(key: Key, action: Pool.Step<Value>)
    | Other(action: Pool.Step<Value>)

  function Begin(maximum: nat): Joint {
    Joint(Pool.Fresh(maximum), START, map[])
  }

  /** How a worker that recorded this outcome ended. */
  function Ending(outcome: Pool.Outcome<Value>): Worker {
    match outcome
    case NotStarted => Never
    case Completed(value) => Ended(true, value)
    case _ => Ended(false, None)
  }

  /**
   * How the closure may end: by its own exception before the provider, as the provider did, or as its check decided.
   */
  predicate Possible(worker: Worker, outcome: Pool.Outcome<Value>) {
    match worker
    case Idle => outcome.Error?
    case Admitted(_) => true
    case Ended(_, _) => Ending(outcome) == worker
    case Never => false
  }

  /** What run returned, as the gateway reads it. */
  function Told(outcome: Pool.Outcome<Value>): Outcome {
    match outcome
    case NotStarted => Outcome.NotStarted
    case Completed(value) => Outcome.Completed(value)
    case _ => NoAnswer
  }

  predicate Operating(j: Joint, key: Key) {
    key in j.ids && j.ids[key] in j.pool.calls && j.pool.calls[j.ids[key]].worker.Operating?
  }

  /** The caller of this operation's bounded call has its outcome. */
  predicate HasOutcome(j: Joint, key: Key) {
    key in j.ids && j.ids[key] in j.pool.calls && j.pool.calls[j.ids[key]].caller.Returned?
  }

  /** Which steps the program text allows. Only a running closure checks and asks; only a bounded call ends a worker. */
  predicate Enabled(j: Joint, step: Step) {
    match step
    case Gateway(g) =>
      (match g
       case Check(key, _, _, _) => Operating(j, key)
       case Mutate(key, _, _) => Operating(j, key)
       case CloseCall(key, patient, _) =>
         HasOutcome(j, key) && patient == !j.pool.calls[j.ids[key]].caller.outcome.TimedOut?
       case NeverStarts(_) => false
       case Return(_, _) => false
       case Throw(_) => false
       case _ => true)
    case Own(key, action) =>
      && Pool.Enabled(j.pool, action) && key in j.sys.calls
      && (if action.Refuse? || action.Acquire?
        then key !in j.ids && action.id !in j.ids.Values && j.sys.calls[key].worker.Idle?
          else key in j.ids && j.ids[key] == action.id)
      && (action.Finish? ==> Possible(j.sys.calls[key].worker, action.outcome))
    case Other(action) => Pool.Enabled(j.pool, action) && action.id !in j.ids.Values
  }

  /** What an action of an operation's bounded call is in the gateway's run: one step, or none. */
  function Shadow(worker: Worker, key: Key, action: Pool.Step<Value>): seq<CapabilityRuns.Step> {
    match action
    case Refuse(_) => [NeverStarts(key)]
    case StartFails(_) => [NeverStarts(key)]
    case FindLate(_) => [NeverStarts(key)]
    case Finish(_, outcome) =>
      if worker.Ended? then [] else if outcome.Completed? then [Return(key, outcome.value)] else [Throw(key)]
    case _ => []
  }

  function Next(j: Joint, step: Step): Joint {
    if !Enabled(j, step) then j else
    match step
    case Gateway(Crash) => Joint(Pool.Fresh(j.pool.maximum), CapabilityRuns.Next(j.sys, Crash), map[])
    case Gateway(g) => j.(sys := CapabilityRuns.Next(j.sys, g))
    case Own(key, action) =>
      Joint(Pool.Next(j.pool, action), CapabilityRuns.Run(j.sys, Shadow(j.sys.calls[key].worker, key, action)),
            j.ids[key := action.id])
    case Other(action) => j.(pool := Pool.Next(j.pool, action))
  }

  function Run(j: Joint, steps: seq<Step>): Joint
    decreases |steps|
  {
    if steps == [] then j else Run(Next(j, steps[0]), steps[1..])
  }

  // ----- the gateway's part of a joint run is a run of the gateway -----

  lemma {:induction false} RunJoins(s: Sys, a: seq<CapabilityRuns.Step>, b: seq<CapabilityRuns.Step>)
    ensures CapabilityRuns.Run(s, a + b) == CapabilityRuns.Run(CapabilityRuns.Run(s, a), b)
    decreases |a|
  {
    hide CapabilityRuns.Next;
    if a == [] {
      assert a + b == b;
    } else {
      assert (a + b)[1..] == a[1..] + b;
      RunJoins(CapabilityRuns.Next(s, a[0]), a[1..], b);
    }
  }

  /** The gateway steps of one joint step. */
  function Projected(j: Joint, step: Step): seq<CapabilityRuns.Step> {
    if !Enabled(j, step) then [] else
    match step
    case Gateway(g) => [g]
    case Own(key, action) => Shadow(j.sys.calls[key].worker, key, action)
    case Other(_) => []
  }

  function Projection(j: Joint, steps: seq<Step>): seq<CapabilityRuns.Step>
    decreases |steps|
  {
    if steps == [] then [] else Projected(j, steps[0]) + Projection(Next(j, steps[0]), steps[1..])
  }

  lemma StepProjects(j: Joint, step: Step)
    ensures Next(j, step).sys == CapabilityRuns.Run(j.sys, Projected(j, step))
  {
    hide CapabilityRuns.Next, Pool.Next, Pool.Enabled;
    if step.Gateway? { assert CapabilityRuns.Run(j.sys, [step.step]) == CapabilityRuns.Next(j.sys, step.step); }
  }

  /** What a joint run does to the gateway, a run of the gateway alone does. */
  lemma {:induction false} RunProjects(j: Joint, steps: seq<Step>)
    ensures Run(j, steps).sys == CapabilityRuns.Run(j.sys, Projection(j, steps))
    decreases |steps|
  {
    hide Next, CapabilityRuns.Next, CapabilityRuns.Run, Projected;
    if steps == [] {
      assert CapabilityRuns.Run(j.sys, []) == j.sys by { RunNothing(j.sys); }
    } else {
      var next := Next(j, steps[0]);
      StepProjects(j, steps[0]);
      RunProjects(next, steps[1..]);
      RunJoins(j.sys, Projected(j, steps[0]), Projection(next, steps[1..]));
    }
  }

  lemma RunNothing(s: Sys)
    ensures CapabilityRuns.Run(s, []) == s
  {
    hide CapabilityRuns.Next;
  }

  // ----- what couples a bounded call to its worker -----

  /** The gateway's worker is what the bounded call says of it. */
  predicate Coupled(call: Pool.Call<Value>, worker: Worker) {
    match call.worker
    case Unborn => if call.caller.Returned? then worker.Never? else worker.Idle?
    case Born => worker.Idle?
    case Operating => !worker.Never?
    case _ => |call.outcome| == 1 && worker == Ending(call.outcome[0])
  }

  ghost predicate IdsFit(j: Joint) {
    && (forall k :: k in j.ids ==> k in j.sys.calls && j.ids[k] in j.pool.calls)
    && (forall k, l :: k in j.ids && l in j.ids && j.ids[k] == j.ids[l] ==> k == l)
  }

  ghost predicate Inv(j: Joint) {
    && Pool.Inv(j.pool) && CapabilityRuns.Inv(j.sys) && IdsFit(j)
    && (forall k :: k in j.ids ==> Coupled(j.pool.calls[j.ids[k]], j.sys.calls[k].worker))
  }

  // ----- steps in the gateway -----

  /** A gateway step other than a crash touches the worker of at most the operation it checks. */
  lemma WorkerStays(s: Sys, g: CapabilityRuns.Step, key: Key)
    requires CapabilityRuns.Inv(s) && key in s.calls && !g.Crash? && !g.NeverStarts? && !g.Return? && !g.Throw?
    ensures var s' := CapabilityRuns.Next(s, g);
      && key in s'.calls
      && (s'.calls[key].worker == s.calls[key].worker || (g.Check? && g.key == key && !s'.calls[key].worker.Never?))
  {
    hide CapabilityRuns.Inv, CapabilityRuns.Next;
    match g
    case Execute(_, _, _, _, _, _, _, _) => ReserveLeavesWorker(s, g, key);
    case Check(_, _, _, _) => CheckMovesOne(s, g, key);
    case CloseCall(_, _, _) => CallerLeaves(s, g, key);
    case Mutate(_, _, _) => CallerLeaves(s, g, key);
    case _ => OthersLeaveWorkers(s, g);
  }

  lemma ReserveLeavesWorker(s: Sys, g: CapabilityRuns.Step, key: Key)
    requires CapabilityRuns.Inv(s) && key in s.calls && g.Execute?
    ensures var s' := CapabilityRuns.Next(s, g); key in s'.calls && s'.calls[key].worker == s.calls[key].worker
  {
    hide CapabilityRuns.Inv, Reserve, Dispatches;
    CapabilityTheorems.InvParts(s, key);
    CapabilityTheorems.ReserveFresh(s.ledger, g, key);
  }

  lemma CheckMovesOne(s: Sys, g: CapabilityRuns.Step, key: Key)
    requires key in s.calls && g.Check?
    ensures var s' := CapabilityRuns.Next(s, g);
      && key in s'.calls
      && (s'.calls[key].worker == s.calls[key].worker || (g.key == key && !s'.calls[key].worker.Never?))
  {
    hide CheckDispatch, Cleared;
  }

  lemma CallerLeaves(s: Sys, g: CapabilityRuns.Step, key: Key)
    requires key in s.calls && (g.CloseCall? || g.Mutate?)
    ensures var s' := CapabilityRuns.Next(s, g); key in s'.calls && s'.calls[key].worker == s.calls[key].worker
  {
    hide Close, Cleared, Handed;
  }

  lemma OthersLeaveWorkers(s: Sys, g: CapabilityRuns.Step)
    requires g.Reconcile? || g.AskReadback? || g.CloseReader? || g.Revoke?
    ensures CapabilityRuns.Next(s, g).calls == s.calls
  {
    hide CloseReadback, ReserveReadback, RevokeSubject, Handed;
  }

  lemma GatewayKeeps(j: Joint, g: CapabilityRuns.Step)
    requires Inv(j) && Enabled(j, Gateway(g)) && !g.Crash?
    ensures Inv(Next(j, Gateway(g)))
  {
    hide CapabilityRuns.Inv, Pool.Inv, CapabilityRuns.Next;
    var j' := Next(j, Gateway(g));
    CapabilityTheorems.NextKeeps(j.sys, g);
    forall k | k in j.ids ensures k in j'.sys.calls && Coupled(j.pool.calls[j.ids[k]], j'.sys.calls[k].worker) {
      WorkerStays(j.sys, g, k);
    }
  }

  // ----- steps of a bounded call -----

  /** A step of the pool writes the one call it names. */
  lemma PoolTouchesOne(pool: Pool.Pool<Value>, action: Pool.Step<Value>, id: nat)
    requires Pool.Enabled(pool, action) && id in pool.calls && id != action.id
    ensures id in Pool.Next(pool, action).calls && Pool.Next(pool, action).calls[id] == pool.calls[id]
  {
  }

  /** Its shadow in the gateway writes the one worker it names. */
  lemma ShadowTouchesOne(s: Sys, worker: Worker, key: Key, action: Pool.Step<Value>, k: Key)
    requires k in s.calls
    ensures var s' := CapabilityRuns.Run(s, Shadow(worker, key, action));
      k in s'.calls && (k != key ==> s'.calls[k] == s.calls[k])
  {
    var steps := Shadow(worker, key, action);
    ShadowRuns(s, steps);
    if steps != [] { EndsTouchOne(s, steps[0], k); }
  }

  lemma ShadowRuns(s: Sys, steps: seq<CapabilityRuns.Step>)
    ensures steps == [] ==> CapabilityRuns.Run(s, steps) == s
    ensures |steps| == 1 ==> CapabilityRuns.Run(s, steps) == CapabilityRuns.Next(s, steps[0])
  {
    hide CapabilityRuns.Next;
  }

  lemma EndsTouchOne(s: Sys, g: CapabilityRuns.Step, k: Key)
    requires k in s.calls && (g.NeverStarts? || g.Return? || g.Throw?)
    ensures var s' := CapabilityRuns.Next(s, g); k in s'.calls && (k != g.key ==> s'.calls[k] == s.calls[k])
  {
  }

  lemma {:induction false} ShadowKeeps(s: Sys, steps: seq<CapabilityRuns.Step>)
    requires CapabilityRuns.Inv(s)
    ensures CapabilityRuns.Inv(CapabilityRuns.Run(s, steps))
  {
    hide CapabilityRuns.Inv, CapabilityRuns.Run;
    CapabilityTheorems.RunKeeps(s, steps);
  }

  /** The call and its worker move together. */
  lemma MovesTogether(j: Joint, key: Key, action: Pool.Step<Value>)
    requires Inv(j) && Enabled(j, Own(key, action))
    ensures var j' := Next(j, Own(key, action));
      action.id in j'.pool.calls && key in j'.sys.calls && Coupled(j'.pool.calls[action.id], j'.sys.calls[key].worker)
  {
    hide CapabilityRuns.Inv, CapabilityRuns.Run;
    var steps := Shadow(j.sys.calls[key].worker, key, action);
    ShadowRuns(j.sys, steps);
    assert action.id in j.pool.calls ==> Pool.CallFit(j.pool.calls[action.id]);
    hide Pool.Inv, Pool.CallFit;
    if steps != [] { EndsMean(j.sys, steps[0]); }
  }

  lemma EndsMean(s: Sys, g: CapabilityRuns.Step)
    requires (g.NeverStarts? || g.Return? || g.Throw?) && g.key in s.calls
    ensures var w, s' := s.calls[g.key].worker, CapabilityRuns.Next(s, g);
      && g.key in s'.calls
      && (g.NeverStarts? && w.Idle? ==> s'.calls[g.key].worker == Never)
      && (g.Return? && w.Admitted? ==> s'.calls[g.key].worker == Ended(true, g.value))
      && (g.Throw? && (w.Idle? || w.Admitted?) ==> s'.calls[g.key].worker == Ended(false, None))
  {
  }

  lemma OwnKeeps(j: Joint, key: Key, action: Pool.Step<Value>)
    requires Inv(j) && Enabled(j, Own(key, action))
    ensures Inv(Next(j, Own(key, action)))
  {
    hide CapabilityRuns.Inv, CapabilityRuns.Run, Pool.Inv, Pool.Next, Pool.Enabled, Shadow, Coupled;
    var j' := Next(j, Own(key, action));
    var worker := j.sys.calls[key].worker;
    Pool.NextKeeps(j.pool, action);
    ShadowKeeps(j.sys, Shadow(worker, key, action));
    MovesTogether(j, key, action);
    forall k | k in j.ids && k != key
      ensures k in j'.sys.calls && j'.sys.calls[k] == j.sys.calls[k]
      ensures j.ids[k] in j'.pool.calls && j'.pool.calls[j.ids[k]] == j.pool.calls[j.ids[k]] && j.ids[k] != action.id
    {
      ShadowTouchesOne(j.sys, worker, key, action, k);
      PoolTouchesOne(j.pool, action, j.ids[k]);
    }
  }

  lemma OtherKeeps(j: Joint, action: Pool.Step<Value>)
    requires Inv(j) && Enabled(j, Other(action))
    ensures Inv(Next(j, Other(action)))
  {
    hide CapabilityRuns.Inv, Pool.Inv, Pool.Next, Pool.Enabled, Coupled;
    Pool.NextKeeps(j.pool, action);
    forall k | k in j.ids
      ensures j.ids[k] in Pool.Next(j.pool, action).calls
        && Pool.Next(j.pool, action).calls[j.ids[k]] == j.pool.calls[j.ids[k]]
    {
      PoolTouchesOne(j.pool, action, j.ids[k]);
    }
  }

  lemma NextKeeps(j: Joint, step: Step)
    requires Inv(j)
    ensures Inv(Next(j, step))
  {
    hide Inv, CapabilityRuns.Inv, CapabilityRuns.Next, CapabilityRuns.Run, Pool.Next, Pool.Inv;
    if Enabled(j, step) {
      match step
      case Gateway(g) => if g.Crash? { CrashKeeps(j); } else { GatewayKeeps(j, g); }
      case Own(key, action) => OwnKeeps(j, key, action);
      case Other(action) => OtherKeeps(j, action);
    }
  }

  lemma CrashKeeps(j: Joint)
    requires Inv(j)
    ensures Inv(Next(j, Gateway(Crash)))
  {
    hide CapabilityRuns.Inv, CapabilityRuns.Next, Pool.Inv;
    CapabilityTheorems.NextKeeps(j.sys, Crash);
    Pool.FreshFits<Value>(j.pool.maximum);
  }

  lemma {:induction false} RunKeeps(j: Joint, steps: seq<Step>)
    requires Inv(j)
    ensures Inv(Run(j, steps))
    decreases |steps|
  {
    hide Inv, Next;
    if steps != [] {
      NextKeeps(j, steps[0]);
      RunKeeps(Next(j, steps[0]), steps[1..]);
    }
  }

  ghost predicate Reachable(j: Joint) {
    exists maximum, steps :: j == Run(Begin(maximum), steps)
  }

  lemma ReachableFits(j: Joint)
    requires Reachable(j)
    ensures Inv(j) && CapabilityTheorems.Reachable(j.sys)
  {
    hide Run, CapabilityRuns.Run, CapabilityRuns.Inv;
    var maximum, steps :| j == Run(Begin(maximum), steps);
    CapabilityTheorems.StartFits();
    Pool.FreshFits<Value>(maximum);
    RunKeeps(Begin(maximum), steps);
    RunProjects(Begin(maximum), steps);
  }

  // ----- what the closing transaction is told -----

  /**
   * The outcome the closing transaction is given is the one run returned; the gateway's runs lose nothing by the pool.
   */
  lemma ClosingHearsTheCall(j: Joint, key: Key)
    requires Reachable(j) && HasOutcome(j, key)
    ensures CapabilityTheorems.Reachable(j.sys) && key in j.sys.calls
    ensures var outcome := j.pool.calls[j.ids[key]].caller.outcome;
      Learned(j.sys.calls[key].worker, !outcome.TimedOut?) == Told(outcome)
  {
    hide Reachable, CapabilityTheorems.Reachable, CapabilityRuns.Inv;
    ReachableFits(j);
    assert Coupled(j.pool.calls[j.ids[key]], j.sys.calls[key].worker) && Pool.CallFit(j.pool.calls[j.ids[key]]);
  }

  /** A call that run reported as not started never calls its adapter, then or in any continuation, crashes included. */
  lemma NotStartedNeverEnters(j: Joint, key: Key, steps: seq<Step>)
    requires Reachable(j) && HasOutcome(j, key) && j.pool.calls[j.ids[key]].caller.outcome.NotStarted?
    ensures j.pool.calls[j.ids[key]].runs == 0
    ensures CapabilityTheorems.Untouched(Run(j, steps).sys, key)
  {
    hide Reachable, CapabilityTheorems.Reachable, CapabilityRuns.Inv, Run, CapabilityRuns.Run;
    ReachableFits(j);
    ClosingHearsTheCall(j, key);
    Pool.OutcomeMeaning(j.pool, j.ids[key]);
    CapabilityTheorems.NeverStartedUntouched(j.sys, key);
    RunProjects(j, steps);
    CapabilityTheorems.NeverAskedRun(j.sys, Projection(j, steps), key);
  }

  /** One that ran to a value or an error ran once, and what it returned is what its worker ended with. */
  lemma EndedRanOnce(j: Joint, key: Key)
    requires Reachable(j) && HasOutcome(j, key)
    ensures key in j.sys.calls
    ensures var outcome := j.pool.calls[j.ids[key]].caller.outcome;
      outcome.Completed? || outcome.Error? ==>
        j.pool.calls[j.ids[key]].runs == 1 && j.sys.calls[key].worker == Ending(outcome)
  {
    hide Reachable, CapabilityTheorems.Reachable, CapabilityRuns.Inv;
    ReachableFits(j);
    Pool.OutcomeMeaning(j.pool, j.ids[key]);
    assert Coupled(j.pool.calls[j.ids[key]], j.sys.calls[key].worker) && Pool.CallFit(j.pool.calls[j.ids[key]]);
  }

  /**
   * So honest receipts are the pool's callers' too: a closed receipt without evidence stands for an adapter never
   * called.
   */
  lemma HonestOnThePool(j: Joint, key: Key, steps: seq<Step>)
    requires Reachable(j) && key in j.sys.ledger.operations
    ensures var row := j.sys.ledger.operations[key];
      && (!ReceiptOf(row).mayHaveOccurred ==>
            Evidence(j.sys.observed, key, row, NotApplied) || CapabilityTheorems.Untouched(Run(j, steps).sys, key))
      && (ReceiptOf(row).status.Succeeded? ==> Evidence(j.sys.observed, key, row, Applied))
  {
    hide Reachable, CapabilityTheorems.Reachable, CapabilityRuns.Inv, Run, CapabilityRuns.Run, Evidence;
    ReachableFits(j);
    RunProjects(j, steps);
    CapabilityTheorems.HonestReceipts(j.sys, Projection(j, steps), key);
  }
}
