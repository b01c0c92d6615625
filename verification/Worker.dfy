/** One delivery of an attempt to a worker (src/inference_grid/worker.py, `execute`): start it,
    run the adapter, check what it left, then finish or hold. Other actors' transactions may
    happen while the adapter runs and before the attempt is settled. */
module Worker {
  import opened Wrappers
  import opened LedgerSpec
  import opened LedgerObject
  import opened Transitions
  import opened Exclusion
  import Receipts

  /** What the outside world does to one delivery. */
  datatype World =
    | PreparationFails                                             // before the adapter is started
    | AdapterFails                                                 // timeout, output limit, bad exit
    | AdapterReports(receipt: Receipts.Receipt, artifactsMatch: bool)

  datatype Delivery = DuplicateOrStale | Completed | Held

  /** The attempt is settled: no one may still be running it. */
  predicate Settled(st: AttemptState) {
    !st.Queued? && !st.Dispatching?
  }

  method Execute(ledger: Ledger, aid: nat, generation: nat, world: World, meanwhile: seq<Step>, later: seq<Step>,
                 started: real, ended: real)
    returns (result: Delivery, adapterRuns: nat, ghost trace: seq<Step>)
    requires Linked(ledger.View())
    modifies ledger
    ensures ledger.View() == Run(old(ledger.View()), [DoStart(aid, generation, started)] + trace)
    ensures result.DuplicateOrStale? <==> !Starts(old(ledger.View()), aid, generation, started)
    ensures result.DuplicateOrStale? ==> adapterRuns == 0 && trace == []
    ensures OwnClaims(trace, meanwhile, later)
    ensures adapterRuns <= 1 && (adapterRuns == 1 <==> !result.DuplicateOrStale? && !world.PreparationFails?)
    ensures !result.DuplicateOrStale? ==> aid < |ledger.attempts| && Settled(ledger.attempts[aid].state)
    ensures result.Completed? ==>
              world.AdapterReports? && world.artifactsMatch && FinishedWith(ledger.View(), aid, world.receipt)
  {
    ghost var s0 := ledger.View();
    var row := ledger.StartAttempt(aid, generation, started);
    RunOne(s0, DoStart(aid, generation, started));
    RunEvolves(s0, [DoStart(aid, generation, started)]);
    if row.None? {
      assert [DoStart(aid, generation, started)] + [] == [DoStart(aid, generation, started)];
      return DuplicateOrStale, 0, [];
    }
    adapterRuns := if world.PreparationFails? then 0 else 1;
    result, trace := Supervise(ledger, aid, generation, row.value.1, world, meanwhile, later, ended);
    RunSplit(s0, [DoStart(aid, generation, started)], trace);
  }

  /** A worker claims nothing: every claim in the trace is another actor's. */
  ghost predicate OwnClaims(trace: seq<Step>, meanwhile: seq<Step>, later: seq<Step>) {
    forall step :: step in trace && step.DoClaim? ==> step in meanwhile || step in later
  }

  /** The attempt is completed with this receipt, and the receipt fits its task. */
  ghost predicate FinishedWith(s: State, aid: nat, receipt: Receipts.Receipt) {
    && aid < |s.attempts| && s.attempts[aid].task in s.tasks
    && s.attempts[aid].state.Completed? && s.attempts[aid].proof == Some(NativeReceipt(receipt))
    && var spec := s.tasks[s.attempts[aid].task].spec;
    && Receipts.Acceptable(receipt, spec.model, spec.manifest)
  }

  /** The adapter's run and the settlement of the attempt, which has left the queue. */
  method Supervise(ledger: Ledger, aid: nat, generation: nat, spec: Spec, world: World, meanwhile: seq<Step>,
                   later: seq<Step>, ended: real)
    returns (result: Delivery, ghost trace: seq<Step>)
    requires Linked(ledger.View())
    requires aid < |ledger.attempts| && !ledger.attempts[aid].state.Queued?
    modifies ledger
    ensures ledger.View() == Run(old(ledger.View()), trace)
    ensures OwnClaims(trace, meanwhile, later)
    ensures !result.DuplicateOrStale?
    ensures aid < |ledger.attempts| && Settled(ledger.attempts[aid].state)
    ensures result.Completed? ==>
              world.AdapterReports? && world.artifactsMatch && FinishedWith(ledger.View(), aid, world.receipt)
  {
    ghost var s0 := ledger.View();
    ledger.Interfere(meanwhile);
    LeftTheQueue(s0, meanwhile, aid);
    if world.AdapterReports? && world.artifactsMatch {
      var finished := FinishOn(ledger, aid, generation, spec, world.receipt, ended);
      if finished {
        RunFinish(s0, meanwhile, aid, generation, world.receipt, ended);
        return Delivery.Completed, meanwhile + [DoFinish(aid, generation, world.receipt, ended)];
      }
    }
    ghost var tail := HoldOn(ledger, aid, later, ended);
    RunSplit(s0, meanwhile, tail);
    return Delivery.Held, meanwhile + tail;
  }

  /** The failure path of a delivery. */
  method HoldOn(ledger: Ledger, aid: nat, later: seq<Step>, now: real) returns (ghost trace: seq<Step>)
    requires Linked(ledger.View())
    requires aid < |ledger.attempts| && !ledger.attempts[aid].state.Queued?
    modifies ledger
    ensures ledger.View() == Run(old(ledger.View()), trace)
    ensures OwnClaims(trace, [], later)
    ensures aid < |ledger.attempts| && Settled(ledger.attempts[aid].state)
  {
    ghost var s := ledger.View();
    ledger.Interfere(later);
    LeftTheQueue(s, later, aid);
    ledger.HoldAttempt(aid, "worker failure", now);
    RunHold(s, later, aid, "worker failure", now);
    return later + [DoHold(aid, "worker failure", now)];
  }

  lemma LeftTheQueue(s: State, steps: seq<Step>, aid: nat)
    requires Linked(s) && aid < |s.attempts| && !s.attempts[aid].state.Queued?
    ensures Linked(Run(s, steps))
    ensures aid < |Run(s, steps).attempts| && !Run(s, steps).attempts[aid].state.Queued?
  {
    RunEvolves(s, steps);
  }

  /** Validates the receipt against the spec the attempt was started with, then finishes. */
  method FinishOn(ledger: Ledger, aid: nat, generation: nat, spec: Spec, receipt: Receipts.Receipt, now: real)
    returns (finished: bool)
    modifies ledger
    ensures finished ==> ledger.View() == Finish(old(ledger.View()), aid, generation, receipt, now) &&
                         FinishedWith(ledger.View(), aid, receipt)
    ensures !finished ==> ledger.View() == old(ledger.View())
  {
    var faults := Receipts.ValidateReceipt(receipt, spec.model, spec.manifest);
    if faults != [] { return false; }
    ghost var s := ledger.View();
    var refused := ledger.FinishAttempt(aid, generation, receipt, now);
    if refused.None? {
      FinishLeaves(s, aid, generation, receipt, now);
    }
    return refused.None?;
  }

  lemma FinishLeaves(s: State, aid: nat, generation: nat, receipt: Receipts.Receipt, now: real)
    requires FinishRefusal(s, aid, generation, receipt).None?
    ensures FinishedWith(Finish(s, aid, generation, receipt, now), aid, receipt)
  {
    var spec := s.tasks[s.attempts[aid].task].spec;
    Receipts.FaultFreeIsAcceptable(receipt, spec.model, spec.manifest);
  }

  lemma RunFinish(s: State, steps: seq<Step>, aid: nat, generation: nat, receipt: Receipts.Receipt, now: real)
    ensures Run(s, steps + [DoFinish(aid, generation, receipt, now)]) == Finish(Run(s, steps), aid, generation, receipt, now)
  {
    RunAppend(s, steps, DoFinish(aid, generation, receipt, now));
  }

  lemma RunHold(s: State, steps: seq<Step>, aid: nat, reason: string, now: real)
    ensures Run(s, steps + [DoHold(aid, reason, now)]) == Hold(Run(s, steps), aid, reason, now)
  {
    RunAppend(s, steps, DoHold(aid, reason, now));
  }

  /** How many deliveries of a task may have reached its adapter during a run: those whose start
      succeeded. */
  ghost function DispatchCount(steps: seq<Step>, task: string): nat {
    if steps == [] then 0
    else
      var n := |steps| - 1;
      var s := Run(Empty, steps[..n]);
      DispatchCount(steps[..n], task) + if Delivers(s, steps[n]) && s.attempts[steps[n].aid].task == task then 1 else 0
  }

  /** Some attempt of the task has left the queue. */
  ghost predicate Dispatched(s: State, task: string) {
    exists i :: 0 <= i < |s.attempts| && s.attempts[i].task == task && !s.attempts[i].state.Queued?
  }

  lemma StaysDispatched(s: State, s': State, task: string)
    requires Evolves(s, s') && Dispatched(s, task)
    ensures Dispatched(s', task)
  {
    var i :| 0 <= i < |s.attempts| && s.attempts[i].task == task && !s.attempts[i].state.Queued?;
    assert s'.attempts[i].task == task;
  }

  /** Over any run, with any duplicate and stale deliveries, a task is dispatched at most once. */
  lemma {:induction false} DispatchedAtMostOnce(steps: seq<Step>, task: string)
    ensures DispatchCount(steps, task) <= 1
    ensures DispatchCount(steps, task) == 1 ==> Dispatched(Run(Empty, steps), task)
  {
    if steps != [] {
      var n := |steps| - 1;
      DispatchedAtMostOnce(steps[..n], task);
      RunEvolves(Empty, steps[..n]);
      RunExclusive(steps[..n]);
      var s, s' := Run(Empty, steps[..n]), Run(Empty, steps);
      RunOne(s, steps[n]);
      RunEvolves(s, [steps[n]]);
      if Dispatched(s, task) {
        StaysDispatched(s, s', task);
      }
      if Delivers(s, steps[n]) && s.attempts[steps[n].aid].task == task {
        DeliveryDispatches(s, steps[n], task);
      }
    }
  }

  /** A delivery finds its task not dispatched, and leaves it dispatched. */
  lemma DeliveryDispatches(s: State, step: Step, task: string)
    requires OneAttemptPerTask(s.attempts)
    requires Delivers(s, step) && s.attempts[step.aid].task == task
    ensures !Dispatched(s, task) && Dispatched(Apply(s, step), task)
  {
    var s' := Apply(s, step);
    assert s'.attempts[step.aid].state.Dispatching? && s'.attempts[step.aid].task == task;
  }
}
