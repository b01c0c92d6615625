/** Exclusion, re-checking and at-most-once dispatch over whole runs. */
module Exclusion {
  import opened Wrappers
  import opened LedgerSpec
  import opened Transitions
  import opened EventLog
  import Receipts
  import Sets

  // ----- Workspaces and capacity ---------------------------------------------------------

  ghost predicate WorkspacesApart(rows: seq<Attempt>) {
    forall i, j :: 0 <= i < j < |rows| && Active(rows[i].state) && Active(rows[j].state) ==>
      rows[i].workspace != rows[j].workspace
  }

  ghost predicate OneAttemptPerTask(rows: seq<Attempt>) {
    forall i, j :: 0 <= i < j < |rows| ==> rows[i].task != rows[j].task
  }

  /** The largest capacity the account was ever configured with, from the log. */
  function LargestCapacity(events: seq<Event>, account: string): int {
    if events == [] then 0
    else
      var before := LargestCapacity(events[..|events| - 1], account);
      match events[|events| - 1]
      case QuotaObserved(name, _, snapshot, _) =>
        if name == account && snapshot.capacity > before then snapshot.capacity else before
      case _ => before
  }

  lemma LargestCapacityAppend(events: seq<Event>, e: Event, account: string)
    ensures LargestCapacity(events + [e], account) >= LargestCapacity(events, account)
    ensures e.QuotaObserved? && e.account == account ==> LargestCapacity(events + [e], account) >= e.snapshot.capacity
  {
    assert (events + [e])[..|events|] == events;
  }

  ghost predicate CapacityHeld(s: State, account: string) {
    && |ActiveOn(s.attempts, account)| <= LargestCapacity(s.events, account)
    && (account in s.accounts ==> s.accounts[account].capacity <= LargestCapacity(s.events, account))
  }

  // ----- Generations ---------------------------------------------------------------------

  /** An attempt the ledger admitted; one an operator reported reserves nothing. */
  predicate Admitted(r: Attempt) {
    r.estimate != map[]
  }

  /** How many of the first `n` attempts the ledger admitted on the account. */
  function AdmittedCount(rows: seq<Attempt>, account: string, n: nat): nat
    requires n <= |rows|
  {
    if n == 0 then 0
    else AdmittedCount(rows, account, n - 1) + if rows[n - 1].account == account && Admitted(rows[n - 1]) then 1 else 0
  }

  lemma {:induction false} AdmittedCountCong(rows: seq<Attempt>, rows': seq<Attempt>, account: string, n: nat)
    requires n <= |rows| && n <= |rows'|
    requires forall i :: 0 <= i < n ==> rows[i].account == rows'[i].account && rows[i].estimate == rows'[i].estimate
    ensures AdmittedCount(rows, account, n) == AdmittedCount(rows', account, n)
  {
    if n > 0 {
      AdmittedCountCong(rows, rows', account, n - 1);
    }
  }

  ghost predicate GenerationsCount(s: State, account: string) {
    && (account in s.accounts ==> s.accounts[account].generation == AdmittedCount(s.attempts, account, |s.attempts|))
    && (account !in s.accounts ==> AdmittedCount(s.attempts, account, |s.attempts|) == 0)
    && RowsCounted(s.attempts, account)
  }

  /** An admitted attempt of the account has the generation next to those admitted before it. */
  ghost predicate RowCounted(rows: seq<Attempt>, account: string, i: nat)
    requires i < |rows|
  {
    rows[i].account == account && Admitted(rows[i]) ==> rows[i].generation == AdmittedCount(rows, account, i) + 1
  }

  ghost predicate RowsCounted(rows: seq<Attempt>, account: string) {
    forall i :: 0 <= i < |rows| ==> RowCounted(rows, account, i)
  }

  ghost predicate Exclusive(s: State) {
    && WorkspacesApart(s.attempts)
    && OneAttemptPerTask(s.attempts)
    && (forall a :: CapacityHeld(s, a))
    && (forall a :: GenerationsCount(s, a))
  }

  // ----- Shape by shape ------------------------------------------------------------------

  lemma MovedActive(s: State, s': State, i: nat, e: Event, account: string)
    requires Moved(s, s', i, e)
    ensures ActiveOn(s'.attempts, account) <= ActiveOn(s.attempts, account)
    ensures |ActiveOn(s'.attempts, account)| <= |ActiveOn(s.attempts, account)|
  {
    Sets.SubsetCardinality(ActiveOn(s'.attempts, account), ActiveOn(s.attempts, account));
  }

  lemma BornActive(s: State, row: Attempt, account: string)
    ensures var rows' := s.attempts + [row];
            ActiveOn(rows', account) == ActiveOn(s.attempts, account) +
              if row.account == account && Active(row.state) then {|s.attempts|} else {}
  {
    var rows' := s.attempts + [row];
    assert rows'[|s.attempts|] == row;
    assert forall i :: 0 <= i < |s.attempts| ==> rows'[i] == s.attempts[i];
  }

  lemma AdmissionKeepsCapacity(s: State, s': State, row: Attempt, e: Event, alias: string, now: real, account: string)
    requires CapacityHeld(s, account) && BornAdmitted(s, s', row, e, alias, now)
    ensures CapacityHeld(s', account)
  {
    LargestCapacityAppend(s.events, e, account);
    BornActive(s, row, account);
    if row.account == account {
      assert |ActiveOn(s.attempts, account)| < s.accounts[account].capacity;
    }
  }

  lemma ExternalKeepsCapacity(s: State, s': State, row: Attempt, e: Event, account: string)
    requires CapacityHeld(s, account) && BornExternal(s, s', row, e)
    ensures CapacityHeld(s', account)
  {
    LargestCapacityAppend(s.events, e, account);
    BornActive(s, row, account);
  }

  lemma MoveKeepsCapacity(s: State, s': State, i: nat, e: Event, account: string)
    requires CapacityHeld(s, account) && Moved(s, s', i, e)
    ensures CapacityHeld(s', account)
  {
    LargestCapacityAppend(s.events, e, account);
    MovedActive(s, s', i, e, account);
  }

  lemma ShapeKeepsCapacity(s: State, s': State, shape: Shape, account: string)
    requires CapacityHeld(s, account) && HasShape(s, s', shape)
    ensures CapacityHeld(s', account)
  {
    match shape
    case Nothing =>
      if s'.events != s.events {
        var e :| Remark(e) && s'.events == s.events + [e];
        LargestCapacityAppend(s.events, e, account);
      }
    case Applied(r, now) =>
      LargestCapacityAppend(s.events, QuotaObserved(r.name, ObservedAt(r, now), SnapshotOf(r), now), account);
    case Admission(row, e, alias, now) => AdmissionKeepsCapacity(s, s', row, e, alias, now, account);
    case External(row, e) => ExternalKeepsCapacity(s, s', row, e, account);
    case Move(i, e) => MoveKeepsCapacity(s, s', i, e, account);
  }

  /** The same attempts, whatever their states. */
  ghost predicate SameWorks(rows: seq<Attempt>, rows': seq<Attempt>) {
    |rows| == |rows'| && forall i :: 0 <= i < |rows| ==> SameWork(rows[i], rows'[i])
  }

  lemma SameWorksKeepGenerations(s: State, s': State, account: string)
    requires GenerationsCount(s, account) && SameWorks(s.attempts, s'.attempts)
    requires account in s.accounts ==> account in s'.accounts
    requires account in s'.accounts ==>
               s'.accounts[account].generation == if account in s.accounts then s.accounts[account].generation else 0
    ensures GenerationsCount(s', account)
  {
    forall n: nat | n <= |s.attempts|
      ensures AdmittedCount(s'.attempts, account, n) == AdmittedCount(s.attempts, account, n)
    {
      AdmittedCountCong(s.attempts, s'.attempts, account, n);
    }
    forall i | 0 <= i < |s'.attempts| ensures RowCounted(s'.attempts, account, i) {
      assert RowCounted(s.attempts, account, i);
    }
  }

  lemma BornKeepsGenerations(s: State, s': State, row: Attempt, account: string)
    requires GenerationsCount(s, account) && s'.attempts == s.attempts + [row]
    requires account in s.accounts <==> account in s'.accounts
    requires row.account in s.accounts
    requires if row.account == account && Admitted(row)
             then s'.accounts[account].generation == row.generation == s.accounts[account].generation + 1
             else account in s.accounts ==> s'.accounts[account].generation == s.accounts[account].generation
    ensures GenerationsCount(s', account)
  {
    BornCount(s.attempts, row, account);
    BornRowsCounted(s.attempts, row, account);
  }

  lemma BornCount(rows: seq<Attempt>, row: Attempt, account: string)
    ensures forall n: nat :: n <= |rows| ==> AdmittedCount(rows + [row], account, n) == AdmittedCount(rows, account, n)
    ensures AdmittedCount(rows + [row], account, |rows| + 1) ==
            AdmittedCount(rows, account, |rows|) + if row.account == account && Admitted(row) then 1 else 0
  {
    forall n: nat | n <= |rows| ensures AdmittedCount(rows + [row], account, n) == AdmittedCount(rows, account, n) {
      AdmittedCountCong(rows, rows + [row], account, n);
    }
  }

  lemma BornRowsCounted(rows: seq<Attempt>, row: Attempt, account: string)
    requires RowsCounted(rows, account)
    requires row.account == account && Admitted(row) ==> row.generation == AdmittedCount(rows, account, |rows|) + 1
    ensures RowsCounted(rows + [row], account)
  {
    var rows' := rows + [row];
    forall i | 0 <= i < |rows'| ensures RowCounted(rows', account, i) {
      AdmittedCountCong(rows, rows', account, i);
      assert i < |rows| ==> rows'[i] == rows[i] && RowCounted(rows, account, i);
    }
  }

  lemma ShapeKeepsGenerations(s: State, s': State, shape: Shape, account: string)
    requires Linked(s) && GenerationsCount(s, account) && HasShape(s, s', shape)
    ensures GenerationsCount(s', account)
  {
    match shape
    case Admission(row, _, _, _) => BornKeepsGenerations(s, s', row, account);
    case External(row, _) => BornKeepsGenerations(s, s', row, account);
    case _ => SameWorksKeepGenerations(s, s', account);
  }

  lemma ShapeKeepsRowsApart(s: State, s': State, shape: Shape)
    requires WorkspacesApart(s.attempts) && OneAttemptPerTask(s.attempts) && HasShape(s, s', shape)
    ensures WorkspacesApart(s'.attempts) && OneAttemptPerTask(s'.attempts)
  {
    match shape
    case Admission(row, e, alias, now) =>
      forall i | 0 <= i < |s.attempts| && Active(s.attempts[i].state)
        ensures s.attempts[i].workspace != row.workspace
      {
        assert s.attempts[i] in s.attempts;
      }
    case _ =>
  }

  lemma {:induction false} RunExclusive(steps: seq<Step>)
    ensures Exclusive(Run(Empty, steps))
  {
    if steps == [] {
      assert forall a :: ActiveOn([], a) == {};
    } else {
      var n := |steps| - 1;
      RunExclusive(steps[..n]);
      RunEvolves(Empty, steps[..n]);
      var s, s' := Run(Empty, steps[..n]), Run(Empty, steps);
      var shape := StepShape(s, steps[n]);
      ShapeKeepsRowsApart(s, s', shape);
      forall a ensures CapacityHeld(s', a) {
        ShapeKeepsCapacity(s, s', shape, a);
      }
      forall a ensures GenerationsCount(s', a) {
        ShapeKeepsGenerations(s, s', shape, a);
      }
    }
  }

  // ----- Exclusion over every run --------------------------------------------------------

  /** In every reachable state ACTIVE attempts have workspaces of their own, and an account has
      at most as many of them as the largest capacity it was ever configured with. */
  lemma ActiveAttemptsAreExclusive(steps: seq<Step>, i: nat, j: nat, account: string)
    ensures var s := Run(Empty, steps);
            && |ActiveOn(s.attempts, account)| <= LargestCapacity(s.events, account)
            && (i < j < |s.attempts| && Active(s.attempts[i].state) && Active(s.attempts[j].state) ==>
                  s.attempts[i].workspace != s.attempts[j].workspace)
  {
    RunExclusive(steps);
    assert CapacityHeld(Run(Empty, steps), account);
  }

  lemma {:induction false} CountGrows(rows: seq<Attempt>, account: string, i: nat, j: nat)
    requires i < j <= |rows| && rows[i].account == account && Admitted(rows[i])
    ensures AdmittedCount(rows, account, i) < AdmittedCount(rows, account, j)
    decreases j
  {
    if j > i + 1 {
      CountGrows(rows, account, i, j - 1);
    }
  }

  lemma {:induction false} CountReached(rows: seq<Attempt>, account: string, n: nat, g: nat) returns (i: nat)
    requires n <= |rows| && 1 <= g <= AdmittedCount(rows, account, n)
    ensures i < n && rows[i].account == account && Admitted(rows[i]) && AdmittedCount(rows, account, i) + 1 == g
  {
    if AdmittedCount(rows, account, n - 1) >= g {
      i := CountReached(rows, account, n - 1, g);
    } else {
      i := n - 1;
    }
  }

  ghost predicate AdmittedAs(s: State, i: nat, account: string, generation: nat) {
    && i < |s.attempts| && s.attempts[i].account == account
    && Admitted(s.attempts[i]) && s.attempts[i].generation == generation
  }

  ghost predicate GenerationUsed(s: State, account: string, generation: nat) {
    exists i :: AdmittedAs(s, i, account, generation)
  }

  lemma GenerationIsCount(s: State, i: nat, account: string, g: nat)
    requires RowsCounted(s.attempts, account) && i < |s.attempts|
    requires s.attempts[i].account == account && Admitted(s.attempts[i])
    ensures AdmittedAs(s, i, account, g) <==> g == AdmittedCount(s.attempts, account, i) + 1
  {
    assert RowCounted(s.attempts, account, i);
  }

  lemma GenerationIsUsed(s: State, account: string, g: nat)
    requires GenerationsCount(s, account) && account in s.accounts
    ensures GenerationUsed(s, account, g) <==> 1 <= g <= s.accounts[account].generation
  {
    if GenerationUsed(s, account, g) {
      var i :| AdmittedAs(s, i, account, g);
      GenerationIsCount(s, i, account, g);
      CountGrows(s.attempts, account, i, |s.attempts|);
    }
    if 1 <= g <= s.accounts[account].generation {
      var i := CountReached(s.attempts, account, |s.attempts|, g);
      GenerationIsCount(s, i, account, g);
    }
  }

  lemma GenerationsIncrease(s: State, account: string, i: nat, j: nat, g: nat, h: nat)
    requires GenerationsCount(s, account) && i < j && AdmittedAs(s, i, account, g) && AdmittedAs(s, j, account, h)
    ensures g < h
  {
    GenerationIsCount(s, i, account, g);
    GenerationIsCount(s, j, account, h);
    CountGrows(s.attempts, account, i, j);
  }

  /** The admitted generations of an account are 1 to n, where n is the account's own: each is
      used, none beyond n is, and a later attempt has a larger one, so none is used twice. */
  lemma GenerationsAreConsecutive(steps: seq<Step>, account: string)
    requires account in Run(Empty, steps).accounts
    ensures forall g: nat :: GenerationUsed(Run(Empty, steps), account, g) <==>
                             1 <= g <= Run(Empty, steps).accounts[account].generation
    ensures forall i, j, g, h ::
              i < j && AdmittedAs(Run(Empty, steps), i, account, g) && AdmittedAs(Run(Empty, steps), j, account, h) ==> g < h
  {
    RunExclusive(steps);
    var s := Run(Empty, steps);
    assert GenerationsCount(s, account);
    forall g: nat ensures GenerationUsed(s, account, g) <==> 1 <= g <= s.accounts[account].generation {
      GenerationIsUsed(s, account, g);
    }
    forall i: nat, j: nat, g: nat, h: nat | i < j && AdmittedAs(s, i, account, g) && AdmittedAs(s, j, account, h)
      ensures g < h
    {
      GenerationsIncrease(s, account, i, j, g, h);
    }
  }

  // ----- Dispatch ------------------------------------------------------------------------

  /** An attempt becomes `dispatching` exactly when a start delivers it in a state where its
      admission still stands; then the account's reservations, unchanged by the start, fit. */
  lemma DispatchRechecks(s: State, step: Step, i: nat)
    requires Linked(s) && i < |s.attempts|
    ensures i < |Apply(s, step).attempts|
    ensures Dispatches(s, Apply(s, step), i) <==> step.DoStart? && step.aid == i && Starts(s, i, step.generation, step.now)
    ensures Dispatches(s, Apply(s, step), i) ==>
              ActiveOn(Apply(s, step).attempts, s.attempts[i].account) == ActiveOn(s.attempts, s.attempts[i].account)
  {
    match step
    case DoStart(aid, generation, now) => StartDispatches(s, aid, generation, now, i);
    case DoHold(aid, reason, now) => HoldNeverDispatches(s, aid, reason, now, i);
    case DoFinish(aid, generation, receipt, now) => FinishNeverDispatches(s, aid, generation, receipt, now, i);
    case DoResolve(aid, consumed, reason, operator, now) =>
      ResolveNeverDispatches(s, aid, consumed, reason, operator, now, i);
    case DoAccept(aid, proof, family, verdict, now) => AcceptNeverDispatches(s, aid, proof, family, verdict, now, i);
    case _ => RestingNeverDispatches(s, step, i);
  }

  lemma RestingNeverDispatches(s: State, step: Step, i: nat)
    requires Linked(s) && !Moves(step) && i < |s.attempts|
    ensures i < |Apply(s, step).attempts| && !Dispatches(s, Apply(s, step), i)
  {
    var shape := RestingStep(s, step);
    ShapeRecords(s, Apply(s, step), shape, i);
  }

  /** Attempt `i` becomes dispatching between the two states. */
  predicate Dispatches(s: State, s': State, i: nat) {
    i < |s.attempts| && i < |s'.attempts| && !s.attempts[i].state.Dispatching? && s'.attempts[i].state.Dispatching?
  }

  lemma StartDispatches(s: State, aid: nat, generation: nat, now: real, i: nat)
    requires Linked(s) && i < |s.attempts|
    ensures i < |Start(s, aid, generation, now).attempts|
    ensures Dispatches(s, Start(s, aid, generation, now), i) <==> aid == i && Starts(s, i, generation, now)
    ensures Dispatches(s, Start(s, aid, generation, now), i) ==>
              ActiveOn(Start(s, aid, generation, now).attempts, s.attempts[i].account) == ActiveOn(s.attempts, s.attempts[i].account)
  {
  }

  lemma HoldNeverDispatches(s: State, aid: nat, reason: string, now: real, i: nat)
    requires i < |s.attempts|
    ensures i < |Hold(s, aid, reason, now).attempts| && !Dispatches(s, Hold(s, aid, reason, now), i)
  {
  }

  lemma FinishNeverDispatches(s: State, aid: nat, generation: nat, receipt: Receipts.Receipt, now: real, i: nat)
    requires i < |s.attempts|
    ensures i < |Finish(s, aid, generation, receipt, now).attempts| && !Dispatches(s, Finish(s, aid, generation, receipt, now), i)
  {
  }

  lemma AcceptNeverDispatches(s: State, aid: nat, proof: Proof, family: string, verdict: string, now: real, i: nat)
    requires i < |s.attempts|
    ensures i < |Accept(s, aid, proof, family, verdict, now).attempts| && !Dispatches(s, Accept(s, aid, proof, family, verdict, now), i)
  {
  }

  lemma ResolveNeverDispatches(s: State, aid: nat, consumed: bool, reason: string, operator: string, now: real, i: nat)
    requires i < |s.attempts|
    ensures i < |Resolve(s, aid, consumed, reason, operator, now).attempts|
    ensures Resolve(s, aid, consumed, reason, operator, now).attempts[i].state.Dispatching? ==> s.attempts[i].state.Dispatching?
  {
    if ResolveRefusal(s, aid, consumed, reason, operator).None? {
      assert Resolve(s, aid, consumed, reason, operator, now) == Resolved(s, aid, consumed, reason, operator, now);
    }
  }

  /** The step is a delivery that may run its attempt. */
  predicate Delivers(s: State, step: Step) {
    step.DoStart? && Starts(s, step.aid, step.generation, step.now)
  }

  /** Whatever is delivered, however often and however late: a task has at most one attempt, and
      at most one delivery of it ever starts. */
  lemma StartsAtMostOnce(steps: seq<Step>, i: nat, j: nat)
    requires i < j < |steps|
    requires Delivers(Run(Empty, steps[..i]), steps[i]) && Delivers(Run(Empty, steps[..j]), steps[j])
    ensures steps[i].aid < |Run(Empty, steps[..j]).attempts|
    ensures Run(Empty, steps[..j]).attempts[steps[i].aid].task != Run(Empty, steps[..j]).attempts[steps[j].aid].task
  {
    var s, t := Run(Empty, steps[..i]), Run(Empty, steps[..j]);
    assert steps[..i + 1][..i] == steps[..i];
    assert Run(Empty, steps[..i + 1]) == Apply(s, steps[i]);
    PrefixEvolves(steps, i + 1, j);
    RunExclusive(steps[..j]);
    assert t.attempts[steps[i].aid].state != Queued;
  }

  /** An attempt once held is never completed or accepted. */
  lemma HeldNeverCompletes(steps: seq<Step>, i: nat, j: nat, aid: nat)
    requires i <= j <= |steps|
    requires aid < |Run(Empty, steps[..i]).attempts| && Run(Empty, steps[..i]).attempts[aid].state.Held?
    ensures aid < |Run(Empty, steps[..j]).attempts|
    ensures var st := Run(Empty, steps[..j]).attempts[aid].state;
            st.Held? || st.Failed? || st.Abandoned?
  {
    PrefixEvolves(steps, i, j);
  }
}
