/** Reserved, debited and released estimates: what moves capacity, and what is conserved. */
module Reservations {
  import opened Wrappers
  import opened LedgerSpec
  import opened Transitions
  import opened Sums
  import opened QuotaHistory
  import opened EventLog
  import Receipts

  /** The account's abandoned work, whose estimates were released. */
  function ReleasedOn(rows: seq<Attempt>, account: string): set<nat> {
    set i | 0 <= i < |rows| && rows[i].account == account && rows[i].state.Abandoned?
  }

  function AllOn(rows: seq<Attempt>, account: string): set<nat> {
    set i | 0 <= i < |rows| && rows[i].account == account
  }

  function Reserved(s: State, account: string, k: string): real {
    SumOf(s.attempts, ActiveOn(s.attempts, account), k)
  }

  function Debited(s: State, account: string, k: string): real {
    SumOf(s.attempts, DebitedOn(s.attempts, account), k)
  }

  function Released(s: State, account: string, k: string): real {
    SumOf(s.attempts, ReleasedOn(s.attempts, account), k)
  }

  /** Every estimate an account ever took on is reserved, debited or released, and in one of
      these ways only. */
  lemma EstimatesPartition(s: State, account: string, k: string)
    ensures Reserved(s, account, k) + Debited(s, account, k) + Released(s, account, k) ==
            SumOf(s.attempts, AllOn(s.attempts, account), k)
    ensures ActiveOn(s.attempts, account) !! DebitedOn(s.attempts, account) !! ReleasedOn(s.attempts, account)
  {
    var a, d, r := ActiveOn(s.attempts, account), DebitedOn(s.attempts, account), ReleasedOn(s.attempts, account);
    SumUnion(s.attempts, a, d, k);
    SumUnion(s.attempts, a + d, r, k);
    assert a + d + r == AllOn(s.attempts, account);
  }

  // ----- The effect of one move on the sums ----------------------------------------------

  /** What a move of attempt `i` does to the set of the account's rows with a given property. */
  lemma MovedSum(s: State, s': State, i: nat, e: Event, ids: set<nat>, ids': set<nat>, k: string)
    requires Moved(s, s', i, e)
    requires ids - {i} == ids' - {i}
    ensures SumOf(s'.attempts, ids', k) == SumOf(s.attempts, ids, k)
              + (if i in ids' then Est(s.attempts[i], k) else 0.0)
              - (if i in ids then Est(s.attempts[i], k) else 0.0)
  {
    SumCong(s.attempts, s'.attempts, ids', ids', k);
    if i in ids { SumRemove(s.attempts, ids, i, k); }
    if i in ids' { SumRemove(s.attempts, ids', i, k); }
    if i !in ids { assert ids - {i} == ids; }
    if i !in ids' { assert ids' - {i} == ids'; }
  }

  lemma MovedSets(s: State, s': State, i: nat, e: Event, account: string)
    requires Moved(s, s', i, e)
    ensures ActiveOn(s.attempts, account) - {i} == ActiveOn(s'.attempts, account) - {i}
    ensures DebitedOn(s.attempts, account) - {i} == DebitedOn(s'.attempts, account) - {i}
  {
  }

  lemma AppendedSum(s: State, row: Attempt, ids: set<nat>, ids': set<nat>, k: string)
    requires ids' - {|s.attempts|} == ids && |s.attempts| !in ids
    ensures SumOf(s.attempts + [row], ids', k) ==
            SumOf(s.attempts, ids, k) + if |s.attempts| in ids' then Est(row, k) else 0.0
  {
    SumAppend(s.attempts, row, ids', k);
    SumCong(s.attempts, s.attempts, ids, ids', k);
  }

  lemma AppendedSets(s: State, row: Attempt, account: string)
    ensures var rows' := s.attempts + [row];
            && ActiveOn(rows', account) - {|s.attempts|} == ActiveOn(s.attempts, account)
            && DebitedOn(rows', account) - {|s.attempts|} == DebitedOn(s.attempts, account)
            && (|s.attempts| in ActiveOn(rows', account) <==> row.account == account && Active(row.state))
            && |s.attempts| !in ActiveOn(s.attempts, account) + DebitedOn(s.attempts, account)
  {
    var rows' := s.attempts + [row];
    assert rows'[|s.attempts|] == row;
    assert forall i :: 0 <= i < |s.attempts| ==> rows'[i] == s.attempts[i];
  }

  // ----- Nothing automatic frees capacity ------------------------------------------------

  /** The change a shape makes to an account's reservations. */
  lemma ShapeReserves(s: State, s': State, shape: Shape, account: string, k: string)
    requires HasShape(s, s', shape)
    ensures Reserved(s', account, k) == Reserved(s, account, k) +
      match shape
      case Admission(row, _, _, _) => if row.account == account then Est(row, k) else 0.0
      case Move(i, _) =>
        if s.attempts[i].account == account && Active(s.attempts[i].state) && !Active(s'.attempts[i].state)
        then -Est(s.attempts[i], k) else 0.0
      case _ => 0.0
  {
    match shape
    case Nothing =>
    case Applied(_, _) =>
    case Admission(row, _, _, _) =>
      AppendedSets(s, row, account);
      AppendedSum(s, row, ActiveOn(s.attempts, account), ActiveOn(s'.attempts, account), k);
    case External(row, _) =>
      AppendedSets(s, row, account);
      AppendedSum(s, row, ActiveOn(s.attempts, account), ActiveOn(s'.attempts, account), k);
    case Move(i, e) =>
      MovedSets(s, s', i, e, account);
      MovedSum(s, s', i, e, ActiveOn(s.attempts, account), ActiveOn(s'.attempts, account), k);
      assert i in ActiveOn(s.attempts, account) <==> s.attempts[i].account == account && Active(s.attempts[i].state);
      assert i in ActiveOn(s'.attempts, account) <==> s.attempts[i].account == account && Active(s'.attempts[i].state);
  }

  /** The only two ways a reservation ends: a completion with a receipt that has no fault, and
      a resolution an operator who is not the grid itself attests. */
  predicate Frees(s: State, step: Step, i: nat) {
    && i < |s.attempts|
    && match step
       case DoFinish(aid, generation, receipt, _) =>
         && aid == i && s.attempts[i].state.Dispatching? && s.attempts[i].generation == generation
         && s.attempts[i].task in s.tasks
         && Receipts.Faults(receipt, s.tasks[s.attempts[i].task].spec.model, s.tasks[s.attempts[i].task].spec.manifest) == []
       case DoResolve(aid, _, reason, operator, _) =>
         aid == i && s.attempts[i].state.Held? && AttestationRefusal(reason, operator).None?
       case _ => false
  }

  /** Attempt `i` leaves the ACTIVE set between the two states. */
  predicate Leaves(s: State, s': State, i: nat) {
    i < |s.attempts| && i < |s'.attempts| && Active(s.attempts[i].state) && !Active(s'.attempts[i].state)
  }

  lemma FinishFrees(s: State, aid: nat, generation: nat, receipt: Receipts.Receipt, now: real, i: nat)
    requires Linked(s)
    ensures Leaves(s, Finish(s, aid, generation, receipt, now), i) <==> Frees(s, DoFinish(aid, generation, receipt, now), i)
  {
    var s' := Finish(s, aid, generation, receipt, now);
    if FinishRefusal(s, aid, generation, receipt).None? {
      assert s'.attempts[aid].state == Completed;
      assert forall j :: 0 <= j < |s.attempts| && j != aid ==> s'.attempts[j] == s.attempts[j];
    }
  }

  lemma ResolveFrees(s: State, aid: nat, consumed: bool, reason: string, operator: string, now: real, i: nat)
    requires Linked(s)
    ensures Leaves(s, Resolve(s, aid, consumed, reason, operator, now), i) <==>
            Frees(s, DoResolve(aid, consumed, reason, operator, now), i)
  {
    var why := AttestationRefusal(reason, operator);
    if ResolveRefusal(s, aid, consumed, reason, operator).None? {
      ResolvedLeaves(s, aid, consumed, reason, operator, now, i);
      assert why.None?;
    } else if why.None? {
      assert aid >= |s.attempts| || !s.attempts[aid].state.Held?;
    }
  }

  lemma ResolvedLeaves(s: State, aid: nat, consumed: bool, reason: string, operator: string, now: real, i: nat)
    requires aid < |s.attempts| && s.attempts[aid].state.Held?
    requires consumed ==> s.attempts[aid].account in s.accounts
    ensures Leaves(s, Resolved(s, aid, consumed, reason, operator, now), i) <==> i == aid
  {
  }

  lemma StartLeavesNone(s: State, aid: nat, generation: nat, now: real, i: nat)
    ensures !Leaves(s, Start(s, aid, generation, now), i)
  {
  }

  lemma HoldLeavesNone(s: State, aid: nat, reason: string, now: real, i: nat)
    ensures !Leaves(s, Hold(s, aid, reason, now), i)
  {
  }

  lemma AcceptLeavesNone(s: State, aid: nat, proof: Proof, family: string, verdict: string, now: real, i: nat)
    ensures !Leaves(s, Accept(s, aid, proof, family, verdict, now), i)
  {
  }

  lemma RestingLeavesNone(s: State, step: Step, i: nat)
    requires Linked(s) && !Moves(step)
    ensures !Leaves(s, Apply(s, step), i)
  {
    if i < |s.attempts| {
      var shape := RestingStep(s, step);
      ShapeRecords(s, Apply(s, step), shape, i);
    }
  }

  lemma LeavingIsFreeing(s: State, step: Step, i: nat)
    requires Linked(s)
    ensures Leaves(s, Apply(s, step), i) <==> Frees(s, step, i)
  {
    match step
    case DoFinish(aid, generation, receipt, now) => FinishFrees(s, aid, generation, receipt, now, i);
    case DoResolve(aid, consumed, reason, operator, now) => ResolveFrees(s, aid, consumed, reason, operator, now, i);
    case DoStart(aid, generation, now) => StartLeavesNone(s, aid, generation, now, i);
    case DoHold(aid, reason, now) => HoldLeavesNone(s, aid, reason, now, i);
    case DoAccept(aid, proof, family, verdict, now) => AcceptLeavesNone(s, aid, proof, family, verdict, now, i);
    case _ => RestingLeavesNone(s, step, i);
  }

  /** An account's sum of ACTIVE estimates rises only by an admission, by its estimate, and
      falls only when a step frees an attempt, by that attempt's estimate. Starting, holding,
      deferring, accepting and configuring leave it unchanged. */
  lemma NothingAutomaticFrees(s: State, step: Step, account: string, k: string)
    requires Linked(s)
    ensures !step.DoClaim? && !step.DoFinish? && !step.DoResolve? ==>
              Reserved(Apply(s, step), account, k) == Reserved(s, account, k)
    ensures step.DoClaim? ==>
              Reserved(Apply(s, step), account, k) == Reserved(s, account, k) +
                if ClaimRefusal(s, step.task, step.alias, step.estimate, step.now).None? && s.aliases[step.alias] == account &&
                   k in step.estimate
                then step.estimate[k] else 0.0
    ensures step.DoFinish? || step.DoResolve? ==>
              Reserved(Apply(s, step), account, k) == Reserved(s, account, k) -
                if Frees(s, step, Target(step)) && s.attempts[Target(step)].account == account
                then Est(s.attempts[Target(step)], k) else 0.0
  {
    if Moves(step) {
      MovingReserves(s, step, account, k);
    } else {
      var shape := RestingStep(s, step);
      ShapeReserves(s, Apply(s, step), shape, account, k);
    }
  }

  lemma MovingReserves(s: State, step: Step, account: string, k: string)
    requires Linked(s) && Moves(step)
    ensures Reserved(Apply(s, step), account, k) == Reserved(s, account, k) -
              if Frees(s, step, Target(step)) && s.attempts[Target(step)].account == account
              then Est(s.attempts[Target(step)], k) else 0.0
  {
    MovingStep(s, step);
    LeavingIsFreeing(s, step, Target(step));
    var s' := Apply(s, step);
    if s' != s {
      ShapeReserves(s, s', Move(Target(step), s'.events[|s.events|]), account, k);
    }
  }

  // ----- Conservation --------------------------------------------------------------------

  /** The account's ACTIVE estimates fit every window it has. */
  ghost predicate Fits(s: State, account: string) {
    && account in s.accounts
    && forall k :: k in s.accounts[account].windows ==> Reserved(s, account, k) <= s.accounts[account].windows[k]
  }

  /** What a window of the account still has, with what was debited on it. */
  function Whole(s: State, account: string, k: string): real
    requires account in s.accounts && k in s.accounts[account].windows
  {
    s.accounts[account].windows[k] + Debited(s, account, k)
  }

  ghost predicate SameWhole(s: State, s': State, account: string) {
    && account in s.accounts && account in s'.accounts
    && s'.accounts[account].windows.Keys == s.accounts[account].windows.Keys
    && forall k :: k in s.accounts[account].windows ==> Whole(s', account, k) == Whole(s, account, k)
  }

  lemma MoveConservesWindow(s: State, s': State, i: nat, e: Event, account: string, k: string)
    requires Linked(s) && PositiveEstimates(s.attempts) && Moved(s, s', i, e) && Fits(s, account)
    requires k in s.accounts[account].windows
    ensures account in s'.accounts && k in s'.accounts[account].windows
    ensures Reserved(s', account, k) <= s'.accounts[account].windows[k]
    ensures Whole(s', account, k) == Whole(s, account, k)
    ensures Debits(s'.attempts[i].state) && s.attempts[i].account == account ==>
              s.accounts[account].windows[k] - Est(s.attempts[i], k) >= 0.0
  {
    ShapeReserves(s, s', Move(i, e), account, k);
    MovedSets(s, s', i, e, account);
    MovedSum(s, s', i, e, DebitedOn(s.attempts, account), DebitedOn(s'.attempts, account), k);
    SumNonNegative(s'.attempts, ActiveOn(s'.attempts, account), k);
    assert Est(s.attempts[i], k) >= 0.0;
  }

  lemma MoveConserves(s: State, s': State, i: nat, e: Event, account: string)
    requires Linked(s) && PositiveEstimates(s.attempts) && Moved(s, s', i, e) && Fits(s, account)
    ensures Fits(s', account) && SameWhole(s, s', account)
  {
    forall k | k in s.accounts[account].windows
      ensures k in s'.accounts[account].windows
      ensures Reserved(s', account, k) <= s'.accounts[account].windows[k]
      ensures Whole(s', account, k) == Whole(s, account, k)
    {
      MoveConservesWindow(s, s', i, e, account, k);
    }
  }

  lemma AdmissionConserves(s: State, s': State, row: Attempt, e: Event, alias: string, now: real, account: string)
    requires Linked(s) && BornAdmitted(s, s', row, e, alias, now) && Fits(s, account)
    ensures Fits(s', account) && SameWhole(s, s', account)
  {
    forall k | k in s.accounts[account].windows
      ensures Reserved(s', account, k) <= s'.accounts[account].windows[k]
      ensures Whole(s', account, k) == Whole(s, account, k)
    {
      ShapeReserves(s, s', Admission(row, e, alias, now), account, k);
      AppendedSets(s, row, account);
      AppendedSum(s, row, DebitedOn(s.attempts, account), DebitedOn(s'.attempts, account), k);
      assert s'.attempts[|s.attempts|] == row;
      if row.account == account {
        assert !Exceeds(s.attempts, ActiveOn(s.attempts, account), row.estimate, s.accounts[account].windows);
        assert k in row.estimate;
      }
    }
  }

  lemma ExternalConserves(s: State, s': State, row: Attempt, e: Event, account: string)
    requires Linked(s) && BornExternal(s, s', row, e) && Fits(s, account)
    ensures Fits(s', account) && SameWhole(s, s', account)
  {
    forall k | k in s.accounts[account].windows
      ensures Reserved(s', account, k) <= s'.accounts[account].windows[k]
      ensures Whole(s', account, k) == Whole(s, account, k)
    {
      ShapeReserves(s, s', External(row, e), account, k);
      AppendedSets(s, row, account);
      AppendedSum(s, row, DebitedOn(s.attempts, account), DebitedOn(s'.attempts, account), k);
      assert Est(row, k) == 0.0;
    }
  }

  lemma ShapeConserves(s: State, s': State, shape: Shape, account: string)
    requires Linked(s) && PositiveEstimates(s.attempts) && HasShape(s, s', shape) && Fits(s, account)
    requires shape.Applied? ==> shape.reading.name != account
    ensures Fits(s', account) && SameWhole(s, s', account)
  {
    match shape
    case Nothing =>
    case Applied(_, _) =>
    case Admission(row, e, alias, now) => AdmissionConserves(s, s', row, e, alias, now, account);
    case External(row, e) => ExternalConserves(s, s', row, e, account);
    case Move(i, e) => MoveConserves(s, s', i, e, account);
  }

  /** No step of the run applies a new observation to the account. */
  ghost predicate Unobserved(s: State, steps: seq<Step>, account: string) {
    forall j :: 0 <= j < |steps| ==> !Observes(Run(s, steps[..j]), steps[j], account)
  }

  /** From any state in which an account's reservations fit its windows, until its next applied
      observation, they keep fitting under every interleaving; what remains in a window and what
      was debited on it always add up to the same, so no debit is ever clipped. */
  lemma {:induction false} QuotaIsConserved(s: State, steps: seq<Step>, account: string)
    requires Linked(s) && QuotaSound(s) && Fits(s, account) && Unobserved(s, steps, account)
    ensures Linked(Run(s, steps)) && QuotaSound(Run(s, steps))
    ensures Fits(Run(s, steps), account) && SameWhole(s, Run(s, steps), account)
  {
    if steps != [] {
      var n := |steps| - 1;
      forall j | 0 <= j < n ensures !Observes(Run(s, steps[..n][..j]), steps[..n][j], account) {
        assert steps[..n][..j] == steps[..j];
      }
      QuotaIsConserved(s, steps[..n], account);
      var mid := Run(s, steps[..n]);
      var shape := StepShape(mid, steps[n]);
      ShapeConserves(mid, Run(s, steps), shape, account);
      ShapeKeepsQuota(mid, Run(s, steps), shape);
      ShapeKeepsLinked(mid, Run(s, steps), shape);
    }
  }

  /** What is left in a window; a window the account does not have has nothing. */
  function Remaining(s: State, account: string, k: string): real {
    if account in s.accounts && k in s.accounts[account].windows then s.accounts[account].windows[k] else 0.0
  }

  /** Along such a run every debit of the account is the plain difference. */
  lemma DebitsAreNeverClipped(s: State, steps: seq<Step>, step: Step, account: string, k: string)
    requires Linked(s) && QuotaSound(s) && Fits(s, account) && Unobserved(s, steps, account)
    requires k in s.accounts[account].windows
    requires Frees(Run(s, steps), step, Target(step)) && (step.DoResolve? ==> step.consumed)
    requires Run(s, steps).attempts[Target(step)].account == account
    ensures Remaining(Apply(Run(s, steps), step), account, k) ==
            Remaining(Run(s, steps), account, k) - Est(Run(s, steps).attempts[Target(step)], k)
    ensures Remaining(Apply(Run(s, steps), step), account, k) >= 0.0
  {
    QuotaIsConserved(s, steps, account);
    DebitIsPlain(Run(s, steps), step, account, k);
  }

  lemma DebitIsPlain(s: State, step: Step, account: string, k: string)
    requires Linked(s) && PositiveEstimates(s.attempts) && Fits(s, account)
    requires k in s.accounts[account].windows
    requires Frees(s, step, Target(step)) && (step.DoResolve? ==> step.consumed)
    requires s.attempts[Target(step)].account == account
    ensures Remaining(Apply(s, step), account, k) == Remaining(s, account, k) - Est(s.attempts[Target(step)], k)
    ensures Remaining(Apply(s, step), account, k) >= 0.0
  {
    LeavingIsFreeing(s, step, Target(step));
    MovingStep(s, step);
    LeavesByDebit(s, step, Target(step));
    var s' := Apply(s, step);
    MovedDebitIsPlain(s, s', Target(step), s'.events[|s.events|], account, k);
  }

  lemma MovedDebitIsPlain(s: State, s': State, i: nat, e: Event, account: string, k: string)
    requires Linked(s) && PositiveEstimates(s.attempts) && Moved(s, s', i, e) && Fits(s, account)
    requires k in s.accounts[account].windows && s.attempts[i].account == account && Debits(s'.attempts[i].state)
    ensures Remaining(s', account, k) == Remaining(s, account, k) - Est(s.attempts[i], k)
    ensures Remaining(s', account, k) >= 0.0
  {
    MoveConservesWindow(s, s', i, e, account, k);
  }

  lemma FinishDebits(s: State, aid: nat, generation: nat, receipt: Receipts.Receipt, now: real)
    requires Leaves(s, Finish(s, aid, generation, receipt, now), aid)
    ensures Finish(s, aid, generation, receipt, now).attempts[aid].state.Completed?
  {
  }

  lemma ConsumedDebits(s: State, aid: nat, reason: string, operator: string, now: real)
    requires Leaves(s, Resolve(s, aid, true, reason, operator, now), aid)
    ensures Resolve(s, aid, true, reason, operator, now).attempts[aid].state.Failed?
  {
    assert ResolveRefusal(s, aid, true, reason, operator).None?;
  }

  lemma LeavesByDebit(s: State, step: Step, i: nat)
    requires Leaves(s, Apply(s, step), i) && i == Target(step)
    requires step.DoFinish? || (step.DoResolve? && step.consumed)
    ensures Debits(Apply(s, step).attempts[i].state)
  {
    match step
    case DoFinish(aid, generation, receipt, now) => FinishDebits(s, aid, generation, receipt, now);
    case DoResolve(aid, consumed, reason, operator, now) => ConsumedDebits(s, aid, reason, operator, now);
  }
}
