/** `hold_abandoned`: one read of the attempts that have been dispatching too long, then one hold
    each, in transactions of their own between which anyone may act. */
module HoldAbandoned {
  import opened Wrappers
  import opened LedgerSpec
  import opened LedgerObject
  import opened Transitions

  const Recovery := "worker recovery requires native reconciliation"

  predicate Overdue(row: Attempt, before: real) {
    row.state.Dispatching? && row.updated < before
  }

  /** The overdue rows, in the order of the table. */
  function OverdueRows(rows: seq<Attempt>, before: real): (ids: seq<nat>)
    ensures forall i: nat :: i in ids <==> i < |rows| && Overdue(rows[i], before)
    ensures forall m, n :: 0 <= m < n < |ids| ==> ids[m] < ids[n]
  {
    if rows == [] then []
    else
      var n := |rows| - 1;
      assert forall m :: 0 <= m < |OverdueRows(rows[..n], before)| ==> OverdueRows(rows[..n], before)[m] in OverdueRows(rows[..n], before);
      OverdueRows(rows[..n], before) + if Overdue(rows[n], before) then [n] else []
  }

  /** Before the hold of the n-th row others perform `others[n]`; the hold reads the clock as
      `clock[n]`. */
  function Sweep(ids: seq<nat>, others: seq<seq<Step>>, clock: seq<real>): seq<Step>
    requires |ids| <= |others| && |ids| <= |clock|
  {
    if ids == [] then []
    else
      var n := |ids| - 1;
      Sweep(ids[..n], others, clock) + others[n] + [DoHold(ids[n], Recovery, clock[n])]
  }

  method HoldAbandoned(ledger: Ledger, before: real, others: seq<seq<Step>>, clock: seq<real>) returns (count: nat)
    requires |ledger.attempts| <= |others| && |ledger.attempts| <= |clock|
    modifies ledger
    ensures var ids := OverdueRows(old(ledger.attempts), before);
            && count == |ids| && |ids| <= |old(ledger.attempts)|
            && ledger.View() == Run(old(ledger.View()), Sweep(ids, others, clock))
  {
    var ids := Select(ledger.attempts, before);
    ghost var s := ledger.View();
    for n := 0 to |ids|
      invariant ledger.View() == Run(s, Sweep(ids[..n], others, clock))
    {
      ledger.Interfere(others[n]);
      ledger.HoldAttempt(ids[n], Recovery, clock[n]);
      assert ids[..n + 1][..n] == ids[..n] && ids[..n + 1][n] == ids[n];
      SweepOneMore(s, ids[..n + 1], others, clock);
    }
    assert ids[..|ids|] == ids;
    count := |ids|;
  }

  method Select(rows: seq<Attempt>, before: real) returns (ids: seq<nat>)
    ensures ids == OverdueRows(rows, before) && |ids| <= |rows|
  {
    ids := [];
    for n := 0 to |rows|
      invariant ids == OverdueRows(rows[..n], before) && |ids| <= n
    {
      assert rows[..n + 1][..n] == rows[..n];
      if Overdue(rows[n], before) {
        ids := ids + [n];
      }
    }
    assert rows[..|rows|] == rows;
  }

  predicate AllDispatching(s: State, ids: seq<nat>) {
    forall n :: 0 <= n < |ids| ==> ids[n] < |s.attempts| && s.attempts[ids[n]].state.Dispatching?
  }

  // ----- What a sweep does ---------------------------------------------------------------

  predicate Dispatched(s: State, i: nat) {
    i < |s.attempts| && (s.attempts[i].state.Queued? || s.attempts[i].state.Dispatching?)
  }

  lemma HoldStops(s: State, i: nat, now: real)
    requires i < |s.attempts| && !s.attempts[i].state.Queued?
    ensures i < |Hold(s, i, Recovery, now).attempts| && !Dispatched(Hold(s, i, Recovery, now), i)
  {
  }

  lemma EvolvingStaysStopped(s: State, s': State, i: nat)
    requires Evolves(s, s') && i < |s.attempts|
    ensures s.attempts[i].state.Dispatching? ==> !s'.attempts[i].state.Queued?
    ensures !Dispatched(s, i) ==> !Dispatched(s', i)
  {
  }

  /** Others act, then one more attempt is held: it and those stopped before stay stopped. */
  lemma StopOneMore(mid: State, more: seq<Step>, i: nat, now: real, stopped: seq<nat>)
    requires Linked(mid) && i < |mid.attempts| && !mid.attempts[i].state.Queued?
    requires forall j :: j in stopped ==> j < |mid.attempts| && !Dispatched(mid, j)
    ensures forall j :: j in stopped || j == i ==> !Dispatched(Hold(Run(mid, more), i, Recovery, now), j)
  {
    var s1 := Run(mid, more);
    var s2 := Hold(s1, i, Recovery, now);
    RunEvolves(mid, more);
    EvolvingStaysStopped(mid, s1, i);
    HoldStops(s1, i, now);
    forall j | j in stopped && j != i ensures !Dispatched(s2, j) {
      EvolvingStaysStopped(mid, s1, j);
      assert s2.attempts[j] == s1.attempts[j];
    }
  }

  lemma StaysStarted(s: State, steps: seq<Step>, ids: seq<nat>)
    requires Linked(s) && AllDispatching(s, ids)
    ensures Linked(Run(s, steps))
    ensures forall i :: i in ids ==> i < |Run(s, steps).attempts| && !Run(s, steps).attempts[i].state.Queued?
  {
    RunEvolves(s, steps);
    forall i | i in ids ensures i < |Run(s, steps).attempts| && !Run(s, steps).attempts[i].state.Queued? {
      EvolvingStaysStopped(s, Run(s, steps), i);
    }
  }

  lemma SweepOneMore(s: State, ids: seq<nat>, others: seq<seq<Step>>, clock: seq<real>)
    requires 0 < |ids| <= |others| && |ids| <= |clock|
    ensures var n := |ids| - 1;
            Run(s, Sweep(ids, others, clock)) ==
            Hold(Run(Run(s, Sweep(ids[..n], others, clock)), others[n]), ids[n], Recovery, clock[n])
  {
    var n := |ids| - 1;
    var before := Sweep(ids[..n], others, clock);
    RunSplit(s, before, others[n]);
    RunAppend(s, before + others[n], DoHold(ids[n], Recovery, clock[n]));
  }

  /** Whatever others do meanwhile, no attempt that was overdue is queued or dispatching when the
      sweep is over, so no receipt can finish it any more. */
  lemma {:induction false} SweepStopsEveryOverdue(s: State, ids: seq<nat>, others: seq<seq<Step>>, clock: seq<real>)
    requires Linked(s) && |ids| <= |others| && |ids| <= |clock| && AllDispatching(s, ids)
    ensures forall i :: i in ids ==> !Dispatched(Run(s, Sweep(ids, others, clock)), i)
  {
    if ids != [] {
      var n := |ids| - 1;
      var before := Sweep(ids[..n], others, clock);
      SweepStopsEveryOverdue(s, ids[..n], others, clock);
      StaysStarted(s, before, ids);
      assert ids[n] in ids && ids == ids[..n] + [ids[n]];
      assert forall j :: j in ids[..n] ==> j in ids;
      StopOneMore(Run(s, before), others[n], ids[n], clock[n], ids[..n]);
      SweepOneMore(s, ids, others, clock);
    }
  }

  /** The same reservations: every account's ACTIVE attempts and their estimates. */
  ghost predicate SameReservations(s: State, s': State) {
    && |s.attempts| == |s'.attempts|
    && (forall i :: 0 <= i < |s.attempts| ==> SameWork(s.attempts[i], s'.attempts[i]))
    && (forall i :: 0 <= i < |s.attempts| ==> (Active(s.attempts[i].state) <==> Active(s'.attempts[i].state)))
    && s'.accounts == s.accounts
  }

  /** The rows in `ids` are held for recovery, and nothing else differs. */
  ghost predicate HeldExactly(s: State, s': State, ids: seq<nat>, clock: seq<real>)
    requires |ids| <= |clock|
  {
    && |s'.attempts| == |s.attempts|
    && (forall i :: 0 <= i < |s.attempts| && i !in ids ==> s'.attempts[i] == s.attempts[i])
    && (forall n :: 0 <= n < |ids| ==>
          && ids[n] < |s.attempts|
          && s'.attempts[ids[n]] == s.attempts[ids[n]].(state := Held, reason := Some(Recovery), updated := clock[n]))
    && s'.events == s.events + seq(|ids|, n requires 0 <= n < |ids| => ReconciliationRequired(ids[n], Recovery, clock[n]))
    && s' == s.(attempts := s'.attempts, events := s'.events)
  }

  lemma {:induction false} QuietSweep(s: State, ids: seq<nat>, others: seq<seq<Step>>, clock: seq<real>)
    requires |ids| <= |others| && |ids| <= |clock| && AllDispatching(s, ids)
    requires forall n :: 0 <= n < |ids| ==> others[n] == []
    requires forall m, n :: 0 <= m < n < |ids| ==> ids[m] < ids[n]
    ensures HeldExactly(s, Run(s, Sweep(ids, others, clock)), ids, clock)
  {
    if ids != [] {
      var n := |ids| - 1;
      QuietSweep(s, ids[..n], others, clock);
      SweepOneMore(s, ids, others, clock);
      HoldOneMore(s, Run(s, Sweep(ids[..n], others, clock)), ids, clock);
    }
  }

  lemma HoldOneMore(s: State, mid: State, ids: seq<nat>, clock: seq<real>)
    requires ids != [] && |ids| <= |clock| && AllDispatching(s, ids)
    requires forall m, n :: 0 <= m < n < |ids| ==> ids[m] < ids[n]
    requires HeldExactly(s, mid, ids[..|ids| - 1], clock)
    ensures HeldExactly(s, Hold(mid, ids[|ids| - 1], Recovery, clock[|ids| - 1]), ids, clock)
  {
    var n := |ids| - 1;
    assert ids[n] in ids && ids == ids[..n] + [ids[n]];
    assert ids[n] !in ids[..n];
    assert mid.attempts[ids[n]] == s.attempts[ids[n]];
    var s' := Hold(mid, ids[n], Recovery, clock[n]);
    assert s'.events == s.events + seq(|ids|, m requires 0 <= m < |ids| => ReconciliationRequired(ids[m], Recovery, clock[m]));
  }

  lemma HeldKeepsReservations(s: State, s': State, ids: seq<nat>, clock: seq<real>)
    requires |ids| <= |clock| && AllDispatching(s, ids) && HeldExactly(s, s', ids, clock)
    ensures SameReservations(s, s')
  {
    forall i | 0 <= i < |s.attempts|
      ensures SameWork(s.attempts[i], s'.attempts[i]) && (Active(s.attempts[i].state) <==> Active(s'.attempts[i].state))
    {
      if i in ids {
        var n :| 0 <= n < |ids| && ids[n] == i;
      }
    }
  }

  /** Left alone, a sweep holds exactly the overdue attempts, each with its own event, and frees
      nothing. */
  lemma QuietSweepHoldsExactly(s: State, ids: seq<nat>, others: seq<seq<Step>>, clock: seq<real>)
    requires |ids| <= |others| && |ids| <= |clock| && AllDispatching(s, ids)
    requires forall n :: 0 <= n < |ids| ==> others[n] == []
    requires forall m, n :: 0 <= m < n < |ids| ==> ids[m] < ids[n]
    ensures HeldExactly(s, Run(s, Sweep(ids, others, clock)), ids, clock)
    ensures SameReservations(s, Run(s, Sweep(ids, others, clock)))
  {
    QuietSweep(s, ids, others, clock);
    HeldKeepsReservations(s, Run(s, Sweep(ids, others, clock)), ids, clock);
  }
}
