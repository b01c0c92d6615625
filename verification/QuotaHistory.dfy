/** The quota an account row carries is a cached number: it is the last applied observation
    minus the estimates charged since, recomputed from the event log with one clip at zero. */
module QuotaHistory {
  import opened Wrappers
  import opened LedgerSpec
  import opened Transitions
  import opened Sums

  /** What the log says of one account: the windows of its last applied observation, the
      attempts charged against them, and when each of its attempts was completed. */
  datatype AccountLog = AccountLog(base: Quota, charged: set<nat>, done: map<nat, real>)

  function AccountEvent(rows: seq<Attempt>, account: string, log: AccountLog, e: Event): AccountLog {
    match e
    case QuotaObserved(name, observedAt, snapshot, _) =>
      if name == account
      then log.(base := snapshot.windows, charged := set i | i in log.done && log.done[i] > observedAt)
      else log
    case NativeCompleted(aid, _, at) =>
      if aid < |rows| && rows[aid].account == account
      then log.(charged := log.charged + {aid}, done := log.done[aid := at])
      else log
    case ExternalRecorded(aid, at) =>
      if aid < |rows| && rows[aid].account == account then log.(done := log.done[aid := at]) else log
    case OperatorResolved(aid, consumed, _, _, _, _) =>
      if consumed && aid < |rows| && rows[aid].account == account then log.(charged := log.charged + {aid}) else log
    case _ => log
  }

  /** The log of one account; of the table only the attempts' accounts are read. */
  function ReadLog(rows: seq<Attempt>, account: string, events: seq<Event>): AccountLog {
    if events == [] then AccountLog(map[], {}, map[])
    else AccountEvent(rows, account, ReadLog(rows, account, events[..|events| - 1]), events[|events| - 1])
  }

  /** The recomputation: one observation, one sum, one clip. */
  function Recomputed(rows: seq<Attempt>, log: AccountLog): Quota {
    map k | k in log.base :: Clip(log.base[k] - SumOf(rows, log.charged, k))
  }

  predicate Speaks(e: Event, n: nat) {
    match e
    case NativeCompleted(aid, _, _) => aid < n
    case ExternalRecorded(aid, _) => aid < n
    case OperatorResolved(aid, _, _, _, _, _) => aid < n
    case _ => true
  }

  /** No event speaks of an attempt the table does not have. */
  ghost predicate Bounded(s: State) {
    forall j :: 0 <= j < |s.events| ==> Speaks(s.events[j], |s.attempts|)
  }

  lemma {:induction false} ReadLogCong(rows: seq<Attempt>, rows': seq<Attempt>, account: string, events: seq<Event>)
    requires |rows| <= |rows'|
    requires forall i :: 0 <= i < |rows| ==> rows[i].account == rows'[i].account
    requires forall j :: 0 <= j < |events| ==> Speaks(events[j], |rows|)
    ensures ReadLog(rows, account, events) == ReadLog(rows', account, events)
  {
    if events != [] {
      ReadLogCong(rows, rows', account, events[..|events| - 1]);
    }
  }

  lemma ReadLogAppend(rows: seq<Attempt>, account: string, events: seq<Event>, e: Event)
    ensures ReadLog(rows, account, events + [e]) == AccountEvent(rows, account, ReadLog(rows, account, events), e)
  {
    assert (events + [e])[..|events|] == events;
  }

  /** The account's finished work, with its completion times. */
  function Finished(rows: seq<Attempt>, account: string): map<nat, real> {
    map i | 0 <= i < |rows| && rows[i].account == account && (rows[i].state.Completed? || rows[i].state.Accepted?)
      :: rows[i].updated
  }

  /** The account's debited work: completed, accepted or consumed. */
  function DebitedOn(rows: seq<Attempt>, account: string): set<nat> {
    set i | 0 <= i < |rows| && rows[i].account == account &&
            (rows[i].state.Completed? || rows[i].state.Accepted? || rows[i].state.Failed?)
  }

  ghost predicate QuotaMatches(s: State, account: string) {
    var log := ReadLog(s.attempts, account, s.events);
    && log.done == Finished(s.attempts, account)
    && log.charged <= DebitedOn(s.attempts, account)
    && (account in s.accounts ==> s.accounts[account].windows == Recomputed(s.attempts, log))
  }

  ghost predicate QuotaSound(s: State) {
    && PositiveEstimates(s.attempts)
    && Bounded(s)
    && forall a :: QuotaMatches(s, a)
  }

  // ----- Shape by shape ------------------------------------------------------------------

  lemma RecomputedCong(rows: seq<Attempt>, rows': seq<Attempt>, log: AccountLog)
    requires SameEstimates(rows, rows')
    ensures Recomputed(rows, log) == Recomputed(rows', log)
  {
    forall k | k in log.base {
      SumCong(rows, rows', log.charged, log.charged, k);
    }
  }

  lemma RecomputedAppend(rows: seq<Attempt>, row: Attempt, log: AccountLog)
    requires |rows| !in log.charged
    ensures Recomputed(rows + [row], log) == Recomputed(rows, log)
  {
    forall k | k in log.base {
      SumAppend(rows, row, log.charged, k);
    }
  }

  /** One clip after another is one clip of the whole. */
  lemma RecomputedCharge(rows: seq<Attempt>, log: AccountLog, i: nat)
    requires PositiveEstimates(rows) && i < |rows| && i !in log.charged
    ensures Recomputed(rows, log.(charged := log.charged + {i})) == Debit(Recomputed(rows, log), rows[i])
  {
    forall k | k in log.base
      ensures SumOf(rows, log.charged + {i}, k) == SumOf(rows, log.charged, k) + Est(rows[i], k)
      ensures Est(rows[i], k) >= 0.0
    {
      SumInsert(rows, log.charged, i, k);
    }
  }

  lemma RemarkIsNotRead(rows: seq<Attempt>, account: string, events: seq<Event>, e: Event)
    requires Remark(e)
    ensures ReadLog(rows, account, events + [e]) == ReadLog(rows, account, events)
  {
    ReadLogAppend(rows, account, events, e);
  }

  lemma QuietQuota(s: State, s': State, account: string)
    requires QuotaMatches(s, account) && Quiet(s, s')
    ensures QuotaMatches(s', account)
  {
    if s'.events != s.events {
      var e :| Remark(e) && s'.events == s.events + [e];
      RemarkIsNotRead(s.attempts, account, s.events, e);
    }
    assert ReadLog(s'.attempts, account, s'.events) == ReadLog(s.attempts, account, s.events);
  }

  lemma ObservedQuota(s: State, s': State, r: Reading, now: real, account: string)
    requires QuotaMatches(s, account) && Observed(s, s', r, now)
    ensures QuotaMatches(s', account)
  {
    ReadLogAppend(s.attempts, account, s.events, QuotaObserved(r.name, ObservedAt(r, now), SnapshotOf(r), now));
    if r.name == account {
      var log := ReadLog(s'.attempts, account, s'.events);
      assert log.charged == FinishedAfter(s.attempts, account, ObservedAt(r, now));
    }
  }

  lemma AdmittedQuota(s: State, s': State, row: Attempt, e: Event, account: string)
    requires Bounded(s) && QuotaMatches(s, account)
    requires s'.attempts == s.attempts + [row] && s'.events == s.events + [e]
    requires e.Admitted? && row.state.Queued?
    requires account in s'.accounts ==> account in s.accounts && s'.accounts[account].windows == s.accounts[account].windows
    ensures QuotaMatches(s', account)
  {
    ReadLogCong(s.attempts, s'.attempts, account, s.events);
    ReadLogAppend(s'.attempts, account, s.events, e);
    var log := ReadLog(s.attempts, account, s.events);
    assert Finished(s'.attempts, account) == Finished(s.attempts, account);
    RecomputedAppend(s.attempts, row, log);
  }

  lemma ExternalQuota(s: State, s': State, row: Attempt, e: Event, account: string)
    requires Bounded(s) && QuotaMatches(s, account) && BornExternal(s, s', row, e)
    ensures QuotaMatches(s', account)
  {
    ReadLogCong(s.attempts, s'.attempts, account, s.events);
    ReadLogAppend(s'.attempts, account, s.events, e);
    var log := ReadLog(s.attempts, account, s.events);
    var log' := ReadLog(s'.attempts, account, s'.events);
    assert s'.attempts[|s.attempts|] == row;
    assert Finished(s'.attempts, account) ==
           if row.account == account then Finished(s.attempts, account)[|s.attempts| := row.updated]
           else Finished(s.attempts, account);
    RecomputedAppend(s.attempts, row, log);
    assert log'.charged == log.charged && log'.base == log.base;
    assert Recomputed(s'.attempts, log') == Recomputed(s'.attempts, log);
  }

  lemma MovedQuota(s: State, s': State, i: nat, e: Event, account: string)
    requires PositiveEstimates(s.attempts) && Bounded(s) && QuotaMatches(s, account) && Moved(s, s', i, e)
    ensures QuotaMatches(s', account)
  {
    ReadLogCong(s.attempts, s'.attempts, account, s.events);
    ReadLogAppend(s'.attempts, account, s.events, e);
    var log := ReadLog(s.attempts, account, s.events);
    var log' := ReadLog(s'.attempts, account, s'.events);
    var r, r' := s.attempts[i], s'.attempts[i];
    assert SameEstimates(s.attempts, s'.attempts);
    RecomputedCong(s.attempts, s'.attempts, log');
    MovedFinished(s, s', i, e, account);
    if Debits(r'.state) && r.account == account {
      assert i !in log.charged;
      RecomputedCharge(s.attempts, log, i);
      assert log'.charged == log.charged + {i} && log'.base == log.base;
      assert Recomputed(s.attempts, log') == Recomputed(s.attempts, log.(charged := log.charged + {i}));
    } else {
      assert log'.charged == log.charged && log'.base == log.base;
      assert Recomputed(s.attempts, log') == Recomputed(s.attempts, log);
    }
  }

  lemma MovedFinished(s: State, s': State, i: nat, e: Event, account: string)
    requires QuotaMatches(s, account) && Moved(s, s', i, e)
    ensures Finished(s'.attempts, account) ==
            if s'.attempts[i].state.Completed? && s.attempts[i].account == account
            then Finished(s.attempts, account)[i := s'.attempts[i].updated]
            else Finished(s.attempts, account)
    ensures DebitedOn(s.attempts, account) <= DebitedOn(s'.attempts, account)
  {
  }

  lemma ShapeKeepsQuota(s: State, s': State, shape: Shape)
    requires QuotaSound(s) && HasShape(s, s', shape)
    ensures QuotaSound(s')
  {
    forall a ensures QuotaMatches(s', a) {
      assert QuotaMatches(s, a);
      match shape
      case Nothing => QuietQuota(s, s', a);
      case Applied(r, now) => ObservedQuota(s, s', r, now, a);
      case Admission(row, e, _, _) => AdmittedQuota(s, s', row, e, a);
      case External(row, e) => ExternalQuota(s, s', row, e, a);
      case Move(i, e) => MovedQuota(s, s', i, e, a);
    }
    ShapeKeepsBounds(s, s', shape);
  }

  lemma ShapeKeepsBounds(s: State, s': State, shape: Shape)
    requires PositiveEstimates(s.attempts) && Bounded(s) && HasShape(s, s', shape)
    ensures PositiveEstimates(s'.attempts) && Bounded(s')
  {
  }

  // ----- Every run -----------------------------------------------------------------------

  lemma {:induction false} RunQuota(steps: seq<Step>)
    ensures QuotaSound(Run(Empty, steps))
  {
    if steps == [] {
      forall a ensures QuotaMatches(Empty, a) {
        assert Finished([], a) == map[];
      }
    } else {
      var n := |steps| - 1;
      RunQuota(steps[..n]);
      RunEvolves(Empty, steps[..n]);
      var s := Run(Empty, steps[..n]);
      var shape := StepShape(s, steps[n]);
      ShapeKeepsQuota(s, Run(Empty, steps), shape);
    }
  }

  /** In every reachable state the stored remaining quota of every account is the recomputation
      from the log: clipping at every debit equals clipping once. */
  lemma RemainingIsRecomputed(steps: seq<Step>, account: string)
    requires account in Run(Empty, steps).accounts
    ensures var s := Run(Empty, steps);
            s.accounts[account].windows == Recomputed(s.attempts, ReadLog(s.attempts, account, s.events))
  {
    RunQuota(steps);
    assert QuotaMatches(Run(Empty, steps), account);
  }

  /** A replayed observation changes no account and logs nothing. */
  lemma ReplayChangesNoQuota(s: State, r: Reading, now: real)
    requires IsReplay(s, r, now)
    ensures Configure(s, r, now).accounts == s.accounts
    ensures Configure(s, r, now).events == s.events
    ensures Configure(s, r, now).observations == s.observations
  {
  }

  /** An observation cannot erase work finished after it was taken: whatever it reports, each
      such completion stays subtracted. */
  lemma DelayedObservationKeepsDebits(steps: seq<Step>, r: Reading, now: real, i: nat, k: string)
    requires var s := Run(Empty, steps);
             && Observes(s, DoConfigure(r, now), r.name)
             && i in FinishedAfter(s.attempts, r.name, ObservedAt(r, now)) && k in r.windows
    ensures var s := Run(Empty, steps);
            var s' := Configure(s, r, now);
            && k in s'.accounts[r.name].windows
            && s'.accounts[r.name].windows[k] <= Clip(r.windows[k] - Est(s.attempts[i], k))
  {
    RunQuota(steps);
    var s := Run(Empty, steps);
    var ids := FinishedAfter(s.attempts, r.name, ObservedAt(r, now));
    SumRemove(s.attempts, ids, i, k);
    SumNonNegative(s.attempts, ids - {i}, k);
  }
}
