/** The capacity server's store (deployments/capacity/cloud_server.py): the one snapshot it
    serves, and the requests for a collection that the phone queues and the Mac claims and
    completes. Rows are changed by SQL statements on the whole table, in one transaction each. */
module RefreshStore {
  import opened Wrappers

  /** REFRESH_TERMINAL. */
  datatype Ending = Completed | Cooldown | Failed

  datatype RequestState = Queued | Collecting | Ended(ending: Ending)

  datatype Outcome = Outcome(ending: Ending, reason: string, collected: bool)

  datatype Request = Request(
    state: RequestState, requestedAt: real, claimedAt: Option<real>, completedAt: Option<real>, outcome: Option<Outcome>)

  datatype Snapshot = Snapshot(captured: real, body: string)

  type Table = map<string, Request>

  datatype Store = Store(snapshot: Option<Snapshot>, table: Table)

  const Nothing := Store(None, map[])

  const QueuedTtl := 120.0
  const CollectingTtl := 300.0
  const Retention := 86400.0

  // ----- The operations ------------------------------------------------------------------

  predicate Open(r: Request) {
    !r.state.Ended?
  }

  function Close(r: Request, outcome: Outcome, now: real): Request {
    r.(state := Ended(outcome.ending), completedAt := Some(now), outcome := Some(outcome))
  }

  predicate Unanswered(r: Request, now: real) {
    r.state.Queued? && r.requestedAt < now - QueuedTtl
  }

  predicate Stuck(r: Request, now: real) {
    r.state.Collecting? && r.claimedAt.Some? && r.claimedAt.value < now - CollectingTtl
  }

  predicate Outdated(r: Request, now: real) {
    r.completedAt.Some? && r.completedAt.value < now - Retention
  }

  function Aged(r: Request, now: real): Request {
    if Unanswered(r, now) then Close(r, Outcome(Failed, "mac_not_reporting", false), now)
    else if Stuck(r, now) then Close(r, Outcome(Failed, "collection_timeout", false), now)
    else r
  }

  function Expire(t: Table, now: real): Table {
    map id | id in t && !Outdated(Aged(t[id], now), now) :: Aged(t[id], now)
  }

  predicate HasOpen(t: Table) {
    exists id :: id in t && Open(t[id])
  }

  predicate HasCollecting(t: Table) {
    exists id :: id in t && t[id].state.Collecting?
  }

  /** What drawing an identifier that a row already has does: the insertion fails and the whole
      transaction is rolled back. */
  predicate Collides(t: Table, rid: string, now: real) {
    !HasOpen(Expire(t, now)) && rid in Expire(t, now)
  }

  function Ask(t: Table, rid: string, now: real): Table {
    if Collides(t, rid, now) then t
    else if HasOpen(Expire(t, now)) then Expire(t, now)
    else Expire(t, now)[rid := Request(Queued, now, None, None, None)]
  }

  /** The claim takes every queued request there is: at most one, in a sound table. */
  function Claim(t: Table, now: real): Table {
    var e := Expire(t, now);
    if HasCollecting(e) then e
    else map id | id in e :: if e[id].state.Queued? then e[id].(state := Collecting, claimedAt := Some(now)) else e[id]
  }

  /** A completion changes a row: the request is still collecting once the table has expired. */
  predicate Completes(t: Table, rid: string, now: real) {
    rid in Expire(t, now) && Expire(t, now)[rid].state.Collecting?
  }

  function Complete(t: Table, rid: string, outcome: Outcome, now: real): Table {
    var e := Expire(t, now);
    if Completes(t, rid, now) then e[rid := Close(e[rid], outcome, now)] else e
  }

  predicate Newer(snapshot: Option<Snapshot>, captured: real) {
    snapshot.None? || captured > snapshot.value.captured
  }

  // ----- The store -----------------------------------------------------------------------

  class Server {
    var snapshot: Option<Snapshot>
    var table: Table

    ghost function View(): Store
      reads this
    {
      Store(snapshot, table)
    }

    constructor ()
      ensures View() == Nothing
    {
      snapshot := None;
      table := map[];
    }

    method Put(body: string, captured: real) returns (stored: bool)
      modifies this`snapshot
      ensures stored <==> Newer(old(snapshot), captured)
      ensures snapshot == if stored then Some(Snapshot(captured, body)) else old(snapshot)
    {
      if snapshot.Some? && captured <= snapshot.value.captured { return false; }
      snapshot := Some(Snapshot(captured, body));
      return true;
    }

    /** The three statements of `_expire`, in their order. */
    method ExpireRows(now: real)
      modifies this`table
      ensures table == Expire(old(table), now)
    {
      table := map id | id in table ::
        if Unanswered(table[id], now) then Close(table[id], Outcome(Failed, "mac_not_reporting", false), now) else table[id];
      table := map id | id in table ::
        if Stuck(table[id], now) then Close(table[id], Outcome(Failed, "collection_timeout", false), now) else table[id];
      table := map id | id in table && !Outdated(table[id], now) :: table[id];
    }

    /** The open request there is, or a new one; a failure is an identifier drawn twice. */
    method RequestRefresh(rid: string, now: real) returns (r: Option<(string, bool)>)
      requires Sound(table)
      modifies this`table
      ensures table == Ask(old(table), rid, now)
      ensures r.None? <==> Collides(old(table), rid, now)
      ensures r.Some? ==> r.value.0 in table && Open(table[r.value.0])
      ensures r.Some? ==> (r.value.1 <==> !HasOpen(Expire(old(table), now))) && (r.value.1 ==> r.value.0 == rid)
    {
      var before := table;
      ExpireRows(now);
      if id :| id in table && Open(table[id]) {
        return Some((id, false));
      }
      if rid in table {
        table := before;
        return None;
      }
      table := table[rid := Request(Queued, now, None, None, None)];
      return Some((rid, true));
    }

    method ClaimRefresh(now: real) returns (claimed: Option<string>)
      requires Sound(table)
      modifies this`table
      ensures table == Claim(old(table), now)
      ensures claimed.Some? ==> claimed.value in table && table[claimed.value].state.Collecting?
      ensures claimed.Some? ==> table[claimed.value].claimedAt == Some(now)
      ensures claimed.None? ==> table == Expire(old(table), now)
      ensures claimed.None? ==> HasCollecting(table) || !HasOpen(table)
    {
      ExpireKeepsSound(table, now);
      ExpireRows(now);
      if id :| id in table && table[id].state.Collecting? {
        return None;
      }
      if id :| id in table && table[id].state.Queued? {
        table := table[id := table[id].(state := Collecting, claimedAt := Some(now))];
        return Some(id);
      }
      return None;
    }

    method CompleteRefresh(rid: string, outcome: Outcome, now: real) returns (changed: bool)
      modifies this`table
      ensures table == Complete(old(table), rid, outcome, now)
      ensures changed <==> Completes(old(table), rid, now)
    {
      ExpireRows(now);
      changed := rid in table && table[rid].state.Collecting?;
      if changed {
        table := table[rid := Close(table[rid], outcome, now)];
      }
    }

    /** A request by its identifier, or the latest. */
    method GetRefresh(rid: Option<string>, now: real) returns (r: Option<string>)
      modifies this`table
      ensures table == Expire(old(table), now)
      ensures rid.Some? ==> r == if rid.value in table then rid else None
      ensures rid.None? ==> (r.None? <==> table == map[])
      ensures r.Some? ==> r.value in table
      ensures rid.None? && r.Some? ==> forall id :: id in table ==> table[id].requestedAt <= table[r.value].requestedAt
    {
      ExpireRows(now);
      if rid.Some? {
        return if rid.value in table then rid else None;
      }
      r := None;
      var left := table.Keys;
      while left != {}
        invariant left <= table.Keys
        invariant r.None? <==> left == table.Keys
        invariant r.Some? ==> r.value in table
        invariant r.Some? ==> forall id :: id in table && id !in left ==> table[id].requestedAt <= table[r.value].requestedAt
        decreases |left|
      {
        var id :| id in left;
        if r.None? || table[id].requestedAt > table[r.value].requestedAt {
          r := Some(id);
        }
        left := left - {id};
      }
    }
  }

  // ----- What every reachable table is like ----------------------------------------------

  predicate RowSound(r: Request) {
    match r.state
    case Queued => r.claimedAt.None? && r.completedAt.None? && r.outcome.None?
    case Collecting => r.claimedAt.Some? && r.completedAt.None? && r.outcome.None?
    case Ended(ending) => r.completedAt.Some? && r.outcome.Some? && r.outcome.value.ending == ending
  }

  /** At most one request is open. */
  ghost predicate Sound(t: Table) {
    && (forall id :: id in t ==> RowSound(t[id]))
    && (forall a, b :: a in t && b in t && Open(t[a]) && Open(t[b]) ==> a == b)
  }

  lemma ExpireKeepsSound(t: Table, now: real)
    requires Sound(t)
    ensures Sound(Expire(t, now))
  {
    forall a, b | a in Expire(t, now) && b in Expire(t, now) && Open(Expire(t, now)[a]) && Open(Expire(t, now)[b])
      ensures a == b
    {
      assert Open(t[a]) && Open(t[b]);
    }
  }

  /** A transaction of the phone, the Mac or the publisher. */
  datatype Step =
    | DoPut(body: string, captured: real)
    | DoAsk(rid: string, now: real)
    | DoGet(now: real)
    | DoClaim(now: real)
    | DoComplete(rid: string, outcome: Outcome, now: real)

  function TableAfter(t: Table, step: Step): Table {
    match step
    case DoPut(_, _) => t
    case DoAsk(rid, now) => Ask(t, rid, now)
    case DoGet(now) => Expire(t, now)
    case DoClaim(now) => Claim(t, now)
    case DoComplete(rid, outcome, now) => Complete(t, rid, outcome, now)
  }

  function SnapshotAfter(s: Option<Snapshot>, step: Step): Option<Snapshot> {
    if step.DoPut? && Newer(s, step.captured) then Some(Snapshot(step.captured, step.body)) else s
  }

  function Apply(s: Store, step: Step): Store {
    Store(SnapshotAfter(s.snapshot, step), TableAfter(s.table, step))
  }

  function Run(s: Store, steps: seq<Step>): Store {
    if steps == [] then s else Apply(Run(s, steps[..|steps| - 1]), steps[|steps| - 1])
  }

  lemma StepKeepsSound(t: Table, step: Step)
    requires Sound(t)
    ensures Sound(TableAfter(t, step))
  {
    if !step.DoPut? {
      ExpireKeepsSound(t, step.now);
    }
    if step.DoClaim? {
      var e := Expire(t, step.now);
      forall a, b | a in e && b in e && Open(Claim(t, step.now)[a]) && Open(Claim(t, step.now)[b]) ensures a == b {
        assert Open(e[a]) && Open(e[b]);
      }
    }
  }

  /** In every reachable state at most one request is open. */
  lemma {:induction false} AtMostOneOpen(steps: seq<Step>)
    ensures Sound(Run(Nothing, steps).table)
  {
    if steps != [] {
      AtMostOneOpen(steps[..|steps| - 1]);
      StepKeepsSound(Run(Nothing, steps[..|steps| - 1]).table, steps[|steps| - 1]);
    }
  }

  /** After any operation on requests at `now`, none has been queued for more than two minutes or
      collecting for more than five. The collision of an identifier is the one exception: it is
      rolled back. */
  lemma NoneOverdue(t: Table, step: Step, id: string)
    requires Sound(t) && !step.DoPut? && id in TableAfter(t, step)
    requires step.DoAsk? ==> !Collides(t, step.rid, step.now)
    ensures var r := TableAfter(t, step)[id];
            && (r.state.Queued? ==> r.requestedAt >= step.now - QueuedTtl)
            && (r.state.Collecting? ==> r.claimedAt.Some? && r.claimedAt.value >= step.now - CollectingTtl)
  {
    ExpireKeepsSound(t, step.now);
    assert id in Expire(t, step.now) ==> Expire(t, step.now)[id] == Aged(t[id], step.now);
  }

  /** A completion succeeds exactly for a request collecting, and not longer than five minutes. */
  lemma CompletesInTime(t: Table, rid: string, now: real)
    requires Sound(t)
    ensures Completes(t, rid, now) <==>
            rid in t && t[rid].state.Collecting? && t[rid].claimedAt.Some? && now <= t[rid].claimedAt.value + CollectingTtl
  {
    assert rid in t ==> RowSound(t[rid]);
    assert rid in t && t[rid].state.Collecting? ==> !Outdated(t[rid], now);
  }

  // ----- Endings are final ---------------------------------------------------------------

  predicate Draws(step: Step, id: string) {
    step.DoAsk? && step.rid == id
  }

  /** A request that ended stays as it is, until its row is deleted a day after its end. */
  lemma EndedIsFinal(t: Table, step: Step, id: string)
    requires Sound(t) && id in t && t[id].state.Ended? && !Draws(step, id)
    ensures id in TableAfter(t, step) ==> TableAfter(t, step)[id] == t[id]
    ensures id !in TableAfter(t, step) <==> !step.DoPut? && Outdated(t[id], step.now) && !(step.DoAsk? && Collides(t, step.rid, step.now))
  {
  }

  /** No completion of the request can succeed any more. */
  predicate Over(t: Table, id: string) {
    id in t ==> t[id].state.Ended?
  }

  lemma StaysOver(t: Table, step: Step, id: string)
    requires Over(t, id) && !Draws(step, id)
    ensures Over(TableAfter(t, step), id)
  {
  }

  lemma {:induction false} RunStaysOver(s: Store, steps: seq<Step>, id: string)
    requires Over(s.table, id) && forall k :: 0 <= k < |steps| ==> !Draws(steps[k], id)
    ensures Over(Run(s, steps).table, id)
  {
    if steps != [] {
      var n := |steps| - 1;
      RunStaysOver(s, steps[..n], id);
      StaysOver(Run(s, steps[..n]).table, steps[n], id);
    }
  }

  lemma {:induction false} RunSplit(s: Store, a: seq<Step>, b: seq<Step>)
    ensures Run(s, a + b) == Run(Run(s, a), b)
  {
    if b == [] {
      assert a + b == a;
    } else {
      RunSplit(s, a, b[..|b| - 1]);
      assert (a + b)[..|a + b| - 1] == a + b[..|b| - 1];
    }
  }

  /** The i-th step of the run completes the request. */
  predicate CompletesAt(steps: seq<Step>, i: nat, id: string)
    requires i < |steps|
  {
    steps[i].DoComplete? && steps[i].rid == id && Completes(Run(Nothing, steps[..i]).table, id, steps[i].now)
  }

  /** A request is completed at most once: a second completion under the same identifier is that
      of another request, for which the identifier was drawn again. */
  lemma CompletedAtMostOnce(steps: seq<Step>, i: nat, j: nat, id: string)
    requires i < j < |steps| && CompletesAt(steps, i, id) && CompletesAt(steps, j, id)
    ensures exists k :: i < k < j && Draws(steps[k], id)
  {
    if forall k :: i < k < j ==> !Draws(steps[k], id) {
      assert steps[..i + 1][..i] == steps[..i];
      var s := Run(Nothing, steps[..i + 1]);
      assert Over(s.table, id);
      assert steps[..j] == steps[..i + 1] + steps[i + 1..j];
      RunSplit(Nothing, steps[..i + 1], steps[i + 1..j]);
      RunStaysOver(s, steps[i + 1..j], id);
      assert false;
    }
  }

  /** Once expired for want of an answer, a request is never completed: not while its row stands,
      and not after, unless its identifier is drawn again. */
  lemma NeverAfterExpiry(s: Store, steps: seq<Step>, id: string, now: real)
    requires id in s.table && (Unanswered(s.table[id], now) || Stuck(s.table[id], now))
    requires forall k :: 0 <= k < |steps| ==> !Draws(steps[k], id)
    ensures forall later :: !Completes(Run(Store(s.snapshot, Expire(s.table, now)), steps).table, id, later)
  {
    var e := Store(s.snapshot, Expire(s.table, now));
    RunStaysOver(e, steps, id);
    var t := Run(e, steps).table;
    forall later ensures !Completes(t, id, later) {
      assert Over(t, id);
    }
  }

  // ----- Snapshots -----------------------------------------------------------------------

  /** The capture times of the snapshots a run stored. */
  function Stored(steps: seq<Step>): seq<real> {
    if steps == [] then []
    else
      var n := |steps| - 1;
      var s := Run(Nothing, steps[..n]).snapshot;
      Stored(steps[..n]) + if steps[n].DoPut? && Newer(s, steps[n].captured) then [steps[n].captured] else []
  }

  ghost predicate Served(steps: seq<Step>) {
    var s := Run(Nothing, steps).snapshot;
    forall k :: 0 <= k < |steps| && steps[k].DoPut? ==> s.Some? && steps[k].captured <= s.value.captured
  }

  /** The snapshot served is the latest ever offered. */
  lemma {:induction false} TheLatestIsServed(steps: seq<Step>)
    ensures Served(steps)
    ensures Run(Nothing, steps).snapshot.Some? ==>
              var s := Run(Nothing, steps).snapshot.value;
              exists k :: 0 <= k < |steps| && steps[k] == DoPut(s.body, s.captured)
  {
    if steps != [] {
      var n := |steps| - 1;
      TheLatestIsServed(steps[..n]);
      var before, now := Run(Nothing, steps[..n]).snapshot, Run(Nothing, steps).snapshot;
      assert forall k :: 0 <= k < n ==> steps[..n][k] == steps[k];
      if now != before {
        assert steps[n] == DoPut(now.value.body, now.value.captured);
      }
    }
  }

  /** Stored snapshots have strictly increasing capture times, and the last stored is served. */
  lemma {:induction false} SnapshotsAdvance(steps: seq<Step>)
    ensures var stored, s := Stored(steps), Run(Nothing, steps).snapshot;
            && (forall m, n :: 0 <= m < n < |stored| ==> stored[m] < stored[n])
            && (s.None? <==> stored == [])
            && (s.Some? ==> s.value.captured == stored[|stored| - 1])
  {
    if steps != [] {
      SnapshotsAdvance(steps[..|steps| - 1]);
    }
  }
}
