/** The event log determines the attempts table's states, and moves are few: replaying the
    log with every transition checked gives exactly the states in the table. */
module EventLog {
  import opened Wrappers
  import opened LedgerSpec
  import opened Transitions

  /** The states of all attempts, as the table has them. */
  function States(rows: seq<Attempt>): seq<AttemptState> {
    seq(|rows|, i requires 0 <= i < |rows| => rows[i].state)
  }

  /** A checked move: the log may only say what the attempt's state allows. */
  function MoveTo(states: seq<AttemptState>, aid: nat, to: AttemptState): Option<seq<AttemptState>> {
    if aid < |states| && Legal(states[aid], to) then Some(states[aid := to]) else None
  }

  function ReplayEvent(states: seq<AttemptState>, e: Event): Option<seq<AttemptState>> {
    match e
    case Admitted(aid, _, _) => if aid == |states| then Some(states + [Queued]) else None
    case ExternalRecorded(aid, _) => if aid == |states| then Some(states + [Completed]) else None
    case DispatchIntent(aid, _) => MoveTo(states, aid, Dispatching)
    case ReconciliationRequired(aid, _, _) => MoveTo(states, aid, Held)
    case NativeCompleted(aid, _, _) => MoveTo(states, aid, Completed)
    case OperatorResolved(aid, consumed, _, _, _, _) => MoveTo(states, aid, if consumed then Failed else Abandoned)
    case OperatorAccepted(aid, _, _, _) => MoveTo(states, aid, Accepted)
    case _ => Some(states)
  }

  /** The states the log alone determines; None when it records an impossible transition. */
  function Replay(events: seq<Event>): Option<seq<AttemptState>> {
    if events == [] then Some([])
    else
      match Replay(events[..|events| - 1])
      case None => None
      case Some(states) => ReplayEvent(states, events[|events| - 1])
  }

  lemma ReplayAppend(events: seq<Event>, e: Event)
    ensures Replay(events + [e]) ==
            match Replay(events) case None => None case Some(states) => ReplayEvent(states, e)
  {
    assert (events + [e])[..|events|] == events;
  }

  ghost predicate LogMatches(s: State) {
    Replay(s.events) == Some(States(s.attempts))
  }

  lemma QuietKeepsLog(s: State, s': State)
    requires LogMatches(s) && Quiet(s, s')
    ensures LogMatches(s')
  {
    if s'.events != s.events {
      var e :| Remark(e) && s'.events == s.events + [e];
      ReplayAppend(s.events, e);
    }
  }

  lemma BirthKeepsLog(s: State, s': State, row: Attempt, e: Event)
    requires LogMatches(s) && s'.attempts == s.attempts + [row] && s'.events == s.events + [e]
    requires (e.Admitted? && row.state.Queued? && e.aid == |s.attempts|) ||
             (e.ExternalRecorded? && row.state.Completed? && e.aid == |s.attempts|)
    ensures LogMatches(s')
  {
    ReplayAppend(s.events, e);
    assert States(s'.attempts) == States(s.attempts) + [row.state];
  }

  lemma MoveKeepsLog(s: State, s': State, i: nat, e: Event)
    requires LogMatches(s) && Moved(s, s', i, e)
    ensures LogMatches(s')
  {
    ReplayAppend(s.events, e);
    assert States(s'.attempts) == States(s.attempts)[i := s'.attempts[i].state];
  }

  lemma ShapeKeepsLog(s: State, s': State, shape: Shape)
    requires LogMatches(s) && HasShape(s, s', shape)
    ensures LogMatches(s')
  {
    match shape
    case Nothing => QuietKeepsLog(s, s');
    case Applied(r, now) =>
      ReplayAppend(s.events, QuotaObserved(r.name, ObservedAt(r, now), SnapshotOf(r), now));
    case Admission(row, e, _, _) => BirthKeepsLog(s, s', row, e);
    case External(row, e) => BirthKeepsLog(s, s', row, e);
    case Move(i, e) => MoveKeepsLog(s, s', i, e);
  }

  /** In every reachable state the log replays, every transition in it legal, to exactly the
      states of the attempts table. */
  lemma {:induction false} LogDeterminesStates(steps: seq<Step>)
    ensures LogMatches(Run(Empty, steps))
  {
    if steps == [] {
      assert States([]) == [];
    } else {
      var n := |steps| - 1;
      LogDeterminesStates(steps[..n]);
      RunEvolves(Empty, steps[..n]);
      var s := Run(Empty, steps[..n]);
      var shape := StepShape(s, steps[n]);
      ShapeKeepsLog(s, Run(Empty, steps), shape);
    }
  }

  /** The events that speak of an attempt's state. */
  predicate Transition(e: Event) {
    !Remark(e) && !e.QuotaObserved?
  }

  predicate Changes(s: State, s': State, i: nat) {
    i < |s.attempts| && i < |s'.attempts| && s'.attempts[i].state != s.attempts[i].state
  }

  /** The last event is the record of the move of attempt `i` between the two states. */
  predicate LoggedMove(s: State, s': State, i: nat) {
    && i < |s.attempts| && i < |s'.attempts|
    && |s'.events| == |s.events| + 1
    && Records(s'.events[|s.events|], i, s.attempts[i], s'.attempts[i])
  }

  lemma ShapeRecords(s: State, s': State, shape: Shape, i: nat)
    requires i < |s.attempts| && HasShape(s, s', shape)
    ensures i < |s'.attempts|
    ensures s'.attempts[i].state != s.attempts[i].state <==> shape.Move? && shape.i == i
    ensures s'.attempts[i].state != s.attempts[i].state <==> LoggedMove(s, s', i)
    ensures !(shape.Move? && shape.i == i) ==> s'.attempts[i] == s.attempts[i]
  {
    match shape
    case Nothing =>
      assert !LoggedMove(s, s', i);
    case Applied(r, now) =>
    case Admission(row, e, _, _) =>
    case External(row, e) =>
    case Move(j, e) =>
  }

  /** One step changes the state of at most one attempt, and it does so exactly when the event
      it appends is the record of that very change. */
  lemma StepRecords(s: State, step: Step, i: nat, j: nat)
    requires Linked(s) && i < |s.attempts| && j < |s.attempts| && i != j
    ensures Changes(s, Apply(s, step), i) <==> LoggedMove(s, Apply(s, step), i)
    ensures Changes(s, Apply(s, step), i) ==> !Changes(s, Apply(s, step), j) && !LoggedMove(s, Apply(s, step), j)
  {
    var shape := StepShape(s, step);
    ShapeRecords(s, Apply(s, step), shape, i);
    ShapeRecords(s, Apply(s, step), shape, j);
  }

  // ----- The life of one attempt ---------------------------------------------------------

  /** How often the state of attempt `aid` changes during a run. */
  ghost function MoveCount(steps: seq<Step>, aid: nat): nat {
    if steps == [] then 0
    else
      var n := |steps| - 1;
      var s, s' := Run(Empty, steps[..n]), Run(Empty, steps);
      MoveCount(steps[..n], aid) +
      if aid < |s.attempts| && aid < |s'.attempts| && s.attempts[aid].state != s'.attempts[aid].state then 1 else 0
  }

  lemma LegalLowersRank(a: AttemptState, b: AttemptState)
    requires Legal(a, b)
    ensures Rank(b) < Rank(a) <= 3
  {
  }

  lemma MovesLowerRank(s: State, step: Step, s': State, i: nat)
    requires Linked(s) && i < |s.attempts| && s' == Apply(s, step)
    ensures i < |s'.attempts|
    ensures s'.attempts[i].state != s.attempts[i].state ==> Rank(s'.attempts[i].state) < Rank(s.attempts[i].state)
  {
    var shape := StepShape(s, step);
    ShapeRecords(s, s', shape, i);
    if s'.attempts[i].state != s.attempts[i].state {
      LegalLowersRank(s.attempts[i].state, s'.attempts[i].state);
    }
  }

  /** An attempt moves at most three times in any run; what it has left is bounded by its rank. */
  lemma {:induction false} AtMostThreeMoves(steps: seq<Step>, aid: nat)
    ensures var rows := Run(Empty, steps).attempts;
            MoveCount(steps, aid) + (if aid < |rows| then Rank(rows[aid].state) else 3) <= 3
  {
    if steps != [] {
      var n := |steps| - 1;
      AtMostThreeMoves(steps[..n], aid);
      RunEvolves(Empty, steps[..n]);
      if aid < |Run(Empty, steps[..n]).attempts| {
        MovesLowerRank(Run(Empty, steps[..n]), steps[n], Run(Empty, steps), aid);
      }
    }
  }
}
