/** What a crash between two writes of an authoring leaves (src/inference_grid/board/failover.py,
    `author_failover`): which of the crash points lose a retry, for how long, and a run that does. */
module FailoverRuns {
  import opened Wrappers
  import opened Failover
  import RetryIds
  import Text

  // ----- The crash points ----------------------------------------------------------------

  /** The runner crashes, and the next pass loads the board. */
  function Restarted(w: World): World {
    Take(Take(w, DoCrash), DoLoad)
  }

  lemma RestartedIs(w: World)
    ensures Restarted(w) == w.(tick := Some(Tick(w.files, w.files.Keys)), phase := Idle)
  {
  }

  /** Until its own write the predecessor's file is as the pass has it in memory. */
  predicate AsRead(w: World) {
    (w.phase.Planned? || w.phase.BriefWritten?) ==> w.phase.plan.from in w.files && w.files[w.phase.plan.from] == w.phase.plan.task
  }

  /** In a loaded pass a task is due exactly when its file is, the links on the board included. */
  lemma DueWhenLoaded(w: World, id: string, lanes: map<string, Lane>, failed: Option<string>, ids: seq<string>)
    requires AreCandidates(lanes, failed, ids) && ids != [] && id in w.files
    ensures Due(Restarted(w), id, lanes, failed, ids) <==>
            Candidate(w.files, id, w.files[id]) && BriefOf(w.files[id].brief, NextId(w.files, id)) !in w.briefs
  {
    RestartedIs(w);
  }

  /** Every crash point of every run: with lanes to retry on, the task is due again exactly when
      nothing was written, guarded by its successor exactly when that was, and left without either
      exactly when only the brief was. */
  lemma CrashPoints(turns: seq<Turn>, w: World, lanes: map<string, Lane>, failed: Option<string>, ids: seq<string>)
    requires w == Play(NoTasks, turns) && !w.phase.Idle? && AsRead(w)
    requires AreCandidates(lanes, failed, ids) && ids != []
    ensures Due(Restarted(w), w.phase.plan.from, lanes, failed, ids) <==> w.phase.Planned?
    ensures HasSuccessor(Restarted(w).files, w.phase.plan.from) <==> w.phase.SuccessorWritten? || w.phase.PredecessorWritten?
    ensures !Due(Restarted(w), w.phase.plan.from, lanes, failed, ids) && !HasSuccessor(Restarted(w).files, w.phase.plan.from)
            <==> w.phase.BriefWritten?
  {
    RunIsSound(turns);
    RestartedIs(w);
    var p := w.phase.plan;
    SuccessorIsAuthored(w, p.from);
    DueWhenLoaded(w, p.from, lanes, failed, ids);
  }

  // ----- A lost retry --------------------------------------------------------------------

  lemma TurnKeepsBriefs(w: World, turn: Turn, path: string)
    requires path in w.briefs
    ensures path in Take(w, turn).briefs
  {
  }

  /** The task would still be retried under the id of the plan, from the brief of the plan. */
  predicate SameRetry(w: World, p: Plan) {
    && NextId(w.files, p.from) == p.to
    && (w.tick.Some? && p.from in w.tick.value.board ==> w.tick.value.board[p.from].brief == p.task.brief)
  }

  lemma NotDueWhileTaken(w: World, p: Plan, lanes: map<string, Lane>, failed: Option<string>, ids: seq<string>)
    requires SameRetry(w, p) && Brief(p) in w.briefs
    ensures !Due(w, p.from, lanes, failed, ids)
  {
  }

  /** No retry of the task was written, none is under way, and its name is taken. */
  predicate Declined(w: World, p: Plan) {
    Unauthored(w.authored, p.from) && (!w.phase.Idle? ==> w.phase.plan.from != p.from) && Brief(p) in w.briefs
  }

  lemma DeclinedTurn(w: World, turn: Turn, p: Plan)
    requires Declined(w, p) && SameRetry(w, p)
    ensures Declined(Take(w, turn), p)
  {
    TurnKeepsBriefs(w, turn, Brief(p));
    match turn
    case DoDecide(id, lanes, failed, ids, swap) =>
      if id == p.from {
        NotDueWhileTaken(w, p, lanes, failed, ids);
      }
    case _ =>
  }

  lemma {:induction false} StaysDeclined(w: World, turns: seq<Turn>, p: Plan)
    requires Declined(w, p)
    requires forall i :: 0 <= i < |turns| ==> SameRetry(Play(w, turns[..i]), p)
    ensures Declined(Play(w, turns), p)
    decreases |turns|
  {
    if turns != [] {
      var before := turns[..|turns| - 1];
      forall i | 0 <= i < |before| ensures SameRetry(Play(w, before[..i]), p) {
        assert before[..i] == turns[..i];
      }
      StaysDeclined(w, before, p);
      DeclinedTurn(Play(w, before), turns[|turns| - 1], p);
    }
  }

  /** A retry that a crash behind the brief's write lost is written by no later pass, whatever
      happens and on whatever lanes, as long as the board gives the task the same next id and the
      same brief. */
  lemma LostStaysDeclined(turns: seq<Turn>, w: World, p: Plan, more: seq<Turn>)
    requires w == Play(NoTasks, turns) && w.phase == BriefWritten(p)
    requires forall i :: 0 <= i <= |more| ==> SameRetry(Play(Take(w, DoCrash), more[..i]), p)
    ensures var w' := Play(Take(w, DoCrash), more);
            && Unauthored(w'.authored, p.from) && !HasSuccessor(w'.files, p.from)
            && forall lanes, failed, ids :: !Due(w', p.from, lanes, failed, ids)
  {
    RunIsSound(turns);
    var c := Take(w, DoCrash);
    var w' := Play(c, more);
    assert Declined(c, p);
    StaysDeclined(c, more, p);
    SoundAfterCrash(w, more);
    SuccessorIsAuthored(w', p.from);
    assert SameRetry(w', p) by {
      assert more[..|more|] == more;
    }
    forall lanes, failed, ids ensures !Due(w', p.from, lanes, failed, ids) {
      NotDueWhileTaken(w', p, lanes, failed, ids);
    }
  }

  lemma SoundAfterCrash(w: World, more: seq<Turn>)
    requires Sound(w)
    ensures Sound(Play(Take(w, DoCrash), more))
  {
    TurnKeepsSound(w, DoCrash);
    PlayKeepsSound(Take(w, DoCrash), more);
  }

  lemma {:induction false} PlayKeepsBriefs(w: World, turns: seq<Turn>, path: string)
    requires path in w.briefs
    ensures path in Play(w, turns).briefs
  {
    if turns != [] {
      PlayKeepsBriefs(w, turns[..|turns| - 1], path);
      TurnKeepsBriefs(Play(w, turns[..|turns| - 1]), turns[|turns| - 1], path);
    }
  }

  /** At any later time, the task still waiting as it was, a pass that loads the board retries it
      exactly when others have taken the id meanwhile and the name of the next one is free. */
  lemma LostIsDueAgainExactly(turns: seq<Turn>, w: World, p: Plan, more: seq<Turn>, w': World,
                              lanes: map<string, Lane>, failed: Option<string>, ids: seq<string>)
    requires w == Play(NoTasks, turns) && w.phase == BriefWritten(p) && w' == Play(Take(w, DoCrash), more)
    requires p.from in w'.files && w'.files[p.from] == p.task && Unauthored(w'.authored, p.from)
    requires AreCandidates(lanes, failed, ids) && ids != []
    ensures Due(Restarted(w'), p.from, lanes, failed, ids) <==>
            NextId(w'.files, p.from) != p.to && BriefOf(p.task.brief, NextId(w'.files, p.from)) !in w'.briefs
  {
    RunIsSound(turns);
    SoundAfterCrash(w, more);
    PlayKeepsBriefs(Take(w, DoCrash), more, Brief(p));
    SuccessorIsAuthored(w', p.from);
    DueWhenLoaded(w', p.from, lanes, failed, ids);
  }

  // ----- A run that loses one ------------------------------------------------------------

  /** A packet task settled blocked, and the pass that came to it got as far as the brief. */
  function LossRun(id: string, task: TaskFile, text: string, lanes: map<string, Lane>, failed: Option<string>,
                   ids: seq<string>, swap: string): seq<Turn> {
    [DoBrief(task.brief, text)] + [DoFile(id, task)] + [DoLoad] + [DoDecide(id, lanes, failed, ids, swap)] + [DoWriteBrief]
  }

  lemma LoadedThere(id: string, task: TaskFile, text: string, w: World)
    requires Retriable(task) && w == NoTasks.(briefs := map[task.brief := text], files := map[id := task])
    ensures Take(NoTasks, DoBrief(task.brief, text)) == NoTasks.(briefs := map[task.brief := text])
    ensures Take(NoTasks.(briefs := map[task.brief := text]), DoFile(id, task)) == w
    ensures Take(w, DoLoad) == w.(tick := Some(Tick(w.files, {id})))
    ensures Candidate(w.files, id, task)
  {
    assert w.files.Keys == {id};
  }

  lemma DecidedThere(id: string, task: TaskFile, w: World, lanes: map<string, Lane>, failed: Option<string>,
                     ids: seq<string>, swap: string, p: Plan)
    requires w.phase.Idle? && w.tick == Some(Tick(w.files, {id})) && id in w.files && w.files[id] == task
    requires Candidate(w.files, id, task) && AreCandidates(lanes, failed, ids) && ids != [] && task.brief in w.briefs
    requires p == PlanOf(w.files, id, task, lanes, failed, ids, swap) && Brief(p) !in w.briefs
    ensures var d := Take(w, DoDecide(id, lanes, failed, ids, swap));
            d.phase == Planned(p) && Take(d, DoWriteBrief).phase == BriefWritten(p) && Take(d, DoWriteBrief).files == w.files &&
            Take(d, DoWriteBrief).authored == w.authored
  {
  }

  /** Any task due a retry that is alone on the board can lose it so. */
  lemma LossIsReached(id: string, task: TaskFile, text: string, lanes: map<string, Lane>, failed: Option<string>,
                      ids: seq<string>, swap: string, p: Plan)
    requires Retriable(task) && AreCandidates(lanes, failed, ids) && ids != []
    requires p == PlanOf(map[id := task], id, task, lanes, failed, ids, swap) && Brief(p) != task.brief
    ensures var w := Play(NoTasks, LossRun(id, task, text, lanes, failed, ids, swap));
            w.phase == BriefWritten(p) && w.files == map[id := task] && w.authored == []
  {
    var w := NoTasks.(briefs := map[task.brief := text], files := map[id := task]);
    LoadedThere(id, task, text, w);
    DecidedThere(id, task, Take(w, DoLoad), lanes, failed, ids, swap, p);
    PlayOne(NoTasks, DoBrief(task.brief, text));
    PlayAppend(NoTasks, [DoBrief(task.brief, text)], DoFile(id, task));
    PlayAppend(NoTasks, [DoBrief(task.brief, text)] + [DoFile(id, task)], DoLoad);
    var loaded := [DoBrief(task.brief, text)] + [DoFile(id, task)] + [DoLoad];
    PlayAppend(NoTasks, loaded, DoDecide(id, lanes, failed, ids, swap));
    PlayAppend(NoTasks, loaded + [DoDecide(id, lanes, failed, ids, swap)], DoWriteBrief);
  }

  /** A packet task on one lane of family a, whose rounds are used up. */
  const Waiting := TaskFile("packet", "blocked", Reasons[0], "t.md", ["t.md"], ["one"], "t.md", true, None)

  const TwoLanes := map["one" := Lane(Some("a"), ["packet"], "goat_cli"), "two" := Lane(Some("b"), ["packet"], "goat_cli")]

  lemma WaitingIsRetriable(task: TaskFile)
    requires task == Waiting
    ensures Retriable(task)
  {
    assert Text.OccursAt(Reasons[0], Reasons[0], 0);
    assert Text.Find(task.reason, Reasons[0], 0).Some?;
    assert task.reason[0] == 'r';
  }

  lemma NextOfPlain(id: string, task: TaskFile, to: string)
    requires id == "t" && to == "t-2" && !IsSuperseded(task)
    ensures NextId(map[id := task], id) == to
  {
    assert RetryIds.Decimal(2) == "2";
    assert to == RetryIds.Numbered(id, 2);
    assert RetryIds.TailDigits(id) == 0;
    assert map[id := task].Keys == {id};
    RetryIds.FirstRetry(map[id := task].Keys, id, false);
  }

  lemma BriefOfPlain(brief: string, to: string)
    requires brief == "t.md" && to == "t-2"
    ensures BriefOf(brief, to) == "t-2.md"
  {
    assert brief[0] == 't' && brief[1] == '.' && brief[2] == 'm' && brief[3] == 'd';
    assert LastIndex(brief, '/').None?;
    assert brief[0..] == brief;
    assert LastIndex(brief, '.') == Some(1);
    assert brief[1..] == ".md";
  }

  lemma LanesThere(lanes: map<string, Lane>, failed: Option<string>, ids: seq<string>)
    requires lanes == TwoLanes
    ensures failed == Some("a") && ids == ["two"] ==> AreCandidates(lanes, failed, ids)
    ensures failed.None? && ids == ["one", "two"] ==> AreCandidates(lanes, failed, ids)
  {
    assert lanes["one"] == Lane(Some("a"), ["packet"], "goat_cli");
    assert lanes["two"] == Lane(Some("b"), ["packet"], "goat_cli");
    if failed.None? && ids == ["one", "two"] {
      assert "one"[0] == 'o' && "two"[0] == 't';
      assert Text.LexLess(ids[0], ids[1]);
    }
  }

  /** With the failed family known the second lane is the one to retry on; the runner crashes behind
      the brief, and no pass that follows, on whatever lanes, retries the task that still waits. */
  lemma RetryIsLost(task: TaskFile, turns: seq<Turn>)
    requires task == Waiting && turns == LossRun("t", task, "do it", TwoLanes, Some("a"), ["two"], "a -> b")
    ensures var w := Restarted(Play(NoTasks, turns));
            && w.files == map["t" := task] && w.authored == [] && !HasSuccessor(w.files, "t")
            && forall lanes, failed, ids :: !Due(w, "t", lanes, failed, ids)
  {
    var w := Play(NoTasks, turns);
    var p := PlanOf(map["t" := task], "t", task, TwoLanes, Some("a"), ["two"], "a -> b");
    WaitingIsRetriable(task);
    NextOfPlain("t", task, "t-2");
    BriefOfPlain(task.brief, "t-2");
    LanesThere(TwoLanes, Some("a"), ["two"]);
    LossIsReached("t", task, "do it", TwoLanes, Some("a"), ["two"], "a -> b", p);
    RunIsSound(turns);
    RestartedIs(w);
    forall lanes, failed, ids ensures !Due(Restarted(w), "t", lanes, failed, ids) {
      NotDueWhileTaken(Restarted(w), p, lanes, failed, ids);
    }
  }

  /** With the failed family not found the successor is offered the lane that failed. */
  lemma FailedLaneIsRetried(task: TaskFile, turns: seq<Turn>)
    requires task == Waiting
    requires turns == LossRun("t", task, "do it", TwoLanes, None, ["one", "two"], "? -> a, b") + [DoWriteSuccessor]
    ensures var w := Play(NoTasks, turns);
            |w.authored| == 1 && w.authored[0].failed.None? && "t-2" in w.files && w.files["t-2"].lanes == ["one", "two"]
    ensures "one" in task.lanes
  {
    var before := LossRun("t", task, "do it", TwoLanes, None, ["one", "two"], "? -> a, b");
    var p := PlanOf(map["t" := task], "t", task, TwoLanes, None, ["one", "two"], "? -> a, b");
    WaitingIsRetriable(task);
    NextOfPlain("t", task, "t-2");
    BriefOfPlain(task.brief, "t-2");
    LanesThere(TwoLanes, None, ["one", "two"]);
    LossIsReached("t", task, "do it", TwoLanes, None, ["one", "two"], "? -> a, b", p);
    PlayAppend(NoTasks, before, DoWriteSuccessor);
    SuccessorThere(Play(NoTasks, before), p);
  }

  lemma SuccessorThere(w: World, p: Plan)
    requires w.phase == BriefWritten(p)
    ensures Take(w, DoWriteSuccessor).authored == w.authored + [p]
    ensures p.to in Take(w, DoWriteSuccessor).files && Take(w, DoWriteSuccessor).files[p.to].lanes == p.ids
  {
  }
}
