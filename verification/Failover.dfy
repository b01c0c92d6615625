/** Automatic failover (src/inference_grid/board/failover.py): a packet task that settled blocked
    for a reason of its family's gets one successor on the lanes of other families. The writes are
    separate, the runner may crash between any two of them, and a pass decides from the board as it
    loaded it. Authoring is taken one task at a time. */
module Failover {
  import opened Wrappers
  import Text
  import RetryIds

  datatype Lane = Lane(family: Option<string>, categories: seq<string>, kind: string)

  datatype TaskFile = TaskFile(
    category: string, state: string, reason: string, brief: string, inputs: seq<string>, lanes: seq<string>,
    specBrief: string, failover: bool, failoverFrom: Option<string>)

  type Board = map<string, TaskFile>

  const Reasons := ["rounds_exhausted", "agent_stopped_early", "transport_error"]
  const PacketKinds := {"goat_cli", "zcode_cli", "opencode_cli"}
  const SupersededPrefix := "superseded:"

  // ----- The decision --------------------------------------------------------------------

  predicate Eligible(text: string) {
    exists i :: 0 <= i < |Reasons| && Text.Find(text, Reasons[i], 0).Some?
  }

  predicate HasSuccessor(board: Board, id: string) {
    exists other :: other in board && board[other].failoverFrom == Some(id)
  }

  predicate IsSuperseded(task: TaskFile) {
    Text.StartsWith(task.reason, SupersededPrefix)
  }

  /** A packet task that settled blocked for such a reason, and is no failover itself. */
  predicate Retriable(task: TaskFile) {
    && task.category == "packet" && task.state == "blocked"
    && task.failover && task.failoverFrom.None?
    && !IsSuperseded(task)
    && Eligible(task.reason)
  }

  predicate Candidate(board: Board, id: string, task: TaskFile) {
    Retriable(task) && !HasSuccessor(board, id)
  }

  /** The lane is of another family than the one that failed, and can run a packet. */
  predicate Fits(lane: Lane, failed: Option<string>) {
    lane.family != failed && "packet" in lane.categories && lane.kind in PacketKinds
  }

  predicate Sorted(ids: seq<string>) {
    forall i, j :: 0 <= i < j < |ids| ==> Text.LexLess(ids[i], ids[j])
  }

  predicate AreCandidates(lanes: map<string, Lane>, failed: Option<string>, ids: seq<string>) {
    && Sorted(ids)
    && (forall l :: l in ids ==> l in lanes && Fits(lanes[l], failed))
    && (forall l :: l in lanes && Fits(lanes[l], failed) ==> l in ids)
  }

  method FailoverCandidates(lanes: map<string, Lane>, failed: Option<string>) returns (ids: seq<string>)
    ensures AreCandidates(lanes, failed, ids)
  {
    ids := [];
    var left := lanes.Keys;
    while left != {}
      invariant left <= lanes.Keys && Sorted(ids)
      invariant forall l :: l in ids <==> l in lanes && l !in left && Fits(lanes[l], failed)
      decreases |left|
    {
      var l :| l in left;
      left := left - {l};
      if Fits(lanes[l], failed) {
        ids := Insert(ids, l);
      }
    }
  }

  /** `sorted`, one element at a time. */
  method Insert(ids: seq<string>, l: string) returns (r: seq<string>)
    requires Sorted(ids) && l !in ids
    ensures Sorted(r) && forall x :: x in r <==> x in ids || x == l
  {
    var n := 0;
    while n < |ids| && Text.LexLess(ids[n], l)
      invariant n <= |ids| && forall i :: 0 <= i < n ==> Text.LexLess(ids[i], l)
    {
      n := n + 1;
    }
    r := ids[..n] + [l] + ids[n..];
    assert ids == ids[..n] + ids[n..];
    InsertedIsSorted(ids, n, l);
  }

  lemma InsertedIsSorted(ids: seq<string>, n: nat, l: string)
    requires Sorted(ids) && l !in ids && n <= |ids|
    requires forall i :: 0 <= i < n ==> Text.LexLess(ids[i], l)
    requires n < |ids| ==> !Text.LexLess(ids[n], l)
    ensures Sorted(ids[..n] + [l] + ids[n..])
  {
    var r := ids[..n] + [l] + ids[n..];
    forall i | n <= i < |ids| ensures Text.LexLess(l, ids[i]) {
      Text.LexTotal(ids[n], l);
      if i > n {
        Text.LexTransitive(l, ids[n], ids[i]);
      }
    }
    forall i, j | 0 <= i < j < |r| ensures Text.LexLess(r[i], r[j]) {
      assert i < n ==> r[i] == ids[i];
      assert i > n ==> r[i] == ids[i - 1];
      assert j < n ==> r[j] == ids[j];
      assert j > n ==> r[j] == ids[j - 1];
    }
  }

  // ----- The successor -------------------------------------------------------------------

  function LastIndex(s: string, c: char): (r: Option<nat>)
    ensures r.Some? ==> r.value < |s| && s[r.value] == c && c !in s[r.value + 1..]
    ensures r.None? ==> c !in s
  {
    if s == "" then None
    else if s[|s| - 1] == c then Some(|s| - 1)
    else
      var before := LastIndex(s[..|s| - 1], c);
      assert s == s[..|s| - 1] + [s[|s| - 1]];
      assert before.Some? ==> s[before.value + 1..] == s[..|s| - 1][before.value + 1..] + [s[|s| - 1]];
      before
  }

  /** `Path(brief).with_name(id + Path(brief).suffix)`. */
  function BriefOf(brief: string, id: string): string {
    var slash := LastIndex(brief, '/');
    var cut := if slash.Some? then slash.value + 1 else 0;
    var name := brief[cut..];
    var dot := LastIndex(name, '.');
    brief[..cut] + id + if dot.Some? && 0 < dot.value < |name| - 1 then name[dot.value..] else ""
  }

  function Renamed(inputs: seq<string>, brief: string, brief': string): seq<string> {
    seq(|inputs|, i requires 0 <= i < |inputs| => if inputs[i] == brief then brief' else inputs[i])
  }

  function Successor(id: string, task: TaskFile, to: string, lanes: seq<string>): TaskFile {
    var brief := BriefOf(task.brief, to);
    task.(brief := brief, inputs := Renamed(task.inputs, task.brief, brief), lanes := lanes, specBrief := brief,
          state := "ready", reason := "", failover := true, failoverFrom := Some(id))
  }

  function Superseded(task: TaskFile, to: string, swap: string): TaskFile {
    var reason := SupersededPrefix + " " + to + " — " + swap;
    task.(state := "blocked", reason := if |reason| > 300 then reason[..300] else reason)
  }

  /** What one authoring is to write, and the lanes and the failed family it was decided on. */
  datatype Plan = Plan(from: string, task: TaskFile, to: string, lanes: map<string, Lane>, failed: Option<string>,
                       ids: seq<string>, swap: string)

  /** The id the board as it is gives the next retry. */
  function NextId(files: Board, id: string): (r: string)
    ensures r !in files
  {
    RetryIds.RetryId(files.Keys, id in files && IsSuperseded(files[id]), id)
  }

  function PlanOf(files: Board, id: string, task: TaskFile, lanes: map<string, Lane>, failed: Option<string>,
                  ids: seq<string>, swap: string): Plan {
    Plan(id, task, NextId(files, id), lanes, failed, ids, swap)
  }

  function Brief(p: Plan): string {
    BriefOf(p.task.brief, p.to)
  }

  function Retry(p: Plan): TaskFile {
    Successor(p.from, p.task, p.to, p.ids)
  }

  // ----- The board and its writes --------------------------------------------------------

  /** The board as a pass loaded it, and the tasks the pass has not come to. */
  datatype Tick = Tick(board: Board, pending: set<string>)

  /** Which of the writes are behind. */
  datatype Phase = Idle | Planned(plan: Plan) | BriefWritten(plan: Plan) | SuccessorWritten(plan: Plan) | PredecessorWritten(plan: Plan)

  /** `authored` is the history of the successors written. */
  datatype World = World(
    files: Board, briefs: map<string, string>, tick: Option<Tick>, phase: Phase,
    swaps: seq<(string, string)>, authored: seq<Plan>)

  const NoTasks := World(map[], map[], None, Idle, [], [])

  datatype Turn =
    | DoFile(id: string, task: TaskFile)      // anyone else writes a task file
    | DoBrief(path: string, text: string)     // or a brief
    | DoLoad                                  // a pass begins
    | DoSettle(id: string, task: TaskFile)    // the pass writes a task it has come to
    | DoPassOver(id: string)
    | DoDecide(id: string, lanes: map<string, Lane>, failed: Option<string>, ids: seq<string>, swap: string)
    | DoWriteBrief
    | DoWriteSuccessor
    | DoWritePredecessor
    | DoRecord
    | DoEnd                                   // the pass is over
    | DoCrash

  /** Others leave the link of a file as it is, and give a new file none but a copy of one. */
  predicate Linked(files: Board, id: string, task: TaskFile) {
    if id in files then task.failoverFrom == files[id].failoverFrom
    else task.failoverFrom.Some? ==> HasSuccessor(files, task.failoverFrom.value)
  }

  /** The pass has come to the task, it is due a successor, and there are a lane and a name for it. */
  predicate Due(w: World, id: string, lanes: map<string, Lane>, failed: Option<string>, ids: seq<string>) {
    && w.tick.Some? && id in w.tick.value.pending && id in w.tick.value.board
    && Candidate(w.tick.value.board, id, w.tick.value.board[id])
    && AreCandidates(lanes, failed, ids) && ids != []
    && BriefOf(w.tick.value.board[id].brief, NextId(w.files, id)) !in w.briefs
  }

  function Pass(w: World, id: string): World
    requires w.tick.Some?
  {
    w.(tick := Some(w.tick.value.(pending := w.tick.value.pending - {id})))
  }

  function Take(w: World, turn: Turn): World {
    match turn
    case DoFile(id, task) => if w.phase.Idle? && Linked(w.files, id, task) then w.(files := w.files[id := task]) else w
    case DoBrief(path, text) => if w.phase.Idle? then w.(briefs := w.briefs[path := text]) else w
    case DoLoad => if w.tick.None? && w.phase.Idle? then w.(tick := Some(Tick(w.files, w.files.Keys))) else w
    case DoSettle(id, task) =>
      if w.phase.Idle? && w.tick.Some? && id in w.tick.value.pending && id in w.tick.value.board &&
         Linked(w.tick.value.board, id, task)
      then w.(files := w.files[id := task], tick := Some(w.tick.value.(board := w.tick.value.board[id := task])))
      else w
    case DoPassOver(id) => if w.phase.Idle? && w.tick.Some? then Pass(w, id) else w
    case DoDecide(id, lanes, failed, ids, swap) =>
      if w.phase.Idle? && Due(w, id, lanes, failed, ids)
      then Pass(w, id).(phase := Planned(PlanOf(w.files, id, w.tick.value.board[id], lanes, failed, ids, swap)))
      else w
    case DoWriteBrief =>
      if w.phase.Planned? && w.phase.plan.task.brief in w.briefs
      then w.(briefs := w.briefs[Brief(w.phase.plan) := w.briefs[w.phase.plan.task.brief]], phase := BriefWritten(w.phase.plan))
      else w
    case DoWriteSuccessor =>
      if w.phase.BriefWritten?
      then
        var p := w.phase.plan;
        w.(files := w.files[p.to := Retry(p)], authored := w.authored + [p], phase := SuccessorWritten(p))
      else w
    case DoWritePredecessor =>
      if w.phase.SuccessorWritten?
      then
        var p := w.phase.plan;
        w.(files := w.files[p.from := Superseded(p.task, p.to, p.swap)], phase := PredecessorWritten(p))
      else w
    case DoRecord =>
      if w.phase.PredecessorWritten?
      then w.(swaps := w.swaps + [(w.phase.plan.from, w.phase.plan.to)], phase := Idle)
      else w
    case DoEnd => if w.phase.Idle? then w.(tick := None) else w
    case DoCrash => w.(tick := None, phase := Idle)
  }

  function Play(w: World, turns: seq<Turn>): World {
    if turns == [] then w else Take(Play(w, turns[..|turns| - 1]), turns[|turns| - 1])
  }

  lemma PlayOne(w: World, turn: Turn)
    ensures Play(w, [turn]) == Take(w, turn)
  {
    assert [turn][..0] == [];
  }

  lemma PlayAppend(w: World, turns: seq<Turn>, turn: Turn)
    ensures Play(w, turns + [turn]) == Take(Play(w, turns), turn)
  {
    assert (turns + [turn])[..|turns|] == turns;
  }

  // ----- What every run keeps ------------------------------------------------------------

  /** What a plan was decided on: a task due a retry, and exactly the lanes that fit. */
  predicate Decided(p: Plan) {
    Retriable(p.task) && AreCandidates(p.lanes, p.failed, p.ids) && p.ids != []
  }

  /** A written successor stands, and its predecessor is no failover task itself. */
  predicate LinkStands(files: Board, p: Plan) {
    && p.to in files && files[p.to].failoverFrom == Some(p.from)
    && p.from in files && files[p.from].failoverFrom.None?
  }

  predicate Unauthored(authored: seq<Plan>, id: string) {
    forall p :: p in authored ==> p.from != id
  }

  ghost predicate HistorySound(files: Board, authored: seq<Plan>) {
    && (forall p :: p in authored ==> LinkStands(files, p) && Decided(p))
    && (forall i, j :: 0 <= i < j < |authored| ==> authored[i].from != authored[j].from)
  }

  /** A link on the board is one that the runner wrote. */
  ghost predicate LinksSound(files: Board, authored: seq<Plan>) {
    forall id :: id in files && files[id].failoverFrom.Some? ==> !Unauthored(authored, files[id].failoverFrom.value)
  }

  /** The pass sees every successor of a task it has yet to come to. */
  ghost predicate TickSound(w: World) {
    w.tick.Some? ==>
      && (forall id :: id in w.tick.value.board ==> id in w.files && w.tick.value.board[id].failoverFrom == w.files[id].failoverFrom)
      && (forall p :: p in w.authored && p.from in w.tick.value.pending ==> HasSuccessor(w.tick.value.board, p.from))
  }

  /** A plan under way is about a task with no successor yet, and writes where nothing is. */
  ghost predicate PhaseSound(w: World) {
    match w.phase
    case Idle => true
    case Planned(p) => PlanSound(w, p) && Unauthored(w.authored, p.from) && p.to == NextId(w.files, p.from) && Brief(p) !in w.briefs
    case BriefWritten(p) => PlanSound(w, p) && Unauthored(w.authored, p.from) && p.to == NextId(w.files, p.from) && Brief(p) in w.briefs
    case SuccessorWritten(p) => PlanSound(w, p) && p in w.authored && p.to in w.files && w.files[p.to] == Retry(p)
    case PredecessorWritten(p) => PlanSound(w, p) && p in w.authored
  }

  predicate PlanSound(w: World, p: Plan) {
    Decided(p) && w.tick.Some? && p.from in w.files && w.files[p.from].failoverFrom.None? && p.from !in w.tick.value.pending
  }

  ghost predicate Sound(w: World) {
    HistorySound(w.files, w.authored) && LinksSound(w.files, w.authored) && TickSound(w) && PhaseSound(w)
  }

  /** In a sound state a task has a successor exactly when the runner wrote one. */
  lemma SuccessorIsAuthored(w: World, id: string)
    requires HistorySound(w.files, w.authored) && LinksSound(w.files, w.authored)
    ensures HasSuccessor(w.files, id) <==> !Unauthored(w.authored, id)
  {
    if !Unauthored(w.authored, id) {
      var p :| p in w.authored && p.from == id;
      assert LinkStands(w.files, p);
    }
  }

  lemma FileKeepsHistory(files: Board, authored: seq<Plan>, id: string, task: TaskFile)
    requires HistorySound(files, authored) && LinksSound(files, authored) && Linked(files, id, task)
    ensures HistorySound(files[id := task], authored) && LinksSound(files[id := task], authored)
  {
    forall p | p in authored ensures LinkStands(files[id := task], p) {
      assert LinkStands(files, p);
    }
    if id !in files && task.failoverFrom.Some? {
      var other :| other in files && files[other].failoverFrom == task.failoverFrom;
      assert !Unauthored(authored, files[other].failoverFrom.value);
    }
  }

  lemma FileTurn(w: World, id: string, task: TaskFile)
    requires Sound(w) && w.phase.Idle? && Linked(w.files, id, task)
    ensures Sound(w.(files := w.files[id := task]))
  {
    FileKeepsHistory(w.files, w.authored, id, task);
  }

  lemma LoadTurn(w: World)
    requires Sound(w) && w.phase.Idle?
    ensures Sound(w.(tick := Some(Tick(w.files, w.files.Keys))))
  {
    forall p | p in w.authored ensures HasSuccessor(w.files, p.from) {
      SuccessorIsAuthored(w, p.from);
    }
  }

  lemma SettleTurn(w: World, id: string, task: TaskFile)
    requires Sound(w) && Take(w, DoSettle(id, task)) != w
    ensures Sound(Take(w, DoSettle(id, task)))
  {
    var w' := Take(w, DoSettle(id, task));
    FileKeepsHistory(w.files, w.authored, id, task);
    forall p | p in w'.authored && p.from in w'.tick.value.pending ensures HasSuccessor(w'.tick.value.board, p.from) {
      var other :| other in w.tick.value.board && w.tick.value.board[other].failoverFrom == Some(p.from);
      assert w'.tick.value.board[other].failoverFrom == Some(p.from);
    }
  }

  lemma DecideTurn(w: World, id: string, lanes: map<string, Lane>, failed: Option<string>, ids: seq<string>, swap: string)
    requires Sound(w) && w.phase.Idle? && Due(w, id, lanes, failed, ids)
    ensures Sound(Take(w, DoDecide(id, lanes, failed, ids, swap)))
  {
    var w' := Take(w, DoDecide(id, lanes, failed, ids, swap));
    assert Unauthored(w.authored, id);
    assert PlanSound(w', w'.phase.plan);
  }

  lemma SuccessorKeepsHistory(files: Board, authored: seq<Plan>, p: Plan)
    requires HistorySound(files, authored) && Decided(p) && Unauthored(authored, p.from)
    requires p.to !in files && p.from in files && files[p.from].failoverFrom.None?
    ensures HistorySound(files[p.to := Retry(p)], authored + [p])
  {
    forall q | q in authored + [p] ensures LinkStands(files[p.to := Retry(p)], q) && Decided(q) {
      if q in authored {
        assert LinkStands(files, q);
      }
    }
    assert forall i :: 0 <= i < |authored| ==> authored[i] in authored;
  }

  lemma SuccessorKeepsLinks(files: Board, authored: seq<Plan>, p: Plan)
    requires LinksSound(files, authored) && p.to !in files
    ensures LinksSound(files[p.to := Retry(p)], authored + [p])
  {
    var files' := files[p.to := Retry(p)];
    assert (authored + [p])[|authored|] == p;
    forall id | id in files' && files'[id].failoverFrom.Some?
      ensures !Unauthored(authored + [p], files'[id].failoverFrom.value)
    {
      if id != p.to {
        var q :| q in authored && q.from == files[id].failoverFrom.value;
        assert q in authored + [p];
      }
    }
  }

  lemma SuccessorTurn(w: World)
    requires Sound(w) && w.phase.BriefWritten?
    ensures Sound(Take(w, DoWriteSuccessor))
  {
    var w', p := Take(w, DoWriteSuccessor), w.phase.plan;
    SuccessorKeepsHistory(w.files, w.authored, p);
    SuccessorKeepsLinks(w.files, w.authored, p);
    assert p in w'.authored;
  }

  lemma PredecessorTurn(w: World)
    requires Sound(w) && w.phase.SuccessorWritten?
    ensures Sound(Take(w, DoWritePredecessor))
  {
    var p := w.phase.plan;
    FileKeepsHistory(w.files, w.authored, p.from, Superseded(p.task, p.to, p.swap));
  }

  lemma TurnKeepsSound(w: World, turn: Turn)
    requires Sound(w)
    ensures Sound(Take(w, turn))
  {
    if Take(w, turn) != w {
      match turn
      case DoFile(id, task) => FileTurn(w, id, task);
      case DoLoad => LoadTurn(w);
      case DoSettle(id, task) => SettleTurn(w, id, task);
      case DoDecide(id, lanes, failed, ids, swap) => DecideTurn(w, id, lanes, failed, ids, swap);
      case DoWriteSuccessor => SuccessorTurn(w);
      case DoWritePredecessor => PredecessorTurn(w);
      case DoWriteBrief =>
      case _ =>
    }
  }

  lemma {:induction false} PlayKeepsSound(w: World, turns: seq<Turn>)
    requires Sound(w)
    ensures Sound(Play(w, turns))
  {
    if turns != [] {
      PlayKeepsSound(w, turns[..|turns| - 1]);
      TurnKeepsSound(Play(w, turns[..|turns| - 1]), turns[|turns| - 1]);
    }
  }

  lemma RunIsSound(turns: seq<Turn>)
    ensures Sound(Play(NoTasks, turns))
  {
    PlayKeepsSound(NoTasks, turns);
  }

  // ----- The guarantees ------------------------------------------------------------------

  /** In every run the runner writes at most one successor for a task, none for a task that is a
      failover itself, and every one of them stands, linked to its predecessor. */
  lemma AtMostOneSuccessor(turns: seq<Turn>)
    ensures var w := Play(NoTasks, turns);
            && (forall i, j :: 0 <= i < j < |w.authored| ==> w.authored[i].from != w.authored[j].from)
            && (forall p :: p in w.authored ==> p.from in w.files && w.files[p.from].failoverFrom.None?)
            && (forall p :: p in w.authored ==> p.to in w.files && w.files[p.to].failoverFrom == Some(p.from))
  {
    RunIsSound(turns);
    var w := Play(NoTasks, turns);
    assert forall p :: p in w.authored ==> LinkStands(w.files, p);
  }

  predicate RunsPackets(lane: Lane) {
    "packet" in lane.categories && lane.kind in PacketKinds
  }

  /** Every successor that a run writes names a lane; it names lanes of the configuration it was
      decided on that can run a packet, all of those of another family than the failed one and, where
      that is known, none of that family. */
  lemma OtherFamiliesOnly(turns: seq<Turn>, p: Plan)
    requires p in Play(NoTasks, turns).authored
    ensures Retry(p).lanes != [] && Retry(p).failoverFrom == Some(p.from) && Retry(p).state == "ready"
    ensures forall l :: l in Retry(p).lanes ==> l in p.lanes && RunsPackets(p.lanes[l]) && p.lanes[l].family != p.failed
    ensures forall l :: l in p.lanes && RunsPackets(p.lanes[l]) && p.lanes[l].family != p.failed ==> l in Retry(p).lanes
  {
    RunIsSound(turns);
    assert Decided(p);
  }

  /** A family keeps out of a successor exactly when it is the one known to have failed, or has no
      lane that can run a packet: with the failed family unknown its own lanes are candidates. */
  lemma FamilyKeptOutExactly(turns: seq<Turn>, p: Plan, family: string)
    requires p in Play(NoTasks, turns).authored
    ensures (forall l :: l in Retry(p).lanes && l in p.lanes ==> p.lanes[l].family != Some(family)) <==>
            || p.failed == Some(family)
            || forall l :: l in p.lanes && RunsPackets(p.lanes[l]) ==> p.lanes[l].family != Some(family)
  {
    OtherFamiliesOnly(turns, p);
  }

  /** In every reachable state the next write of an authoring overwrites no task file but the
      predecessor's, and no brief; the one that adds to the history writes that very file. */
  lemma NothingIsOverwritten(turns: seq<Turn>, turn: Turn, id: string, path: string)
    requires turn.DoDecide? || turn.DoWriteBrief? || turn.DoWriteSuccessor? || turn.DoWritePredecessor? || turn.DoRecord?
    ensures var w := Play(NoTasks, turns);
            var w' := Take(w, turn);
            && (id in w.files && !(w.phase.SuccessorWritten? && id == w.phase.plan.from) ==> id in w'.files && w'.files[id] == w.files[id])
            && (path in w.briefs ==> path in w'.briefs && w'.briefs[path] == w.briefs[path])
            && (w'.authored != w.authored ==>
                  exists p :: w'.authored == w.authored + [p] && p.to !in w.files && w'.files == w.files[p.to := Retry(p)])
  {
    RunIsSound(turns);
    var w := Play(NoTasks, turns);
    var w' := Take(w, turn);
    if w'.authored != w.authored {
      assert w'.authored == w.authored + [w.phase.plan];
    }
  }
}
