/** The board directory and the pass over it as an object (src/inference_grid/board/failover.py,
    `author_failover`): its writes one after the other are those of the machine in Failover. */
module FailoverObject {
  import opened Wrappers
  import opened Failover
  import RetryIds

  datatype Reply = NotDue | NoLane | Taken(id: string) | BriefMissing | Authored(id: string, lanes: seq<string>)

  /** One authoring, undisturbed. */
  function Authoring(id: string, lanes: map<string, Lane>, failed: Option<string>, ids: seq<string>, swap: string): seq<Turn> {
    [DoDecide(id, lanes, failed, ids, swap), DoWriteBrief, DoWriteSuccessor, DoWritePredecessor, DoRecord]
  }

  class BoardDir {
    var files: Board
    var briefs: map<string, string>
    var swaps: seq<(string, string)>
    var board: Board                // as the pass loaded it, and wrote since
    var pending: set<string>
    ghost var authored: seq<Plan>

    /** The directory and the pass between two authorings. */
    ghost function View(): World
      reads this
    {
      World(files, briefs, Some(Tick(board, pending)), Idle, swaps, authored)
    }

    /** A pass begins. */
    constructor (files: Board, briefs: map<string, string>, swaps: seq<(string, string)>, ghost authored: seq<Plan>)
      ensures View() == Take(World(files, briefs, None, Idle, swaps, authored), DoLoad)
    {
      this.files, this.briefs, this.swaps := files, briefs, swaps;
      board, pending, this.authored := files, files.Keys, authored;
    }

    /** Which reply the task gets; for Authored the writes are still to do. */
    method Consider(id: string, failed: Option<string>, lanes: map<string, Lane>, texts: seq<string>) returns (r: Reply)
      requires id in files && id in board
      ensures r.NotDue? <==> !Candidate(board, id, board[id])
      ensures r.NoLane? <==> Candidate(board, id, board[id]) && forall l :: l in lanes ==> !Fits(lanes[l], failed)
      ensures !r.NotDue? && !r.NoLane? ==> var brief := BriefOf(board[id].brief, NextId(files, id));
                && (r.Taken? <==> brief in briefs)
                && (r.BriefMissing? <==> brief !in briefs && board[id].brief !in briefs)
      ensures r.Taken? || r.Authored? ==> r.id == NextId(files, id)
      ensures r.Authored? ==> AreCandidates(lanes, failed, r.lanes) && r.lanes != []
    {
      var task := board[id];
      if !Candidate(board, id, task) { return NotDue; }
      if !(Eligible(task.reason) || exists t | t in texts :: Eligible(t)) { return NotDue; }
      var candidates := FailoverCandidates(lanes, failed);
      if candidates == [] { return NoLane; }
      assert candidates[0] in candidates;
      var to := RetryIds.NextRetryId(files.Keys, IsSuperseded(files[id]), id);
      var brief := BriefOf(task.brief, to);
      if to in files || brief in briefs { return Taken(to); }
      if task.brief !in briefs { return BriefMissing; }
      return Authored(to, candidates);
    }

    /** The one retry on other families of a settled packet task the pass has come to, or why there
        is none. The task is as the pass has it in memory; the directory is looked at as it is now. */
    method AuthorFailover(id: string, failed: Option<string>, lanes: map<string, Lane>, texts: seq<string>, swap: string)
      returns (r: Reply)
      requires id in files && id in board && id in pending
      modifies this
      ensures r.NotDue? <==> !Candidate(old(board), id, old(board)[id])
      ensures r.NoLane? <==> Candidate(old(board), id, old(board)[id]) && forall l :: l in lanes ==> !Fits(lanes[l], failed)
      ensures !r.NotDue? && !r.NoLane? ==> var brief := BriefOf(old(board)[id].brief, NextId(old(files), id));
                && (r.Taken? <==> brief in old(briefs))
                && (r.BriefMissing? <==> brief !in old(briefs) && old(board)[id].brief !in old(briefs))
      ensures r.Taken? || r.Authored? ==> r.id == NextId(old(files), id)
      ensures !r.Authored? ==> View() == Take(old(View()), DoPassOver(id))
      ensures r.Authored? ==>
                && Due(old(View()), id, lanes, failed, r.lanes)
                && View() == Play(old(View()), Authoring(id, lanes, failed, r.lanes, swap))
                && files == old(files)[r.id := Successor(id, old(board)[id], r.id, r.lanes)][id := Superseded(old(board)[id], r.id, swap)]
                && briefs == old(briefs)[BriefOf(old(board)[id].brief, r.id) := old(briefs)[old(board)[id].brief]]
                && swaps == old(swaps) + [(id, r.id)]
    {
      r := Consider(id, failed, lanes, texts);
      ghost var before := View();
      pending := pending - {id};
      if r.Authored? {
        var task := board[id];
        ghost var p := PlanOf(files, id, task, lanes, failed, r.lanes, swap);
        WholeAuthoring(before, id, lanes, failed, r.lanes, swap, p);
        briefs := briefs[BriefOf(task.brief, r.id) := briefs[task.brief]];
        files := files[r.id := Successor(id, task, r.id, r.lanes)];
        authored := authored + [p];
        files := files[id := Superseded(task, r.id, swap)];
        swaps := swaps + [(id, r.id)];
      }
    }
  }

  /** The directory after the four writes of one authoring. */
  function Written(w: World, p: Plan): World
    requires p.task.brief in w.briefs
  {
    w.(briefs := w.briefs[Brief(p) := w.briefs[p.task.brief]],
       files := w.files[p.to := Retry(p)][p.from := Superseded(p.task, p.to, p.swap)],
       swaps := w.swaps + [(p.from, p.to)],
       authored := w.authored + [p])
  }

  lemma DecideIs(w: World, id: string, lanes: map<string, Lane>, failed: Option<string>, ids: seq<string>, swap: string, p: Plan)
    requires w.phase.Idle? && Due(w, id, lanes, failed, ids)
    requires p == PlanOf(w.files, id, w.tick.value.board[id], lanes, failed, ids, swap)
    ensures Take(w, DoDecide(id, lanes, failed, ids, swap)) == Pass(w, id).(phase := Planned(p))
  {
  }

  lemma UndisturbedWrites(w: World, p: Plan)
    requires w.phase == Planned(p) && p.task.brief in w.briefs
    ensures Take(Take(Take(Take(w, DoWriteBrief), DoWriteSuccessor), DoWritePredecessor), DoRecord) ==
            Written(w, p).(phase := Idle)
  {
  }

  lemma PlayFive(w: World, a: Turn, b: Turn, c: Turn, d: Turn, e: Turn)
    ensures Play(w, [a, b, c, d, e]) == Take(Take(Take(Take(Take(w, a), b), c), d), e)
  {
    assert [a, b, c, d, e] == [a] + [b] + [c] + [d] + [e];
    PlayOne(w, a);
    PlayAppend(w, [a], b);
    PlayAppend(w, [a] + [b], c);
    PlayAppend(w, [a] + [b] + [c], d);
    PlayAppend(w, [a] + [b] + [c] + [d], e);
  }

  lemma WholeAuthoring(w: World, id: string, lanes: map<string, Lane>, failed: Option<string>, ids: seq<string>, swap: string, p: Plan)
    requires w.phase.Idle? && Due(w, id, lanes, failed, ids) && p.task.brief in w.briefs
    requires p == PlanOf(w.files, id, w.tick.value.board[id], lanes, failed, ids, swap)
    ensures Play(w, Authoring(id, lanes, failed, ids, swap)) == Written(Pass(w, id), p)
  {
    PlayFive(w, DoDecide(id, lanes, failed, ids, swap), DoWriteBrief, DoWriteSuccessor, DoWritePredecessor, DoRecord);
    DecideIs(w, id, lanes, failed, ids, swap, p);
    UndisturbedWrites(Pass(w, id).(phase := Planned(p)), p);
  }
}
