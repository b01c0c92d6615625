/** The runner's writes as the program makes them: the task files and the ledger are updated in
    place, one write after the other. */
module BoardObject {
  import opened Wrappers
  import opened LedgerSpec
  import opened LedgerObject
  import opened Transitions
  import opened Board
  import LedgerNames
  import Text
  import Worker
  import Exclusion

  datatype Settlement = NotAdmitted(why: Refusal) | PassEnded | Attempted(aid: nat, delivery: Worker.Delivery)

  /** `Raised` is a lookup of the account that finds no row: the whole pass ends on it. */
  datatype Admittance = Admitted(ticket: Ticket) | Declined(why: Refusal) | Raised

  datatype Requeue = Untouched | Reported(aid: nat) | Requeued(aid: nat)

  /** The steps of other actors, as turns of the board. */
  function AsTurns(steps: seq<Step>): seq<Turn> {
    seq(|steps|, i requires 0 <= i < |steps| => DoForeign(steps[i]))
  }

  lemma {:induction false} PlayForeign(w: World, steps: seq<Step>)
    requires forall step :: step in steps ==> Foreign(step)
    ensures Play(w, AsTurns(steps)) == w.(ledger := Run(w.ledger, steps))
  {
    if steps != [] {
      var n := |steps| - 1;
      PlayForeign(w, steps[..n]);
      assert AsTurns(steps)[..n] == AsTurns(steps[..n]);
      assert steps[n] in steps;
    }
  }

  lemma {:induction false} PlaySplit(w: World, a: seq<Turn>, b: seq<Turn>)
    ensures Play(w, a + b) == Play(Play(w, a), b)
  {
    if b == [] {
      assert a + b == a;
    } else {
      PlaySplit(w, a, b[..|b| - 1]);
      assert (a + b)[..|a + b| - 1] == a + b[..|b| - 1];
    }
  }

  lemma PlayOne(w: World, turn: Turn)
    ensures Play(w, [turn]) == Take(w, turn)
  {
    assert [turn][..0] == [];
  }

  lemma TakeReadDead(w: World, b: string)
    ensures Take(w, DoReadDead(b)) == ReadDead(w, b)
  {
  }

  lemma TakeSaveRequeued(w: World, b: string)
    requires In(w, b, Requeueing)
    ensures Take(w, DoSaveRequeued(b)) == Done(Filed(w, b, Ready), b)
  {
  }

  /** The two moves of a requeue. */
  lemma RequeueTurns(w: World, b: string)
    requires In(w, b, Loaded(FileState.Dispatched)) && Dead(w.ledger.attempts, b)
    ensures Play(w, [DoReadDead(b), DoSaveRequeued(b)]) == Done(Filed(Phased(w, b, Requeueing), b, Ready), b)
  {
    TakeReadDead(w, b);
    TakeSaveRequeued(Phased(w, b, Requeueing), b);
    PlayOne(w, DoReadDead(b));
    PlayOne(Phased(w, b, Requeueing), DoSaveRequeued(b));
    PlaySplit(w, [DoReadDead(b)], [DoSaveRequeued(b)]);
    assert [DoReadDead(b)] + [DoSaveRequeued(b)] == [DoReadDead(b), DoSaveRequeued(b)];
  }

  lemma NewerTransitive(a: Attempt, b: Attempt, c: Attempt)
    requires !Newer(a, b) && Newer(c, b)
    ensures !Newer(a, c)
  {
    if a.updated == c.updated == b.updated {
      Text.LexTotal(a.task, b.task);
      Text.LexTotal(a.task, c.task);
      if Text.LexLess(c.task, a.task) {
        Text.LexTransitive(b.task, c.task, a.task);
      }
    }
  }

  lemma SavedReady(w: World, turns: seq<Turn>, v: World, b: string)
    requires v == Play(w, turns) && In(v, b, Refused)
    ensures Done(Filed(v, b, Ready), b) == Play(w, turns + [DoSaveReady(b)])
  {
    PlayOne(v, DoSaveReady(b));
    PlaySplit(w, turns, [DoSaveReady(b)]);
  }

  lemma Settled(w: World, turns: seq<Turn>, v: World, b: string, to: FileState)
    requires v == Play(w, turns) && b in v.phases && v.phases[b].Running? && to != Ready
    ensures Done(Filed(v, b, to), b) == Play(w, turns + [DoSettle(b, to)])
  {
    PlayOne(v, DoSettle(b, to));
    PlaySplit(w, turns, [DoSettle(b, to)]);
  }

  /** A newer attempt than the newest of the first `n` is the newest of one more. */
  lemma NewerReplaces(rows: seq<Attempt>, ids: set<nat>, n: nat, best: nat)
    requires best < n < |rows| && Newer(rows[n], rows[best])
    requires forall j :: j in ids && j < n ==> !Newer(rows[j], rows[best])
    ensures forall j :: j in ids && j < n + 1 ==> !Newer(rows[j], rows[n])
  {
    forall j | j in ids && j < n ensures !Newer(rows[j], rows[n]) {
      NewerTransitive(rows[j], rows[best], rows[n]);
    }
    Text.LexTotal(rows[n].task, rows[n].task);
  }

  lemma NewestIsUnique(rows: seq<Attempt>, ids: set<nat>, i: nat)
    requires Exclusion.OneAttemptPerTask(rows) && Newest(rows, ids, i)
    ensures forall j :: Newest(rows, ids, j) ==> j == i
  {
    forall j: nat | Newest(rows, ids, j) ensures j == i {
      Text.LexTotal(rows[i].task, rows[j].task);
    }
  }

  /** Where no attempt is ACTIVE the newest decides. */
  lemma NewestDecides(rows: seq<Attempt>, b: string, i: nat)
    requires Exclusion.OneAttemptPerTask(rows) && Newest(rows, AttemptsOf(rows, b), i)
    requires forall j :: j in AttemptsOf(rows, b) ==> !Active(rows[j].state)
    ensures Dead(rows, b) <==> rows[i].state.Failed? || rows[i].state.Abandoned?
  {
    NewestIsUnique(rows, AttemptsOf(rows, b), i);
  }

  class Runner {
    const ledger: Ledger
    var files: map<string, FileState>
    var phases: map<string, Phase>

    ghost function View(): World
      reads this, ledger
    {
      World(ledger.View(), files, phases)
    }

    constructor (ledger: Ledger)
      ensures this.ledger == ledger && View() == World(ledger.View(), map[], map[])
    {
      this.ledger := ledger;
      files, phases := map[], map[];
    }

    method Mark(b: string)
      requires In(View(), b, Loaded(Ready))
      modifies this
      ensures View() == Take(old(View()), DoMark(b))
    {
      phases := phases[b := Marked];
      files := files[b := FileState.Dispatched];
    }

    /** `admit`: the inputs are staged, or refused; then a ledger task under a name of its own, then
        a claim of a hundredth of a unit on every window the account has. */
    method Admit(b: string, staging: Option<Refusal>, stamp: string, random: string, project: string, spec: Spec,
                 alias: string, now: real)
      returns (r: Admittance, ghost turns: seq<Turn>)
      requires In(View(), b, Marked)
      requires LedgerNames.Stamp(stamp) && random != "" && LedgerNames.HexDigits(random)
      modifies this`phases, ledger
      ensures View() == Play(old(View()), turns) && old(ledger.attempts) <= ledger.attempts
      ensures r.Declined? ==> In(View(), b, Refused)
      ensures r.Raised? ==> phases == map[]
      ensures !r.Admitted? ==> ledger.attempts == old(ledger.attempts)
      ensures r.Admitted? ==> In(View(), b, Running(r.ticket.aid)) && r.ticket.aid == old(|ledger.attempts|)
    {
      ghost var w := View();
      if staging.Some? {
        PlayOne(w, DoRefuse(b));
        phases := phases[b := Refused];
        return Declined(staging.value), [DoRefuse(b)];
      }
      var task := LedgerNames.LedgerId(b, stamp, random);
      var refused := ledger.SubmitTask(task, project, spec, spec.manifest);
      turns := [Turn.DoSubmit(b, stamp, random, project, spec)];
      PlayOne(w, turns[0]);
      if refused.Some? {
        phases := phases[b := Refused];
        return Declined(refused.value), turns;
      }
      phases := phases[b := Submitted(task)];
      r, turns := ClaimOnAll(b, task, alias, now);
      PlaySplit(w, [Turn.DoSubmit(b, stamp, random, project, spec)], turns);
      turns := [Turn.DoSubmit(b, stamp, random, project, spec)] + turns;
    }

    method ClaimOnAll(b: string, task: string, alias: string, now: real)
      returns (r: Admittance, ghost turns: seq<Turn>)
      requires In(View(), b, Submitted(task))
      modifies this`phases, ledger
      ensures View() == Play(old(View()), turns) && old(ledger.attempts) <= ledger.attempts
      ensures r.Declined? ==> In(View(), b, Refused)
      ensures r.Raised? ==> phases == map[]
      ensures !r.Admitted? ==> ledger.attempts == old(ledger.attempts)
      ensures r.Admitted? ==> In(View(), b, Running(r.ticket.aid)) && r.ticket.aid == old(|ledger.attempts|)
    {
      ghost var w := View();
      if alias !in ledger.aliases || ledger.aliases[alias] !in ledger.accounts {
        PlayOne(w, DoCrash);
        phases := map[];
        return Raised, [DoCrash];
      }
      var estimate := map k | k in ledger.accounts[ledger.aliases[alias]].windows :: 0.01;
      r := ClaimWith(b, task, alias, estimate, now);
      PlayOne(w, Turn.DoClaim(b, alias, estimate, now));
      turns := [Turn.DoClaim(b, alias, estimate, now)];
    }

    method ClaimWith(b: string, task: string, alias: string, estimate: Quota, now: real) returns (r: Admittance)
      requires In(View(), b, Submitted(task))
      modifies this`phases, ledger
      ensures View() == Board.Admission(old(View()), b, alias, estimate, now) && old(ledger.attempts) <= ledger.attempts
      ensures r.Declined? ==> In(View(), b, Refused) && ledger.attempts == old(ledger.attempts)
      ensures r.Admitted? ==> In(View(), b, Running(r.ticket.aid)) && r.ticket.aid == old(|ledger.attempts|)
      ensures !r.Raised?
    {
      var claimed := ledger.ClaimTask(task, alias, estimate, now);
      match claimed
      case Failure(why) =>
        phases := phases[b := Refused];
        r := Declined(why);
      case Success(ticket) =>
        phases := phases[b := Running(ticket.aid)];
        r := Admittance.Admitted(ticket);
    }

    /** A write of the task file that ends the pass's work on the task. */
    method Save(b: string, to: FileState)
      modifies this
      ensures View() == Done(Filed(old(View()), b, to), b) && files == old(files)[b := to]
    {
      files := files[b := to];
      phases := phases - {b};
    }

    /** A ready task of the pass: mark it dispatched, then admit it; a refusal saves it ready
        again, an admitted attempt is run and the task settled, never as ready. */
    method DispatchTask(b: string, staging: Option<Refusal>, stamp: string, random: string, project: string, spec: Spec,
                        alias: string, now: real, world: Worker.World, meanwhile: seq<Step>, later: seq<Step>,
                        ended: real, to: FileState)
      returns (r: Settlement, ghost turns: seq<Turn>)
      requires Sound(View()) && In(View(), b, Loaded(Ready))
      requires LedgerNames.Stamp(stamp) && random != "" && LedgerNames.HexDigits(random)
      requires forall step :: step in meanwhile || step in later ==> Foreign(step)
      requires to != Ready
      modifies this, ledger
      ensures View() == Play(old(View()), turns)
      ensures b in files && b !in phases
      ensures !r.Attempted? ==> ledger.attempts == old(ledger.attempts)
      ensures r.NotAdmitted? ==> files[b] == Ready
      ensures r.PassEnded? ==> files[b] == FileState.Dispatched && phases == map[]
      ensures r.Attempted? ==> files[b] == (if r.delivery.Completed? then to else Blocked) && r.aid == old(|ledger.attempts|)
    {
      ghost var w0 := View();
      Mark(b);
      PlayOne(w0, DoMark(b));
      PlayKeepsSound(w0, [DoMark(b)]);
      var admittance;
      ghost var admission;
      admittance, admission := AdmitOrRelease(b, staging, stamp, random, project, spec, alias, now);
      PlaySplit(w0, [DoMark(b)], admission);
      turns := [DoMark(b)] + admission;
      match admittance
      case Declined(why) => r := NotAdmitted(why);
      case Raised => r := PassEnded;
      case Admitted(ticket) =>
        ghost var rest;
        r, rest := RunAttempt(b, ticket, now, world, meanwhile, later, ended, to);
        PlaySplit(w0, turns, rest);
        turns := turns + rest;
    }

    method AdmitOrRelease(b: string, staging: Option<Refusal>, stamp: string, random: string, project: string, spec: Spec,
                          alias: string, now: real)
      returns (r: Admittance, ghost turns: seq<Turn>)
      requires Sound(View()) && In(View(), b, Marked)
      requires LedgerNames.Stamp(stamp) && random != "" && LedgerNames.HexDigits(random)
      modifies this, ledger
      ensures View() == Play(old(View()), turns) && Sound(View()) && old(ledger.attempts) <= ledger.attempts
      ensures files == if r.Declined? then old(files)[b := Ready] else old(files)
      ensures r.Declined? ==> b !in phases
      ensures r.Raised? ==> phases == map[]
      ensures !r.Admitted? ==> ledger.attempts == old(ledger.attempts)
      ensures r.Admitted? ==> In(View(), b, Running(r.ticket.aid)) && r.ticket.aid == old(|ledger.attempts|)
    {
      ghost var w := View();
      r, turns := Admit(b, staging, stamp, random, project, spec, alias, now);
      if r.Declined? {
        SavedReady(w, turns, View(), b);
        Save(b, Ready);
        turns := turns + [DoSaveReady(b)];
      }
      PlayKeepsSound(w, turns);
    }

    /** `settle_attempt` around `execute`. */
    method RunAttempt(b: string, ticket: Ticket, now: real, world: Worker.World, meanwhile: seq<Step>, later: seq<Step>,
                      ended: real, to: FileState)
      returns (r: Settlement, ghost turns: seq<Turn>)
      requires Sound(View()) && In(View(), b, Running(ticket.aid)) && to != Ready
      requires forall step :: step in meanwhile || step in later ==> Foreign(step)
      modifies this, ledger
      ensures View() == Play(old(View()), turns)
      ensures b in files && b !in phases
      ensures r.Attempted? && r.aid == ticket.aid && files[b] == if r.delivery.Completed? then to else Blocked
    {
      ghost var w := View();
      var delivery, runs;
      ghost var trace;
      delivery, runs, trace := Worker.Execute(ledger, ticket.aid, ticket.generation, world, meanwhile, later, now, ended);
      ghost var steps := [DoStart(ticket.aid, ticket.generation, now)] + trace;
      PlayForeign(w, steps);
      assert View() == Play(w, AsTurns(steps));
      var end := if delivery.Completed? then to else Blocked;
      Settled(w, AsTurns(steps), View(), b, end);
      Save(b, end);
      return Attempted(ticket.aid, delivery), AsTurns(steps) + [DoSettle(b, end)];
    }

    /** The newest attempt of the task, from a pass over the table. */
    method FindNewest(ids: set<nat>) returns (newest: Option<nat>)
      requires forall i :: i in ids ==> i < |ledger.attempts|
      ensures newest.None? <==> ids == {}
      ensures newest.Some? ==> Newest(ledger.attempts, ids, newest.value)
    {
      newest := None;
      for n := 0 to |ledger.attempts|
        invariant newest.None? <==> forall i :: i in ids ==> i >= n
        invariant newest.Some? ==> newest.value in ids && newest.value < n &&
                                   forall j :: j in ids && j < n ==> !Newer(ledger.attempts[j], ledger.attempts[newest.value])
      {
        Text.LexTotal(ledger.attempts[n].task, ledger.attempts[n].task);
        if n in ids {
          if newest.None? || Newer(ledger.attempts[n], ledger.attempts[newest.value]) {
            if newest.Some? {
              NewerReplaces(ledger.attempts, ids, n, newest.value);
            }
            newest := Some(n);
          }
        }
      }
    }

    /** `requeue_dead`: a task stranded as dispatched is saved ready exactly when all its attempts
        are over and the newest failed or was abandoned. */
    method RequeueDead(b: string) returns (r: Requeue, ghost turns: seq<Turn>)
      requires In(View(), b, Loaded(FileState.Dispatched)) && Exclusion.OneAttemptPerTask(ledger.attempts)
      modifies this
      ensures View() == Play(old(View()), turns)
      ensures r.Requeued? <==> Dead(ledger.attempts, b)
      ensures r.Requeued? ==> b in files && files[b] == Ready
      ensures !r.Requeued? ==> files == old(files)
      ensures r.Reported? ==> Newest(ledger.attempts, AttemptsOf(ledger.attempts, b), r.aid) &&
                              (ledger.attempts[r.aid].state.Completed? || ledger.attempts[r.aid].state.Accepted?)
    {
      r := Inspect(b);
      if r.Requeued? {
        turns := SaveRequeued(b);
      } else {
        turns := PassOver(b);
      }
    }

    /** The pass leaves the task as it is. */
    method PassOver(b: string) returns (ghost turns: seq<Turn>)
      requires b in phases && phases[b].Loaded?
      modifies this
      ensures View() == Play(old(View()), turns) && files == old(files) && b !in phases
    {
      PlayOne(View(), DoPassOver(b));
      phases := phases - {b};
      turns := [DoPassOver(b)];
    }

    method SaveRequeued(b: string) returns (ghost turns: seq<Turn>)
      requires In(View(), b, Loaded(FileState.Dispatched)) && Dead(ledger.attempts, b)
      modifies this
      ensures View() == Play(old(View()), turns) && files == old(files)[b := Ready]
    {
      ghost var w := View();
      RequeueTurns(w, b);
      phases := phases[b := Requeueing];
      assert View() == Phased(w, b, Requeueing);
      Save(b, Ready);
      turns := [DoReadDead(b), DoSaveRequeued(b)];
    }

    /** What `requeue_dead` finds in the ledger. */
    method Inspect(b: string) returns (r: Requeue)
      requires Exclusion.OneAttemptPerTask(ledger.attempts)
      ensures r.Requeued? <==> Dead(ledger.attempts, b)
      ensures r.Reported? ==> Newest(ledger.attempts, AttemptsOf(ledger.attempts, b), r.aid) &&
                              (ledger.attempts[r.aid].state.Completed? || ledger.attempts[r.aid].state.Accepted?)
    {
      var ids := AttemptsOf(ledger.attempts, b);
      var newest := FindNewest(ids);
      if newest.None? { return Untouched; }
      if exists i :: i in ids && Active(ledger.attempts[i].state) { return Untouched; }
      NewestDecides(ledger.attempts, b, newest.value);
      var row := ledger.attempts[newest.value];
      if row.state.Completed? || row.state.Accepted? { return Reported(newest.value); }
      return Requeued(newest.value);
    }
  }
}
