/** The board over the ledger (src/inference_grid/board/runner.py), for tasks that are not
    packets: task files and the ledger change in separate writes, the runner may crash between
    any two of them, and operators and other boards act on the ledger at any time. Passes over
    one board are taken one at a time. */
module Board {
  import opened Wrappers
  import opened LedgerSpec
  import opened Transitions
  import LedgerNames
  import Text

  datatype FileState = Ready | Dispatched | Passed | ReviewPending | Accepted | Blocked

  /** Where the pass is with one task; lost in a crash. */
  datatype Phase =
    | Loaded(file: FileState)         // the task file as the pass read it
    | Marked                          // the file says dispatched; nothing submitted yet
    | Submitted(task: string)         // the ledger task exists; not claimed yet
    | Refused                         // admission refused; the file is to say ready again
    | Running(aid: nat)               // an attempt was admitted
    | Requeueing                      // its attempts were found dead; the file is to say ready

  datatype World = World(ledger: State, files: map<string, FileState>, phases: map<string, Phase>)

  const NoBoard := World(Empty, map[], map[])

  // ----- The attempts of a board task ----------------------------------------------------

  /** `ledger_attempts`. */
  function AttemptsOf(rows: seq<Attempt>, b: string): set<nat> {
    set i | 0 <= i < |rows| && LedgerNames.Attributed(rows[i].task, b)
  }

  predicate ActiveFor(rows: seq<Attempt>, b: string, i: nat) {
    i < |rows| && LedgerNames.Attributed(rows[i].task, b) && LedgerSpec.Active(rows[i].state)
  }

  /** Attempt `i` was updated after attempt `j`, or at the same time under a later ledger id. */
  predicate Newer(i: Attempt, j: Attempt) {
    i.updated > j.updated || (i.updated == j.updated && Text.LexLess(j.task, i.task))
  }

  /** The first attempt in the order of `ledger_attempts`, the newest first. */
  predicate Newest(rows: seq<Attempt>, ids: set<nat>, i: nat) {
    i in ids && i < |rows| && forall j :: j in ids && j < |rows| ==> !Newer(rows[j], rows[i])
  }

  /** `requeue_dead`'s test: there are attempts, none is ACTIVE, the newest failed or was
      abandoned. */
  predicate Dead(rows: seq<Attempt>, b: string) {
    var ids := AttemptsOf(rows, b);
    && (forall i :: i in ids ==> !LedgerSpec.Active(rows[i].state))
    && exists i :: i in ids && Newest(rows, ids, i) && (rows[i].state.Failed? || rows[i].state.Abandoned?)
  }

  // ----- The writes ----------------------------------------------------------------------

  /** A ledger transaction of anyone else: it may be anything but a claim of a task that the board
      would take for an attempt of its own. */
  ghost predicate Foreign(step: Step) {
    !step.DoClaim? || !IsBoardTask(step.task)
  }

  /** Some board id is credited with the ledger task. */
  ghost predicate IsBoardTask(task: string) {
    exists b :: LedgerNames.BoardId(b) && LedgerNames.Attributed(task, b)
  }

  datatype Turn =
    | DoForeign(step: Step)                                  // operators, workers, other boards
    | DoAuthor(b: string)                                    // a new task file
    | DoFile(b: string, to: FileState)                       // any other write of a file, never ready
    | DoLoad                                                 // a pass begins
    | DoPassOver(b: string)                                  // the pass leaves the task alone
    | DoMark(b: string)
    | DoSubmit(b: string, stamp: string, random: string, project: string, spec: Spec)
    | DoRefuse(b: string)                                    // staging refused
    | DoClaim(b: string, alias: string, estimate: Quota, now: real)
    | DoSaveReady(b: string)
    | DoSettle(b: string, to: FileState)
    | DoReadDead(b: string)
    | DoSaveRequeued(b: string)
    | DoCrash

  function Phased(w: World, b: string, p: Phase): World {
    w.(phases := w.phases[b := p])
  }

  function Filed(w: World, b: string, to: FileState): World {
    w.(files := w.files[b := to])
  }

  /** The pass is done with the task. */
  function Done(w: World, b: string): World {
    w.(phases := w.phases - {b})
  }

  predicate In(w: World, b: string, p: Phase) {
    b in w.phases && w.phases[b] == p
  }

  function Submission(w: World, b: string, stamp: string, random: string, project: string, spec: Spec): World {
    var task := LedgerNames.LedgerId(b, stamp, random);
    if SubmitRefusal(w.ledger, task, project, spec, spec.manifest).Some? then Phased(w, b, Refused)
    else Phased(w.(ledger := Submit(w.ledger, task, project, spec, spec.manifest)), b, Submitted(task))
  }

  function Admission(w: World, b: string, alias: string, estimate: Quota, now: real): World
    requires b in w.phases && w.phases[b].Submitted?
  {
    var task := w.phases[b].task;
    match ClaimReply(w.ledger, task, alias, estimate, now)
    case Failure(_) => Phased(w, b, Refused)
    case Success(ticket) => Phased(w.(ledger := Claim(w.ledger, task, alias, estimate, now)), b, Running(ticket.aid))
  }

  function ReadDead(w: World, b: string): World {
    if In(w, b, Loaded(FileState.Dispatched)) && Dead(w.ledger.attempts, b) then Phased(w, b, Requeueing) else w
  }

  ghost function Take(w: World, turn: Turn): World {
    match turn
    case DoForeign(step) => if Foreign(step) then w.(ledger := Apply(w.ledger, step)) else w
    case DoAuthor(b) => if LedgerNames.BoardId(b) && b !in w.files then Filed(w, b, Ready) else w
    case DoFile(b, to) => if b in w.files && to != Ready then Filed(w, b, to) else w
    case DoLoad => if w.phases == map[] then w.(phases := map b | b in w.files :: Loaded(w.files[b])) else w
    case DoPassOver(b) => if b in w.phases && w.phases[b].Loaded? then Done(w, b) else w
    case DoMark(b) => if In(w, b, Loaded(Ready)) then Filed(Phased(w, b, Marked), b, FileState.Dispatched) else w
    case DoSubmit(b, stamp, random, project, spec) =>
      if In(w, b, Marked) && LedgerNames.Stamp(stamp) && random != "" && LedgerNames.HexDigits(random)
      then Submission(w, b, stamp, random, project, spec)
      else w
    case DoRefuse(b) => if In(w, b, Marked) then Phased(w, b, Refused) else w
    case DoClaim(b, alias, estimate, now) =>
      if b in w.phases && w.phases[b].Submitted? then Admission(w, b, alias, estimate, now) else w
    case DoSaveReady(b) => if In(w, b, Refused) then Done(Filed(w, b, Ready), b) else w
    case DoSettle(b, to) => if b in w.phases && w.phases[b].Running? && to != Ready then Done(Filed(w, b, to), b) else w
    case DoReadDead(b) => ReadDead(w, b)
    case DoSaveRequeued(b) => if In(w, b, Requeueing) then Done(Filed(w, b, Ready), b) else w
    case DoCrash => w.(phases := map[])
  }

  ghost function Play(w: World, turns: seq<Turn>): World {
    if turns == [] then w else Take(Play(w, turns[..|turns| - 1]), turns[|turns| - 1])
  }

  // ----- The invariant -------------------------------------------------------------------

  ghost predicate NoActive(rows: seq<Attempt>, b: string) {
    forall i :: !ActiveFor(rows, b, i)
  }

  ghost predicate OneActive(rows: seq<Attempt>, b: string) {
    forall i, j :: ActiveFor(rows, b, i) && ActiveFor(rows, b, j) ==> i == j
  }

  /** The pass has read or will write `ready`, or is about to claim: no attempt may be ACTIVE. */
  predicate Clear(p: Phase) {
    p == Loaded(Ready) || p.Marked? || p.Submitted? || p.Refused? || p.Requeueing?
  }

  /** From the mark to the claim, and while the attempt runs, the file does not say ready. */
  predicate Busy(p: Phase) {
    p.Marked? || p.Submitted? || p.Running?
  }

  ghost predicate TaskSound(w: World, b: string) {
    && OneActive(w.ledger.attempts, b)
    && (b in w.files && w.files[b] == Ready ==> NoActive(w.ledger.attempts, b))
    && (b !in w.files ==> NoActive(w.ledger.attempts, b) && b !in w.phases)
    && (b in w.phases && Clear(w.phases[b]) ==> NoActive(w.ledger.attempts, b))
    && (b in w.phases && Busy(w.phases[b]) ==> w.files[b] != Ready)
    && (b in w.phases && w.phases[b].Submitted? ==> LedgerNames.Attributed(w.phases[b].task, b))
  }

  ghost predicate Sound(w: World) {
    && Linked(w.ledger)
    && (forall b :: b in w.files ==> LedgerNames.BoardId(b))
    && (forall b :: b in w.phases ==> b in w.files)
    && (forall b :: LedgerNames.BoardId(b) ==> TaskSound(w, b))
  }

  // ----- Ledger transactions and the attempts of a board task ----------------------------

  /** No attempt of the board task becomes ACTIVE. */
  ghost predicate NoneWakes(rows: seq<Attempt>, rows': seq<Attempt>, b: string) {
    forall i :: ActiveFor(rows', b, i) ==> ActiveFor(rows, b, i)
  }

  lemma ShapeWakes(s: State, s': State, shape: Shape, b: string)
    requires HasShape(s, s', shape)
    requires shape.Admission? ==> !LedgerNames.Attributed(shape.row.task, b)
    ensures NoneWakes(s.attempts, s'.attempts, b)
  {
    match shape
    case Admission(row, _, _, _) => assert s'.attempts[|s.attempts|] == row;
    case External(row, _) => assert s'.attempts[|s.attempts|] == row;
    case _ =>
  }

  /** What a ledger transaction that wakes nothing of any board task does to the board: nothing. */
  lemma QuietLedger(w: World, s': State)
    requires Sound(w) && Linked(s')
    requires forall b :: LedgerNames.BoardId(b) ==> NoneWakes(w.ledger.attempts, s'.attempts, b)
    ensures Sound(w.(ledger := s'))
  {
    var w' := w.(ledger := s');
    forall b | LedgerNames.BoardId(b) ensures TaskSound(w', b) {
      assert TaskSound(w, b) && NoneWakes(w.ledger.attempts, s'.attempts, b);
    }
  }

  lemma ForeignTurn(w: World, step: Step)
    requires Sound(w) && Foreign(step)
    ensures Sound(w.(ledger := Apply(w.ledger, step)))
  {
    var s' := Apply(w.ledger, step);
    var shape := StepShape(w.ledger, step);
    ShapeKeepsLinked(w.ledger, s', shape);
    forall b | LedgerNames.BoardId(b) ensures NoneWakes(w.ledger.attempts, s'.attempts, b) {
      ShapeWakes(w.ledger, s', shape, b);
    }
    QuietLedger(w, s');
  }

  /** A change of one task's file and phase, the ledger standing. */
  lemma LocalTurn(w: World, w': World, b: string)
    requires Sound(w) && w'.ledger == w.ledger && LedgerNames.BoardId(b) && TaskSound(w', b)
    requires w'.files.Keys == w.files.Keys + (if b in w'.files then {b} else {})
    requires w'.phases.Keys <= w.phases.Keys + {b}
    requires forall c :: c != b && c in w.files ==> w'.files[c] == w.files[c]
    requires forall c :: c != b && c in w'.phases ==> w'.phases[c] == w.phases[c]
    requires b in w'.phases ==> b in w'.files
    ensures Sound(w')
  {
    forall c | LedgerNames.BoardId(c) ensures TaskSound(w', c) {
      assert TaskSound(w, c);
    }
  }

  lemma LoadTurn(w: World)
    requires Sound(w)
    ensures Sound(w.(phases := map b | b in w.files :: Loaded(w.files[b])))
  {
    var w' := w.(phases := map b | b in w.files :: Loaded(w.files[b]));
    forall b | LedgerNames.BoardId(b) ensures TaskSound(w', b) {
      assert TaskSound(w, b);
    }
  }

  lemma CrashTurn(w: World)
    requires Sound(w)
    ensures Sound(w.(phases := map[]))
  {
    var w' := w.(phases := map[]);
    forall b | LedgerNames.BoardId(b) ensures TaskSound(w', b) {
      assert TaskSound(w, b);
    }
  }

  lemma SubmitTurn(w: World, b: string, stamp: string, random: string, project: string, spec: Spec)
    requires Sound(w) && In(w, b, Marked) && LedgerNames.Stamp(stamp) && random != "" && LedgerNames.HexDigits(random)
    ensures Sound(Submission(w, b, stamp, random, project, spec))
  {
    var task := LedgerNames.LedgerId(b, stamp, random);
    LedgerNames.LedgerIdIsAttributed(b, stamp, random);
    var s' := Submit(w.ledger, task, project, spec, spec.manifest);
    assert s'.attempts == w.ledger.attempts;
    QuietLedger(w, s');
    var w1 := w.(ledger := s');
    assert TaskSound(w, b) && TaskSound(w1, b);
    if SubmitRefusal(w.ledger, task, project, spec, spec.manifest).Some? {
      LocalTurn(w, Phased(w, b, Refused), b);
    } else {
      LocalTurn(w1, Phased(w1, b, Submitted(task)), b);
    }
  }

  /** The claim of a board's own attempt concerns that board task alone: its ledger id names no
      other. */
  lemma ClaimTurn(w: World, b: string, alias: string, estimate: Quota, now: real)
    requires Sound(w) && b in w.phases && w.phases[b].Submitted?
    ensures Sound(Admission(w, b, alias, estimate, now))
  {
    var task := w.phases[b].task;
    assert TaskSound(w, b);
    if ClaimRefusal(w.ledger, task, alias, estimate, now).Some? {
      LocalTurn(w, Phased(w, b, Refused), b);
    } else {
      var s' := Claim(w.ledger, task, alias, estimate, now);
      var shape := ClaimShape(w.ledger, task, alias, estimate, now);
      ShapeKeepsLinked(w.ledger, s', shape);
      assert s'.attempts[|w.ledger.attempts|].task == task;
      AdmittedTurn(w, s', b);
    }
  }

  /** A new attempt, the first ACTIVE one of its board task. */
  lemma AdmittedTurn(w: World, s': State, b: string)
    requires Sound(w) && Linked(s') && b in w.phases && w.phases[b].Submitted?
    requires |s'.attempts| == |w.ledger.attempts| + 1 && w.ledger.attempts <= s'.attempts
    requires s'.attempts[|w.ledger.attempts|].task == w.phases[b].task
    ensures Sound(Phased(w.(ledger := s'), b, Running(|w.ledger.attempts|)))
  {
    var w' := Phased(w.(ledger := s'), b, Running(|w.ledger.attempts|));
    assert TaskSound(w, b);
    forall c | LedgerNames.BoardId(c) ensures TaskSound(w', c) {
      assert TaskSound(w, c);
      if c == b {
        FirstActive(w.ledger, s', b);
      } else {
        OthersSleep(w.ledger, s', w.phases[b].task, b, c);
      }
    }
  }

  lemma FirstActive(s: State, s': State, b: string)
    requires NoActive(s.attempts, b) && |s'.attempts| == |s.attempts| + 1 && s.attempts <= s'.attempts
    ensures OneActive(s'.attempts, b)
  {
    forall i: nat, j: nat | ActiveFor(s'.attempts, b, i) && ActiveFor(s'.attempts, b, j) ensures i == j {
      assert i < |s.attempts| ==> !ActiveFor(s.attempts, b, i);
      assert j < |s.attempts| ==> !ActiveFor(s.attempts, b, j);
    }
  }

  lemma OthersSleep(s: State, s': State, task: string, b: string, c: string)
    requires |s'.attempts| == |s.attempts| + 1 && s.attempts <= s'.attempts && s'.attempts[|s.attempts|].task == task
    requires LedgerNames.Attributed(task, b) && b != c
    ensures NoneWakes(s.attempts, s'.attempts, c)
  {
    forall i: nat | ActiveFor(s'.attempts, c, i) ensures ActiveFor(s.attempts, c, i) {
      if i == |s.attempts| {
        LedgerNames.AttributedOnce(task, b, c);
      }
    }
  }

  lemma DeadIsInactive(rows: seq<Attempt>, b: string)
    requires Dead(rows, b)
    ensures NoActive(rows, b)
  {
    forall i: nat ensures !ActiveFor(rows, b, i) {
      assert ActiveFor(rows, b, i) ==> i in AttemptsOf(rows, b);
    }
  }

  lemma AuthorTurn(w: World, b: string)
    requires Sound(w) && LedgerNames.BoardId(b) && b !in w.files
    ensures Sound(Filed(w, b, Ready))
  {
    LocalTask(w, Filed(w, b, Ready), b);
  }

  lemma OtherFileTurn(w: World, b: string, to: FileState)
    requires Sound(w) && b in w.files && to != Ready
    ensures Sound(Filed(w, b, to))
  {
    LocalTask(w, Filed(w, b, to), b);
  }

  lemma SaveReadyTurn(w: World, b: string)
    requires Sound(w) && (In(w, b, Refused) || In(w, b, Requeueing))
    ensures Sound(Done(Filed(w, b, Ready), b))
  {
    LocalTask(w, Done(Filed(w, b, Ready), b), b);
  }

  lemma SettleTurn(w: World, b: string, to: FileState)
    requires Sound(w) && b in w.phases && to != Ready
    ensures Sound(Done(Filed(w, b, to), b))
  {
    LocalTask(w, Done(Filed(w, b, to), b), b);
  }

  /** The moves of the pass from one write to the next. */
  lemma PhaseTurn(w: World, turn: Turn)
    requires Sound(w) && Take(w, turn) != w
    requires turn.DoPassOver? || turn.DoMark? || turn.DoRefuse? || turn.DoReadDead?
    ensures Sound(Take(w, turn))
  {
    match turn
    case DoPassOver(b) => LocalTask(w, Done(w, b), b);
    case DoMark(b) => LocalTask(w, Filed(Phased(w, b, Marked), b, FileState.Dispatched), b);
    case DoRefuse(b) => LocalTask(w, Phased(w, b, Refused), b);
    case DoReadDead(b) =>
      DeadIsInactive(w.ledger.attempts, b);
      LocalTask(w, Phased(w, b, Requeueing), b);
  }

  lemma TurnKeepsSound(w: World, turn: Turn)
    requires Sound(w)
    ensures Sound(Take(w, turn))
  {
    if Take(w, turn) != w {
      match turn
      case DoForeign(step) => ForeignTurn(w, step);
      case DoLoad => LoadTurn(w);
      case DoCrash => CrashTurn(w);
      case DoSubmit(b, stamp, random, project, spec) => SubmitTurn(w, b, stamp, random, project, spec);
      case DoClaim(b, alias, estimate, now) => ClaimTurn(w, b, alias, estimate, now);
      case DoAuthor(b) => AuthorTurn(w, b);
      case DoFile(b, to) => OtherFileTurn(w, b, to);
      case DoSaveReady(b) => SaveReadyTurn(w, b);
      case DoSettle(b, to) => SettleTurn(w, b, to);
      case DoSaveRequeued(b) => SaveReadyTurn(w, b);
      case _ => PhaseTurn(w, turn);
    }
  }

  lemma LocalTask(w: World, w': World, b: string)
    requires Sound(w) && w'.ledger == w.ledger && LedgerNames.BoardId(b)
    requires TaskSound(w, b) ==> TaskSound(w', b)
    requires w'.files.Keys == w.files.Keys + (if b in w'.files then {b} else {})
    requires w'.phases.Keys <= w.phases.Keys + {b}
    requires forall c :: c != b && c in w.files ==> w'.files[c] == w.files[c]
    requires forall c :: c != b && c in w'.phases ==> w'.phases[c] == w.phases[c]
    requires b in w'.phases ==> b in w'.files
    ensures Sound(w')
  {
    assert TaskSound(w, b);
    LocalTurn(w, w', b);
  }

  lemma {:induction false} PlayKeepsSound(w: World, turns: seq<Turn>)
    requires Sound(w)
    ensures Sound(Play(w, turns))
  {
    if turns != [] {
      PlayKeepsSound(w, turns[..|turns| - 1]);
      TurnKeepsSound(Play(w, turns[..|turns| - 1]), turns[|turns| - 1]);
    }
  }

  // ----- What the board guarantees -------------------------------------------------------

  /** In every reachable state, whatever was refused, requeued or crashed between two writes: a
      task file that says ready has no ACTIVE attempt in the ledger. */
  lemma ReadyHasNoActiveAttempt(turns: seq<Turn>, b: string, i: nat)
    requires var w := Play(NoBoard, turns); b in w.files && w.files[b] == Ready
    ensures !ActiveFor(Play(NoBoard, turns).ledger.attempts, b, i)
  {
    PlayKeepsSound(NoBoard, turns);
    assert TaskSound(Play(NoBoard, turns), b);
  }

  /** No board task ever has two ACTIVE attempts. */
  lemma AtMostOneActiveAttempt(turns: seq<Turn>, b: string, i: nat, j: nat)
    requires LedgerNames.BoardId(b)
    ensures var rows := Play(NoBoard, turns).ledger.attempts;
            ActiveFor(rows, b, i) && ActiveFor(rows, b, j) ==> i == j
  {
    PlayKeepsSound(NoBoard, turns);
    assert TaskSound(Play(NoBoard, turns), b);
  }
}
