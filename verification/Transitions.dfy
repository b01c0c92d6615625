/** The shape every transaction has: it adds one attempt, moves one attempt along its life,
    applies one observation, or leaves the attempts and the accounts alone. The invariants are
    proved shape by shape. */
module Transitions {
  import opened Wrappers
  import opened LedgerSpec
  import Receipts

  /** The moves of one attempt's life. */
  predicate Legal(a: AttemptState, b: AttemptState) {
    match a
    case Queued => b.Dispatching? || b.Held?
    case Dispatching => b.Held? || b.Completed?
    case Held => b.Failed? || b.Abandoned?
    case Completed => b.Accepted?
    case _ => false
  }

  /** Zero or more moves. */
  predicate Reaches(a: AttemptState, b: AttemptState) {
    || a == b
    || match a
       case Queued => true
       case Dispatching => !b.Queued?
       case Held => b.Failed? || b.Abandoned?
       case Completed => b.Accepted?
       case _ => false
  }

  /** How many moves an attempt has left at most. */
  function Rank(a: AttemptState): nat {
    match a
    case Queued => 3
    case Dispatching => 2
    case Held => 1
    case Completed => 1
    case _ => 0
  }

  /** What no transaction changes in an attempt. */
  predicate SameWork(r: Attempt, r': Attempt) {
    && r.task == r'.task && r.account == r'.account && r.generation == r'.generation
    && r.estimate == r'.estimate && r.workspace == r'.workspace
  }

  /** Finished work and consumed holds are debited, at the moment they are recorded. */
  predicate Debits(to: AttemptState) {
    to.Completed? || to.Failed?
  }

  /** The event is the record of this move of attempt `i`. */
  predicate Records(e: Event, i: nat, r: Attempt, r': Attempt) {
    match e
    case DispatchIntent(aid, _) => aid == i && r.state.Queued? && r'.state.Dispatching?
    case ReconciliationRequired(aid, _, _) => aid == i && (r.state.Queued? || r.state.Dispatching?) && r'.state.Held?
    case NativeCompleted(aid, proof, at) =>
      aid == i && r.state.Dispatching? && r'.state.Completed? && r'.updated == at && r'.proof == Some(proof)
    case OperatorResolved(aid, consumed, _, _, _, _) =>
      aid == i && r.state.Held? && r'.state == if consumed then Failed else Abandoned
    case OperatorAccepted(aid, _, _, _) =>
      aid == i && r.state.Completed? && r'.state.Accepted? && r'.updated == r.updated
    case _ => false
  }

  /** An event that speaks of no attempt's state and of no quota. */
  predicate Remark(e: Event) {
    e.CooldownObserved? || e.OutcomeRecorded?
  }

  ghost predicate AliasesGrow(s: State, s': State) {
    && (forall n :: n in s.aliases ==> n in s'.aliases && s'.aliases[n] == s.aliases[n])
    && (forall n :: n in s'.aliases ==> n in s.aliases || s'.aliases[n] in s'.accounts)
  }

  ghost predicate Quiet(s: State, s': State) {
    && s'.attempts == s.attempts && s'.accounts == s.accounts && s'.observations == s.observations
    && AliasesGrow(s, s')
    && (s'.events == s.events || (exists e :: Remark(e) && s'.events == s.events + [e]))
    && (forall t :: t in s.tasks ==> t in s'.tasks && s'.tasks[t] == s.tasks[t])
    && (forall t :: t in s'.tasks && t !in s.tasks ==> ChainsEnd(s'.tasks[t].spec))
  }

  ghost predicate Observed(s: State, s': State, r: Reading, now: real) {
    && var o := Observe(s, r, now);
    && s' == o.(aliases := s'.aliases)
    && AliasesGrow(s, s')
    && r.name in s'.aliases && s'.aliases[r.name] == r.name
  }

  ghost predicate Born(s: State, s': State, row: Attempt, e: Event) {
    && s'.attempts == s.attempts + [row] && s'.events == s.events + [e]
    && row.account in s.accounts
    && s'.observations == s.observations && s'.aliases == s.aliases && s'.cooldowns == s.cooldowns
    && (forall i :: 0 <= i < |s.attempts| ==> s.attempts[i].task != row.task)
  }

  /** The birth of an attempt the ledger admitted. */
  ghost predicate BornAdmitted(s: State, s': State, row: Attempt, e: Event, alias: string, now: real) {
    && Born(s, s', row, e)
    && s'.tasks == s.tasks && row.task in s.tasks
    && ClaimRefusal(s, row.task, alias, row.estimate, now).None?
    && row.account == s.aliases[alias]
    && row == Attempt(row.task, row.account, s.accounts[row.account].generation + 1, Queued, row.estimate,
                      s.tasks[row.task].spec.workspace, None, None, now)
    && s'.accounts == s.accounts[row.account := s.accounts[row.account].(generation := row.generation)]
    && e == Admitted(|s.attempts|, row.generation, now)
  }

  /** The birth of an attempt an operator reports. */
  ghost predicate BornExternal(s: State, s': State, row: Attempt, e: Event) {
    && Born(s, s', row, e)
    && row.task !in s.tasks && row.task in s'.tasks && s'.tasks == s.tasks[row.task := s'.tasks[row.task]]
    && s'.accounts == s.accounts
    && row.state.Completed? && row.estimate == map[] && row.workspace == s'.tasks[row.task].spec.workspace
    && e == ExternalRecorded(|s.attempts|, row.updated)
  }

  ghost predicate Moved(s: State, s': State, i: nat, e: Event) {
    && i < |s.attempts| == |s'.attempts|
    && var r, r' := s.attempts[i], s'.attempts[i];
    && s'.attempts == s.attempts[i := r'] && s'.events == s.events + [e]
    && SameWork(r, r') && Legal(r.state, r'.state) && Records(e, i, r, r')
    && s'.observations == s.observations && s'.aliases == s.aliases && s'.tasks == s.tasks && s'.cooldowns == s.cooldowns
    && (Debits(r'.state) ==>
          r.account in s.accounts &&
          s'.accounts == s.accounts[r.account := s.accounts[r.account].(windows := Debit(s.accounts[r.account].windows, r))])
    && (!Debits(r'.state) ==> s'.accounts == s.accounts)
  }

  /** The four shapes, with what fixes each instance. */
  datatype Shape =
    | Nothing
    | Applied(reading: Reading, now: real)
    | Admission(row: Attempt, event: Event, alias: string, now: real)
    | External(row: Attempt, event: Event)
    | Move(i: nat, event: Event)

  ghost predicate HasShape(s: State, s': State, shape: Shape) {
    match shape
    case Nothing => Quiet(s, s')
    case Applied(r, now) => Observed(s, s', r, now)
    case Admission(row, e, alias, now) => BornAdmitted(s, s', row, e, alias, now)
    case External(row, e) => BornExternal(s, s', row, e)
    case Move(i, e) => Moved(s, s', i, e)
  }

  /** The step that caused the shape: an observation is applied only by a configuration that is
      neither refused nor a replay, an admission is a claim, a move is a move of its target. */
  ghost predicate Explains(s: State, step: Step, shape: Shape) {
    match shape
    case Nothing => true
    case Applied(r, now) => step == DoConfigure(r, now) && Observes(s, step, r.name)
    case Admission(row, _, alias, now) => step == DoClaim(row.task, alias, row.estimate, now)
    case External(row, _) => step.DoExternal?
    case Move(i, _) => Moves(step) && i == Target(step)
  }

  /** The step applies a new observation to the account. */
  predicate Observes(s: State, step: Step, account: string) {
    && step.DoConfigure? && step.reading.name == account
    && ConfigureRefusal(s, step.reading, step.now).None? && !IsReplay(s, step.reading, step.now)
  }

  /** What earlier transactions established and shapes need: tasks name every attempt's task,
      accounts every attempt's account and every alias's target. */
  ghost predicate Linked(s: State) {
    && (forall i :: 0 <= i < |s.attempts| ==> s.attempts[i].account in s.accounts && s.attempts[i].task in s.tasks)
    && (forall n :: n in s.aliases ==> s.aliases[n] in s.accounts)
    && (forall a :: a in s.accounts ==> a in s.aliases && s.aliases[a] == a)
    && s.observations.Keys == s.accounts.Keys
  }

  lemma {:induction false} BindAliasesMeaning(aliases: map<string, string>, names: seq<string>, account: string)
    requires BindAliases(aliases, names, account).Some?
    ensures var bound := BindAliases(aliases, names, account).value;
            && (forall n :: n in aliases ==> n in bound && bound[n] == aliases[n])
            && (forall n :: n in bound ==> n in aliases || bound[n] == account)
            && (forall n :: n in names ==> n in bound && bound[n] == account)
    decreases |names|
  {
    if names != [] {
      BindAliasesMeaning(aliases[names[0] := account], names[1..], account);
    }
  }

  lemma ConfigureShape(s: State, r: Reading, now: real)
    requires Linked(s)
    ensures Quiet(s, Configure(s, r, now)) ||
            (Observed(s, Configure(s, r, now), r, now) && Observes(s, DoConfigure(r, now), r.name))
  {
    if ConfigureRefusal(s, r, now).None? {
      BindAliasesMeaning(s.aliases, [r.name] + r.aliasNames, r.name);
      assert r.name in [r.name] + r.aliasNames;
    }
  }

  lemma ClaimShape(s: State, task: string, alias: string, estimate: Quota, now: real) returns (shape: Shape)
    requires Linked(s)
    ensures HasShape(s, Claim(s, task, alias, estimate, now), shape)
    ensures Explains(s, DoClaim(task, alias, estimate, now), shape)
  {
    if ClaimRefusal(s, task, alias, estimate, now).Some? {
      return Nothing;
    }
    var s' := Claim(s, task, alias, estimate, now);
    var row := s'.attempts[|s.attempts|];
    forall i | 0 <= i < |s.attempts| ensures s.attempts[i].task != task {
      assert s.attempts[i] in s.attempts;
    }
    return Admission(row, s'.events[|s.events|], alias, now);
  }

  lemma ExternalShape(s: State, task: string, project: string, account: string, spec: Spec, report: Proof, category: string, now: real)
    returns (shape: Shape)
    requires Linked(s)
    ensures HasShape(s, RecordExternal(s, task, project, account, spec, report, category, now), shape)
    ensures Explains(s, DoExternal(task, project, account, spec, report, category, now), shape)
  {
    if ExternalRefusal(s, task, project, account, spec, report, category).Some? {
      return Nothing;
    }
    var s' := RecordExternal(s, task, project, account, spec, report, category, now);
    return External(s'.attempts[|s.attempts|], s'.events[|s.events|]);
  }

  /** A move recorded by one event, or a refusal that left everything alone. */
  ghost predicate MovesOrStays(s: State, s': State, i: nat) {
    s' == s || (|s'.events| == |s.events| + 1 && Moved(s, s', i, s'.events[|s.events|]))
  }

  lemma StartMoves(s: State, aid: nat, generation: nat, now: real)
    ensures MovesOrStays(s, Start(s, aid, generation, now), aid)
  {
  }

  lemma HoldMoves(s: State, aid: nat, reason: string, now: real)
    ensures MovesOrStays(s, Hold(s, aid, reason, now), aid)
  {
  }

  lemma FinishMoves(s: State, aid: nat, generation: nat, receipt: Receipts.Receipt, now: real)
    ensures MovesOrStays(s, Finish(s, aid, generation, receipt, now), aid)
  {
  }

  lemma ResolvedMoves(s: State, aid: nat, consumed: bool, reason: string, operator: string, now: real)
    requires aid < |s.attempts| && s.attempts[aid].state.Held?
    requires consumed ==> s.attempts[aid].account in s.accounts
    ensures MovesOrStays(s, Resolved(s, aid, consumed, reason, operator, now), aid)
  {
  }

  lemma ResolveMoves(s: State, aid: nat, consumed: bool, reason: string, operator: string, now: real)
    ensures MovesOrStays(s, Resolve(s, aid, consumed, reason, operator, now), aid)
  {
    if ResolveRefusal(s, aid, consumed, reason, operator).None? {
      ResolvedMoves(s, aid, consumed, reason, operator, now);
    }
  }

  lemma AcceptMoves(s: State, aid: nat, proof: Proof, family: string, verdict: string, now: real)
    ensures MovesOrStays(s, Accept(s, aid, proof, family, verdict, now), aid)
  {
  }

  lemma SubmitQuiet(s: State, task: string, project: string, spec: Spec, inputsDigest: string)
    ensures Quiet(s, Submit(s, task, project, spec, inputsDigest))
  {
  }

  lemma DeferQuiet(s: State, alias: string, endpoint: Endpoint, until: real, now: real)
    ensures Quiet(s, Defer(s, alias, endpoint, until, now))
  {
    var s' := Defer(s, alias, endpoint, until, now);
    assert s' != s ==> Remark(s'.events[|s.events|]) && s'.events == s.events + [s'.events[|s.events|]];
  }

  lemma OutcomeQuiet(s: State, aid: nat, category: string, accepted: bool, repairs: int, now: real)
    ensures Quiet(s, RecordOutcome(s, aid, category, accepted, repairs, now))
  {
    var s' := RecordOutcome(s, aid, category, accepted, repairs, now);
    assert s' != s ==> Remark(s'.events[|s.events|]) && s'.events == s.events + [s'.events[|s.events|]];
  }

  /** The attempt a step may move; other steps move none. */
  function Target(step: Step): nat {
    match step
    case DoStart(aid, _, _) => aid
    case DoHold(aid, _, _) => aid
    case DoFinish(aid, _, _, _) => aid
    case DoResolve(aid, _, _, _, _) => aid
    case DoAccept(aid, _, _, _, _) => aid
    case _ => 0
  }

  predicate Moves(step: Step) {
    step.DoStart? || step.DoHold? || step.DoFinish? || step.DoResolve? || step.DoAccept?
  }

  lemma MovingStep(s: State, step: Step)
    requires Moves(step)
    ensures MovesOrStays(s, Apply(s, step), Target(step))
  {
    match step
    case DoStart(aid, generation, now) => StartMoves(s, aid, generation, now);
    case DoHold(aid, reason, now) => HoldMoves(s, aid, reason, now);
    case DoFinish(aid, generation, receipt, now) => FinishMoves(s, aid, generation, receipt, now);
    case DoResolve(aid, consumed, reason, operator, now) => ResolveMoves(s, aid, consumed, reason, operator, now);
    case DoAccept(aid, proof, family, verdict, now) => AcceptMoves(s, aid, proof, family, verdict, now);
  }

  lemma RestingStep(s: State, step: Step) returns (shape: Shape)
    requires Linked(s) && !Moves(step)
    ensures HasShape(s, Apply(s, step), shape) && Explains(s, step, shape)
  {
    match step
    case DoConfigure(r, now) =>
      ConfigureShape(s, r, now);
      shape := if Quiet(s, Configure(s, r, now)) then Nothing else Applied(r, now);
    case DoSubmit(task, project, spec, d) =>
      SubmitQuiet(s, task, project, spec, d);
      shape := Nothing;
    case DoDefer(alias, endpoint, until, now) =>
      DeferQuiet(s, alias, endpoint, until, now);
      shape := Nothing;
    case DoOutcome(aid, category, accepted, repairs, now) =>
      OutcomeQuiet(s, aid, category, accepted, repairs, now);
      shape := Nothing;
    case DoClaim(task, alias, estimate, now) => shape := ClaimShape(s, task, alias, estimate, now);
    case DoExternal(task, project, account, spec, report, category, now) =>
      shape := ExternalShape(s, task, project, account, spec, report, category, now);
  }

  /** Every transaction has one of the shapes. */
  lemma StepShape(s: State, step: Step) returns (shape: Shape)
    requires Linked(s)
    ensures HasShape(s, Apply(s, step), shape) && Explains(s, step, shape)
  {
    if Moves(step) {
      MovingStep(s, step);
      var s' := Apply(s, step);
      if s' == s {
        QuietSame(s);
        return Nothing;
      }
      return Move(Target(step), s'.events[|s.events|]);
    }
    shape := RestingStep(s, step);
  }

  lemma QuietSame(s: State)
    ensures Quiet(s, s)
  {
  }

  lemma ShapeKeepsLinked(s: State, s': State, shape: Shape)
    requires Linked(s) && HasShape(s, s', shape)
    ensures Linked(s')
  {
  }

  // ----- What every run keeps ------------------------------------------------------------

  /** Rows stay, and only move forward; tasks, accounts, aliases and events stay. */
  ghost predicate Evolves(s: State, s': State) {
    && |s.attempts| <= |s'.attempts|
    && (forall i :: 0 <= i < |s.attempts| ==>
          SameWork(s.attempts[i], s'.attempts[i]) && Reaches(s.attempts[i].state, s'.attempts[i].state))
    && (forall t :: t in s.tasks ==> t in s'.tasks && s'.tasks[t] == s.tasks[t])
    && (forall n :: n in s.aliases ==> n in s'.aliases && s'.aliases[n] == s.aliases[n])
    && (forall a :: a in s.accounts ==> a in s'.accounts && s.accounts[a].generation <= s'.accounts[a].generation)
    && s.events <= s'.events
  }

  lemma ShapeEvolves(s: State, s': State, shape: Shape)
    requires Linked(s) && HasShape(s, s', shape)
    ensures Evolves(s, s')
  {
  }

  lemma EvolvesTransitive(a: State, b: State, c: State)
    requires Evolves(a, b) && Evolves(b, c)
    ensures Evolves(a, c)
  {
  }

  lemma {:induction false} RunEvolves(s: State, steps: seq<Step>)
    requires Linked(s)
    ensures Linked(Run(s, steps)) && Evolves(s, Run(s, steps))
  {
    if steps != [] {
      var n := |steps| - 1;
      RunEvolves(s, steps[..n]);
      var mid := Run(s, steps[..n]);
      var shape := StepShape(mid, steps[n]);
      ShapeKeepsLinked(mid, Run(s, steps), shape);
      ShapeEvolves(mid, Run(s, steps), shape);
      EvolvesTransitive(s, mid, Run(s, steps));
    }
  }

  lemma {:induction false} RunSplit(s: State, a: seq<Step>, b: seq<Step>)
    ensures Run(s, a + b) == Run(Run(s, a), b)
  {
    if b == [] {
      assert a + b == a;
    } else {
      var n := |b| - 1;
      RunSplit(s, a, b[..n]);
      assert (a + b)[..|a + b| - 1] == a + b[..n];
    }
  }

  lemma RunAppend(s: State, steps: seq<Step>, step: Step)
    ensures Run(s, steps + [step]) == Apply(Run(s, steps), step)
  {
    assert (steps + [step])[..|steps|] == steps;
  }

  lemma RunOne(s: State, step: Step)
    ensures Run(s, [step]) == Apply(s, step)
  {
    assert [step][..0] == [];
  }

  /** A later state of the same run evolves from an earlier one. */
  lemma PrefixEvolves(steps: seq<Step>, i: nat, j: nat)
    requires i <= j <= |steps|
    ensures Linked(Run(Empty, steps[..i])) && Linked(Run(Empty, steps[..j]))
    ensures Evolves(Run(Empty, steps[..i]), Run(Empty, steps[..j]))
  {
    RunEvolves(Empty, steps[..i]);
    RunSplit(Empty, steps[..i], steps[i..j]);
    assert steps[..i] + steps[i..j] == steps[..j];
    RunEvolves(Run(Empty, steps[..i]), steps[i..j]);
  }
}
