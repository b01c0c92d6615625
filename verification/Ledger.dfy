/** The ledger as the program has it: an object whose tables each transaction updates in
    place. Every method is tied to its function in LedgerSpec, so a run of method calls is a
    run of that model and keeps everything proved about it. */
module LedgerObject {
  import opened Wrappers
  import opened LedgerSpec
  import Aliases
  import Receipts

  class Ledger {
    var accounts: map<string, Account>
    var observations: map<string, Observation>
    var aliases: map<string, string>
    var cooldowns: map<(string, Endpoint), real>
    var tasks: map<string, Task>
    var attempts: seq<Attempt>
    var events: seq<Event>

    ghost function View(): State
      reads this
    {
      State(accounts, observations, aliases, cooldowns, tasks, attempts, events)
    }

    constructor ()
      ensures View() == Empty
    {
      accounts, observations, aliases, cooldowns, tasks := map[], map[], map[], map[], map[];
      attempts, events := [], [];
    }

    /** The aliases are bound last: a refusal there undoes the observation written before. */
    method ConfigureAccount(r: Reading, now: real) returns (refused: Option<Refusal>)
      modifies this
      ensures refused == ConfigureRefusal(old(View()), r, now)
      ensures View() == Configure(old(View()), r, now)
    {
      refused := ReadingRefusal(r, now);
      if refused.Some? { return; }
      var observedAt := if r.observedAt.None? then now else r.observedAt.value;
      var digest := Snapshot(r.capacity, r.windows, r.expires, r.models);
      var replay := false;
      if r.name in observations {
        var previous := observations[r.name];
        if observedAt < previous.observedAt { return Some(OutOfOrder); }
        replay := observedAt == previous.observedAt;
        if replay && digest != previous.snapshot { return Some(IdentityReused); }
      }
      var accounts0, observations0, aliases0, events0 := accounts, observations, aliases, events;
      if !replay {
        var completed := FinishedAfter(attempts, r.name, observedAt);
        var windows := ObservedWindows(r.windows, attempts, completed);
        var generation := if r.name in accounts then accounts[r.name].generation else 0;
        accounts := accounts[r.name := Account(r.capacity, generation, windows, r.expires, r.models)];
        observations := observations[r.name := Observation(observedAt, digest)];
        events := events + [QuotaObserved(r.name, observedAt, digest, now)];
      }
      var bound := BindNames([r.name] + r.aliasNames, r.name);
      if !bound {
        accounts, observations, aliases, events := accounts0, observations0, aliases0, events0;
        return Some(AliasReassigned);
      }
      return None;
    }

    method BindNames(names: seq<string>, account: string) returns (bound: bool)
      modifies this`aliases
      ensures bound <==> BindAliases(old(aliases), names, account).Some?
      ensures bound ==> BindAliases(old(aliases), names, account) == Some(aliases)
    {
      for i := 0 to |names|
        invariant BindAliases(aliases, names[i..], account) == BindAliases(old(aliases), names, account)
      {
        assert names[i..][0] == names[i] && names[i..][1..] == names[i + 1..];
        if names[i] in aliases && aliases[names[i]] != account {
          return false;
        }
        aliases := aliases[names[i] := account];
      }
      return true;
    }

    method SubmitTask(task: string, project: string, spec: Spec, inputsDigest: string) returns (refused: Option<Refusal>)
      modifies this
      ensures refused == SubmitRefusal(old(View()), task, project, spec, inputsDigest)
      ensures View() == Submit(old(View()), task, project, spec, inputsDigest)
    {
      refused := CheckSubmission(task, project, spec, inputsDigest);
      if refused.Some? { return; }
      if task in tasks {
        if tasks[task] != Task(project, spec) { return Some(TaskChanged); }
        return None;
      }
      tasks := tasks[task := Task(project, spec)];
    }

    static method CheckSubmission(task: string, project: string, spec: Spec, inputsDigest: string) returns (refused: Option<Refusal>)
      ensures refused == SubmitFieldRefusal(task, project, spec, inputsDigest)
    {
      if task == "" || project == "" || !spec.authorized { return Some(NotAuthorized); }
      if spec.model == "" || spec.family == "" { return Some(ModelAndFamilyRequired); }
      if spec.argv == [] { return Some(ArgvRequired); }
      if !Absolute(spec.workspace) { return Some(WorkspaceRequired); }
      if !(1 <= spec.timeout <= TimeoutLimit(spec)) { return Some(TimeoutBound); }
      if exists c | c in spec.candidates :: c.account == "" { return Some(InvalidCandidates); }
      var ends := FollowCandidates(spec);
      if !ends { return Some(BadAliasChain); }
      if exists k | k in spec.inputs :: !Receipts.SafePath(k) || !Receipts.Sha256(spec.inputs[k]) { return Some(InvalidInputs); }
      if spec.manifest != inputsDigest { return Some(ManifestRequired); }
      if spec.inputs != map[] && !Absolute(spec.inputRoot) { return Some(InputRootRequired); }
      if !(1 <= spec.outputBytes <= 10000000) { return Some(OutputBound); }
      return None;
    }

    static method FollowCandidates(spec: Spec) returns (ends: bool)
      ensures ends == ChainsEnd(spec)
    {
      for i := 0 to |spec.candidates|
        invariant forall c :: c in spec.candidates[..i] ==> Aliases.Canonical(spec.accountAliases, c.account).Some?
      {
        var end := Aliases.CanonicalAccount(spec.candidates[i].account, spec.accountAliases);
        if end.None? {
          assert spec.candidates[i] in spec.candidates;
          return false;
        }
        assert spec.candidates[..i + 1] == spec.candidates[..i] + [spec.candidates[i]];
      }
      assert spec.candidates[..|spec.candidates|] == spec.candidates;
      return true;
    }

    method DeferAccount(alias: string, endpoint: Endpoint, until: real, now: real) returns (r: Result<real, Refusal>)
      modifies this
      ensures View() == Defer(old(View()), alias, endpoint, until, now)
      ensures match DeferRefusal(old(View()), alias, until)
              case Some(why) => r == Failure(why)
              case None => r == Success(LaterDeadline(old(View()), old(aliases)[alias], endpoint, until))
    {
      if until < 0.0 { return Failure(DeadlineRequired); }
      if alias !in aliases { return Failure(UnknownAccount); }
      var account := aliases[alias];
      var deadline := until;
      if (account, endpoint) in cooldowns && cooldowns[(account, endpoint)] > until {
        deadline := cooldowns[(account, endpoint)];
      }
      cooldowns := cooldowns[(account, endpoint) := deadline];
      events := events + [CooldownObserved(account, endpoint, deadline, now)];
      return Success(deadline);
    }

    method ClaimTask(task: string, alias: string, estimate: Quota, now: real) returns (r: Result<Ticket, Refusal>)
      modifies this
      ensures r == ClaimReply(old(View()), task, alias, estimate, now)
      ensures View() == Claim(old(View()), task, alias, estimate, now)
    {
      if !PositiveEstimate(estimate) { return Failure(EstimateRequired); }
      if alias !in aliases || task !in tasks { return Failure(UnknownTaskOrAccount); }
      var account := aliases[alias];
      var spec := tasks[task].spec;
      if account !in accounts { return Failure(MissingRow); }
      var acct := accounts[account];
      if Paused(cooldowns, account, now) { return Failure(CooldownActive); }
      if acct.expires <= now || spec.model !in acct.models { return Failure(StaleOrIneligible); }
      if exists r | r in attempts :: r.task == task { return Failure(AlreadyAttempted); }
      if exists r | r in attempts :: Active(r.state) && r.workspace == spec.workspace { return Failure(WorkspaceBusy); }
      var shared := ActiveOn(attempts, account);
      if |shared| >= acct.capacity { return Failure(AccountBusy); }
      if estimate.Keys != acct.windows.Keys { return Failure(WindowsMismatch); }
      var rest := estimate.Keys;
      while rest != {}
        invariant rest <= estimate.Keys
        invariant forall k :: k in estimate.Keys - rest ==> SumOf(attempts, shared, k) + estimate[k] <= acct.windows[k]
        decreases rest
      {
        var k :| k in rest;
        if SumOf(attempts, shared, k) + estimate[k] > acct.windows[k] { return Failure(InsufficientQuota); }
        rest := rest - {k};
      }
      var generation := acct.generation + 1;
      var aid := |attempts|;
      accounts := accounts[account := acct.(generation := generation)];
      attempts := attempts + [Attempt(task, account, generation, Queued, estimate, spec.workspace, None, None, now)];
      events := events + [Admitted(aid, generation, now)];
      return Success(Ticket(aid, generation));
    }

    /** The row and its task's spec when the attempt is to be dispatched now. */
    method StartAttempt(aid: nat, generation: nat, now: real) returns (r: Option<(Attempt, Spec)>)
      modifies this
      ensures View() == Start(old(View()), aid, generation, now)
      ensures r.Some? <==> Starts(old(View()), aid, generation, now)
      ensures r.Some? ==> r.value == (attempts[aid], tasks[attempts[aid].task].spec)
    {
      if aid >= |attempts| || attempts[aid].generation != generation || !attempts[aid].state.Queued? { return None; }
      var prior := attempts[aid];
      if prior.account !in accounts || prior.task !in tasks { return None; }
      var acct := accounts[prior.account];
      var spec := tasks[prior.task].spec;
      var reserved := ActiveOn(attempts, prior.account);
      var overBudget := exists k | k in acct.windows :: SumOf(attempts, reserved, k) > acct.windows[k];
      var paused := Paused(cooldowns, prior.account, now);
      var changedWindows := exists i | i in reserved :: attempts[i].estimate.Keys != acct.windows.Keys;
      if acct.expires <= now || spec.model !in acct.models || overBudget || |reserved| > acct.capacity || changedWindows || paused {
        attempts := attempts[aid := prior.(state := Held, reason := Some(if paused then PausedReason else StaleReason))];
        events := events + [ReconciliationRequired(aid, "stale or changed admission", now)];
        return None;
      }
      attempts := attempts[aid := prior.(state := Dispatching, updated := now)];
      events := events + [DispatchIntent(aid, now)];
      return Some((attempts[aid], spec));
    }

    method HoldAttempt(aid: nat, reason: string, now: real)
      modifies this
      ensures View() == Hold(old(View()), aid, reason, now)
    {
      if aid < |attempts| && attempts[aid].state.Dispatching? {
        attempts := attempts[aid := attempts[aid].(state := Held, reason := Some(reason), updated := now)];
        events := events + [ReconciliationRequired(aid, reason, now)];
      }
    }

    method FinishAttempt(aid: nat, generation: nat, receipt: Receipts.Receipt, now: real) returns (refused: Option<Refusal>)
      modifies this
      ensures refused == FinishRefusal(old(View()), aid, generation, receipt)
      ensures View() == Finish(old(View()), aid, generation, receipt, now)
    {
      if aid >= |attempts| || attempts[aid].task !in tasks { return Some(MissingRow); }
      var row := attempts[aid];
      var spec := tasks[row.task].spec;
      var faults := Receipts.ValidateReceipt(receipt, spec.model, spec.manifest);
      if faults != [] { return Some(InvalidReceipt(faults)); }
      if row.generation != generation || !row.state.Dispatching? { return Some(StaleCompletion); }
      if row.account !in accounts { return Some(MissingRow); }
      attempts := attempts[aid := row.(state := Completed, proof := Some(NativeReceipt(receipt)), updated := now)];
      var acct := accounts[row.account];
      var windows := map k | k in acct.windows :: Clip(acct.windows[k] - Est(row, k));
      accounts := accounts[row.account := acct.(windows := windows)];
      events := events + [NativeCompleted(aid, NativeReceipt(receipt), now)];
      return None;
    }

    method ResolveAttempt(aid: nat, consumed: bool, reason: string, operator: string, now: real) returns (refused: Option<Refusal>)
      modifies this
      ensures refused == ResolveRefusal(old(View()), aid, consumed, reason, operator)
      ensures View() == Resolve(old(View()), aid, consumed, reason, operator, now)
    {
      refused := AttestationRefusal(reason, operator);
      if refused.Some? { return; }
      if aid >= |attempts| { return Some(UnknownAttempt); }
      var row := attempts[aid];
      if !row.state.Held? { return Some(NotHeld); }
      if consumed {
        if row.account !in accounts { return Some(MissingRow); }
        var acct := accounts[row.account];
        var windows := map k | k in acct.windows :: Clip(acct.windows[k] - Est(row, k));
        accounts := accounts[row.account := acct.(windows := windows)];
      }
      attempts := attempts[aid := row.(state := if consumed then Failed else Abandoned, updated := now)];
      events := events + [OperatorResolved(aid, consumed, reason, row.reason, operator, now)];
    }

    method AcceptAttempt(aid: nat, proof: Proof, reviewerFamily: string, verdict: string, now: real) returns (refused: Option<Refusal>)
      modifies this
      ensures refused == AcceptRefusal(old(View()), aid, proof, reviewerFamily, verdict)
      ensures View() == Accept(old(View()), aid, proof, reviewerFamily, verdict, now)
    {
      if aid >= |attempts| || attempts[aid].task !in tasks { return Some(MissingRow); }
      var row := attempts[aid];
      if !row.state.Completed? || row.proof != Some(proof) { return Some(NotCompleted); }
      if reviewerFamily == "" || reviewerFamily == tasks[row.task].spec.family || verdict != "approved" { return Some(ReviewRequired); }
      attempts := attempts[aid := row.(state := Accepted)];
      events := events + [OperatorAccepted(aid, reviewerFamily, proof, now)];
      return None;
    }

    method RecordOutcomeOf(aid: nat, category: string, accepted: bool, repairs: int, now: real) returns (refused: Option<Refusal>)
      modifies this
      ensures refused == OutcomeRefusal(old(View()), aid, category, accepted, repairs)
      ensures View() == RecordOutcome(old(View()), aid, category, accepted, repairs, now)
    {
      refused := OutcomeFieldRefusal(category, repairs);
      if refused.Some? { return; }
      if aid >= |attempts| { return Some(UnknownAttempt); }
      if Active(attempts[aid].state) { return Some(NotTerminal); }
      if accepted && !attempts[aid].state.Completed? && !attempts[aid].state.Accepted? { return Some(NotCompletedWork); }
      events := events + [OutcomeRecorded(aid, category, accepted, repairs, now)];
    }

    method RecordExternalAttempt(task: string, project: string, account: string, spec: Spec, report: Proof,
                                 category: string, now: real) returns (r: Result<nat, Refusal>)
      modifies this
      ensures View() == RecordExternal(old(View()), task, project, account, spec, report, category, now)
      ensures match ExternalRefusal(old(View()), task, project, account, spec, report, category)
              case Some(why) => r == Failure(why)
              case None => r == Success(old(|attempts|))
    {
      var refused := ExternalFieldRefusal(task, project, account, spec, report, category);
      if refused.Some? { return Failure(refused.value); }
      if account !in accounts { return Failure(UnknownAccount); }
      if task in tasks { return Failure(AlreadyRecorded); }
      tasks := tasks[task := Task(project, spec.(fromOperator := true))];
      var aid := |attempts|;
      attempts := attempts + [Attempt(task, account, accounts[account].generation, Completed, map[], spec.workspace, Some(report), None, now)];
      events := events + [ExternalRecorded(aid, now)];
      return Success(aid);
    }

    /** Two transactions: the attempt stays recorded when its outcome is refused. */
    method RecordExternalWork(task: string, project: string, account: string, spec: Spec, report: Proof,
                              category: string, accepted: bool, repairs: int, now: real) returns (refused: Option<Refusal>)
      modifies this
      ensures ExternalRefusal(old(View()), task, project, account, spec, report, category).Some? ==>
                refused == ExternalRefusal(old(View()), task, project, account, spec, report, category) && View() == old(View())
      ensures ExternalRefusal(old(View()), task, project, account, spec, report, category).None? ==>
                && refused == OutcomeFieldRefusal(category, repairs)
                && View() == RecordOutcome(RecordExternal(old(View()), task, project, account, spec, report, category, now),
                                           old(|attempts|), category, accepted, repairs, now)
    {
      var r := RecordExternalAttempt(task, project, account, spec, report, category, now);
      if r.Failure? { return Some(r.error); }
      assert attempts[r.value].state == Completed;
      refused := RecordOutcomeOf(r.value, category, accepted, repairs, now);
    }

    /** Any one transaction: what another actor may do between two of ours. */
    method Perform(step: Step)
      modifies this
      ensures View() == Apply(old(View()), step)
    {
      match step
      case DoConfigure(r, now) => var _ := ConfigureAccount(r, now);
      case DoSubmit(task, project, spec, d) => var _ := SubmitTask(task, project, spec, d);
      case DoDefer(alias, endpoint, until, now) => var _ := DeferAccount(alias, endpoint, until, now);
      case DoClaim(task, alias, estimate, now) => var _ := ClaimTask(task, alias, estimate, now);
      case DoStart(aid, generation, now) => var _ := StartAttempt(aid, generation, now);
      case DoHold(aid, reason, now) => HoldAttempt(aid, reason, now);
      case DoFinish(aid, generation, receipt, now) => var _ := FinishAttempt(aid, generation, receipt, now);
      case DoResolve(aid, consumed, reason, operator, now) => var _ := ResolveAttempt(aid, consumed, reason, operator, now);
      case DoAccept(aid, proof, family, verdict, now) => var _ := AcceptAttempt(aid, proof, family, verdict, now);
      case DoOutcome(aid, category, accepted, repairs, now) => var _ := RecordOutcomeOf(aid, category, accepted, repairs, now);
      case DoExternal(task, project, account, spec, report, category, now) =>
        var _ := RecordExternalAttempt(task, project, account, spec, report, category, now);
    }

    /** Any number of transactions of other actors. */
    method Interfere(steps: seq<Step>)
      modifies this
      ensures View() == Run(old(View()), steps)
    {
      for i := 0 to |steps|
        invariant View() == Run(old(View()), steps[..i])
      {
        assert steps[..i + 1][..i] == steps[..i];
        Perform(steps[i]);
      }
      assert steps[..|steps|] == steps;
    }
  }
}
