/** The capacity ledger as a state and its transactions as functions on that state
    (src/inference_grid/ledger.py). A transaction either commits its whole effect or
    leaves the state as it was, with the reason it was refused.

    The table of attempts is a sequence in the order of insertion; the identifier the
    program draws at random for a new attempt is the number of its row. A digest stands for
    the value it was taken of. One reading of the clock, `now`, serves each transaction. */
module LedgerSpec {
  import opened Wrappers
  import Aliases
  import Receipts
  import Text

  /** Units per quota window: what is left, or what an attempt may use. */
  type Quota = map<string, real>

  datatype Endpoint = Usage | Inference

  datatype AttemptState = Queued | Dispatching | Held | Completed | Accepted | Failed | Abandoned

  datatype Account = Account(capacity: int, generation: nat, windows: Quota, expires: real, models: seq<string>)

  /** The content an observation's digest identifies. */
  datatype Snapshot = Snapshot(capacity: int, windows: Quota, expires: real, models: seq<string>)

  datatype Observation = Observation(observedAt: real, snapshot: Snapshot)

  datatype Candidate = Candidate(account: string, estimate: Quota)

  datatype Spec = Spec(
    authorized: bool, model: string, family: string, argv: seq<string>, workspace: string,
    timeout: int, priority: int, candidates: seq<Candidate>, accountAliases: map<string, string>,
    inputs: map<string, string>, inputRoot: string, manifest: string, outputBytes: int,
    fromOperator: bool)

  datatype Task = Task(project: string, spec: Spec)

  /** What a finished attempt left: an adapter's receipt, or an operator's own report. */
  datatype Proof = NativeReceipt(receipt: Receipts.Receipt) | OperatorReport(verifiedInLane: bool, elapsed: real)

  datatype Attempt = Attempt(
    task: string, account: string, generation: nat, state: AttemptState, estimate: Quota,
    workspace: string, proof: Option<Proof>, reason: Option<string>, updated: real)

  datatype Event =
    | QuotaObserved(account: string, observedAt: real, snapshot: Snapshot, at: real)
    | CooldownObserved(account: string, endpoint: Endpoint, until: real, at: real)
    | Admitted(aid: nat, generation: nat, at: real)
    | DispatchIntent(aid: nat, at: real)
    | ReconciliationRequired(aid: nat, reason: string, at: real)
    | NativeCompleted(aid: nat, proof: Proof, at: real)
    | OperatorResolved(aid: nat, consumed: bool, reason: string, heldReason: Option<string>, operator: string, at: real)
    | OperatorAccepted(aid: nat, reviewerFamily: string, proof: Proof, at: real)
    | ExternalRecorded(aid: nat, at: real)
    | OutcomeRecorded(aid: nat, category: string, accepted: bool, repairs: int, at: real)

  datatype State = State(
    accounts: map<string, Account>,
    observations: map<string, Observation>,
    aliases: map<string, string>,
    cooldowns: map<(string, Endpoint), real>,
    tasks: map<string, Task>,
    attempts: seq<Attempt>,
    events: seq<Event>)

  const Empty := State(map[], map[], map[], map[], map[], [], [])

  /** Why an operation was refused. `MissingRow` is the failure of a lookup that demands a
      row. */
  datatype Refusal =
    | InvalidConfiguration | ExpiredObservation | InvalidRemaining | InvalidTimestamp
    | OutOfOrder | IdentityReused | AliasReassigned
    | NotAuthorized | ModelAndFamilyRequired | ArgvRequired | WorkspaceRequired | TimeoutBound
    | InvalidCandidates | BadAliasChain | InvalidInputs | ManifestRequired | InputRootRequired
    | OutputBound | TaskChanged
    | DeadlineRequired | UnknownAccount
    | EstimateRequired | UnknownTaskOrAccount | CooldownActive | StaleOrIneligible
    | AlreadyAttempted | WorkspaceBusy | AccountBusy | WindowsMismatch | InsufficientQuota
    | InvalidReceipt(faults: seq<Receipts.Fault>) | StaleCompletion
    | ReasonRequired | OperatorRequired | MachineOperator | UnknownAttempt | NotHeld
    | NotCompleted | ReviewRequired
    | CategoryRequired | RepairsRequired | NotTerminal | NotCompletedWork
    | AccountRequired | CanaryExternal | ElapsedRequired | AlreadyRecorded
    | NoCandidates | MissingRow

  // ----- Small vocabulary ----------------------------------------------------------------

  /** ACTIVE: the states in which an attempt reserves its estimate. */
  predicate Active(st: AttemptState) {
    st.Queued? || st.Dispatching? || st.Held?
  }

  /** `e.get(k, 0)` on an attempt's estimate. */
  function Est(r: Attempt, k: string): real {
    if k in r.estimate then r.estimate[k] else 0.0
  }

  /** `max(0, v)`. */
  function Clip(v: real): real {
    if v < 0.0 then 0.0 else v
  }

  /** The ACTIVE attempts of an account. */
  function ActiveOn(rows: seq<Attempt>, account: string): set<nat> {
    set i | 0 <= i < |rows| && rows[i].account == account && Active(rows[i].state)
  }

  /** The attempts a new observation must keep charging: finished after it was taken. */
  function FinishedAfter(rows: seq<Attempt>, account: string, observedAt: real): set<nat> {
    set i | 0 <= i < |rows| && rows[i].account == account &&
            (rows[i].state.Completed? || rows[i].state.Accepted?) && rows[i].updated > observedAt
  }

  /** The sum of the estimates for window `k` over the rows in `ids`. */
  function SumOf(rows: seq<Attempt>, ids: set<nat>, k: string): real {
    if rows == [] then 0.0
    else
      var n := |rows| - 1;
      SumOf(rows[..n], ids, k) + if n in ids then Est(rows[n], k) else 0.0
  }

  /** The windows of an account after the estimate of one attempt is debited. */
  function Debit(windows: Quota, r: Attempt): Quota {
    map k | k in windows :: Clip(windows[k] - Est(r, k))
  }

  /** The windows a new observation leaves once the work finished after it is subtracted. */
  function ObservedWindows(windows: Quota, rows: seq<Attempt>, ids: set<nat>): Quota {
    map k | k in windows :: Clip(windows[k] - SumOf(rows, ids, k))
  }

  predicate Paused(cooldowns: map<(string, Endpoint), real>, account: string, now: real) {
    (account, Inference) in cooldowns && cooldowns[(account, Inference)] > now
  }

  function WithRow(s: State, i: nat, row: Attempt, e: Event): State
    requires i < |s.attempts|
  {
    s.(attempts := s.attempts[i := row], events := s.events + [e])
  }

  function WithNewRow(s: State, row: Attempt, e: Event): State {
    s.(attempts := s.attempts + [row], events := s.events + [e])
  }

  function WithWindows(s: State, account: string, windows: Quota): State
    requires account in s.accounts
  {
    s.(accounts := s.accounts[account := s.accounts[account].(windows := windows)])
  }

  // ----- configure_account ---------------------------------------------------------------

  datatype Reading = Reading(
    name: string, capacity: int, windows: Quota, expires: real, models: seq<string>,
    aliasNames: seq<string>, observedAt: Option<real>)

  function ObservedAt(r: Reading, now: real): real {
    match r.observedAt case None => now case Some(t) => t
  }

  function SnapshotOf(r: Reading): Snapshot {
    Snapshot(r.capacity, r.windows, r.expires, r.models)
  }

  /** An observation already applied is configured again with the same content. */
  predicate IsReplay(s: State, r: Reading, now: real) {
    r.name in s.observations && s.observations[r.name].observedAt == ObservedAt(r, now)
  }

  /** Binds every name to the account; None when one is bound to another account. */
  function BindAliases(aliases: map<string, string>, names: seq<string>, account: string): Option<map<string, string>>
    decreases |names|
  {
    if names == [] then Some(aliases)
    else if names[0] in aliases && aliases[names[0]] != account then None
    else BindAliases(aliases[names[0] := account], names[1..], account)
  }

  /** What the reading itself is refused for. */
  function ReadingRefusal(r: Reading, now: real): Option<Refusal> {
    if r.capacity < 1 || r.models == [] || r.windows == map[] then Some(InvalidConfiguration)
    else if r.expires <= now then Some(ExpiredObservation)
    else if exists k | k in r.windows :: r.windows[k] < 0.0 then Some(InvalidRemaining)
    else if ObservedAt(r, now) > now + 1.0 || ObservedAt(r, now) >= r.expires then Some(InvalidTimestamp)
    else None
  }

  /** What the reading is refused for beside the observation applied before it. */
  function OrderRefusal(s: State, r: Reading, now: real): Option<Refusal> {
    if r.name in s.observations && ObservedAt(r, now) < s.observations[r.name].observedAt then Some(OutOfOrder)
    else if IsReplay(s, r, now) && SnapshotOf(r) != s.observations[r.name].snapshot then Some(IdentityReused)
    else None
  }

  function ConfigureRefusal(s: State, r: Reading, now: real): Option<Refusal> {
    if ReadingRefusal(r, now).Some? then ReadingRefusal(r, now)
    else if OrderRefusal(s, r, now).Some? then OrderRefusal(s, r, now)
    else if BindAliases(s.aliases, [r.name] + r.aliasNames, r.name).None? then Some(AliasReassigned)
    else None
  }

  /** The account row an applied observation writes. */
  function ObservedAccount(s: State, r: Reading, now: real): Account {
    Account(r.capacity, if r.name in s.accounts then s.accounts[r.name].generation else 0,
            ObservedWindows(r.windows, s.attempts, FinishedAfter(s.attempts, r.name, ObservedAt(r, now))),
            r.expires, r.models)
  }

  function Observe(s: State, r: Reading, now: real): State {
    s.(accounts := s.accounts[r.name := ObservedAccount(s, r, now)],
       observations := s.observations[r.name := Observation(ObservedAt(r, now), SnapshotOf(r))],
       events := s.events + [QuotaObserved(r.name, ObservedAt(r, now), SnapshotOf(r), now)])
  }

  function Configure(s: State, r: Reading, now: real): State {
    if ConfigureRefusal(s, r, now).Some? then s
    else
      var s1 := if IsReplay(s, r, now) then s else Observe(s, r, now);
      s1.(aliases := BindAliases(s.aliases, [r.name] + r.aliasNames, r.name).value)
  }

  // ----- submit --------------------------------------------------------------------------

  predicate Absolute(path: string) {
    path != "" && path[0] == '/'
  }

  function TimeoutLimit(spec: Spec): int
    requires spec.argv != []
  {
    if Text.StartsWith(spec.argv[0], "packet-loop:") then 14400 else 3600
  }

  /** Every candidate's alias chain ends. */
  predicate ChainsEnd(spec: Spec) {
    forall c :: c in spec.candidates ==> Aliases.Canonical(spec.accountAliases, c.account).Some?
  }

  function SubmitFieldRefusal(task: string, project: string, spec: Spec, inputsDigest: string): Option<Refusal> {
    if task == "" || project == "" || !spec.authorized then Some(NotAuthorized)
    else if spec.model == "" || spec.family == "" then Some(ModelAndFamilyRequired)
    else if spec.argv == [] then Some(ArgvRequired)
    else if !Absolute(spec.workspace) then Some(WorkspaceRequired)
    else if !(1 <= spec.timeout <= TimeoutLimit(spec)) then Some(TimeoutBound)
    else if exists c | c in spec.candidates :: c.account == "" then Some(InvalidCandidates)
    else if !ChainsEnd(spec) then Some(BadAliasChain)
    else if exists k | k in spec.inputs :: !Receipts.SafePath(k) || !Receipts.Sha256(spec.inputs[k]) then Some(InvalidInputs)
    else if spec.manifest != inputsDigest then Some(ManifestRequired)
    else if spec.inputs != map[] && !Absolute(spec.inputRoot) then Some(InputRootRequired)
    else if !(1 <= spec.outputBytes <= 10000000) then Some(OutputBound)
    else None
  }

  function SubmitRefusal(s: State, task: string, project: string, spec: Spec, inputsDigest: string): Option<Refusal> {
    if SubmitFieldRefusal(task, project, spec, inputsDigest).Some? then SubmitFieldRefusal(task, project, spec, inputsDigest)
    else if task in s.tasks && s.tasks[task] != Task(project, spec) then Some(TaskChanged)
    else None
  }

  function Submit(s: State, task: string, project: string, spec: Spec, inputsDigest: string): State {
    if SubmitRefusal(s, task, project, spec, inputsDigest).Some? || task in s.tasks then s
    else s.(tasks := s.tasks[task := Task(project, spec)])
  }

  // ----- defer ---------------------------------------------------------------------------

  function DeferRefusal(s: State, alias: string, until: real): Option<Refusal> {
    if until < 0.0 then Some(DeadlineRequired)
    else if alias !in s.aliases then Some(UnknownAccount)
    else None
  }

  /** The deadline stored: never earlier than the one already there. */
  function LaterDeadline(s: State, account: string, endpoint: Endpoint, until: real): real {
    if (account, endpoint) in s.cooldowns && s.cooldowns[(account, endpoint)] > until
    then s.cooldowns[(account, endpoint)]
    else until
  }

  function Defer(s: State, alias: string, endpoint: Endpoint, until: real, now: real): State {
    if DeferRefusal(s, alias, until).Some? then s
    else
      var account := s.aliases[alias];
      var deadline := LaterDeadline(s, account, endpoint, until);
      s.(cooldowns := s.cooldowns[(account, endpoint) := deadline],
         events := s.events + [CooldownObserved(account, endpoint, deadline, now)])
  }

  // ----- claim ---------------------------------------------------------------------------

  predicate PositiveEstimate(estimate: Quota) {
    estimate != map[] && forall k :: k in estimate ==> estimate[k] > 0.0
  }

  /** Some window has not enough left for the reservations and one more estimate. */
  predicate Exceeds(rows: seq<Attempt>, ids: set<nat>, estimate: Quota, windows: Quota)
    requires estimate.Keys == windows.Keys
  {
    exists k | k in estimate :: SumOf(rows, ids, k) + estimate[k] > windows[k]
  }

  function ClaimRefusal(s: State, task: string, alias: string, estimate: Quota, now: real): Option<Refusal> {
    if !PositiveEstimate(estimate) then Some(EstimateRequired)
    else if alias !in s.aliases || task !in s.tasks then Some(UnknownTaskOrAccount)
    else if s.aliases[alias] !in s.accounts then Some(MissingRow)
    else
      var account := s.aliases[alias];
      var spec := s.tasks[task].spec;
      var acct := s.accounts[account];
      var shared := ActiveOn(s.attempts, account);
      if Paused(s.cooldowns, account, now) then Some(CooldownActive)
      else if acct.expires <= now || spec.model !in acct.models then Some(StaleOrIneligible)
      else if exists r | r in s.attempts :: r.task == task then Some(AlreadyAttempted)
      else if exists r | r in s.attempts :: Active(r.state) && r.workspace == spec.workspace then Some(WorkspaceBusy)
      else if |shared| >= acct.capacity then Some(AccountBusy)
      else if estimate.Keys != acct.windows.Keys then Some(WindowsMismatch)
      else if Exceeds(s.attempts, shared, estimate, acct.windows) then Some(InsufficientQuota)
      else None
  }

  /** The row and the account a successful claim writes. */
  function Claim(s: State, task: string, alias: string, estimate: Quota, now: real): State {
    if ClaimRefusal(s, task, alias, estimate, now).Some? then s
    else
      var account := s.aliases[alias];
      var generation := s.accounts[account].generation + 1;
      var row := Attempt(task, account, generation, Queued, estimate, s.tasks[task].spec.workspace, None, None, now);
      WithNewRow(s.(accounts := s.accounts[account := s.accounts[account].(generation := generation)]),
                 row, Admitted(|s.attempts|, generation, now))
  }

  datatype Ticket = Ticket(aid: nat, generation: nat)

  function ClaimReply(s: State, task: string, alias: string, estimate: Quota, now: real): Result<Ticket, Refusal> {
    match ClaimRefusal(s, task, alias, estimate, now)
    case Some(why) => Failure(why)
    case None => Success(Ticket(|s.attempts|, s.accounts[s.aliases[alias]].generation + 1))
  }

  // ----- start ---------------------------------------------------------------------------

  /** The delivery names a queued attempt by its generation. */
  predicate Deliverable(s: State, aid: nat, generation: nat) {
    && aid < |s.attempts|
    && s.attempts[aid].generation == generation
    && s.attempts[aid].state.Queued?
  }

  predicate Known(s: State, aid: nat)
  {
    && aid < |s.attempts|
    && s.attempts[aid].account in s.accounts
    && s.attempts[aid].task in s.tasks
  }

  /** Admission, checked again at dispatch over everything the account has reserved. */
  predicate StillAdmissible(s: State, aid: nat, now: real)
    requires Known(s, aid)
  {
    var r := s.attempts[aid];
    var acct := s.accounts[r.account];
    var ids := ActiveOn(s.attempts, r.account);
    && acct.expires > now
    && s.tasks[r.task].spec.model in acct.models
    && (forall k :: k in acct.windows ==> SumOf(s.attempts, ids, k) <= acct.windows[k])
    && |ids| <= acct.capacity
    && (forall i :: i in ids ==> s.attempts[i].estimate.Keys == acct.windows.Keys)
    && !Paused(s.cooldowns, r.account, now)
  }

  const PausedReason := "provider inference cooldown requires reconciliation"
  const StaleReason := "admission observation expired or model, quota windows, or capacity changed"

  function Start(s: State, aid: nat, generation: nat, now: real): State {
    if !Deliverable(s, aid, generation) || !Known(s, aid) then s
    else
      var r := s.attempts[aid];
      if StillAdmissible(s, aid, now)
      then WithRow(s, aid, r.(state := Dispatching, updated := now), DispatchIntent(aid, now))
      else
        var why := if Paused(s.cooldowns, r.account, now) then PausedReason else StaleReason;
        WithRow(s, aid, r.(state := Held, reason := Some(why)),
                ReconciliationRequired(aid, "stale or changed admission", now))
  }

  /** The delivery is the one that may run the attempt. */
  predicate Starts(s: State, aid: nat, generation: nat, now: real) {
    Deliverable(s, aid, generation) && Known(s, aid) && StillAdmissible(s, aid, now)
  }

  // ----- hold ----------------------------------------------------------------------------

  function Hold(s: State, aid: nat, reason: string, now: real): State {
    if aid < |s.attempts| && s.attempts[aid].state.Dispatching?
    then WithRow(s, aid, s.attempts[aid].(state := Held, reason := Some(reason), updated := now),
                 ReconciliationRequired(aid, reason, now))
    else s
  }

  // ----- finish --------------------------------------------------------------------------

  function FinishRefusal(s: State, aid: nat, generation: nat, receipt: Receipts.Receipt): Option<Refusal> {
    if aid >= |s.attempts| || s.attempts[aid].task !in s.tasks then Some(MissingRow)
    else
      var r := s.attempts[aid];
      var spec := s.tasks[r.task].spec;
      var faults := Receipts.Faults(receipt, spec.model, spec.manifest);
      if faults != [] then Some(InvalidReceipt(faults))
      else if r.generation != generation || !r.state.Dispatching? then Some(StaleCompletion)
      else if r.account !in s.accounts then Some(MissingRow)
      else None
  }

  function Finish(s: State, aid: nat, generation: nat, receipt: Receipts.Receipt, now: real): State {
    if FinishRefusal(s, aid, generation, receipt).Some? then s
    else
      var r := s.attempts[aid];
      var done := r.(state := Completed, proof := Some(NativeReceipt(receipt)), updated := now);
      WithRow(WithWindows(s, r.account, Debit(s.accounts[r.account].windows, r)), aid, done,
              NativeCompleted(aid, NativeReceipt(receipt), now))
  }

  // ----- resolve -------------------------------------------------------------------------

  const MachineOperators: set<string> :=
    {"coordinator", "board runner", "board-runner", "runner", "system", "automation", "bot", "grid"}

  /** A resolution is attested by a person: no name the grid uses for itself will do. */
  function AttestationRefusal(reason: string, operator: string): Option<Refusal> {
    if Text.Blank(reason) || |reason| > 500 then Some(ReasonRequired)
    else if Text.Blank(operator) || |operator| > 100 then Some(OperatorRequired)
    else if Text.Lower(Text.Strip(operator)) in MachineOperators then Some(MachineOperator)
    else None
  }

  function ResolveRefusal(s: State, aid: nat, consumed: bool, reason: string, operator: string): (why: Option<Refusal>)
    ensures why.None? ==> aid < |s.attempts| && s.attempts[aid].state.Held?
    ensures why.None? && consumed ==> s.attempts[aid].account in s.accounts
  {
    if AttestationRefusal(reason, operator).Some? then AttestationRefusal(reason, operator)
    else if aid >= |s.attempts| then Some(UnknownAttempt)
    else if !s.attempts[aid].state.Held? then Some(NotHeld)
    else if consumed && s.attempts[aid].account !in s.accounts then Some(MissingRow)
    else None
  }

  /** A held attempt leaves the ACTIVE set: its estimate is dropped, or debited. */
  function Resolved(s: State, aid: nat, consumed: bool, reason: string, operator: string, now: real): State
    requires aid < |s.attempts| && (consumed ==> s.attempts[aid].account in s.accounts)
  {
    var r := s.attempts[aid];
    var s1 := if consumed then WithWindows(s, r.account, Debit(s.accounts[r.account].windows, r)) else s;
    WithRow(s1, aid, r.(state := if consumed then Failed else Abandoned, updated := now),
            OperatorResolved(aid, consumed, reason, r.reason, operator, now))
  }

  function Resolve(s: State, aid: nat, consumed: bool, reason: string, operator: string, now: real): State {
    if ResolveRefusal(s, aid, consumed, reason, operator).Some? then s
    else Resolved(s, aid, consumed, reason, operator, now)
  }

  // ----- accept --------------------------------------------------------------------------

  function AcceptRefusal(s: State, aid: nat, proof: Proof, reviewerFamily: string, verdict: string): Option<Refusal> {
    if aid >= |s.attempts| || s.attempts[aid].task !in s.tasks then Some(MissingRow)
    else if !s.attempts[aid].state.Completed? || s.attempts[aid].proof != Some(proof) then Some(NotCompleted)
    else if reviewerFamily == "" || reviewerFamily == s.tasks[s.attempts[aid].task].spec.family || verdict != "approved"
    then Some(ReviewRequired)
    else None
  }

  function Accept(s: State, aid: nat, proof: Proof, reviewerFamily: string, verdict: string, now: real): State {
    if AcceptRefusal(s, aid, proof, reviewerFamily, verdict).Some? then s
    else WithRow(s, aid, s.attempts[aid].(state := Accepted), OperatorAccepted(aid, reviewerFamily, proof, now))
  }

  // ----- record_outcome and record_external ----------------------------------------------

  function OutcomeFieldRefusal(category: string, repairs: int): Option<Refusal> {
    if Text.Blank(category) || |category| > 60 then Some(CategoryRequired)
    else if repairs < 0 then Some(RepairsRequired)
    else None
  }

  function OutcomeRefusal(s: State, aid: nat, category: string, accepted: bool, repairs: int): Option<Refusal> {
    if OutcomeFieldRefusal(category, repairs).Some? then OutcomeFieldRefusal(category, repairs)
    else if aid >= |s.attempts| then Some(UnknownAttempt)
    else if Active(s.attempts[aid].state) then Some(NotTerminal)
    else if accepted && !s.attempts[aid].state.Completed? && !s.attempts[aid].state.Accepted? then Some(NotCompletedWork)
    else None
  }

  function RecordOutcome(s: State, aid: nat, category: string, accepted: bool, repairs: int, now: real): State {
    if OutcomeRefusal(s, aid, category, accepted, repairs).Some? then s
    else s.(events := s.events + [OutcomeRecorded(aid, category, accepted, repairs, now)])
  }

  function ExternalFieldRefusal(task: string, project: string, account: string, spec: Spec,
                                report: Proof, category: string): Option<Refusal> {
    if task == "" || project == "" || !spec.authorized then Some(NotAuthorized)
    else if spec.model == "" || spec.family == "" then Some(ModelAndFamilyRequired)
    else if spec.argv == [] then Some(ArgvRequired)
    else if !Absolute(spec.workspace) then Some(WorkspaceRequired)
    else if account == "" then Some(AccountRequired)
    else if category == "canary" then Some(CanaryExternal)
    else if !report.OperatorReport? || report.elapsed < 0.0 then Some(ElapsedRequired)
    else None
  }

  function ExternalRefusal(s: State, task: string, project: string, account: string, spec: Spec,
                           report: Proof, category: string): Option<Refusal> {
    if ExternalFieldRefusal(task, project, account, spec, report, category).Some?
    then ExternalFieldRefusal(task, project, account, spec, report, category)
    else if account !in s.accounts then Some(UnknownAccount)
    else if task in s.tasks then Some(AlreadyRecorded)
    else None
  }

  /** The first of `record_external`'s two transactions; the second is `RecordOutcome`. */
  function RecordExternal(s: State, task: string, project: string, account: string, spec: Spec,
                          report: Proof, category: string, now: real): State {
    if ExternalRefusal(s, task, project, account, spec, report, category).Some? then s
    else
      var row := Attempt(task, account, s.accounts[account].generation, Completed, map[], spec.workspace,
                         Some(report), None, now);
      WithNewRow(s.(tasks := s.tasks[task := Task(project, spec.(fromOperator := true))]),
                 row, ExternalRecorded(|s.attempts|, now))
  }

  // ----- Runs ----------------------------------------------------------------------------

  /** One transaction of any actor. `hold_abandoned` is a read followed by Hold steps. */
  datatype Step =
    | DoConfigure(reading: Reading, now: real)
    | DoSubmit(task: string, project: string, spec: Spec, inputsDigest: string)
    | DoDefer(alias: string, endpoint: Endpoint, until: real, now: real)
    | DoClaim(task: string, alias: string, estimate: Quota, now: real)
    | DoStart(aid: nat, generation: nat, now: real)
    | DoHold(aid: nat, reason: string, now: real)
    | DoFinish(aid: nat, generation: nat, receipt: Receipts.Receipt, now: real)
    | DoResolve(aid: nat, consumed: bool, reason: string, operator: string, now: real)
    | DoAccept(aid: nat, proof: Proof, reviewerFamily: string, verdict: string, now: real)
    | DoOutcome(aid: nat, category: string, accepted: bool, repairs: int, now: real)
    | DoExternal(task: string, project: string, account: string, spec: Spec, report: Proof, category: string, now: real)

  function Apply(s: State, step: Step): State {
    match step
    case DoConfigure(r, now) => Configure(s, r, now)
    case DoSubmit(task, project, spec, d) => Submit(s, task, project, spec, d)
    case DoDefer(alias, endpoint, until, now) => Defer(s, alias, endpoint, until, now)
    case DoClaim(task, alias, estimate, now) => Claim(s, task, alias, estimate, now)
    case DoStart(aid, generation, now) => Start(s, aid, generation, now)
    case DoHold(aid, reason, now) => Hold(s, aid, reason, now)
    case DoFinish(aid, generation, receipt, now) => Finish(s, aid, generation, receipt, now)
    case DoResolve(aid, consumed, reason, operator, now) => Resolve(s, aid, consumed, reason, operator, now)
    case DoAccept(aid, proof, family, verdict, now) => Accept(s, aid, proof, family, verdict, now)
    case DoOutcome(aid, category, accepted, repairs, now) => RecordOutcome(s, aid, category, accepted, repairs, now)
    case DoExternal(task, project, account, spec, report, category, now) =>
      RecordExternal(s, task, project, account, spec, report, category, now)
  }

  /** The state after a sequence of transactions. */
  function Run(s: State, steps: seq<Step>): State {
    if steps == [] then s else Apply(Run(s, steps[..|steps| - 1]), steps[|steps| - 1])
  }
}
