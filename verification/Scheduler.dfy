/** The scheduler's tick over the ledger (src/inference_grid/scheduler.py): greedy admission of
    the pending tasks in the order of (priority, id). */
module Scheduler {
  import Sets
  import opened Wrappers
  import opened LedgerSpec
  import opened LedgerObject
  import opened Transitions
  import opened Sums
  import QuotaHistory
  import Aliases
  import Text

  // ----- The order of the pending tasks --------------------------------------------------

  predicate Before(tasks: map<string, Task>, t: string, u: string)
    requires t in tasks && u in tasks
  {
    || tasks[t].spec.priority < tasks[u].spec.priority
    || (tasks[t].spec.priority == tasks[u].spec.priority && Text.LexLess(t, u))
  }

  predicate Sorted(tasks: map<string, Task>, order: seq<string>) {
    && (forall t :: t in order ==> t in tasks)
    && forall i, j :: 0 <= i < j < |order| ==> Before(tasks, order[i], order[j])
  }

  function Insert(tasks: map<string, Task>, order: seq<string>, t: string): (r: seq<string>)
    requires Sorted(tasks, order) && t in tasks
    ensures forall u :: u in r <==> u in order || u == t
  {
    if order == [] then [t]
    else if Before(tasks, t, order[0]) then [t] + order
    else
      assert order == [order[0]] + order[1..];
      [order[0]] + Insert(tasks, order[1..], t)
  }

  lemma {:induction false} InsertSorted(tasks: map<string, Task>, order: seq<string>, t: string)
    requires Sorted(tasks, order) && t in tasks && t !in order
    ensures Sorted(tasks, Insert(tasks, order, t))
  {
    if order != [] {
      Text.LexTotal(t, order[0]);
      var rest := order[1..];
      if Before(tasks, t, order[0]) {
        forall j | 0 <= j < |order| ensures Before(tasks, t, order[j]) {
          if j > 0 && Text.LexLess(t, order[0]) && Text.LexLess(order[0], order[j]) { Text.LexTransitive(t, order[0], order[j]); }
        }
      } else {
        assert forall u :: u in rest ==> u in order;
        InsertSorted(tasks, rest, t);
        var tail := Insert(tasks, rest, t);
        forall j | 0 <= j < |tail| ensures Before(tasks, order[0], tail[j]) {
          assert tail[j] in tail;
          if tail[j] != t {
            var i :| 0 <= i < |rest| && rest[i] == tail[j];
            assert order[i + 1] == tail[j];
          }
        }
      }
    }
  }

  function Pending(s: State): set<string> {
    set t | t in s.tasks && forall i :: 0 <= i < |s.attempts| ==> s.attempts[i].task != t
  }

  ghost predicate OrderOf(s: State, order: seq<string>) {
    Sorted(s.tasks, order) && forall t :: t in order <==> t in Pending(s)
  }

  method SortPending(ids: set<string>, tasks: map<string, Task>) returns (order: seq<string>)
    requires ids <= tasks.Keys
    ensures Sorted(tasks, order)
    ensures forall t :: t in order <==> t in ids
  {
    order := [];
    var rest := ids;
    while rest != {}
      invariant rest <= ids && Sorted(tasks, order)
      invariant forall t :: t in order <==> t in ids - rest
      decreases rest
    {
      var t :| t in rest;
      InsertSorted(tasks, order, t);
      order := Insert(tasks, order, t);
      rest := rest - {t};
    }
  }

  // ----- One tick ------------------------------------------------------------------------

  /** A tick queues a task, reports it blocked, or stops on an error that is not a refusal. */
  datatype Verdict = Queued(ticket: Ticket, candidate: nat) | Blocked(reasons: seq<Refusal>) | Raised

  datatype Outcome = Outcome(task: string, verdict: Verdict)

  /** What a claim of the task's i-th candidate is refused for; None when it would be admitted. */
  function CandidateRefusal(s: State, task: string, i: nat, now: real): Option<Refusal>
    requires task in s.tasks && i < |s.tasks[task].spec.candidates|
  {
    var spec := s.tasks[task].spec;
    var c := spec.candidates[i];
    match Aliases.Canonical(spec.accountAliases, c.account)
    case None => Some(BadAliasChain)
    case Some(alias) => ClaimRefusal(s, task, alias, c.estimate, now)
  }

  /** A refusal the tick records and goes on from. */
  predicate Recorded(why: Refusal) {
    why != BadAliasChain && why != MissingRow
  }

  function TryFrom(s: State, task: string, i: nat, reasons: seq<Refusal>, now: real): (State, Verdict)
    requires task in s.tasks && i <= |s.tasks[task].spec.candidates|
    decreases |s.tasks[task].spec.candidates| - i
  {
    var spec := s.tasks[task].spec;
    if i == |spec.candidates| then (s, Blocked(if reasons == [] then [NoCandidates] else reasons))
    else
      match CandidateRefusal(s, task, i, now)
      case Some(why) => if Recorded(why) then TryFrom(s, task, i + 1, reasons + [why], now) else (s, Raised)
      case None =>
        var alias := Aliases.Canonical(spec.accountAliases, spec.candidates[i].account).value;
        (Claim(s, task, alias, spec.candidates[i].estimate, now),
         Verdict.Queued(Ticket(|s.attempts|, s.accounts[s.aliases[alias]].generation + 1), i))
  }

  predicate Stopped(outcomes: seq<Outcome>) {
    outcomes != [] && outcomes[|outcomes| - 1].verdict.Raised?
  }

  /** The state and the outcomes after the tasks of `order`, unless an error stopped the tick. */
  function TickOver(s: State, order: seq<string>, now: real): (State, seq<Outcome>) {
    if order == [] then (s, [])
    else
      var n := |order| - 1;
      var (s1, outcomes) := TickOver(s, order[..n], now);
      if Stopped(outcomes) || order[n] !in s1.tasks then (s1, outcomes)
      else
        var (s2, verdict) := TryFrom(s1, order[n], 0, [], now);
        (s2, outcomes + [Outcome(order[n], verdict)])
  }

  /** The claim of one candidate, through its alias chain. */
  method ClaimCandidate(ledger: Ledger, task: string, i: nat, now: real) returns (r: Result<Ticket, Refusal>)
    requires task in ledger.tasks && i < |ledger.tasks[task].spec.candidates|
    modifies ledger
    ensures match CandidateRefusal(old(ledger.View()), task, i, now)
            case Some(why) => r == Failure(why) && ledger.View() == old(ledger.View())
            case None => r.Success? && TryFrom(old(ledger.View()), task, i, [], now) == (ledger.View(), Verdict.Queued(r.value, i))
  {
    var spec := ledger.tasks[task].spec;
    var alias := Aliases.CanonicalAccount(spec.candidates[i].account, spec.accountAliases);
    if alias.None? { return Failure(BadAliasChain); }
    r := ledger.ClaimTask(task, alias.value, spec.candidates[i].estimate, now);
  }

  lemma TryIgnoresReasons(s: State, task: string, i: nat, reasons: seq<Refusal>, now: real)
    requires task in s.tasks && i < |s.tasks[task].spec.candidates|
    requires CandidateRefusal(s, task, i, now).None?
    ensures TryFrom(s, task, i, reasons, now) == TryFrom(s, task, i, [], now)
  {
  }

  method TryCandidates(ledger: Ledger, task: string, now: real) returns (verdict: Verdict)
    requires task in ledger.tasks
    modifies ledger
    ensures (ledger.View(), verdict) == TryFrom(old(ledger.View()), task, 0, [], now)
  {
    var spec := ledger.tasks[task].spec;
    var reasons: seq<Refusal> := [];
    ghost var s := ledger.View();
    for i := 0 to |spec.candidates|
      invariant ledger.View() == s
      invariant TryFrom(s, task, i, reasons, now) == TryFrom(s, task, 0, [], now)
    {
      var r := ClaimCandidate(ledger, task, i, now);
      match r
      case Success(ticket) =>
        TryIgnoresReasons(s, task, i, reasons, now);
        return Verdict.Queued(ticket, i);
      case Failure(why) =>
        if !Recorded(why) { return Raised; }
        reasons := reasons + [why];
    }
    return Blocked(if reasons == [] then [NoCandidates] else reasons);
  }

  method Tick(ledger: Ledger, now: real) returns (outcomes: seq<Outcome>, order: seq<string>)
    modifies ledger
    ensures OrderOf(old(ledger.View()), order)
    ensures (ledger.View(), outcomes) == TickOver(old(ledger.View()), order, now)
  {
    var pending := set t | t in ledger.tasks && forall r :: r in ledger.attempts ==> r.task != t;
    assert pending == Pending(ledger.View());
    order := SortPending(pending, ledger.tasks);
    outcomes := [];
    for n := 0 to |order|
      invariant ledger.tasks == old(ledger.tasks) && !Stopped(outcomes)
      invariant (ledger.View(), outcomes) == TickOver(old(ledger.View()), order[..n], now)
    {
      assert order[..n + 1][..n] == order[..n];
      assert order[n] in order;
      TryKeepsTasks(ledger.View(), order[n], 0, [], now);
      var verdict := TryCandidates(ledger, order[n], now);
      outcomes := outcomes + [Outcome(order[n], verdict)];
      if verdict.Raised? {
        StoppedStays(old(ledger.View()), order, n + 1, now);
        return;
      }
    }
    assert order[..|order|] == order;
  }

  lemma {:induction false} StoppedStays(s: State, order: seq<string>, n: nat, now: real)
    requires n <= |order| && Stopped(TickOver(s, order[..n], now).1)
    ensures TickOver(s, order, now) == TickOver(s, order[..n], now)
    decreases |order|
  {
    if n < |order| {
      var m := |order| - 1;
      assert order[..m][..n] == order[..n];
      StoppedStays(s, order[..m], n, now);
    } else {
      assert order[..n] == order;
    }
  }

  lemma {:induction false} TryKeepsTasks(s: State, task: string, i: nat, reasons: seq<Refusal>, now: real)
    requires task in s.tasks && i <= |s.tasks[task].spec.candidates|
    ensures TryFrom(s, task, i, reasons, now).0.tasks == s.tasks
    decreases |s.tasks[task].spec.candidates| - i
  {
    if i < |s.tasks[task].spec.candidates| && CandidateRefusal(s, task, i, now).Some? {
      TryKeepsTasks(s, task, i + 1, reasons + [CandidateRefusal(s, task, i, now).value], now);
    }
  }

  // ----- Refusal is monotone under further claims ----------------------------------------

  /** The later state differs by further admissions only. */
  ghost predicate Tightened(s: State, s': State) {
    && s.attempts <= s'.attempts && PositiveEstimates(s'.attempts)
    && s'.aliases == s.aliases && s'.tasks == s.tasks && s'.cooldowns == s.cooldowns
    && s'.accounts.Keys == s.accounts.Keys
    && (forall a :: a in s.accounts ==> s'.accounts[a] == s.accounts[a].(generation := s'.accounts[a].generation))
  }

  lemma {:induction false} SumPrefix(rows: seq<Attempt>, rows': seq<Attempt>, ids: set<nat>, ids': set<nat>, k: string)
    requires rows <= rows' && ids <= ids' && PositiveEstimates(rows')
    ensures SumOf(rows, ids, k) <= SumOf(rows', ids', k)
    decreases |rows'|
  {
    if rows == rows' {
      SumMonotone(rows, ids, ids', k);
    } else {
      SumPrefix(rows, rows'[..|rows'| - 1], ids, ids', k);
    }
  }

  /** What is refused stays refused when others are admitted at the same time. */
  lemma RefusalIsMonotone(s: State, s': State, task: string, alias: string, estimate: Quota, now: real)
    requires Tightened(s, s') && ClaimRefusal(s, task, alias, estimate, now).Some?
    ensures ClaimRefusal(s', task, alias, estimate, now).Some?
  {
    if alias in s.aliases && s.aliases[alias] in s.accounts {
      var account := s.aliases[alias];
      var ids, ids' := ActiveOn(s.attempts, account), ActiveOn(s'.attempts, account);
      assert ids <= ids';
      Sets.SubsetCardinality(ids, ids');
      forall k {
        SumPrefix(s.attempts, s'.attempts, ids, ids', k);
      }
      assert forall r :: r in s.attempts ==> r in s'.attempts;
    }
  }

  lemma ClaimTightens(s: State, task: string, alias: string, estimate: Quota, now: real)
    requires PositiveEstimates(s.attempts)
    ensures Tightened(s, Claim(s, task, alias, estimate, now))
  {
  }

  lemma TightenedTransitive(a: State, b: State, c: State)
    requires Tightened(a, b) && Tightened(b, c)
    ensures Tightened(a, c)
  {
  }

  // ----- The verdict on one task ---------------------------------------------------------

  /** Every candidate of the task is refused, and by a refusal the tick goes on from. */
  ghost predicate RefusedEverywhere(s: State, task: string, now: real)
    requires task in s.tasks
  {
    forall i :: 0 <= i < |s.tasks[task].spec.candidates| ==> CandidateRefusal(s, task, i, now).Some?
  }

  /** Every alias lookup the tick makes for the task finds an account. */
  ghost predicate Resolvable(s: State, task: string) {
    task in s.tasks && ChainsEnd(s.tasks[task].spec) && forall n :: n in s.aliases ==> s.aliases[n] in s.accounts
  }

  lemma ResolvableRecords(s: State, task: string, i: nat, now: real)
    requires Resolvable(s, task) && i < |s.tasks[task].spec.candidates|
    ensures CandidateRefusal(s, task, i, now).Some? ==> Recorded(CandidateRefusal(s, task, i, now).value)
  {
    assert s.tasks[task].spec.candidates[i] in s.tasks[task].spec.candidates;
  }

  /** A blocked task was refused on every candidate, and nothing was changed for it; a queued
      task was claimed on its first candidate that is not refused. */
  ghost predicate FirstAdmissible(s: State, task: string, verdict: Verdict, s': State, now: real)
    requires task in s.tasks
  {
    match verdict
    case Raised => false
    case Blocked(_) => s' == s && RefusedEverywhere(s, task, now)
    case Queued(ticket, c) =>
      && c < |s.tasks[task].spec.candidates|
      && (forall i :: 0 <= i < c ==> CandidateRefusal(s, task, i, now).Some?)
      && CandidateRefusal(s, task, c, now).None?
      && ticket.aid == |s.attempts| && |s'.attempts| == |s.attempts| + 1
      && s'.attempts[ticket.aid].task == task && s'.attempts[ticket.aid].generation == ticket.generation
      && s'.attempts[ticket.aid].estimate == s.tasks[task].spec.candidates[c].estimate
  }

  lemma {:induction false} TryVerdict(s: State, task: string, i: nat, reasons: seq<Refusal>, now: real)
    requires Resolvable(s, task) && PositiveEstimates(s.attempts) && i <= |s.tasks[task].spec.candidates|
    requires forall j :: 0 <= j < i ==> CandidateRefusal(s, task, j, now).Some?
    ensures var (s', verdict) := TryFrom(s, task, i, reasons, now);
            FirstAdmissible(s, task, verdict, s', now) && Tightened(s, s')
    decreases |s.tasks[task].spec.candidates| - i
  {
    if i < |s.tasks[task].spec.candidates| {
      var why := CandidateRefusal(s, task, i, now);
      if why.Some? {
        ResolvableRecords(s, task, i, now);
        TryVerdict(s, task, i + 1, reasons + [why.value], now);
      } else {
        var spec := s.tasks[task].spec;
        var alias := Aliases.Canonical(spec.accountAliases, spec.candidates[i].account).value;
        ClaimTightens(s, task, alias, spec.candidates[i].estimate, now);
      }
    }
  }

  // ----- The whole tick ------------------------------------------------------------------

  ghost predicate AllResolvable(s: State, order: seq<string>) {
    forall t :: t in order ==> Resolvable(s, t)
  }

  /** The state the first `n` tasks left. */
  ghost function StateAt(s: State, order: seq<string>, n: nat, now: real): State
    requires n <= |order|
  {
    TickOver(s, order[..n], now).0
  }

  lemma TightenedRefusals(s: State, s': State, task: string, now: real)
    requires task in s.tasks && Tightened(s, s') && RefusedEverywhere(s, task, now)
    ensures RefusedEverywhere(s', task, now)
  {
    forall i | 0 <= i < |s.tasks[task].spec.candidates| ensures CandidateRefusal(s', task, i, now).Some? {
      var spec := s.tasks[task].spec;
      var alias := Aliases.Canonical(spec.accountAliases, spec.candidates[i].account);
      assert CandidateRefusal(s, task, i, now).Some?;
      if alias.Some? {
        RefusalIsMonotone(s, s', task, alias.value, spec.candidates[i].estimate, now);
      }
    }
  }

  /** The n-th outcome is the right verdict in the state the earlier tasks left, and a task it
      reports blocked is still refused on every candidate in the state `end`. */
  ghost predicate Greedy(s: State, order: seq<string>, n: nat, o: Outcome, end: State, now: real)
    requires n < |order|
  {
    && o.task == order[n] && !o.verdict.Raised?
    && o.task in StateAt(s, order, n, now).tasks
    && FirstAdmissible(StateAt(s, order, n, now), o.task, o.verdict, StateAt(s, order, n + 1, now), now)
    && Tightened(StateAt(s, order, n + 1, now), end)
    && o.task in end.tasks
    && (o.verdict.Blocked? ==> RefusedEverywhere(end, o.task, now))
  }

  ghost predicate AllGreedy(s: State, order: seq<string>, now: real) {
    var (end, outcomes) := TickOver(s, order, now);
    && |outcomes| == |order|
    && forall n :: 0 <= n < |order| ==> Greedy(s, order, n, outcomes[n], end, now)
  }

  lemma GreedyExtends(s: State, order: seq<string>, m: nat, n: nat, o: Outcome, mid: State, end: State, now: real)
    requires n < m <= |order| && Greedy(s, order[..m], n, o, mid, now) && Tightened(mid, end)
    ensures Greedy(s, order, n, o, end, now)
  {
    assert order[..m][..n] == order[..n] && order[..m][..n + 1] == order[..n + 1];
    TightenedTransitive(StateAt(s, order, n + 1, now), mid, end);
    if o.verdict.Blocked? {
      TightenedRefusals(mid, end, o.task, now);
    }
  }

  lemma TickStep(s: State, order: seq<string>, m: nat, now: real)
    requires |order| == m + 1 && !Stopped(TickOver(s, order[..m], now).1)
    requires Resolvable(StateAt(s, order, m, now), order[m]) && PositiveEstimates(StateAt(s, order, m, now).attempts)
    ensures var mid := StateAt(s, order, m, now);
            var (end, outcomes) := TickOver(s, order, now);
            && outcomes == TickOver(s, order[..m], now).1 + [Outcome(order[m], TryFrom(mid, order[m], 0, [], now).1)]
            && FirstAdmissible(mid, order[m], outcomes[|outcomes| - 1].verdict, end, now)
            && Tightened(mid, end)
  {
    TryVerdict(StateAt(s, order, m, now), order[m], 0, [], now);
  }

  lemma {:induction false} TickIsGreedy(s: State, order: seq<string>, now: real)
    requires AllResolvable(s, order) && PositiveEstimates(s.attempts)
    ensures AllGreedy(s, order, now) && Tightened(s, TickOver(s, order, now).0)
  {
    if order != [] {
      var m := |order| - 1;
      assert AllResolvable(s, order[..m]) by {
        assert forall t :: t in order[..m] ==> t in order;
      }
      TickIsGreedy(s, order[..m], now);
      NotStopped(s, order[..m], now);
      assert order[m] in order;
      assert Resolvable(StateAt(s, order, m, now), order[m]);
      TickStep(s, order, m, now);
      LastIsGreedy(s, order, m, now);
    }
  }

  lemma NotStopped(s: State, order: seq<string>, now: real)
    requires AllGreedy(s, order, now)
    ensures !Stopped(TickOver(s, order, now).1)
  {
    var (end, outcomes) := TickOver(s, order, now);
    assert order != [] ==> Greedy(s, order, |order| - 1, outcomes[|order| - 1], end, now);
  }

  lemma LastIsGreedy(s: State, order: seq<string>, m: nat, now: real)
    requires |order| == m + 1 && AllGreedy(s, order[..m], now) && !Stopped(TickOver(s, order[..m], now).1)
    requires Tightened(s, StateAt(s, order, m, now))
    requires Resolvable(StateAt(s, order, m, now), order[m]) && PositiveEstimates(StateAt(s, order, m, now).attempts)
    ensures AllGreedy(s, order, now) && Tightened(s, TickOver(s, order, now).0)
  {
    TickStep(s, order, m, now);
    var (mid, before) := TickOver(s, order[..m], now);
    var (end, outcomes) := TickOver(s, order, now);
    TightenedTransitive(s, mid, end);
    forall n | 0 <= n < m ensures Greedy(s, order, n, outcomes[n], end, now) {
      assert outcomes[n] == before[n];
      GreedyExtends(s, order, m, n, before[n], mid, end, now);
    }
    LastStepIsGreedy(s, order, m, outcomes[m], end, now);
  }

  lemma LastStepIsGreedy(s: State, order: seq<string>, m: nat, o: Outcome, end: State, now: real)
    requires |order| == m + 1 && end == TickOver(s, order, now).0
    requires o.task == order[m] && order[m] in StateAt(s, order, m, now).tasks
    requires FirstAdmissible(StateAt(s, order, m, now), o.task, o.verdict, end, now)
    requires Tightened(StateAt(s, order, m, now), end)
    ensures Greedy(s, order, m, o, end, now)
  {
    assert order[..m + 1] == order;
    assert Tightened(end, end);
  }

  lemma {:induction false} RefusedTickIsIdle(s: State, order: seq<string>, now: real)
    requires AllResolvable(s, order) && PositiveEstimates(s.attempts)
    requires forall t :: t in order ==> RefusedEverywhere(s, t, now)
    ensures TickOver(s, order, now).0 == s
    ensures forall o :: o in TickOver(s, order, now).1 ==> o.verdict.Blocked?
  {
    if order != [] {
      var m := |order| - 1;
      assert forall t :: t in order[..m] ==> t in order;
      RefusedTickIsIdle(s, order[..m], now);
      assert order[m] in order;
      assert RefusedEverywhere(s, order[m], now);
      RefusedStepIsIdle(s, order, m, now);
    }
  }

  lemma RefusedStepIsIdle(s: State, order: seq<string>, m: nat, now: real)
    requires |order| == m + 1 && StateAt(s, order, m, now) == s
    requires forall o :: o in TickOver(s, order[..m], now).1 ==> o.verdict.Blocked?
    requires Resolvable(s, order[m]) && PositiveEstimates(s.attempts) && RefusedEverywhere(s, order[m], now)
    ensures TickOver(s, order, now).0 == s
    ensures forall o :: o in TickOver(s, order, now).1 ==> o.verdict.Blocked?
  {
    var before := TickOver(s, order[..m], now).1;
    assert before != [] ==> before[|before| - 1] in before;
    TickStep(s, order, m, now);
  }

  /** What is still pending after a tick was reported blocked by it. */
  lemma PendingAfter(s: State, order: seq<string>, now: real, t: string)
    requires OrderOf(s, order) && AllResolvable(s, order) && PositiveEstimates(s.attempts)
    requires t in Pending(TickOver(s, order, now).0)
    ensures Resolvable(TickOver(s, order, now).0, t) && RefusedEverywhere(TickOver(s, order, now).0, t, now)
  {
    TickIsGreedy(s, order, now);
    var (end, outcomes) := TickOver(s, order, now);
    assert t in Pending(s) by {
      assert forall i :: 0 <= i < |s.attempts| ==> end.attempts[i] == s.attempts[i];
    }
    var n :| 0 <= n < |order| && order[n] == t;
    assert Greedy(s, order, n, outcomes[n], end, now);
    QueuedIsNotPending(s, order, n, outcomes[n], end, now);
  }

  lemma QueuedIsNotPending(s: State, order: seq<string>, n: nat, o: Outcome, end: State, now: real)
    requires n < |order| && Greedy(s, order, n, o, end, now)
    ensures o.verdict.Queued? ==> o.task !in Pending(end)
  {
    if o.verdict.Queued? {
      var mid := StateAt(s, order, n + 1, now);
      assert end.attempts[o.verdict.ticket.aid] == mid.attempts[o.verdict.ticket.aid];
    }
  }

  // ----- In every reachable state --------------------------------------------------------

  /** A task whose alias chains were never followed came with an attempt of its own. */
  ghost predicate ChainsFollowed(s: State) {
    forall t :: t in s.tasks && t in Pending(s) ==> ChainsEnd(s.tasks[t].spec)
  }

  lemma ShapeKeepsChains(s: State, s': State, shape: Shape)
    requires Linked(s) && ChainsFollowed(s) && HasShape(s, s', shape)
    ensures ChainsFollowed(s')
  {
    ShapeEvolves(s, s', shape);
    forall t | t in s'.tasks && t in Pending(s') ensures ChainsEnd(s'.tasks[t].spec) {
      assert shape.External? ==> s'.attempts[|s.attempts|].task == shape.row.task;
      if t in s.tasks {
        assert t in Pending(s);
      }
    }
  }

  lemma {:induction false} RunFollowsChains(steps: seq<Step>)
    ensures ChainsFollowed(Run(Empty, steps))
  {
    if steps != [] {
      var n := |steps| - 1;
      RunFollowsChains(steps[..n]);
      RunEvolves(Empty, steps[..n]);
      var s := Run(Empty, steps[..n]);
      var shape := StepShape(s, steps[n]);
      ShapeKeepsChains(s, Run(Empty, steps), shape);
    }
  }

  /** From any reachable state, with the clock standing and no other actor: no lookup of the tick
      raises; every task got the verdict of its first admissible candidate in the state the
      earlier tasks left; every task reported blocked is still refused on every candidate. */
  lemma GreedyAdmissionIsMaximal(steps: seq<Step>, order: seq<string>, now: real)
    requires OrderOf(Run(Empty, steps), order)
    ensures AllGreedy(Run(Empty, steps), order, now)
  {
    ReachableIsResolvable(steps, order);
    TickIsGreedy(Run(Empty, steps), order, now);
  }

  lemma ReachableIsResolvable(steps: seq<Step>, order: seq<string>)
    requires OrderOf(Run(Empty, steps), order)
    ensures AllResolvable(Run(Empty, steps), order) && PositiveEstimates(Run(Empty, steps).attempts)
  {
    RunFollowsChains(steps);
    RunEvolves(Empty, steps);
    QuotaHistory.RunQuota(steps);
  }

  /** A second tick at the same time admits nothing, in whatever order it takes what is left. */
  lemma SecondTickAdmitsNothing(steps: seq<Step>, order: seq<string>, again: seq<string>, now: real)
    requires OrderOf(Run(Empty, steps), order)
    requires OrderOf(TickOver(Run(Empty, steps), order, now).0, again)
    ensures var s' := TickOver(Run(Empty, steps), order, now).0;
            && TickOver(s', again, now).0 == s'
            && forall o :: o in TickOver(s', again, now).1 ==> o.verdict.Blocked?
  {
    var s := Run(Empty, steps);
    ReachableIsResolvable(steps, order);
    TickIsGreedy(s, order, now);
    var s' := TickOver(s, order, now).0;
    forall t | t in again ensures Resolvable(s', t) && RefusedEverywhere(s', t, now) {
      PendingAfter(s, order, now, t);
    }
    RefusedTickIsIdle(s', again, now);
  }
}
