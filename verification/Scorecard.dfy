/** `scorecard`: what the ledger has to say for each family, model and category. Its three reads
    are separate statements, so other transactions may fall between them. */
module Scorecard {
  import opened Wrappers
  import opened LedgerSpec
  import opened LedgerObject
  import opened Transitions
  import Sets

  datatype Entry = Entry(
    family: string, model: string, category: string, attempts: nat, completed: nat, accepted: nat,
    held: nat, resolved: nat, repairs: int, external: nat)

  /** What the three reads found: the rows, then the tasks, then the log. */
  datatype Reads = Reads(rows: seq<Attempt>, tasks: map<string, Task>, events: seq<Event>)

  predicate Concerns(e: Event, aid: nat) {
    e.OutcomeRecorded? && e.aid == aid
  }

  /** The last outcome of an attempt in the order of `at`; of two recorded at one instant, the
      one recorded second. */
  function Outcome(events: seq<Event>, aid: nat): (o: Option<Event>)
    ensures o.Some? ==> o.value in events && Concerns(o.value, aid)
    ensures o.Some? ==> forall e :: e in events && Concerns(e, aid) ==> e.at <= o.value.at
    ensures o.None? ==> forall e :: e in events ==> !Concerns(e, aid)
  {
    if events == [] then None
    else
      var e := events[|events| - 1];
      var before := Outcome(events[..|events| - 1], aid);
      assert events == events[..|events| - 1] + [e];
      if Concerns(e, aid) && (before.None? || before.value.at <= e.at) then Some(e) else before
  }

  // ----- What one row adds ---------------------------------------------------------------

  /** One row of the attempts table as the card sees it; `asked` when the account is the one asked
      about. */
  datatype Line = Line(
    asked: bool, family: string, model: string, category: string, completed: bool, accepted: bool,
    held: bool, resolved: bool, open: bool, fromOperator: bool, repairs: int)

  function Key(l: Line): string {
    l.family + "|" + l.model + "|" + l.category
  }

  function LineOf(row: Attempt, spec: Option<Spec>, outcome: Option<Event>, account: Option<string>): Line
    requires outcome.Some? ==> outcome.value.OutcomeRecorded?
  {
    Line(account.None? || row.account == account.value,
         if spec.None? then "?" else spec.value.family,
         if spec.None? then "?" else spec.value.model,
         if outcome.None? then "unrecorded" else outcome.value.category,
         row.state.Completed? || row.state.Accepted?,
         (outcome.Some? && outcome.value.accepted) || row.state.Accepted?,
         row.state.Held?,
         row.state.Abandoned? || row.state.Failed?,
         row.state.Queued? || row.state.Dispatching?,
         spec.Some? && spec.value.fromOperator,
         if outcome.None? then 0 else outcome.value.repairs)
  }

  function SpecOf(tasks: map<string, Task>, task: string): Option<Spec> {
    if task in tasks then Some(tasks[task].spec) else None
  }

  function Lines(r: Reads, account: Option<string>): seq<Line> {
    seq(|r.rows|, i requires 0 <= i < |r.rows| =>
      LineOf(r.rows[i], SpecOf(r.tasks, r.rows[i].task), Outcome(r.events, i), account))
  }

  // ----- What an entry says --------------------------------------------------------------

  /** What an entry counts. */
  datatype What = Attempts | Done | Good | OnHold | Settled | ByOperator

  predicate Has(l: Line, what: What) {
    match what
    case Attempts => true
    case Done => l.completed
    case Good => l.accepted
    case OnHold => l.held
    case Settled => l.resolved
    case ByOperator => l.fromOperator
  }

  function Field(e: Entry, what: What): nat {
    match what
    case Attempts => e.attempts
    case Done => e.completed
    case Good => e.accepted
    case OnHold => e.held
    case Settled => e.resolved
    case ByOperator => e.external
  }

  predicate InGroup(l: Line, key: string) {
    l.asked && Key(l) == key
  }

  /** The rows the entry under `key` counts as `what`. */
  function Counted(lines: seq<Line>, key: string, what: What): set<nat> {
    set i | 0 <= i < |lines| && InGroup(lines[i], key) && Has(lines[i], what)
  }

  function RepairsIn(lines: seq<Line>, key: string): int {
    if lines == [] then 0
    else
      var n := |lines| - 1;
      RepairsIn(lines[..n], key) + if InGroup(lines[n], key) then lines[n].repairs else 0
  }

  /** The row the entry is named after: the first of its group. */
  predicate NamedAfter(lines: seq<Line>, key: string, e: Entry, i: nat) {
    && i < |lines| && InGroup(lines[i], key)
    && (forall j :: 0 <= j < i ==> !InGroup(lines[j], key))
    && e.family == lines[i].family && e.model == lines[i].model && e.category == lines[i].category
  }

  ghost predicate Tallies(lines: seq<Line>, key: string, e: Entry) {
    && (forall what :: Field(e, what) == |Counted(lines, key, what)|)
    && e.repairs == RepairsIn(lines, key)
    && exists i :: NamedAfter(lines, key, e, i)
  }

  /** The whole card: one entry for every key that occurs. */
  ghost predicate IsCard(lines: seq<Line>, card: map<string, Entry>) {
    && (forall i :: 0 <= i < |lines| && lines[i].asked ==> Key(lines[i]) in card)
    && (forall key :: key in card ==> Tallies(lines, key, card[key]))
  }

  function One(b: bool): nat {
    if b then 1 else 0
  }

  function Add(e: Entry, l: Line): Entry {
    e.(attempts := e.attempts + 1,
       external := e.external + One(l.fromOperator),
       completed := e.completed + One(l.completed),
       accepted := e.accepted + One(l.accepted),
       held := e.held + One(l.held),
       resolved := e.resolved + One(l.resolved),
       repairs := e.repairs + l.repairs)
  }

  lemma CountedGrows(lines: seq<Line>, l: Line, key: string, what: What)
    ensures |Counted(lines + [l], key, what)| == |Counted(lines, key, what)| + One(InGroup(l, key) && Has(l, what))
  {
    var n := |lines|;
    var a, b := Counted(lines, key, what), Counted(lines + [l], key, what);
    if InGroup(l, key) && Has(l, what) {
      assert b == a + {n};
    } else {
      assert b == a;
    }
  }

  lemma RepairsGrow(lines: seq<Line>, l: Line, key: string)
    ensures RepairsIn(lines + [l], key) == RepairsIn(lines, key) + if InGroup(l, key) then l.repairs else 0
  {
    assert (lines + [l])[..|lines|] == lines;
  }

  lemma AddTallies(lines: seq<Line>, l: Line, key: string, e: Entry)
    requires InGroup(l, key) && Tallies(lines, key, e)
    ensures Tallies(lines + [l], key, Add(e, l))
  {
    forall what ensures Field(Add(e, l), what) == |Counted(lines + [l], key, what)| {
      CountedGrows(lines, l, key, what);
    }
    RepairsGrow(lines, l, key);
    var i :| NamedAfter(lines, key, e, i);
    assert NamedAfter(lines + [l], key, Add(e, l), i);
  }

  function Fresh(l: Line): Entry {
    Entry(l.family, l.model, l.category, 0, 0, 0, 0, 0, 0, 0)
  }

  lemma {:induction false} NoRepairs(lines: seq<Line>, key: string)
    requires forall i :: 0 <= i < |lines| ==> !InGroup(lines[i], key)
    ensures RepairsIn(lines, key) == 0
  {
    if lines != [] {
      NoRepairs(lines[..|lines| - 1], key);
    }
  }

  lemma FirstTallies(lines: seq<Line>, l: Line, key: string)
    requires InGroup(l, key) && forall i :: 0 <= i < |lines| ==> !InGroup(lines[i], key)
    ensures Tallies(lines + [l], key, Add(Fresh(l), l))
  {
    forall what ensures Field(Add(Fresh(l), l), what) == |Counted(lines + [l], key, what)| {
      CountedGrows(lines, l, key, what);
      assert Counted(lines, key, what) == {};
    }
    NoRepairs(lines, key);
    RepairsGrow(lines, l, key);
    assert NamedAfter(lines + [l], key, Add(Fresh(l), l), |lines|);
  }

  lemma SkipTallies(lines: seq<Line>, l: Line, key: string, e: Entry)
    requires !InGroup(l, key) && Tallies(lines, key, e)
    ensures Tallies(lines + [l], key, e)
  {
    forall what ensures Field(e, what) == |Counted(lines + [l], key, what)| {
      CountedGrows(lines, l, key, what);
    }
    RepairsGrow(lines, l, key);
    var i :| NamedAfter(lines, key, e, i);
    assert NamedAfter(lines + [l], key, e, i);
  }

  lemma CardGrows(lines: seq<Line>, l: Line, card: map<string, Entry>)
    requires l.asked && IsCard(lines, card)
    ensures IsCard(lines + [l], card[Key(l) := Add(if Key(l) in card then card[Key(l)] else Fresh(l), l)])
  {
    var key := Key(l);
    var card' := card[key := Add(if key in card then card[key] else Fresh(l), l)];
    forall other | other in card' ensures Tallies(lines + [l], other, card'[other]) {
      if other != key {
        SkipTallies(lines, l, other, card[other]);
      } else if key in card {
        AddTallies(lines, l, key, card[key]);
      } else {
        FirstTallies(lines, l, key);
      }
    }
  }

  lemma CardStays(lines: seq<Line>, l: Line, card: map<string, Entry>)
    requires !l.asked && IsCard(lines, card)
    ensures IsCard(lines + [l], card)
  {
    forall key | key in card ensures Tallies(lines + [l], key, card[key]) {
      SkipTallies(lines, l, key, card[key]);
    }
  }

  lemma CardSteps(lines: seq<Line>, l: Line, card: map<string, Entry>)
    requires IsCard(lines, card)
    ensures IsCard(lines + [l], if l.asked then card[Key(l) := Add(if Key(l) in card then card[Key(l)] else Fresh(l), l)] else card)
  {
    if l.asked {
      CardGrows(lines, l, card);
    } else {
      CardStays(lines, l, card);
    }
  }

  /** The outcomes dictionary: a later `at` overwrites. */
  method LatestOutcomes(events: seq<Event>) returns (latest: map<nat, Event>)
    ensures forall aid :: Outcome(events, aid) == if aid in latest then Some(latest[aid]) else None
  {
    latest := map[];
    for n := 0 to |events|
      invariant forall aid :: Outcome(events[..n], aid) == if aid in latest then Some(latest[aid]) else None
    {
      assert events[..n + 1][..n] == events[..n];
      var e := events[n];
      if e.OutcomeRecorded? && (e.aid !in latest || latest[e.aid].at <= e.at) {
        latest := latest[e.aid := e];
      }
    }
    assert events[..|events|] == events;
  }

  /** `scorecard`, with the transactions of others that fall between its reads. */
  method Scorecard(ledger: Ledger, account: Option<string>, first: seq<Step>, second: seq<Step>)
    returns (card: map<string, Entry>, ghost seen: Reads)
    modifies ledger
    ensures ledger.View() == Run(Run(old(ledger.View()), first), second)
    ensures seen == Reads(old(ledger.attempts), Run(old(ledger.View()), first).tasks, ledger.events)
    ensures IsCard(Lines(seen, account), card)
  {
    var rows := ledger.attempts;
    ledger.Interfere(first);
    var tasks := ledger.tasks;
    ledger.Interfere(second);
    seen := Reads(rows, tasks, ledger.events);
    var outcomes := LatestOutcomes(ledger.events);
    card := Cards(rows, tasks, outcomes, account, seen);
  }

  method Cards(rows: seq<Attempt>, tasks: map<string, Task>, outcomes: map<nat, Event>, account: Option<string>,
               ghost seen: Reads) returns (card: map<string, Entry>)
    requires seen.rows == rows && seen.tasks == tasks
    requires forall aid :: Outcome(seen.events, aid) == if aid in outcomes then Some(outcomes[aid]) else None
    ensures IsCard(Lines(seen, account), card)
  {
    ghost var lines := Lines(seen, account);
    card := map[];
    for n := 0 to |rows|
      invariant IsCard(lines[..n], card)
    {
      var row := rows[n];
      var outcome := if n in outcomes then Some(outcomes[n]) else None;
      assert outcome == Outcome(seen.events, n);
      var line := LineOf(row, SpecOf(tasks, row.task), outcome, account);
      assert lines[..n + 1] == lines[..n] + [line];
      CardSteps(lines[..n], line, card);
      if line.asked {
        var entry := if Key(line) in card then card[Key(line)]
                     else Entry(line.family, line.model, line.category, 0, 0, 0, 0, 0, 0, 0);
        card := card[Key(line) := Add(entry, line)];
      }
    }
    assert lines[..|rows|] == lines;
  }

  // ----- Every attempt is counted once ---------------------------------------------------

  predicate Distinct(keys: seq<string>) {
    forall i, j :: 0 <= i < j < |keys| ==> keys[i] != keys[j]
  }

  /** The attempts all the listed entries report. */
  function Reported(card: map<string, Entry>, keys: seq<string>): nat
    requires forall key :: key in keys ==> key in card
  {
    if keys == [] then 0 else Reported(card, keys[..|keys| - 1]) + card[keys[|keys| - 1]].attempts
  }

  /** The rows under any of the keys. */
  function Under(lines: seq<Line>, keys: seq<string>): set<nat> {
    set i | 0 <= i < |lines| && lines[i].asked && Key(lines[i]) in keys
  }

  lemma UnderGrows(lines: seq<Line>, keys: seq<string>, key: string)
    requires key !in keys
    ensures |Under(lines, keys + [key])| == |Under(lines, keys)| + |Counted(lines, key, Attempts)|
  {
    assert Under(lines, keys + [key]) == Under(lines, keys) + Counted(lines, key, Attempts);
    assert Under(lines, keys) !! Counted(lines, key, Attempts);
  }

  lemma {:induction false} ReportedIsUnder(lines: seq<Line>, card: map<string, Entry>, keys: seq<string>)
    requires IsCard(lines, card) && Distinct(keys) && forall key :: key in keys ==> key in card
    ensures Reported(card, keys) == |Under(lines, keys)|
  {
    if keys == [] {
      assert Under(lines, keys) == {};
    } else {
      var before, key := keys[..|keys| - 1], keys[|keys| - 1];
      assert keys == before + [key];
      ReportedIsUnder(lines, card, before);
      UnderGrows(lines, before, key);
      assert Tallies(lines, key, card[key]);
      assert Field(card[key], Attempts) == |Counted(lines, key, Attempts)|;
    }
  }

  /** Each attempt asked for is counted in exactly one entry: the entries of the card, listed
      without repetition, report as many attempts as were asked for, and one entry counts it. */
  lemma EveryAttemptIsCountedOnce(lines: seq<Line>, card: map<string, Entry>, keys: seq<string>)
    requires IsCard(lines, card) && Distinct(keys) && (forall key :: key in keys <==> key in card)
    ensures Reported(card, keys) == |set i | 0 <= i < |lines| && lines[i].asked|
    ensures forall i, key :: 0 <= i < |lines| && key in card ==>
              (i in Counted(lines, key, Attempts) <==> lines[i].asked && key == Key(lines[i]))
  {
    ReportedIsUnder(lines, card, keys);
    assert Under(lines, keys) == set i | 0 <= i < |lines| && lines[i].asked;
  }

  function StillOpen(lines: seq<Line>, key: string): set<nat> {
    set i | 0 <= i < |lines| && InGroup(lines[i], key) && lines[i].open
  }

  /** A row is in exactly one of these conditions. */
  predicate OneCondition(l: Line) {
    One(l.completed) + One(l.held) + One(l.resolved) + One(l.open) == 1
  }

  lemma FourParts(all: set<nat>, a: set<nat>, b: set<nat>, c: set<nat>, d: set<nat>)
    requires all == a + b + c + d && a !! b && a + b !! c && a + b + c !! d
    ensures |a| + |b| + |c| + |d| == |all|
  {
  }

  lemma GroupIsUnion(lines: seq<Line>, key: string)
    requires forall l :: l in lines ==> OneCondition(l)
    ensures Counted(lines, key, Attempts) ==
            Counted(lines, key, Done) + Counted(lines, key, OnHold) + Counted(lines, key, Settled) + StillOpen(lines, key)
  {
    assert forall i :: 0 <= i < |lines| ==> OneCondition(lines[i]);
  }

  lemma GroupPartsApart(lines: seq<Line>, key: string)
    requires forall l :: l in lines ==> OneCondition(l)
    ensures Counted(lines, key, Done) !! Counted(lines, key, OnHold)
    ensures Counted(lines, key, Done) + Counted(lines, key, OnHold) !! Counted(lines, key, Settled)
    ensures Counted(lines, key, Done) + Counted(lines, key, OnHold) + Counted(lines, key, Settled) !! StillOpen(lines, key)
  {
    assert forall i :: 0 <= i < |lines| ==> OneCondition(lines[i]);
  }

  lemma GroupSplits(lines: seq<Line>, key: string)
    requires forall l :: l in lines ==> OneCondition(l)
    ensures |Counted(lines, key, Done)| + |Counted(lines, key, OnHold)| + |Counted(lines, key, Settled)| +
            |StillOpen(lines, key)| == |Counted(lines, key, Attempts)|
  {
    GroupIsUnion(lines, key);
    GroupPartsApart(lines, key);
    FourParts(Counted(lines, key, Attempts), Counted(lines, key, Done), Counted(lines, key, OnHold),
              Counted(lines, key, Settled), StillOpen(lines, key));
  }

  /** The states of the attempts of an entry add up: completed, held, resolved and still open. */
  lemma StatesAddUp(lines: seq<Line>, key: string, e: Entry)
    requires Tallies(lines, key, e) && forall l :: l in lines ==> OneCondition(l)
    ensures e.completed + e.held + e.resolved + |StillOpen(lines, key)| == e.attempts
  {
    GroupSplits(lines, key);
    assert Field(e, Attempts) == e.attempts && Field(e, Done) == e.completed;
    assert Field(e, OnHold) == e.held && Field(e, Settled) == e.resolved;
  }

  lemma CompletedWithinAttempts(lines: seq<Line>, key: string, e: Entry)
    requires Tallies(lines, key, e)
    ensures e.completed <= e.attempts
    ensures (forall l :: l in lines ==> (l.accepted ==> l.completed)) ==> e.accepted <= e.completed
  {
    assert Field(e, Attempts) == |Counted(lines, key, Attempts)|;
    assert Field(e, Done) == |Counted(lines, key, Done)| && Field(e, Good) == |Counted(lines, key, Good)|;
    Sets.SubsetCardinality(Counted(lines, key, Done), Counted(lines, key, Attempts));
    if forall l :: l in lines ==> (l.accepted ==> l.completed) {
      Sets.SubsetCardinality(Counted(lines, key, Good), Counted(lines, key, Done));
    }
  }

  /** The rows of an entry whose outcome was read as accepted though they were read unfinished. */
  function AcceptedEarly(lines: seq<Line>, key: string): set<nat> {
    set i | 0 <= i < |lines| && InGroup(lines[i], key) && lines[i].accepted && !lines[i].completed
  }

  /** The completed rows of an entry with no accepted outcome. */
  function NotAccepted(lines: seq<Line>, key: string): set<nat> {
    set i | 0 <= i < |lines| && InGroup(lines[i], key) && lines[i].completed && !lines[i].accepted
  }

  lemma ParallelParts(a: set<nat>, b: set<nat>, moreA: set<nat>, moreB: set<nat>)
    requires a + moreA == b + moreB && a !! moreA && b !! moreB
    ensures |a| + |moreA| == |b| + |moreB|
  {
    assert |a + moreA| == |a| + |moreA| && |b + moreB| == |b| + |moreB|;
  }

  /** The exact account of an entry: accepted exceeds completed by what was accepted early less what
      was completed and not accepted, so it stays within completed exactly when the former are no
      more than the latter. */
  lemma AcceptedExactly(lines: seq<Line>, key: string, e: Entry)
    requires Tallies(lines, key, e)
    ensures e.accepted + |NotAccepted(lines, key)| == e.completed + |AcceptedEarly(lines, key)|
    ensures e.accepted <= e.completed <==> |AcceptedEarly(lines, key)| <= |NotAccepted(lines, key)|
  {
    assert Field(e, Done) == |Counted(lines, key, Done)| && Field(e, Good) == |Counted(lines, key, Good)|;
    ParallelParts(Counted(lines, key, Good), Counted(lines, key, Done), NotAccepted(lines, key), AcceptedEarly(lines, key));
  }

  // ----- Accepted work stays completed ---------------------------------------------------

  /** Every accepted outcome is about work that is completed or accepted. */
  ghost predicate OutcomesHonest(s: State) {
    forall e :: e in s.events ==> Honest(s, e)
  }

  ghost predicate Honest(s: State, e: Event) {
    e.OutcomeRecorded? ==>
      && e.aid < |s.attempts|
      && (e.accepted ==> s.attempts[e.aid].state.Completed? || s.attempts[e.aid].state.Accepted?)
  }

  /** The step writes no outcome. */
  ghost predicate AddsNoOutcome(s: State, s': State) {
    s.events <= s'.events && forall e :: e in s'.events ==> e in s.events || !e.OutcomeRecorded?
  }

  lemma MovedAddsNoOutcome(s: State, s': State, i: nat)
    requires MovesOrStays(s, s', i)
    ensures AddsNoOutcome(s, s')
  {
  }

  lemma ConfigureAddsNoOutcome(s: State, r: Reading, now: real)
    ensures AddsNoOutcome(s, Configure(s, r, now))
  {
  }

  lemma SubmitAddsNoOutcome(s: State, task: string, project: string, spec: Spec, inputsDigest: string)
    ensures AddsNoOutcome(s, Submit(s, task, project, spec, inputsDigest))
  {
  }

  lemma DeferAddsNoOutcome(s: State, alias: string, endpoint: Endpoint, until: real, now: real)
    ensures AddsNoOutcome(s, Defer(s, alias, endpoint, until, now))
  {
  }

  lemma ClaimAddsNoOutcome(s: State, task: string, alias: string, estimate: Quota, now: real)
    ensures AddsNoOutcome(s, Claim(s, task, alias, estimate, now))
  {
  }

  lemma ExternalAddsNoOutcome(s: State, task: string, project: string, account: string, spec: Spec, report: Proof,
                              category: string, now: real)
    ensures AddsNoOutcome(s, RecordExternal(s, task, project, account, spec, report, category, now))
  {
  }

  lemma OnlyOutcomesAddOutcomes(s: State, step: Step)
    requires !step.DoOutcome?
    ensures AddsNoOutcome(s, Apply(s, step))
  {
    if Moves(step) {
      MovingStep(s, step);
      MovedAddsNoOutcome(s, Apply(s, step), Target(step));
    } else {
      match step
      case DoConfigure(r, now) => ConfigureAddsNoOutcome(s, r, now);
      case DoSubmit(task, project, spec, d) => SubmitAddsNoOutcome(s, task, project, spec, d);
      case DoDefer(alias, endpoint, until, now) => DeferAddsNoOutcome(s, alias, endpoint, until, now);
      case DoClaim(task, alias, estimate, now) => ClaimAddsNoOutcome(s, task, alias, estimate, now);
      case DoExternal(task, project, account, spec, report, category, now) =>
        ExternalAddsNoOutcome(s, task, project, account, spec, report, category, now);
    }
  }

  lemma EvolvingKeepsHonest(s: State, s': State, e: Event)
    requires Evolves(s, s') && Honest(s, e)
    ensures Honest(s', e)
  {
  }

  lemma StepKeepsHonest(s: State, step: Step)
    requires Linked(s) && OutcomesHonest(s)
    ensures OutcomesHonest(Apply(s, step))
  {
    var s' := Apply(s, step);
    RunEvolves(s, [step]);
    assert [step][..0] == [] && Run(s, [step]) == s';
    if !step.DoOutcome? {
      OnlyOutcomesAddOutcomes(s, step);
    }
    forall e | e in s'.events ensures Honest(s', e) {
      if e in s.events {
        EvolvingKeepsHonest(s, s', e);
      }
    }
  }

  /** In every reachable state an accepted outcome is about work that is completed or accepted. */
  lemma {:induction false} OutcomesStayHonest(steps: seq<Step>)
    ensures OutcomesHonest(Run(Empty, steps))
  {
    if steps != [] {
      var n := |steps| - 1;
      OutcomesStayHonest(steps[..n]);
      RunEvolves(Empty, steps[..n]);
      StepKeepsHonest(Run(Empty, steps[..n]), steps[n]);
    }
  }

  /** What the scorecard reads after any run: the rows first, then, transactions later, the
      tasks and the log. */
  ghost function ReadsOf(steps: seq<Step>, first: seq<Step>, second: seq<Step>): Reads {
    var s0 := Run(Empty, steps);
    var s1 := Run(s0, first);
    Reads(s0.attempts, s1.tasks, Run(s1, second).events)
  }

  lemma RowsHaveOneCondition(r: Reads, account: Option<string>)
    ensures forall l :: l in Lines(r, account) ==> OneCondition(l)
  {
  }

  /** Attempt `i` was read unfinished, and its latest outcome, read later, accepts it. */
  predicate JudgedMeanwhile(r: Reads, i: nat) {
    && i < |r.rows| && !r.rows[i].state.Completed? && !r.rows[i].state.Accepted?
    && Outcome(r.events, i).Some? && Outcome(r.events, i).value.accepted
  }

  /** A row is read as accepted and not as completed exactly when it was judged meanwhile. */
  lemma EarlyExactly(r: Reads, account: Option<string>, key: string)
    ensures forall i :: i in AcceptedEarly(Lines(r, account), key) <==>
              0 <= i < |r.rows| && InGroup(Lines(r, account)[i], key) && JudgedMeanwhile(r, i)
    ensures (forall i :: 0 <= i < |r.rows| && Lines(r, account)[i].asked ==>
               (Lines(r, account)[i].accepted ==> Lines(r, account)[i].completed)) <==>
            forall i :: 0 <= i < |r.rows| && Lines(r, account)[i].asked ==> !JudgedMeanwhile(r, i)
  {
    var lines := Lines(r, account);
    assert forall i :: 0 <= i < |lines| ==> (lines[i].accepted && !lines[i].completed <==> JudgedMeanwhile(r, i));
  }

  /** An attempt judged meanwhile was judged after the rows were read. */
  lemma JudgedMeanwhileIsLate(steps: seq<Step>, first: seq<Step>, second: seq<Step>, i: nat)
    requires JudgedMeanwhile(ReadsOf(steps, first, second), i)
    ensures Outcome(ReadsOf(steps, first, second).events, i).value !in Run(Empty, steps).events
  {
    OutcomesStayHonest(steps);
    var e := Outcome(ReadsOf(steps, first, second).events, i).value;
    assert e in Run(Empty, steps).events ==> Honest(Run(Empty, steps), e);
  }

  /** What the three reads of a run have in common with the state the rows were read in. */
  lemma ReadsOfRun(steps: seq<Step>, first: seq<Step>, second: seq<Step>)
    ensures ReadsOf(steps, first, second).rows == Run(Empty, steps).attempts
    ensures forall i :: 0 <= i < |ReadsOf(steps, first, second).rows| ==>
              ReadsOf(steps, first, second).rows[i].task in ReadsOf(steps, first, second).tasks
  {
    RunEvolves(Empty, steps);
    RunEvolves(Run(Empty, steps), first);
  }

  /** The soundness of the card over every history, and whatever falls between the reads: the
      families and models are the tasks' own, the states add up, and accepted is completed less what
      was not accepted, and what was judged only after it was read unfinished. */
  lemma ScorecardSound(steps: seq<Step>, first: seq<Step>, second: seq<Step>, account: Option<string>,
                       card: map<string, Entry>, key: string)
    requires IsCard(Lines(ReadsOf(steps, first, second), account), card) && key in card
    ensures var r, e := ReadsOf(steps, first, second), card[key];
            && (forall i :: 0 <= i < |r.rows| ==> r.rows[i].task in r.tasks)
            && e.completed <= e.attempts
            && e.completed + e.held + e.resolved + |StillOpen(Lines(r, account), key)| == e.attempts
    ensures var r, e := ReadsOf(steps, first, second), card[key];
            var early := AcceptedEarly(Lines(r, account), key);
            && e.accepted + |NotAccepted(Lines(r, account), key)| == e.completed + |early|
            && (forall i :: i in early ==> JudgedMeanwhile(r, i) && Outcome(r.events, i).value !in Run(Empty, steps).events)
            && (early == {} ==> e.accepted <= e.completed)
  {
    var r := ReadsOf(steps, first, second);
    ReadsOfRun(steps, first, second);
    RowsHaveOneCondition(r, account);
    StatesAddUp(Lines(r, account), key, card[key]);
    CompletedWithinAttempts(Lines(r, account), key, card[key]);
    AcceptedExactly(Lines(r, account), key, card[key]);
    EarlyExactly(r, account, key);
    forall i | i in AcceptedEarly(Lines(r, account), key)
      ensures Outcome(r.events, i).value !in Run(Empty, steps).events
    {
      JudgedMeanwhileIsLate(steps, first, second, i);
    }
  }

  /** Every row asked for that is read as accepted is read as completed exactly when none of them
      was read unfinished and is judged acceptable by the log read later. */
  lemma AcceptedIsCompletedExactly(steps: seq<Step>, first: seq<Step>, second: seq<Step>, account: Option<string>)
    ensures var r := ReadsOf(steps, first, second);
            var lines := Lines(r, account);
            (forall i :: 0 <= i < |lines| && lines[i].asked ==> (lines[i].accepted ==> lines[i].completed)) <==>
            forall i :: 0 <= i < |lines| && lines[i].asked ==> !JudgedMeanwhile(r, i)
  {
    EarlyExactly(ReadsOf(steps, first, second), account, "");
  }

  lemma NoneJudgedInOneMoment(steps: seq<Step>, i: int)
    ensures i >= 0 ==> !JudgedMeanwhile(ReadsOf(steps, [], []), i)
  {
    if i >= 0 && JudgedMeanwhile(ReadsOf(steps, [], []), i) {
      JudgedMeanwhileIsLate(steps, [], [], i);
    }
  }

  /** Read in one moment, the card never reports more accepted than completed work. */
  lemma OneMomentIsSound(steps: seq<Step>, account: Option<string>, card: map<string, Entry>, key: string)
    ensures IsCard(Lines(ReadsOf(steps, [], []), account), card) && key in card ==>
              card[key].accepted <= card[key].completed <= card[key].attempts
  {
    if IsCard(Lines(ReadsOf(steps, [], []), account), card) && key in card {
      ScorecardSound(steps, [], [], account, card, key);
      var early := AcceptedEarly(Lines(ReadsOf(steps, [], []), account), key);
      forall i ensures i !in early {
        NoneJudgedInOneMoment(steps, i);
      }
    }
  }

  /** The card of one line. */
  lemma LoneCard(line: Line) returns (key: string, card: map<string, Entry>)
    requires line.asked
    ensures key == Key(line) && card == map[key := Add(Fresh(line), line)]
    ensures IsCard([line], card)
  {
    key := Key(line);
    card := map[key := Add(Fresh(line), line)];
    FirstTallies([], line, key);
    assert [] + [line] == [line];
  }
}
