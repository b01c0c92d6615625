/** A run of the ledger whose scorecard, read in three moments, says more than there is: one
    attempt is dispatching when the rows are read, and finished and judged before the log is. */
module ScorecardRun {
  import opened Wrappers
  import opened LedgerSpec
  import opened Scorecard
  import Receipts
  import Text

  const Digest: string := seq(64, _ => '0')

  const Account0 := Reading("a", 1, map["w" := 10.0], 100.0, ["m"], [], None)

  const Work := Spec(true, "m", "f", ["x"], "/w", 1, 100, [], map[], map[], "", Digest, 1, false)

  const Report := Receipts.Receipt("completed", "stop", "m", Digest, Some([Some(Receipts.Artifact("o", Digest))]))

  const Configuring := DoConfigure(Account0, 1.0)
  const Submitting := DoSubmit("t", "p", Work, Digest)
  const Claiming := DoClaim("t", "a", map["w" := 1.0], 2.0)
  const Starting := DoStart(0, 1, 3.0)
  const Finishing := DoFinish(0, 1, Report, 4.0)
  const Judging := DoOutcome(0, "fix", true, 0, 5.0)

  // ----- The states of the run -----------------------------------------------------------

  const Configured := State(
    map["a" := Account(1, 0, map["w" := 10.0], 100.0, ["m"])],
    map["a" := Observation(1.0, Snapshot(1, map["w" := 10.0], 100.0, ["m"]))],
    map["a" := "a"], map[], map[], [],
    [QuotaObserved("a", 1.0, Snapshot(1, map["w" := 10.0], 100.0, ["m"]), 1.0)])

  const Submitted := Configured.(tasks := map["t" := Task("p", Work)])

  const Row := Attempt("t", "a", 1, Queued, map["w" := 1.0], "/w", None, None, 2.0)

  const Claimed := Submitted.(
    accounts := map["a" := Account(1, 1, map["w" := 10.0], 100.0, ["m"])],
    attempts := [Row], events := Configured.events + [Admitted(0, 1, 2.0)])

  const Started := Claimed.(
    attempts := [Row.(state := Dispatching, updated := 3.0)], events := Claimed.events + [DispatchIntent(0, 3.0)])

  const Finished := Started.(
    accounts := map["a" := Account(1, 1, map["w" := 9.0], 100.0, ["m"])],
    attempts := [Row.(state := Completed, proof := Some(NativeReceipt(Report)), updated := 4.0)],
    events := Started.events + [NativeCompleted(0, NativeReceipt(Report), 4.0)])

  const Judged := Finished.(events := Finished.events + [OutcomeRecorded(0, "fix", true, 0, 5.0)])

  lemma NamesBound()
    ensures BindAliases(map[], ["a"] + [], "a") == Some(map["a" := "a"])
  {
    assert ["a"] + [] == ["a"] && ["a"][1..] == [];
  }

  lemma ConfiguringStep()
    ensures Apply(Empty, Configuring) == Configured
  {
    NamesBound();
    var none: seq<Attempt> := [];
    assert FinishedAfter(none, "a", 1.0) == {};
    assert ObservedWindows(Account0.windows, none, {}) == Account0.windows;
    assert "w" in Account0.windows && |Account0.models| == 1;
    assert ReadingRefusal(Account0, 1.0).None?;
    assert ConfigureRefusal(Empty, Account0, 1.0).None?;
    assert ObservedAccount(Empty, Account0, 1.0) == Account(1, 0, map["w" := 10.0], 100.0, ["m"]);
  }

  lemma SubmittingStep()
    ensures Apply(Configured, Submitting) == Submitted
  {
    assert SubmitFieldRefusal("t", "p", Work, Digest).None? by {
      assert Work.argv[0] == "x" && |"packet-loop:"| > |"x"|;
    }
  }

  lemma ClaimAllowed()
    ensures ClaimRefusal(Submitted, "t", "a", map["w" := 1.0], 2.0).None?
  {
    var none: seq<Attempt> := [];
    var estimate: Quota := map["w" := 1.0];
    assert Submitted.attempts == none && ActiveOn(none, "a") == {};
    assert "w" in estimate && PositiveEstimate(estimate);
    assert estimate.Keys == {"w"} == Submitted.accounts["a"].windows.Keys;
    assert !Exceeds(none, {}, estimate, Submitted.accounts["a"].windows);
    assert "m" in ["m"];
  }

  lemma ClaimingStep()
    ensures Apply(Submitted, Claiming) == Claimed
  {
    ClaimAllowed();
    assert [] + [Row] == [Row];
  }

  lemma StartingStep()
    ensures Apply(Claimed, Starting) == Started
  {
    var ids := ActiveOn([Row], "a");
    assert ids == {0};
    assert [Row][..0] == [];
    assert SumOf([Row], {0}, "w") == 1.0;
    assert StillAdmissible(Claimed, 0, 3.0);
  }

  lemma ReportIsFaultless()
    ensures Receipts.Faults(Report, "m", Digest) == []
  {
    assert "o"[1..] == "" && ['o'] + "" == "o";
    assert Receipts.Parts("") == [""] && [""][1..] == [];
    assert Receipts.Parts("o") == [['o'] + ""] + [];
    assert Receipts.Parts("o") == ["o"];
    assert Receipts.SafePath("o");
    Receipts.FaultFreeIsAcceptable(Report, "m", Digest);
  }

  lemma FinishAllowed()
    ensures FinishRefusal(Started, 0, 1, Report).None?
  {
    ReportIsFaultless();
  }

  lemma TheDebit()
    ensures Debit(map["w" := 10.0], Started.attempts[0]) == map["w" := 9.0]
  {
  }

  lemma FinishingStep()
    ensures Apply(Started, Finishing) == Finished
  {
    FinishAllowed();
    TheDebit();
  }

  lemma JudgingStep()
    ensures Apply(Finished, Judging) == Judged
  {
    assert "fix"[0] == 'f' && !Text.Blank("fix");
  }

  lemma RunFour(a: Step, b: Step, c: Step, d: Step)
    ensures Run(Empty, [a, b, c, d]) == Apply(Apply(Apply(Apply(Empty, a), b), c), d)
  {
    assert [a, b, c, d][..3] == [a, b, c] && [a, b, c][..2] == [a, b] && [a, b][..1] == [a] && [a][..0] == [];
    assert Run(Empty, [a]) == Apply(Empty, a);
    assert Run(Empty, [a, b]) == Apply(Apply(Empty, a), b);
    assert Run(Empty, [a, b, c]) == Apply(Apply(Apply(Empty, a), b), c);
  }

  lemma RunTwo(s: State, a: Step, b: Step)
    ensures Run(s, [a, b]) == Apply(Apply(s, a), b)
  {
    assert [a, b][..1] == [a] && [a][..0] == [];
    assert Run(s, [a]) == Apply(s, a);
  }

  /** What is done before the rows and the tasks are read, and between that and the log. */
  const Before := [Configuring, Submitting, Claiming, Starting]
  const Meanwhile := [Finishing, Judging]

  lemma RunBefore()
    ensures Run(Empty, Before) == Started
  {
    ConfiguringStep();
    SubmittingStep();
    ClaimingStep();
    StartingStep();
    RunFour(Configuring, Submitting, Claiming, Starting);
  }

  lemma RunMeanwhile()
    ensures Run(Started, Meanwhile) == Judged
  {
    FinishingStep();
    JudgingStep();
    RunTwo(Started, Finishing, Judging);
  }

  lemma TheReads(r: Reads)
    requires r == ReadsOf(Before, [], Meanwhile)
    ensures r == Reads(Started.attempts, Started.tasks, Judged.events)
  {
    RunBefore();
    RunMeanwhile();
  }

  lemma TheOutcome()
    ensures Outcome(Judged.events, 0) == Some(OutcomeRecorded(0, "fix", true, 0, 5.0))
  {
    var e := OutcomeRecorded(0, "fix", true, 0, 5.0);
    assert Judged.events == Finished.events + [e];
    assert e in Judged.events && Concerns(e, 0);
    assert forall x :: x in Finished.events ==> !Concerns(x, 0);
  }

  /** The one row was read dispatching, and is judged by the log. */
  lemma TheRow(r: Reads)
    requires r == ReadsOf(Before, [], Meanwhile)
    ensures |r.rows| == 1 && r.rows[0].state.Dispatching? && JudgedMeanwhile(r, 0)
  {
    TheReads(r);
    TheOutcome();
  }

  lemma CardOfOne(r: Reads) returns (card: map<string, Entry>, key: string)
    requires |r.rows| == 1 && JudgedMeanwhile(r, 0)
    ensures IsCard(Lines(r, None), card)
    ensures card.Keys == {key} && card[key].attempts == card[key].accepted == 1 && card[key].completed == 0
  {
    var line := Lines(r, None)[0];
    assert Lines(r, None) == [line];
    key, card := LoneCard(line);
  }

  /** The account is configured, a task submitted, claimed and started; the rows and the tasks are
      read; the attempt is finished and its outcome accepted; the log is read. The one entry of the
      card counts one accepted and no completed attempt. */
  lemma MeanwhileIsUnsound() returns (card: map<string, Entry>, key: string)
    ensures IsCard(Lines(ReadsOf(Before, [], Meanwhile), None), card)
    ensures card.Keys == {key} && card[key].attempts == card[key].accepted == 1 && card[key].completed == 0
  {
    var r := ReadsOf(Before, [], Meanwhile);
    TheRow(r);
    card, key := CardOfOne(r);
  }
}
