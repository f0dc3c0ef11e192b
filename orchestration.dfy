/**
 * `perform_experiments`: the experiment loop over the run number and the retry counter, the
 * plotting loop, and the hand-off for the write-up.
 *
 * The agent and the child processes are oracles: `agent(i)` is the agent's reply to its i-th
 * prompt of the experiment loop, `outcomes(j)` the outcome of the j-th experiment process and
 * `plots(j)` that of the j-th plotting process. Replies during plotting and the write-up are
 * never read, so only the prompts sent there are recorded.
 */
module Orchestration {
  import opened Wrappers
  import opened Strings
  import opened Reports
  import opened Folder

  /**
   * The state of the experiment loop at the head of an iteration: the counters `run` and
   * `current_iter`, the next prompt, the prompts the agent has been given, the number of
   * processes started, the folder's names, and the exception that ended the loop, if any.
   */
  datatype LoopState = LoopState(
    run: nat,
    iter: nat,
    prompt: Prompt,
    sent: seq<Prompt>,
    dispatched: nat,
    files: set<string>,
    crash: Option<Crash>)

  function Start(seed: string, files: set<string>): LoopState
  {
    LoopState(1, 0, Seed(seed), [], 0, files, None)
  }

  /** The states the loop can be in: run at most one past its ceiling, retries within theirs. */
  predicate WellFormed(s: LoopState)
  {
    && 1 <= s.run <= MaxRuns + 1
    && s.iter <= MaxIters
    && (s.run > MaxRuns ==> s.iter < MaxIters)
  }

  datatype Step = Stop(state: LoopState) | Next(state: LoopState)

  /**
   * One pass through the body of the experiment loop. The ceilings are checked before the
   * agent is called; the completion marker stops the loop before a process is started; a
   * report of code 0 moves to the next run with the retry counter at 1, any other report
   * retries the same run with the counter one higher.
   */
  function Cycle(s: LoopState, agent: nat -> string, outcomes: nat -> ExperimentOutcome): (r: Step)
    requires s.crash.None?
    ensures s.run > MaxRuns || s.iter >= MaxIters ==> r == Stop(s)
    ensures r.Stop? ==> r.state.run == s.run && r.state.iter == s.iter && s.sent <= r.state.sent
    ensures r.Stop? && r.state.crash.None? && r.state != s ==>
      && r.state.sent == s.sent + [s.prompt]
      && Contains(agent(|s.sent|), CompletionMarker)
      && r.state.dispatched == s.dispatched && r.state.files == s.files
    ensures r.Stop? && r.state.crash.Some? ==>
      && r.state.sent == s.sent + [s.prompt]
      && r.state.dispatched == s.dispatched + 1
      && r.state.files == AfterRunFiles(s.files, s.run, outcomes(s.dispatched))
      && Classify(s.run, outcomes(s.dispatched), ExperimentTimeout) == Failure(r.state.crash.value)
    ensures r.Next? ==>
      var t := r.state;
      var rep := Classify(s.run, outcomes(s.dispatched), ExperimentTimeout);
      && s.run <= MaxRuns && s.iter < MaxIters
      && !Contains(agent(|s.sent|), CompletionMarker)
      && rep.Success? && t.prompt == rep.value.prompt && t.crash.None?
      && (rep.value.returnCode == 0 ==> t.run == s.run + 1 && t.iter == 1)
      && (rep.value.returnCode != 0 ==> t.run == s.run && t.iter == s.iter + 1)
      && t.sent == s.sent + [s.prompt] && t.dispatched == s.dispatched + 1
      && t.files == AfterRunFiles(s.files, s.run, outcomes(s.dispatched))
  {
    if !(s.run < MaxRuns + 1) || s.iter >= MaxIters then Stop(s)
    else
      var sent := s.sent + [s.prompt];
      if Contains(agent(|s.sent|), CompletionMarker) then Stop(s.(sent := sent))
      else
        var outcome := outcomes(s.dispatched);
        var files := AfterRunFiles(s.files, s.run, outcome);
        match Classify(s.run, outcome, ExperimentTimeout)
        case Failure(e) => Stop(s.(sent := sent, dispatched := s.dispatched + 1, files := files, crash := Some(e)))
        case Success(report) =>
          var (run, iter) := if report.returnCode == 0 then (s.run + 1, 0) else (s.run, s.iter);
          Next(LoopState(run, iter + 1, report.prompt, sent, s.dispatched + 1, files, None))
  }

  /** The state in which the experiment loop ends, starting from `s`. */
  function Experiments(s: LoopState, agent: nat -> string, outcomes: nat -> ExperimentOutcome): (f: LoopState)
    requires s.crash.None?
    ensures s.run <= f.run && s.sent <= f.sent && s.dispatched <= f.dispatched
    ensures |f.sent| - |s.sent| <= f.dispatched - s.dispatched + 1
    decreases MaxRuns + 1 - s.run, MaxIters - s.iter
  {
    match Cycle(s, agent, outcomes)
    case Stop(t) => t
    case Next(t) => Experiments(t, agent, outcomes)
  }

  /**
   * The loop keeps its counters within their ceilings, the run number never goes down, and
   * the prompts already sent stay as they were.
   */
  lemma {:induction false} ExperimentsBounds(s: LoopState, agent: nat -> string, outcomes: nat -> ExperimentOutcome)
    requires s.crash.None? && WellFormed(s)
    ensures var f := Experiments(s, agent, outcomes);
      && WellFormed(f)
      && s.run <= f.run
      && s.sent <= f.sent
      && s.dispatched <= f.dispatched
    decreases MaxRuns + 1 - s.run, MaxIters - s.iter
  {
    match Cycle(s, agent, outcomes)
    case Stop(t) =>
    case Next(t) => ExperimentsBounds(t, agent, outcomes);
  }

  /**
   * How many processes the loop may still start: the retries left for the current run, and
   * MaxIters - 1 for every later one, since a success leaves the retry counter at 1.
   */
  function Budget(s: LoopState): int
  {
    if s.run > MaxRuns then 0 else (MaxIters - s.iter) + (MaxRuns - s.run) * (MaxIters - 1)
  }

  /**
   * The loop starts at most Budget(s) processes and calls the agent at most Budget(s) times,
   * and at most once more than it starts processes.
   */
  lemma {:induction false} ExperimentsBudget(s: LoopState, agent: nat -> string, outcomes: nat -> ExperimentOutcome)
    requires s.crash.None? && WellFormed(s)
    ensures var f := Experiments(s, agent, outcomes);
      && f.dispatched <= s.dispatched + Budget(s)
      && |f.sent| <= |s.sent| + Budget(s)
      && |f.sent| <= |s.sent| + (f.dispatched - s.dispatched) + 1
    decreases MaxRuns + 1 - s.run, MaxIters - s.iter
  {
    match Cycle(s, agent, outcomes)
    case Stop(t) =>
    case Next(t) => ExperimentsBudget(t, agent, outcomes);
  }

  /** From the start, at most 16 experiment processes and 16 agent calls. */
  lemma AtMostSixteenRuns(seed: string, files: set<string>, agent: nat -> string, outcomes: nat -> ExperimentOutcome)
    ensures Experiments(Start(seed, files), agent, outcomes).dispatched <= 16
    ensures |Experiments(Start(seed, files), agent, outcomes).sent| <= 16
  {
    ExperimentsBudget(Start(seed, files), agent, outcomes);
  }

  /**
   * Why the loop ended: an exception, the retries of a run that is within the ceiling used up,
   * or, with retries left, the run ceiling passed or the agent's completion marker.
   */
  lemma {:induction false} ExperimentsExit(s: LoopState, agent: nat -> string, outcomes: nat -> ExperimentOutcome)
    requires s.crash.None? && WellFormed(s)
    ensures var f := Experiments(s, agent, outcomes);
      f.crash.None? ==>
        || (f.iter >= MaxIters && f.run <= MaxRuns)
        || (f.iter < MaxIters && f.run == MaxRuns + 1)
        || (f.iter < MaxIters && |f.sent| > 0 && Contains(agent(|f.sent| - 1), CompletionMarker))
    decreases MaxRuns + 1 - s.run, MaxIters - s.iter
  {
    match Cycle(s, agent, outcomes)
    case Stop(t) =>
    case Next(t) => ExperimentsExit(t, agent, outcomes);
  }

  /** A name that belongs to some run: its output directory or its copy of the script. */
  ghost predicate IsRunName(x: string)
  {
    exists k: nat :: x == RunDirName(k) || x == RunCopyName(k)
  }

  /**
   * After the loop every run below the final run number has its output directory and its
   * copy, and no name that belongs to no run has been added or removed.
   */
  lemma {:induction false} ExperimentsFiles(s: LoopState, agent: nat -> string, outcomes: nat -> ExperimentOutcome)
    requires s.crash.None? && WellFormed(s)
    requires forall k :: 1 <= k < s.run ==> RunDirName(k) in s.files && RunCopyName(k) in s.files
    ensures var f := Experiments(s, agent, outcomes);
      && (forall k :: 1 <= k < f.run ==> RunDirName(k) in f.files && RunCopyName(k) in f.files)
      && (forall x :: !IsRunName(x) ==> (x in f.files <==> x in s.files))
    decreases MaxRuns + 1 - s.run, MaxIters - s.iter
  {
    var r := Cycle(s, agent, outcomes);
    var o := outcomes(s.dispatched);
    RunFiles(s.files, s.run, o, ExperimentTimeout);
    forall k | k != s.run
      ensures RunDirName(k) in AfterRunFiles(s.files, s.run, o) <==> RunDirName(k) in s.files
      ensures RunCopyName(k) in AfterRunFiles(s.files, s.run, o) <==> RunCopyName(k) in s.files
    {
      OtherRunsUntouched(s.files, s.run, k, o);
    }
    forall x | !IsRunName(x)
      ensures x in AfterRunFiles(s.files, s.run, o) <==> x in s.files
    {
      assert x != RunDirName(s.run) && x != RunCopyName(s.run);
    }
    match r
    case Stop(t) =>
    case Next(t) =>
      ExperimentsFiles(t, agent, outcomes);
  }

  /**
   * When a run uses up its retries, its last attempt failed: its output directory is gone and
   * its copy is kept.
   */
  lemma {:induction false} ExhaustionLeavesNoRunDir(s: LoopState, agent: nat -> string, outcomes: nat -> ExperimentOutcome)
    requires s.crash.None? && WellFormed(s) && s.iter < MaxIters
    ensures var f := Experiments(s, agent, outcomes);
      f.crash.None? && f.iter >= MaxIters ==>
        f.run <= MaxRuns && RunDirName(f.run) !in f.files && RunCopyName(f.run) in f.files
    decreases MaxRuns + 1 - s.run, MaxIters - s.iter
  {
    match Cycle(s, agent, outcomes)
    case Stop(t) =>
    case Next(t) =>
      if t.iter >= MaxIters {
        RunFiles(s.files, s.run, outcomes(s.dispatched), ExperimentTimeout);
      } else {
        ExhaustionLeavesNoRunDir(t, agent, outcomes);
      }
  }

  /** Within one run the retry counter never goes down. */
  lemma {:induction false} IterGrowsWithinRun(s: LoopState, agent: nat -> string, outcomes: nat -> ExperimentOutcome)
    requires s.crash.None? && WellFormed(s)
    ensures var f := Experiments(s, agent, outcomes);
      f.run == s.run ==> f.iter >= s.iter
    decreases MaxRuns + 1 - s.run, MaxIters - s.iter
  {
    match Cycle(s, agent, outcomes)
    case Stop(t) =>
    case Next(t) =>
      ExperimentsBounds(t, agent, outcomes);
      IterGrowsWithinRun(t, agent, outcomes);
  }

  /**
   * The loop never touches the names of a run it did not dispatch: one below the starting run
   * (such as run 0), one above the run it ends at (such as a leftover from an earlier session),
   * or the run it ends at when no process was started for that run, either because the loop
   * ended where it began or because it ended just after moving on with the counter at 1.
   */
  lemma {:induction false} ExperimentsOtherRuns(s: LoopState, agent: nat -> string, outcomes: nat -> ExperimentOutcome, k: nat)
    requires s.crash.None? && WellFormed(s)
    requires var f := Experiments(s, agent, outcomes);
      || k < s.run
      || k > f.run
      || (k == f.run && f.crash.None? && f.run == s.run && f.iter == s.iter)
      || (k == f.run && f.crash.None? && f.run > s.run && f.iter == 1)
    ensures var f := Experiments(s, agent, outcomes);
      && (RunDirName(k) in f.files <==> RunDirName(k) in s.files)
      && (RunCopyName(k) in f.files <==> RunCopyName(k) in s.files)
    decreases MaxRuns + 1 - s.run, MaxIters - s.iter
  {
    var o := outcomes(s.dispatched);
    match Cycle(s, agent, outcomes)
    case Stop(t) =>
      if t.crash.Some? {
        OtherRunsUntouched(s.files, s.run, k, o);
      }
    case Next(t) =>
      ExperimentsBounds(t, agent, outcomes);
      IterGrowsWithinRun(t, agent, outcomes);
      OtherRunsUntouched(s.files, s.run, k, o);
      ExperimentsOtherRuns(t, agent, outcomes, k);
  }

  /**
   * An attempt at the current run has been made and failed: the retry counter is past the
   * value the run started with (0 for the first run, 1 after a success).
   */
  predicate Attempted(s: LoopState)
  {
    s.run <= MaxRuns && s.iter > (if s.run == 1 then 0 else 1)
  }

  /**
   * Once an attempt at the current run has failed, its output directory is gone and its copy
   * is there; this still holds of the run the loop ends at, however it ends.
   */
  lemma {:induction false} ExperimentsLastRunFiles(s: LoopState, agent: nat -> string, outcomes: nat -> ExperimentOutcome)
    requires s.crash.None? && WellFormed(s)
    requires Attempted(s) ==> RunDirName(s.run) !in s.files && RunCopyName(s.run) in s.files
    ensures var f := Experiments(s, agent, outcomes);
      f.crash.None? && Attempted(f) ==> RunDirName(f.run) !in f.files && RunCopyName(f.run) in f.files
    decreases MaxRuns + 1 - s.run, MaxIters - s.iter
  {
    match Cycle(s, agent, outcomes)
    case Stop(t) =>
    case Next(t) =>
      RunFiles(s.files, s.run, outcomes(s.dispatched), ExperimentTimeout);
      ExperimentsLastRunFiles(t, agent, outcomes);
  }

  /** A process outcome that `run_experiment` reports as a failure. */
  predicate Fails(o: ExperimentOutcome)
  {
    o.process.TimedOut? || o.process.returnCode != 0
  }

  /**
   * If the agent never declares completion and every process fails, the current run is
   * retried until its counter reaches MaxIters, one process per retry, and the loop reports
   * that not all experiments completed.
   */
  lemma {:induction false} FailuresExhaustRetries(s: LoopState, agent: nat -> string, outcomes: nat -> ExperimentOutcome)
    requires s.crash.None? && s.run <= MaxRuns && s.iter <= MaxIters
    requires forall i :: !Contains(agent(i), CompletionMarker)
    requires forall j :: Fails(outcomes(j))
    ensures var f := Experiments(s, agent, outcomes);
      && f.crash.None? && f.run == s.run && f.iter == MaxIters
      && f.dispatched == s.dispatched + (MaxIters - s.iter)
      && |f.sent| == |s.sent| + (MaxIters - s.iter)
    decreases MaxIters - s.iter
  {
    if s.iter < MaxIters {
      var o := outcomes(s.dispatched);
      assert Fails(o);
      match Cycle(s, agent, outcomes)
      case Stop(t) =>
      case Next(t) => FailuresExhaustRetries(t, agent, outcomes);
    }
  }

  /** The completion marker in the first reply ends the loop at run 1 before any process starts. */
  lemma CompletionOnFirstReply(seed: string, files: set<string>, agent: nat -> string, outcomes: nat -> ExperimentOutcome)
    requires Contains(agent(0), CompletionMarker)
    ensures Experiments(Start(seed, files), agent, outcomes)
         == LoopState(1, 0, Seed(seed), [Seed(seed)], 0, files, None)
  {
  }

  /**
   * The prompts of the plotting loop: the request to adjust `plot.py`, then the report of each
   * plotting run that failed; at most MaxIters of them, ending early only at a clean exit.
   */
  ghost predicate PlottingTranscript(plots: nat -> ProcessResult, p: seq<Prompt>)
  {
    && 1 <= |p| <= MaxIters
    && p[0] == PlotRequest
    && (forall j :: 0 <= j < |p| - 1 ==>
          PlottingReport(plots(j), PlottingTimeout).returnCode != 0
          && p[j + 1] == PlottingReport(plots(j), PlottingTimeout).prompt)
    && (|p| < MaxIters ==> PlottingReport(plots(|p| - 1), PlottingTimeout).returnCode == 0)
  }

  /** The plotting outcomes determine the plotting transcript. */
  lemma PlottingTranscriptUnique(plots: nat -> ProcessResult, p: seq<Prompt>, q: seq<Prompt>)
    requires PlottingTranscript(plots, p) && PlottingTranscript(plots, q)
    ensures p == q
  {
    assert |p| == |q|;
    forall j | 0 < j < |p|
      ensures p[j] == q[j]
    {
      var i := j - 1;
      assert p[i + 1] == PlottingReport(plots(i), PlottingTimeout).prompt == q[i + 1];
    }
  }

  /**
   * The plotting loop: ask the agent to adjust `plot.py`, run it, and stop at its first clean
   * exit or after MaxIters attempts. Returns the prompts given to the agent.
   */
  method PlottingLoop(plots: nat -> ProcessResult) returns (sent: seq<Prompt>)
    ensures PlottingTranscript(plots, sent)
  {
    var currentIter := 0;
    var nextPrompt := PlotRequest;
    sent := [];
    while true
      invariant currentIter < MaxIters && |sent| == currentIter
      invariant currentIter == 0 ==> nextPrompt == PlotRequest
      invariant currentIter > 0 ==> sent[0] == PlotRequest
      invariant currentIter > 0 ==> nextPrompt == PlottingReport(plots(currentIter - 1), PlottingTimeout).prompt
      invariant forall j :: 0 <= j < currentIter ==> PlottingReport(plots(j), PlottingTimeout).returnCode != 0
      invariant forall j :: 0 <= j < currentIter - 1 ==> sent[j + 1] == PlottingReport(plots(j), PlottingTimeout).prompt
      decreases MaxIters - currentIter
    {
      sent := sent + [nextPrompt];
      var report := PlottingReport(plots(currentIter), PlottingTimeout);
      nextPrompt := report.prompt;
      currentIter := currentIter + 1;
      if report.returnCode == 0 || currentIter >= MaxIters {
        break;
      }
    }
  }

  /**
   * `perform_experiments`: the experiment loop from the seed prompt, then, unless a run used up
   * its retries, the plotting loop and one request to write up `notes.txt`. Returns the result
   * (or the exception that escaped) and every prompt given to the agent, in order.
   */
  method PerformExperiments(folder: ExperimentFolder, seed: string, agent: nat -> string,
                            outcomes: nat -> ExperimentOutcome, plots: nat -> ProcessResult)
    returns (result: Result<bool, Crash>, sent: seq<Prompt>)
    modifies folder
    ensures var f := Experiments(Start(seed, old(folder.files)), agent, outcomes);
      && folder.files == f.files
      && (f.crash.Some? ==> result == Failure(f.crash.value) && sent == f.sent)
      && (f.crash.None? && f.iter >= MaxIters ==> result == Success(false) && sent == f.sent)
      && (f.crash.None? && f.iter < MaxIters ==>
            && result == Success(true)
            && |sent| >= |f.sent| + 2 && sent[..|f.sent|] == f.sent
            && PlottingTranscript(plots, sent[|f.sent|..|sent| - 1])
            && sent[|sent| - 1] == NotesRequest)
  {
    ghost var start := Start(seed, folder.files);
    var currentIter: nat := 0;
    var run: nat := 1;
    var nextPrompt := Seed(seed);
    var dispatched: nat := 0;
    sent := [];
    while run < MaxRuns + 1
      invariant WellFormed(LoopState(run, currentIter, nextPrompt, sent, dispatched, folder.files, None))
      invariant Experiments(LoopState(run, currentIter, nextPrompt, sent, dispatched, folder.files, None), agent, outcomes)
             == Experiments(start, agent, outcomes)
      decreases MaxRuns + 1 - run, MaxIters - currentIter
    {
      ghost var s := LoopState(run, currentIter, nextPrompt, sent, dispatched, folder.files, None);
      if currentIter >= MaxIters {
        break;
      }
      var reply := agent(|sent|);
      sent := sent + [nextPrompt];
      if Contains(reply, CompletionMarker) {
        break;
      }
      var report := folder.RunExperiment(run, outcomes(dispatched), ExperimentTimeout);
      dispatched := dispatched + 1;
      if report.Failure? {
        result := Failure(report.error);
        return;
      }
      nextPrompt := report.value.prompt;
      if report.value.returnCode == 0 {
        run := run + 1;
        currentIter := 0;
      }
      currentIter := currentIter + 1;
      assert Cycle(s, agent, outcomes) == Next(LoopState(run, currentIter, nextPrompt, sent, dispatched, folder.files, None));
    }
    assert LoopState(run, currentIter, nextPrompt, sent, dispatched, folder.files, None) == Experiments(start, agent, outcomes);
    if currentIter >= MaxIters {
      result := Success(false);
      return;
    }
    var plotting := PlottingLoop(plots);
    ghost var experiments := sent;
    sent := sent + plotting + [NotesRequest];
    assert sent[..|experiments|] == experiments;
    assert sent[|experiments|..|sent| - 1] == plotting;
    result := Success(true);
  }
}
