/**
 * The pure part of one experiment step: the constants of the orchestrator, the outcome of a
 * process, the stderr truncation, the reduction of `final_info.json` to its means, the texts
 * sent back to the agent, and the classification of a run or a plotting run into a
 * (return code, next prompt) report.
 */
module Reports {
  import opened Wrappers
  import opened Strings

  const MaxIters: nat := 4
  const MaxRuns: nat := 5
  const MaxStderrOutput: nat := 1500

  /** The default timeouts, in seconds, of an experiment run and of a plotting run. */
  const ExperimentTimeout: nat := 7200
  const PlottingTimeout: nat := 600

  const Ellipsis := "..."
  const MeansField := "means"
  /** The text by which the agent declares all experiments done. */
  const CompletionMarker := "ALL_COMPLETED"

  /** One metric group of `final_info.json`: field name to the field's value, kept in printed form. */
  type Group = map<string, string>
  /** A parsed `final_info.json`: metric-group names with their groups, in file order. */
  type FinalInfo = seq<(string, Group)>
  /** The reduced results: metric-group names with their printed `means` value, in file order. */
  type Means = seq<(string, string)>

  /** How a child process ended: with an exit code and its captured stderr, or killed at its timeout. */
  datatype ProcessResult = Exited(returnCode: int, stderr: string) | TimedOut

  /** What the output directory `run_N` holds when the experiment process stops. */
  datatype RunDir = Absent | Present(finalInfo: Option<FinalInfo>)

  datatype ExperimentOutcome = ExperimentOutcome(process: ProcessResult, runDir: RunDir)

  /** The exceptions a successful exit can raise while its results are read; they are not caught. */
  datatype Crash = MissingFinalInfo | MissingMeans

  /** The stderr text embedded in a failure prompt: the tail of at most MaxStderrOutput characters. */
  function Truncate(stderr: string): (r: string)
    ensures |r| <= |Ellipsis| + MaxStderrOutput
    ensures |stderr| <= MaxStderrOutput ==> r == stderr
    ensures |stderr| > MaxStderrOutput ==>
      |r| == |Ellipsis| + MaxStderrOutput && r[..|Ellipsis|] == Ellipsis && r[|Ellipsis|..] == stderr[|stderr| - MaxStderrOutput..]
  {
    if |stderr| > MaxStderrOutput then Ellipsis + stderr[|stderr| - MaxStderrOutput..] else stderr
  }

  /** Truncating the embedded text again changes nothing. */
  lemma TruncateIdempotent(stderr: string)
    ensures Truncate(Truncate(stderr)) == Truncate(stderr)
  {
  }

  /** The last characters of stderr, as many as are kept, end the embedded text. */
  lemma TruncateKeepsTail(stderr: string)
    ensures var k := if |stderr| < MaxStderrOutput then |stderr| else MaxStderrOutput;
      var r := Truncate(stderr);
      k <= |r| && r[|r| - k..] == stderr[|stderr| - k..]
  {
  }

  /** The dict comprehension `{k: v["means"] for k, v in results.items()}`; None where it raises. */
  function ReduceToMeans(info: FinalInfo): (r: Option<Means>)
    ensures r.Some? <==> forall i :: 0 <= i < |info| ==> MeansField in info[i].1
    ensures r.Some? ==> |r.value| == |info|
    ensures r.Some? ==> forall i :: 0 <= i < |info| ==>
      r.value[i].0 == info[i].0 && r.value[i].1 == info[i].1[MeansField]
  {
    if info == [] then Some([])
    else if MeansField !in info[0].1 then None
    else match ReduceToMeans(info[1..])
      case None => None
      case Some(rest) => Some([(info[0].0, info[0].1[MeansField])] + rest)
  }

  /** Python's printed form `'name': value` of one entry of the reduced results. */
  function RenderEntry(e: (string, string)): string
  {
    "'" + e.0 + "': " + e.1
  }

  function RenderEntries(m: Means): (r: string)
    ensures r == [] <==> m == []
  {
    if m == [] then ""
    else if |m| == 1 then RenderEntry(m[0])
    else RenderEntry(m[0]) + ", " + RenderEntries(m[1..])
  }

  /** Python's printed form of the reduced results dict. */
  function RenderMeans(m: Means): (r: string)
    ensures |r| >= 2 && r[0] == '{' && r[|r| - 1] == '}'
    ensures r == "{}" <==> m == []
  {
    "{" + RenderEntries(m) + "}"
  }

  /** Every group of the reduced results appears, with its means, in the printed dict. */
  lemma RenderShowsEveryGroup(m: Means, i: nat)
    requires i < |m|
    ensures Contains(RenderMeans(m), RenderEntry(m[i]))
  {
    var e := RenderEntry(m[i]);
    RenderEntriesShow(m, i);
    ContainsGrows("{", RenderEntries(m), e);
    ContainsGrows("{" + RenderEntries(m), "}", e);
  }

  lemma {:induction false} RenderEntriesShow(m: Means, i: nat)
    requires i < |m|
    ensures Contains(RenderEntries(m), RenderEntry(m[i]))
    decreases i
  {
    var e := RenderEntry(m[i]);
    if |m| == 1 {
      ContainsGrows(e, "", e);
    } else if i == 0 {
      ContainsGrows(e, ", ", e);
      ContainsGrows(e + ", ", RenderEntries(m[1..]), e);
    } else {
      RenderEntriesShow(m[1..], i - 1);
      assert m[1..][i - 1] == m[i];
      ContainsGrows(RenderEntry(m[0]) + ", ", RenderEntries(m[1..]), e);
    }
  }

  /**
   * A prompt for the agent, by the step that produced it; Text gives the exact words. The seed
   * prompt is built outside the orchestrator and is taken as given.
   */
  datatype Prompt =
    | Seed(text: string)
    | RunCompleted(runNum: nat, means: Means)
    | RunFailed(stderrOutput: string)
    | RunTimedOut(timeout: nat)
    | PlotRequest
    | PlottingFailed(stderr: string)
    | PlottingTimedOut(timeout: nat)
    | PlottingSucceeded
    | NotesRequest

  /** What a run reports to the loop: its return code and the next prompt for the agent. */
  datatype Report = Report(returnCode: int, prompt: Prompt)

  /** The only argument an experiment run is started with. */
  function OutDirArg(runNum: nat): string
  {
    "--out_dir=run_" + Decimal(runNum)
  }

  /** The command the agent is told the run after `runNum` will use. */
  function NextCommand(runNum: nat): string
  {
    "python experiment.py " + OutDirArg(runNum + 1)
  }

  function SuccessHead(runNum: nat): (r: string)
    ensures |r| > 0
  {
    "Run " + Decimal(runNum) + " completed"
  }

  const FailureHead := "Run failed with the following error "

  /** The fixed parts of the prompt sent after a successful run. */
  const ResultsLead := ". Here are the results:\n"

  const WriteupRequest: string :=
      "\n"
      + "\nDecide if you need to re-plan your experiments given the result (you often will not need to).\n\n"
      + "Someone else will be using `notes.txt` to perform a writeup on this in the future.\n"
      + "Please include *all* relevant information for the writeup on Run "

  const CommandLead: string :=
      ", including an experiment description and the run number. Be as verbose as necessary.\n\n"
      + "Then, implement the next thing on your list.\n"
      + "We will then run the command `"

  const CommandRules: string :=
      "'.\nYOUR PROPOSED CHANGE MUST USE THIS COMMAND FORMAT, DO NOT ADD ADDITIONAL COMMAND LINE ARGS.\n"
      + "If you are finished with experiments, respond with 'ALL_COMPLETED'."

  /** The parts of the prompt sent after a successful run, in order. */
  function SuccessPieces(runNum: nat, means: Means): (r: seq<string>)
    ensures |r| == 8 && r[0] == SuccessHead(runNum)
  {
    [ SuccessHead(runNum), ResultsLead, RenderMeans(means), WriteupRequest,
      Decimal(runNum), CommandLead, NextCommand(runNum), CommandRules ]
  }

  /** The words of the prompt sent after run `runNum` completed with the given means. */
  function CompletedWords(runNum: nat, means: Means): (r: string)
    ensures |SuccessHead(runNum)| <= |r|
  {
    Concat(SuccessPieces(runNum, means))
  }

  /** The request to make `plot.py` draw the figures for the write-up. */
  const PlotRequestText: string :=
      "\n"
      + "Great job! Please modify `plot.py` to generate the most relevant plots for the final writeup. \n\n"
      + "In particular, be sure to fill in the \"labels\" dictionary with the correct names for each run that you want to plot.\n\n"
      + "Only the runs in the `labels` dictionary will be plotted, so make sure to include all relevant runs.\n\n"
      + "We will be running the command `python plot.py` to generate the plots.\n"

  /** The request to describe every figure in `notes.txt`. */
  const NotesRequestText: string :=
      "\n"
      + "Please modify `notes.txt` with a description of what each plot shows along with the filename of the figure. Please do so in-depth.\n\n"
      + "Somebody else will be using `notes.txt` to write a report on this in the future.\n"

  /** The words of each prompt, as the orchestrator formats them. */
  function Text(p: Prompt): (r: string)
    ensures r == [] <==> p.PlottingSucceeded? || p == Seed([])
  {
    match p
    case Seed(text) => text
    case RunCompleted(runNum, means) => CompletedWords(runNum, means)
    case RunFailed(stderrOutput) => FailureHead + stderrOutput
    case RunTimedOut(timeout) => "Run timed out after " + Decimal(timeout) + " seconds"
    case PlotRequest => PlotRequestText
    case PlottingFailed(stderr) => "Plotting failed with the following error " + stderr
    case PlottingTimedOut(timeout) => "Plotting timed out after " + Decimal(timeout) + " seconds"
    case PlottingSucceeded => ""
    case NotesRequest => NotesRequestText
  }

  /**
   * The report of `run_experiment` for one finished or timed-out process: a timeout reports
   * code 1, a nonzero exit reports its own code with the truncated stderr, and a zero exit
   * reports the run's means, or raises when they cannot be read.
   */
  function Classify(runNum: nat, outcome: ExperimentOutcome, timeout: nat): (r: Result<Report, Crash>)
    ensures outcome.process.TimedOut? ==> r.Success? && r.value.returnCode == 1
    ensures outcome.process.Exited? && r.Success? ==> r.value.returnCode == outcome.process.returnCode
    ensures r.Failure? ==> outcome.process.Exited? && outcome.process.returnCode == 0
    ensures r.Success? ==> (r.value.returnCode == 0 <==> outcome.process.Exited? && outcome.process.returnCode == 0)
  {
    match outcome.process
    case TimedOut => Success(Report(1, RunTimedOut(timeout)))
    case Exited(code, stderr) =>
      if code != 0 then Success(Report(code, RunFailed(Truncate(stderr))))
      else match outcome.runDir
        case Absent => Failure(MissingFinalInfo)
        case Present(None) => Failure(MissingFinalInfo)
        case Present(Some(info)) =>
          match ReduceToMeans(info)
          case None => Failure(MissingMeans)
          case Some(means) => Success(Report(0, RunCompleted(runNum, means)))
  }

  /**
   * A failed run reports its own code, and its prompt is exactly the failure text followed by
   * the kept stderr, so it contains both and is of bounded size.
   */
  lemma FailureReport(runNum: nat, outcome: ExperimentOutcome, timeout: nat)
    requires outcome.process.Exited? && outcome.process.returnCode != 0
    ensures var r := Classify(runNum, outcome, timeout);
      && r.Success? && r.value.returnCode == outcome.process.returnCode
      && Text(r.value.prompt) == FailureHead + Truncate(outcome.process.stderr)
      && Contains(Text(r.value.prompt), FailureHead)
      && Contains(Text(r.value.prompt), Truncate(outcome.process.stderr))
      && |Text(r.value.prompt)| <= |FailureHead| + |Ellipsis| + MaxStderrOutput
  {
    var t := Truncate(outcome.process.stderr);
    ContainsGrows(FailureHead, t, FailureHead);
    ContainsGrows(FailureHead, t, t);
  }

  /** A timed-out run never looks at its output directory: the report is the same whatever it holds. */
  lemma TimeoutIgnoresResults(runNum: nat, p: RunDir, q: RunDir, timeout: nat)
    ensures Classify(runNum, ExperimentOutcome(TimedOut, p), timeout)
         == Classify(runNum, ExperimentOutcome(TimedOut, q), timeout)
    ensures Text(Classify(runNum, ExperimentOutcome(TimedOut, p), timeout).value.prompt)
         == "Run timed out after " + Decimal(timeout) + " seconds"
  {
  }

  /** A zero exit reports success exactly when the results file is there and every group has means. */
  lemma SuccessNeedsMeans(runNum: nat, outcome: ExperimentOutcome, timeout: nat)
    requires outcome.process.Exited? && outcome.process.returnCode == 0
    ensures Classify(runNum, outcome, timeout).Success? <==>
      && outcome.runDir.Present? && outcome.runDir.finalInfo.Some?
      && forall i :: 0 <= i < |outcome.runDir.finalInfo.value| ==> MeansField in outcome.runDir.finalInfo.value[i].1
  {
  }

  /** The words after a successful run contain its name, the printed results and the next command. */
  lemma CompletedParts(runNum: nat, means: Means)
    ensures Contains(CompletedWords(runNum, means), SuccessHead(runNum))
    ensures Contains(CompletedWords(runNum, means), RenderMeans(means))
    ensures Contains(CompletedWords(runNum, means), NextCommand(runNum))
    ensures Contains(CompletedWords(runNum, means), OutDirArg(runNum + 1))
  {
    var pieces := SuccessPieces(runNum, means);
    var p := Concat(pieces);
    ConcatShowsPiece(pieces, 0);
    ConcatShowsPiece(pieces, 2);
    ConcatShowsPiece(pieces, 6);
    ContainsGrows("python experiment.py ", OutDirArg(runNum + 1), OutDirArg(runNum + 1));
    ContainsTransitive(p, NextCommand(runNum), OutDirArg(runNum + 1));
  }

  /** A clean exit whose results carry means reports code 0 and the run's completion prompt. */
  lemma CleanExitReport(runNum: nat, info: FinalInfo, stderr: string, timeout: nat)
    requires ReduceToMeans(info).Some?
    ensures Classify(runNum, ExperimentOutcome(Exited(0, stderr), Present(Some(info))), timeout)
         == Success(Report(0, RunCompleted(runNum, ReduceToMeans(info).value)))
  {
  }

  /**
   * A clean exit whose results carry means reports code 0 with a prompt that names the run,
   * shows every group's means and pins the command of the next run.
   */
  lemma SuccessReport(runNum: nat, info: FinalInfo, stderr: string, timeout: nat)
    requires ReduceToMeans(info).Some?
    ensures var r := Classify(runNum, ExperimentOutcome(Exited(0, stderr), Present(Some(info))), timeout);
      var means := ReduceToMeans(info).value;
      var words := CompletedWords(runNum, means);
      && r.Success? && r.value.returnCode == 0
      && r.value.prompt == RunCompleted(runNum, means)
      && Contains(words, SuccessHead(runNum))
      && Contains(words, OutDirArg(runNum + 1))
      && |means| == |info|
      && forall i :: 0 <= i < |means| ==>
           && means[i] == (info[i].0, info[i].1[MeansField])
           && Contains(words, RenderEntry(means[i]))
  {
    var means := ReduceToMeans(info).value;
    var words := CompletedWords(runNum, means);
    CleanExitReport(runNum, info, stderr, timeout);
    CompletedParts(runNum, means);
    forall i | 0 <= i < |means|
      ensures Contains(words, RenderEntry(means[i]))
    {
      RenderShowsEveryGroup(means, i);
      ContainsTransitive(words, RenderMeans(means), RenderEntry(means[i]));
    }
  }

  /** The report of `run_plotting`: no extraction, no truncation, and no words on a clean exit. */
  function PlottingReport(result: ProcessResult, timeout: nat): (r: Report)
    ensures result.Exited? ==> r.returnCode == result.returnCode
    ensures result.TimedOut? ==> r.returnCode == 1
    ensures r.prompt == PlottingSucceeded <==> r.returnCode == 0
  {
    match result
    case TimedOut => Report(1, PlottingTimedOut(timeout))
    case Exited(code, stderr) =>
      if code != 0 then Report(code, PlottingFailed(stderr)) else Report(0, PlottingSucceeded)
  }

  /** A plotting prompt is empty exactly when plotting succeeded, and a failure carries all of stderr. */
  lemma PlottingText(result: ProcessResult, timeout: nat)
    ensures var r := PlottingReport(result, timeout);
      && (Text(r.prompt) == "" <==> r.returnCode == 0)
      && (result.Exited? && result.returnCode != 0 ==> Contains(Text(r.prompt), result.stderr))
  {
    match result
    case TimedOut =>
      assert Text(PlottingTimedOut(timeout))[0] == 'P';
    case Exited(code, stderr) =>
      if code != 0 {
        assert Text(PlottingFailed(stderr))[0] == 'P';
        ContainsGrows("Plotting failed with the following error ", stderr, stderr);
      }
  }
}
