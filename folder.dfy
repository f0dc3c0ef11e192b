/**
 * The experiment folder as the set of names in it, and `run_experiment`, which keeps a
 * provenance copy `run_N.py` of the experiment script, lets the process fill `run_N`, and
 * removes `run_N` again when the run failed or timed out.
 */
module Folder {
  import opened Wrappers
  import opened Strings
  import opened Reports

  /** The output directory of run `n`. */
  function RunDirName(n: nat): string
  {
    "run_" + Decimal(n)
  }

  /** The copy of `experiment.py` taken just before run `n` starts. */
  function RunCopyName(n: nat): string
  {
    "run_" + Decimal(n) + ".py"
  }

  /** Distinct runs use distinct names, and no output directory is named like a copy. */
  lemma RunNamesDistinct(m: nat, n: nat)
    ensures RunDirName(m) != RunCopyName(n)
    ensures RunDirName(m) == RunDirName(n) ==> m == n
    ensures RunCopyName(m) == RunCopyName(n) ==> m == n
  {
    var dm, dn := Decimal(m), Decimal(n);
    assert RunDirName(m)[|RunDirName(m)| - 1] == dm[|dm| - 1];
    assert RunCopyName(n)[|RunCopyName(n)| - 1] == 'y';
    if RunDirName(m) == RunDirName(n) {
      assert dm == RunDirName(m)[4..] == RunDirName(n)[4..] == dn;
      DecimalInjective(m, n);
    }
    if RunCopyName(m) == RunCopyName(n) {
      assert |dm| == |dn|;
      assert dm == RunCopyName(m)[4..4 + |dm|] == RunCopyName(n)[4..4 + |dn|] == dn;
      DecimalInjective(m, n);
    }
  }

  /** The folder's names after run `n` with the given outcome (the specification of RunExperiment). */
  function AfterRunFiles(files: set<string>, n: nat, outcome: ExperimentOutcome): (r: set<string>)
    ensures RunCopyName(n) in r
    ensures RunDirName(n) in r <==>
      outcome.runDir.Present? && outcome.process.Exited? && outcome.process.returnCode == 0
    ensures r - {RunDirName(n), RunCopyName(n)} == files - {RunDirName(n), RunCopyName(n)}
  {
    RunNamesDistinct(n, n);
    var copied := files + {RunCopyName(n)};
    var ran := if outcome.runDir.Present? then copied + {RunDirName(n)} else copied - {RunDirName(n)};
    if outcome.process.Exited? && outcome.process.returnCode == 0 then ran else ran - {RunDirName(n)}
  }

  /**
   * A run leaves its copy `run_N.py` in place, touches no name other than `run_N` and
   * `run_N.py`, and, when it reports, leaves `run_N` exactly when it reports code 0.
   */
  lemma RunFiles(files: set<string>, n: nat, outcome: ExperimentOutcome, timeout: nat)
    ensures RunCopyName(n) in AfterRunFiles(files, n, outcome)
    ensures forall x :: x != RunDirName(n) && x != RunCopyName(n) ==>
      (x in AfterRunFiles(files, n, outcome) <==> x in files)
    ensures var r := Classify(n, outcome, timeout);
      r.Success? ==> (RunDirName(n) in AfterRunFiles(files, n, outcome) <==> r.value.returnCode == 0)
    ensures outcome.process.TimedOut? || outcome.process.returnCode != 0 ==>
      RunDirName(n) !in AfterRunFiles(files, n, outcome)
  {
  }

  /** A run of number `n` never touches the names of another run `k`. */
  lemma OtherRunsUntouched(files: set<string>, n: nat, k: nat, outcome: ExperimentOutcome)
    requires k != n
    ensures RunDirName(k) in AfterRunFiles(files, n, outcome) <==> RunDirName(k) in files
    ensures RunCopyName(k) in AfterRunFiles(files, n, outcome) <==> RunCopyName(k) in files
  {
    RunNamesDistinct(k, n);
    RunNamesDistinct(n, k);
  }

  /** The experiment folder, whose contents the runs change. */
  class ExperimentFolder {
    var files: set<string>

    constructor (files: set<string>)
      ensures this.files == files
    {
      this.files := files;
    }

    /**
     * `run_experiment(folder_name, run_num, timeout)`: the process itself is the given outcome.
     * Returns the run's report, or the exception a clean exit without readable means raises.
     */
    method RunExperiment(runNum: nat, outcome: ExperimentOutcome, timeout: nat) returns (r: Result<Report, Crash>)
      modifies this
      ensures r == Classify(runNum, outcome, timeout)
      ensures files == AfterRunFiles(old(files), runNum, outcome)
    {
      files := files + {RunCopyName(runNum)};
      var runDir := RunDirName(runNum);
      // What the process leaves in `run_N` when it stops.
      if outcome.runDir.Present? {
        files := files + {runDir};
      } else {
        files := files - {runDir};
      }
      match outcome.process
      case TimedOut =>
        if runDir in files {
          files := files - {runDir};
        }
        r := Success(Report(1, RunTimedOut(timeout)));
      case Exited(returnCode, stderr) =>
        if returnCode != 0 {
          if runDir in files {
            files := files - {runDir};
          }
          var stderrOutput := Truncate(stderr);
          r := Success(Report(returnCode, RunFailed(stderrOutput)));
        } else if outcome.runDir.Absent? || outcome.runDir.finalInfo.None? {
          r := Failure(MissingFinalInfo);
        } else {
          var results := ReduceToMeans(outcome.runDir.finalInfo.value);
          if results.None? {
            r := Failure(MissingMeans);
          } else {
            r := Success(Report(0, RunCompleted(runNum, results.value)));
          }
        }
    }
  }
}
