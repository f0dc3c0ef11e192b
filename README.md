# Experiment orchestration of the AI-Scientist demo, modelled in Dafny

This project models `demo_code/perform_experiments.py`, the control logic that lets a code-writing
agent run a series of numbered experiments. In each cycle the orchestrator sends the agent a prompt.
Unless the agent answers `ALL_COMPLETED`, it starts `python experiment.py --out_dir=run_N` and sorts
the outcome into one of three cases: exit code 0, a nonzero exit, or a timeout. It then removes
`run_N` after a failure or a timeout, keeps a copy `run_N.py` of the script in every case, and
writes the next prompt. Two counters drive the loop: the run number `run` (ceiling `MAX_RUNS = 5`)
and the retry counter `current_iter` (ceiling `MAX_ITERS = 4`). If a run uses up its retries,
`perform_experiments` returns false. Otherwise a second loop asks the agent to fix `plot.py` until
it runs cleanly, at most `MAX_ITERS` times. After that comes one request to write up `notes.txt`,
and the result is true.

Files:
- `wrappers.dfy`: `Option` and `Result`.
- `strings.dfy`: Python's substring test `in` (`Contains`) with a reference definition, and the
  decimal form of numbers with its inverse.
- `reports.dfy`: the constants, process outcomes, the stderr truncation, the reduction of
  `final_info.json` to its `means`, and the prompts. A `Prompt` datatype says which step produced
  a prompt, and `Text` gives its exact words. This file also holds the report logic of
  `run_experiment` (`Classify`) and of `run_plotting` (`PlottingReport`).
- `folder.dfy`: the experiment folder as a set of names, and `ExperimentFolder.RunExperiment`, the
  step that changes it.
- `orchestration.dfy`: the experiment loop. `Cycle` is one pass of the loop body and `Experiments`
  runs the whole loop. This file also holds the lemmas about the loop, the plotting loop and
  `PerformExperiments`.

The agent and the child processes are oracles passed as functions:
- `agent(i)` is the reply to the i-th prompt of the experiment loop;
- `outcomes(j)` is the j-th experiment process: how it ended, and what `run_N` holds when it stops;
- `plots(j)` is the j-th plotting process.

The methods return every prompt given to the agent, in order.

Three behaviours of the code are easy to misread, and the model follows the code in each:
- After a successful run the retry counter is 1, not 0. The comment at line 166 says the count
  is reset, but the code sets it to 0 and then always adds 1 (lines 164-167). So run 1 gets
  `MAX_ITERS` attempts and every later run gets `MAX_ITERS - 1`. `ExperimentsBudget` and
  `AtMostSixteenRuns` state what follows: at most 16 processes and 16 agent calls in the
  experiment loop. Plotting adds at most `MAX_ITERS` processes and agent calls, and the notes
  request one more agent call.
- Exit code 0 with no `run_N/final_info.json`, or with a group that has no `means` field, is not
  treated as a failed attempt. It raises an exception out of `perform_experiments` (lines 65-69).
  The model returns `Failure(MissingFinalInfo)` or `Failure(MissingMeans)` and stops.
- The run number ends at `MAX_RUNS + 1` when every run succeeded. It does not stay at or below
  `MAX_RUNS`.

## Model

| member | source | states |
|---|---|---|
| `Reports.Truncate` | demo_code/perform_experiments.py:54-58 | stderr up to 1500 characters is kept verbatim; longer stderr becomes "..." followed by its last 1500 characters; never more than 1503 characters |
| `Reports.TruncateIdempotent` | demo_code/perform_experiments.py:57-58 | truncating the embedded text a second time changes nothing |
| `Reports.TruncateKeepsTail` | demo_code/perform_experiments.py:57-58 | the last min(len, 1500) characters of stderr end the embedded text |
| `Reports.ReduceToMeans` | demo_code/perform_experiments.py:69 | the reduction succeeds exactly when every group has a `means` field; then it has the same groups in the same order, each mapped to its `means` value, with the other fields dropped |
| `Reports.RenderMeans` | demo_code/perform_experiments.py:73 | the printed form of the reduced results is the entries between braces, and it is `{}` exactly when there are no groups |
| `Reports.RenderShowsEveryGroup` | demo_code/perform_experiments.py:73 | the printed results dict shows every group with its means |
| `Reports.Text` | demo_code/perform_experiments.py:61-199 | the words of every prompt, as lines 61, 72-83, 95, 126, 128, 134, 176-184 and 195-199 format them; the only prompts with no words are the one after a successful plot (line 128) and an empty seed |
| `Reports.CompletedWords` | demo_code/perform_experiments.py:72-83 | the prompt after a completed run is its pieces in order, and it is at least as long as its opening `Run N completed` |
| `Reports.CompletedParts` | demo_code/perform_experiments.py:72-83 | the prompt after a completed run contains "Run N completed", the printed results dict and the pinned command `python experiment.py --out_dir=run_{N+1}` |
| `Reports.Classify` | demo_code/perform_experiments.py:45-96 | a timeout reports code 1; an exit reports its own code; only a zero exit can raise; a report has code 0 exactly when the process exited 0 |
| `Reports.FailureReport` | demo_code/perform_experiments.py:46-61 | a nonzero exit passes its code through; the prompt is exactly "Run failed with the following error " followed by the truncated stderr, so it contains both and is at most 36 + 1503 characters |
| `Reports.TimeoutIgnoresResults` | demo_code/perform_experiments.py:87-96 | a timeout's report does not depend on anything in `run_N`, so results are never read; its text is "Run timed out after {timeout} seconds" |
| `Reports.SuccessNeedsMeans` | demo_code/perform_experiments.py:63-69 | after a zero exit the run reports, rather than raises, exactly when `final_info.json` exists and every group has `means` |
| `Reports.SuccessReport` | demo_code/perform_experiments.py:63-85 | a zero exit with readable means reports code 0 and the completion prompt, whose words name the run, pin `--out_dir=run_{N+1}` and show every group of the results file, in file order, with its `means` value |
| `Reports.PlottingReport` | demo_code/perform_experiments.py:100-135 | the plotting report passes an exit code through and gives 1 for a timeout; its prompt is the empty one exactly when the code is 0 |
| `Reports.PlottingText` | demo_code/perform_experiments.py:124-128 | a plotting prompt is the empty string exactly when the code is 0, and a failed plot's prompt carries the whole untruncated stderr |
| `Folder.RunDirName` | demo_code/perform_experiments.py:28 | the output directory of run N is `run_` followed by N in decimal, the name passed as `--out_dir` and deleted after a failure |
| `Folder.RunCopyName` | demo_code/perform_experiments.py:19-22 | the copy of `experiment.py` taken before run N is `run_` followed by N in decimal and `.py` |
| `Folder.RunNamesDistinct` | demo_code/perform_experiments.py:19-29 | `run_N` and `run_M.py` never coincide, and different run numbers give different names |
| `Folder.AfterRunFiles` | demo_code/perform_experiments.py:19-96 | the folder after run N: `run_N.py` is there; `run_N` is there exactly when the process left it and exited 0; every other name is as before |
| `Folder.RunFiles` | demo_code/perform_experiments.py:19-96 | a run always leaves `run_N.py` and touches no other name than `run_N` and `run_N.py`; a failure or timeout leaves no `run_N`; a reported run leaves `run_N` exactly when it reports code 0 |
| `Folder.OtherRunsUntouched` | demo_code/perform_experiments.py:19-22 | run N never adds or removes another run's directory or copy |
| `Folder.ExperimentFolder.RunExperiment` | demo_code/perform_experiments.py:15-96 | returns the report or exception given by `Classify`, and leaves the folder as `AfterRunFiles` of the old folder |
| `Orchestration.Start` | demo_code/perform_experiments.py:140-147 | the loop starts at run 1 with retry counter 0, the seed prompt as the next prompt, nothing sent, no process started and no exception |
| `Orchestration.Cycle` | demo_code/perform_experiments.py:150-167 | the ceilings are checked before the agent is called; the marker stops before any process starts; code 0 gives run + 1 and retry counter 1; another code keeps the run and adds 1 to the counter; one prompt and one process per pass |
| `Orchestration.Experiments` | demo_code/perform_experiments.py:150-167 | the state in which the loop ends, reached by repeating one pass from the given state; the run number, the prompts sent and the processes started only grow, and there is at most one more prompt than processes |
| `Orchestration.ExperimentsBounds` | demo_code/perform_experiments.py:150-167 | the loop keeps 1 <= run <= MAX_RUNS + 1 and current_iter <= MAX_ITERS; run never decreases; prompts already sent are kept |
| `Orchestration.ExperimentsBudget` | demo_code/perform_experiments.py:150-167 | the loop starts at most the remaining retries of this run plus MAX_ITERS - 1 for each later run, calls the agent no more often than that, and at most once more than it starts processes |
| `Orchestration.AtMostSixteenRuns` | demo_code/perform_experiments.py:138-167 | from the start, the experiment loop starts at most 16 processes and calls the agent at most 16 times (plotting and the notes request come after it) |
| `Orchestration.ExperimentsExit` | demo_code/perform_experiments.py:150-159 | the loop ends by an exception, by retries used up at a run within the ceiling, or, with retries left, by passing the run ceiling or by the completion marker |
| `Orchestration.ExperimentsFiles` | demo_code/perform_experiments.py:150-167 | every run below the final run number keeps `run_k` and `run_k.py`; names that belong to no run are never added or removed |
| `Orchestration.IterGrowsWithinRun` | demo_code/perform_experiments.py:164-167 | while the run number stays the same, the retry counter only grows |
| `Orchestration.ExperimentsOtherRuns` | demo_code/perform_experiments.py:150-167 | the loop never adds or removes `run_k` or `run_k.py` for a run it started no process for: one below the starting run (such as run 0), one above the run it ends at, or the run it ends at when the loop stopped there before starting a process for it (for example run 6 after five successes, or run N+1 when `ALL_COMPLETED` follows the success of run N) |
| `Orchestration.ExperimentsLastRunFiles` | demo_code/perform_experiments.py:150-167 | once an attempt at the run the loop ends at has failed, that run's `run_N` is gone and its `run_N.py` is there, whether the loop ended by exhaustion or by `ALL_COMPLETED` |
| `Orchestration.ExhaustionLeavesNoRunDir` | demo_code/perform_experiments.py:150-172 | when the retries run out, the run is within MAX_RUNS, its `run_N` is gone and its `run_N.py` is kept |
| `Orchestration.FailuresExhaustRetries` | demo_code/perform_experiments.py:150-172 | when every process fails and the agent never answers `ALL_COMPLETED`, the run stays the same and the counter reaches MAX_ITERS, after exactly MAX_ITERS - current_iter processes |
| `Orchestration.CompletionOnFirstReply` | demo_code/perform_experiments.py:154-159 | `ALL_COMPLETED` in the first reply ends the loop at run 1 with one prompt sent and no process started |
| `Orchestration.PlottingTranscript` | demo_code/perform_experiments.py:186-192 | the reference definition of the prompts of the plotting loop: the plot request first, then each failed plot's report, between 1 and MAX_ITERS prompts, ending at the first zero code or after MAX_ITERS plots |
| `Orchestration.PlottingTranscriptUnique` | demo_code/perform_experiments.py:186-192 | the plotting outcomes determine the plotting prompts uniquely |
| `Orchestration.PlottingLoop` | demo_code/perform_experiments.py:175-192 | the agent is called between 1 and MAX_ITERS times: first with the plot request, then with each failed plot's report; the loop stops early only at a zero code |
| `Orchestration.PerformExperiments` | demo_code/perform_experiments.py:138-203 | the folder and prompts are those of the loop specification; an escaped exception is returned as such; the result is false exactly when the retries ran out, and then plotting and notes are skipped; otherwise the plotting prompts and the notes request follow, and the result is true whatever the plotting did |
| `Strings.Contains` | demo_code/perform_experiments.py:158 | Python's `in` on strings, by scanning: the part is a prefix of the text or occurs in the text after its first character |
| `Strings.ContainsIffOccurs` | demo_code/perform_experiments.py:158 | the substring test holds exactly when the marker occurs at some index of the reply |
| `Strings.Decimal` | demo_code/perform_experiments.py:72 | a number is printed as a non-empty string of digits with no leading zero |

## Left out

- Starting the child process, the wall-clock timeout, capturing its stderr, and every `print`
  (lines 33-43, 47, 53, 89, 111-121, 125, 133, 152, 155, 171). Each process is an outcome given as input:
  an exit code with stderr, or a timeout, plus the state of `run_N` when it stops.
- The OpenAI client `coder`. In the experiment loop its replies are an oracle indexed by call,
  and only the `ALL_COMPLETED` test is made on them. The replies to the plotting and notes
  requests are never read, so they are not modelled. The edits the agent makes to
  `experiment.py`, `plot.py` and `notes.txt` are not modelled either.
- Side effects of the processes and of the agent on the folder. The experiment process is
  assumed to change no name in the folder except `run_N`, and the agent is assumed to change no
  name at all. A `python experiment.py` written by the agent could create other files in the
  folder; the clause of `Orchestration.ExperimentsFiles` that names belonging to no run are never
  added or removed holds only under this assumption.
- `coder_prompt` and the `prompt` module are not part of this model. The first prompt is an
  opaque `Seed` text.
- JSON parsing and file contents. `final_info.json` arrives already parsed, as its groups in file
  order. Field values are kept in printed form. Python's escaping of quotes inside keys and
  duplicate keys in the file are not modelled. The folder is a set of names: the contents of
  `run_N.py` (a copy of `experiment.py`) and of `run_N` are not tracked.
- Exceptions other than a missing `final_info.json` and a missing `means` field: a missing
  `experiment.py` at the copy, filesystem errors in the copy or the delete, and malformed JSON.
- `demo_code/template_data/grokking/plot.py`: figure drawing and file reads. Its only logic is
  filtering `labels` by existing `run_` directories.
- Orchestration.PerformExperiments: the figures `<group>.png` that the plotting process writes
  into the folder (plot.py line 38) are not added to the folder's names. The plotting process is
  modelled only by its exit code and stderr, so the contract says the folder is as the
  experiment loop left it.
- Timeouts are whole seconds (`nat`), the defaults being 7200 and 600. A fractional timeout would
  print differently.
- Reports.PlottingText: a plotting failure's prompt carries stderr untruncated, as the code does
  (line 126); no length bound is stated for it.
