# x8 Runner: a verified model of its decision logic

x8 finds hidden HTTP parameters. It sends requests that carry many candidate
parameters at once and watches how the responses change. The `Runner`
(`src/runner/runner.rs`) drives one target. Its work has these steps:

- **Construction.** It sends a first request with one random parameter. It
  merges the parameter names that response suggests into the caller's
  candidate list. It clamps the batch size (`max`, and the sign-encoded
  `default_max`) to the list length. It keeps a durable copy of the response
  as the baseline.
- **Stability check.** It learns the baseline noise. It refuses to go on when
  only reflections count and reflections are unstable. When `default_max` is
  the sentinel `-128`, it runs a two-rung ladder that may grow `max` by 64 or
  128.
- **`run`.** It runs the main discovery. It then sweeps the configured custom
  parameters (`debug=true`, `admin=1`, …). It drops `key=value` findings
  whose bare key was found. It optionally re-verifies the findings and
  replays them.

The model keeps all of the runner's decisions. Every network exchange, and
every collaborator whose body lives elsewhere, becomes an input the caller
chooses. Those collaborators are `empty_reqs`, `Response::compare`, `count`,
`get_possible_parameters`, `check_parameters`, `verify` and `replay`.

Files and modules:

| file | module | contents |
|---|---|---|
| `wrappers.dfy` | `Wrappers` | `Option`, `Result` |
| `seqs.dfy` | `Seqs` | `Last`, `DropLast`, `Flatten` and their lemmas |
| `structs.dfy` | `Structs` | `Config`, `Stable`, `FoundParameter`, `Response`, `Comparison`, `Discovery`; the caller's mutable `ParamList` and `RequestDefaults` |
| `candidates.dfy` | `Candidates` | merging inferred names into the caller's list (`Merge`, `MergePossibleParameters`) |
| `batching.dfy` | `Batching` | the size clamp of construction and the ladder of `try_to_increase_max` |
| `sweep.dfy` | `Sweep` | `check_non_random_parameters`: one round as a step function, the loop as a method, and the corrected sweep |
| `postprocess.dfy` | `PostProcess` | the dedup filter, the verify fallback and the warnings of `run` |
| `runner.dfy` | `Runners` | the `Runner` class (`New`, `StabilityChecker`, `TryToIncreaseMax`, `Run`) and the spec functions `Stabilize` and `RunFrom` |

The model has two styles. Where the source updates state step by step, the
model is imperative:
- `Runners.Runner` is a class whose methods update its fields;
- the caller's list and request template are objects that `New` modifies;
- the pop loop and the sweep loop are `while` loops.

Each such method is proved equal to a specification function, and the
properties are lemmas about that function:

| method | specification function |
|---|---|
| `MergePossibleParameters` | `Merge` |
| `PopEach` | `Round` |
| `CheckNonRandomParameters` | `SweepRun` |
| `TryToIncreaseMax` | `Ladder` |
| `StabilityChecker` | `Stabilize` |
| `Report` | `Finish` |
| `Run` | `RunFrom` |

Rust's `HashMap` has no iteration order. The custom parameters are therefore
a sequence of `(name, values)` pairs, and the model proves its facts for
every order.

`contains_key` on the found parameters comes from a trait in the structs
module, which is not part of this model. It is taken to mean that some found
parameter's `name` equals the key.

Where the code departs from what its own comments or the natural reading
promise, the model follows the code:
- The sweep's comment says it checks common values "until there's no values
  left" (`src/runner/runner.rs:157-158`). The code's `pop` takes the **last**
  value of each list first (`Sweep.DebugAdminFirstRound`), and the loop never
  ends once any value exists (see Findings).
- The stability checker's comment speaks of using "192 or 256 params in a
  single request" (`src/runner/runner.rs:193`). The ladder adds 64 or 128 to
  `max` with no cap against the candidate count
  (`Batching.LadderIgnoresListLength`), so `max` can exceed it.
- Construction rejects an empty candidate list only when the list is shorter
  than `|default_max|` (`src/runner/runner.rs:61-67`). An empty list with
  `default_max == 0` therefore succeeds with `max == 0` (`Batching.Clamp`).

## Model

| member | source | states |
|---|---|---|
| Candidates.Merge | src/runner/runner.rs:52-58 | the merged list starts with the old list unchanged; a name is in it iff it was in the old list or was inferred; old names keep their multiplicity; each new name appears exactly once |
| Candidates.MergePossibleParameters | src/runner/runner.rs:53-57 | the push loop leaves the caller's list equal to `Merge(old list, inferred)` |
| Batching.Clamp | src/runner/runner.rs:61-67 | errors (with "No parameters were provided.") iff the list is empty and `default_max != 0`; otherwise `max == abs(default_max)` and `max <= n`; a list shorter than `abs(default_max)` sets both to `n`; otherwise both are unchanged |
| Batching.SentinelNeedsLongList | src/runner/runner.rs:61-67 | `default_max` is still `-128` after construction iff it was `-128` and at least 128 candidates exist, and then `max == 128` |
| Batching.ShortListDisarmsSentinel | src/runner/runner.rs:61-63 | two candidates with `-128` give `max == default_max == 2` |
| Batching.Ladder | src/runner/runner.rs:207-241 | probes are `[max+64]` or `[max+64, max+128]`, the second sent iff rung one passes; the new `max` is `max+128` iff both rungs pass, `max+64` iff only the first does, unchanged iff the first fails; an error iff a probe that was sent failed, and then it is that probe's own error, passed on unchanged |
| Batching.SecondProbeIgnoredUnlessFirstPasses | src/runner/runner.rs:220-238 | when rung one fails, the second probe's outcome has no influence |
| Batching.LadderIgnoresListLength | src/runner/runner.rs:208-236 | 130 candidates with `-128` can end with `max == 256`: no cap against the list length |
| Runners.Runner.TryToIncreaseMax | src/runner/runner.rs:207-241 | with the sticky "body the same" flag, the new `max`, the probes and the error agree with `Ladder`; other fields are unchanged |
| Runners.Stabilize | src/runner/runner.rs:179-203 | a learning error or unstable reflections under `reflected_only` fail with that error and no probe sent; probes are sent iff the gate passes and `default_max == -128`, and then the probes, the new `max` and any error are those of `Ladder`; with the gate passed and no sentinel, it succeeds with the sizes unchanged and no probe; `max` never shrinks; `max == abs(default_max)` is preserved; from `(128, -128)`, `default_max` stays `-128` iff `max` stays 128, else equals `max` |
| Runners.SentinelAfterConstruction | src/runner/runner.rs:194-199 | after construction, probes imply at least 128 candidates and a first probe of 192; growth from the sentinel ends at 128, 192 or 256, with `default_max` either `-128` or equal to the new `max` |
| Runners.Runner.StabilityChecker | src/runner/runner.rs:179-203 | sizes, probes and error agree with `Stabilize`; on an error `max` and `default_max` are unchanged; `diffs` and `stable` are the learned ones; `Valid` (`max == abs(default_max)`) is kept |
| Runners.Runner.New | src/runner/runner.rs:26-110 | a failed first request changes nothing; otherwise the list is merged unless the place is `Headers`; the result is an error iff `Clamp` errs, and the template's reflection count is written only on success; the runner holds the clamped sizes, the merged list, the baseline with `request == None`, default `stable`, no diffs and a fresh clone of the template |
| Sweep.PoppedTakesLastValues | src/runner/runner.rs:160-164 | a round pushes `name=last(values)` for every name with values, and nothing else |
| Sweep.PoppedEmpty | src/runner/runner.rs:160-166 | a round pushes nothing iff every list is empty |
| Sweep.AfterPopAt | src/runner/runner.rs:160-163 | a round drops exactly the last value of every non-empty list and leaves names and empty lists alone |
| Sweep.MaxLenAfterPop | src/runner/runner.rs:160-163 | a round shortens the longest list by one |
| Sweep.AfterPopOfDrained | src/runner/runner.rs:160-164 | with every list empty, a round pushes nothing and changes nothing |
| Sweep.PopConserves | src/runner/runner.rs:160-164 | what a round pushes plus what it leaves is, as a multiset, everything there was |
| Sweep.PopEach | src/runner/runner.rs:160-164 | the in-place pop loop gives exactly `Round` |
| Sweep.RoundsShape | src/runner/runner.rs:155-164 | rounds keep the names and keep what was pushed earlier in front |
| Sweep.RoundConserves | src/runner/runner.rs:159-164 | one round loses and duplicates no value |
| Sweep.SweepConserves | src/runner/runner.rs:159-171 | after any number of rounds, pushed plus left equals what was configured |
| Sweep.RoundOfDrained | src/runner/runner.rs:159-164 | with every list empty, a round is a fixed point |
| Sweep.DrainedIsFixedPoint | src/runner/runner.rs:159-171 | with every list empty, any number of rounds changes nothing |
| Sweep.ParamsOnlyGrow | src/runner/runner.rs:155-164 | `params` after a later round extends `params` after an earlier one |
| Sweep.ValuesLeft | src/runner/runner.rs:160-163 | after `j` rounds each list has lost exactly its last `min(j, len)` values |
| Sweep.DrainedAfterMaxLen | src/runner/runner.rs:159-164 | after as many rounds as the longest list is long, every list is empty |
| Sweep.ExitIffFirstRoundEmpty | src/runner/runner.rs:159-168 | `params` is empty after a round iff every list was empty at the start |
| Sweep.SweepNeverStops | src/runner/runner.rs:159-171 | with any value configured, every round leaves `params` non-empty, and from round `MaxLen` on the state never changes |
| Sweep.DebugOneNeverStops | src/runner/runner.rs:159-171 | with `{debug: [1]}`, every round from the first sends `["debug=1"]` again |
| Sweep.DebugAdminFirstRound | src/runner/runner.rs:160-163 | with `debug: [1, true]` and `admin: [yes]`, round one sends `debug=true` (the last value) and `admin=yes` |
| Sweep.DebugAdminAsWritten | src/runner/runner.rs:155-171 | for that configuration, round two re-sends round one's strings plus `debug=1`, and round three changes nothing |
| Sweep.AsWrittenResendsEarlierBatches | src/runner/runner.rs:155-171 | after `j` rounds, `params` is the concatenation of the first `j` corrected batches |
| Sweep.FixedSweep | src/runner/runner.rs:155-171 | the corrected sweep sends exactly `MaxLen` batches |
| Sweep.FixedSweepBatchesNonEmpty | src/runner/runner.rs:166-168 | the corrected sweep never sends an empty batch |
| Sweep.FixedSweepProbesEachValueOnce | src/runner/runner.rs:155-171 | the corrected sweep sends every configured value exactly once, as a multiset |
| Sweep.DebugAdminFixed | src/runner/runner.rs:155-171 | the corrected sweep of that configuration sends `[debug=true, admin=yes]` and then `[debug=1]` |
| Sweep.SweepFromFinished | src/runner/runner.rs:159-171 | from any state the loop is left iff the next round pushes nothing, and then nothing is sent |
| Sweep.SweepFromFailed | src/runner/runner.rs:170 | a failure is the error of the last call made, and every earlier call succeeded |
| Sweep.SweepFromUnfinished | src/runner/runner.rs:159-171 | running out of outcomes means every call succeeded, and the findings are theirs in order |
| Sweep.SweepFromBatches | src/runner/runner.rs:159-171 | the `k`-th batch sent is `params` after `k + 1` rounds, and at most one batch goes out per call |
| Sweep.SweepRunFinished | src/runner/runner.rs:149-175 | the sweep returns normally iff it is disabled or every list is empty, and then it found and sent nothing |
| Sweep.SweepRunBatches | src/runner/runner.rs:149-175 | the `k`-th batch is `params` after `k + 1` rounds: every earlier value again, plus this round's |
| Sweep.SweepRunFailed | src/runner/runner.rs:149-175 | a failed sweep reports the first failing call's error |
| Sweep.SweepRunUnfinished | src/runner/runner.rs:149-175 | a sweep still running has made one successful call per outcome and collected their findings in order |
| Sweep.SweepRunNeverEnds | src/runner/runner.rs:149-175 | enabled, with any value configured, and every call succeeding: the sweep never returns |
| Sweep.CheckNonRandomParameters | src/runner/runner.rs:149-175 | the loop's outcome and its sent batches equal `SweepRun` |
| PostProcess.KeyOf | src/runner/runner.rs:125 | the key is a prefix of the name with no `=`; it stops at the first `=`, or is the whole name when there is none |
| PostProcess.KeyOfAssignment | src/runner/runner.rs:125 | the key of `k=v` is `k` when `k` has no `=` |
| PostProcess.Keep | src/runner/runner.rs:123-126 | a finding is kept iff it is in the input and not redundant; every non-redundant finding keeps all its copies, and a redundant one keeps none |
| PostProcess.Dedup | src/runner/runner.rs:123-126 | a finding survives iff its name has no `=` or no finding is named by its key; each survivor keeps as many copies as it had, and the survivors keep their order (a subsequence) |
| PostProcess.DedupLaw | src/runner/runner.rs:123-126 | with both `x` and `x=v` found, `x` survives and `x=v` does not |
| PostProcess.LoneAssignmentSurvives | src/runner/runner.rs:123-126 | `x=v` without a bare `x` survives |
| PostProcess.DedupIdempotent | src/runner/runner.rs:123-126 | filtering twice equals filtering once |
| PostProcess.Finish | src/runner/runner.rs:128-143 | the final list is the verifier's answer only when verification is on and succeeded, else the filtered list; the warnings are only the two messages of `run`, the verify warning iff verification is on and failed, the replay warning iff a proxy is set and replay failed, and the verify warning first when both appear |
| PostProcess.Report | src/runner/runner.rs:123-143 | filter, verify fallback and warnings give `Finish` of the filtered list |
| PostProcess.VerifierFailureKeepsFiltered | src/runner/runner.rs:130-136 | a verifier error keeps the filtered list and warns iff verification was on |
| PostProcess.VerifierIgnoredWhenOff | src/runner/runner.rs:129-137 | with verification off, the verifier's answer does not matter |
| Runners.RunFrom | src/runner/runner.rs:113-146 | a failed gate, main discovery or sweep call aborts the run with that error, in that order; the run aborts through nothing else, never through verify or replay; it stalls iff those pass and the sweep is unfinished; a completed run passed the gate, and without verification it reports the filtered findings |
| Runners.RunNeverCompletesWithCustomValues | src/runner/runner.rs:113-146 | past the main discovery, with the sweep enabled, any custom value, and every sweep call succeeding, the run never completes |
| Runners.RunCompletesWithoutCustomValues | src/runner/runner.rs:113-146 | past the main discovery, with the sweep disabled or empty, the run completes with `Finish` of the filtered main findings |
| Runners.Runner.Run | src/runner/runner.rs:113-146 | the method's outcome equals `RunFrom` of the runner's sizes and the supplied outcomes |

## Left out

- Network I/O, `reqwest::Client` and `async`: every response, every comparison and the results of `empty_reqs`, `check_parameters`, `verify` and `replay` are inputs.
- `random_line`: the random parameter name is an input of `New`. Its value, and the temporary template that carries it, are not observable and are not modelled.
- The bodies of `compare`, `count`, `get_possible_parameters`, `empty_reqs`, `check_parameters`, `verify`, `replay` and `utils::info` are not part of this model. `count` and `get_possible_parameters` are function parameters of `New`. The two warnings of `run` are returned as strings instead of being printed.
- The replay client field of `Runner`: it is only passed through to `replay`.
- `Structs.DefaultStable`: the `Stable` struct is not part of this model. `Stable::default()` is assumed to come from `#[derive(Default)]`, which sets both flags to false.
- The commented-out banner and the shared-state code: dead code.
- `Runners.Runner.Run`: the Rust returns `()`. The model also returns the final findings and warnings so that they can be stated.
- `Sweep.CheckNonRandomParameters`: a loop that does not stop cannot be a terminating method. The model gives the loop a finite sequence of `check_parameters` outcomes, and running out of them is reported as `Unfinished`. The findings collected so far are kept.
- `Runners.Runner.New`: requires `default_max` in `isize` range and not `isize::MIN`, where `abs` would panic. It does not model a panic.
- `Runners.Runner.TryToIncreaseMax`: `max + 64` and `max + 128` are unbounded integers here. A `usize` overflow near `usize::MAX` is not modelled.
- Aliasing between the caller's template and the runner's copy: `New` gives the runner a fresh clone, as `request_defaults.clone()` does.

## Findings

| source | as written | input that shows it | evidently intended | confidence | as-written member | corrected member |
|---|---|---|---|---|---|---|
| src/runner/runner.rs:155-171 | `params` is created once before the loop and never cleared, and the only exit is an empty `params`; so after any value is pushed the loop re-sends every earlier `name=value` each round and never exits except on a `check_parameters` error | custom parameters `{"debug": ["1"]}`: every round sends `["debug=1"]` again, forever | a fresh `params` each round, leaving the loop when a round takes nothing: `MaxLen` batches, each configured value probed once | high, not executed | Sweep.DebugOneNeverStops | Sweep.FixedSweepProbesEachValueOnce |
