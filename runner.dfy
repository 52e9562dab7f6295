/** The `Runner`: construction, the stability gate with its batch-size ladder,
    and the `run` pipeline. Every request and every collaborator whose body is
    not modelled (`empty_reqs`, `compare`, `check_parameters`, `verify`,
    `replay`) enters as an outcome chosen by the caller. */
module Runners {
  import opened Wrappers
  import opened Structs
  import opened Batching
  import opened Candidates
  import opened Sweep
  import opened PostProcess

  const Unstable := "Reflections are not stable"

  /** What the stability checker decides: the new sizes or the error that
      ends the run, and the sizes of the random probes it sends. */
  datatype Checked = Checked(sizes: Result<Sizes>, probes: seq<nat>)

  /** `stability_checker` as a function of its inputs. `learned` is what the
      learning requests (`empty_reqs`) produced: the persistent diffs and the
      stability summary, or an error; `first` and `second` are the outcomes of
      the ladder's two probes. */
  function Stabilize(reflectedOnly: bool, sizes: Sizes, learned: Result<(seq<string>, Stable)>,
                     first: Result<Comparison>, second: Result<Comparison>): (c: Checked)
    ensures learned.Err? ==> c == Checked(Err(learned.error), [])
    ensures learned.Ok? && reflectedOnly && !learned.value.1.reflections ==> c == Checked(Err(Unstable), [])
    ensures c.probes != [] <==> learned.Ok? && !(reflectedOnly && !learned.value.1.reflections) && sizes.defaultMax == Sentinel
    ensures learned.Ok? && !(reflectedOnly && !learned.value.1.reflections) && sizes.defaultMax != Sentinel
            ==> c == Checked(Ok(sizes), [])
    ensures sizes.defaultMax != Sentinel && c.sizes.Ok? ==> c.sizes.value == sizes
    ensures c.sizes.Ok? ==> sizes.max <= c.sizes.value.max
    ensures c.sizes.Ok? && sizes.max == Abs(sizes.defaultMax) ==> c.sizes.value.max == Abs(c.sizes.value.defaultMax)
    ensures learned.Ok? && !(reflectedOnly && !learned.value.1.reflections) && sizes.defaultMax == Sentinel ==>
              var ladder := Ladder(sizes.max, learned.value.1.body, first, second);
              && c.probes == ladder.probes
              && (c.sizes.Ok? <==> ladder.grown.Ok?)
              && (c.sizes.Ok? ==> c.sizes.value.max == ladder.grown.value)
              && (c.sizes.Err? ==> ladder.grown == Err(c.sizes.error))
    ensures c.sizes.Ok? && sizes == Sizes(128, Sentinel) ==>
              (c.sizes.value.defaultMax == Sentinel <==> c.sizes.value.max == 128)
              && (c.sizes.value.defaultMax != Sentinel ==> c.sizes.value.defaultMax == c.sizes.value.max)
  {
    match learned
    case Err(e) => Checked(Err(e), [])
    case Ok(l) =>
      if reflectedOnly && !l.1.reflections then Checked(Err(Unstable), [])
      else if sizes.defaultMax != Sentinel then Checked(Ok(sizes), [])
      else
        var ladder := Ladder(sizes.max, l.1.body, first, second);
        match ladder.grown
        case Err(e) => Checked(Err(e), ladder.probes)
        case Ok(m) => Checked(Ok(Sizes(m, if m != Abs(sizes.defaultMax) then m else sizes.defaultMax)), ladder.probes)
  }

  /** After construction the sentinel survives only with at least 128
      candidates, and then the checker grows the batch by 0, 64 or 128 and
      makes `default_max` positive unless nothing changed. */
  lemma SentinelAfterConstruction(count: nat, defaultMax: int, reflectedOnly: bool, learned: Result<(seq<string>, Stable)>,
                                  first: Result<Comparison>, second: Result<Comparison>)
    requires Clamp(count, defaultMax).Ok?
    ensures var sizes := Clamp(count, defaultMax).value;
            var c := Stabilize(reflectedOnly, sizes, learned, first, second);
            && (c.probes != [] ==> count >= 128 && c.probes[0] == 128 + FirstRung)
            && (c.sizes.Ok? && sizes.defaultMax == Sentinel ==>
                  c.sizes.value.max in {128, 128 + FirstRung, 128 + SecondRung}
                  && (c.sizes.value.defaultMax == Sentinel || c.sizes.value.defaultMax == c.sizes.value.max))
  {
    SentinelNeedsLongList(count, defaultMax);
  }

  /** How a whole run ends: with the final findings and the warnings printed,
      with an error, or still inside the sweep when the supplied
      `check_parameters` outcomes ran out. */
  datatype RunOutcome = Done(found: seq<FoundParameter>, warnings: seq<string>) | Aborted(error: string) | Stalled

  /** `run` as a function of its inputs: the stability checker, the main
      `check_parameters` call, the sweep, the filter, then verification and replay. */
  function RunFrom(config: Config, sizes: Sizes, learned: Result<(seq<string>, Stable)>,
                   first: Result<Comparison>, second: Result<Comparison>, check: Result<Discovery>,
                   sweep: seq<Result<Discovery>>, verified: Result<seq<FoundParameter>>,
                   replayed: Result<()>): (out: RunOutcome)
    ensures var gate := Stabilize(config.reflectedOnly, sizes, learned, first, second).sizes;
            && (gate.Err? ==> out == Aborted(gate.error))
            && (gate.Ok? && check.Err? ==> out == Aborted(check.error))
            && (gate.Ok? && check.Ok? && SweepRun(config, sweep).0.Failed? ==> out == Aborted(SweepRun(config, sweep).0.error))
            && (out.Done? ==> gate.Ok?)
    ensures out.Aborted? ==> Stabilize(config.reflectedOnly, sizes, learned, first, second).sizes.Err?
                             || check.Err? || SweepRun(config, sweep).0.Failed?
    ensures out.Stalled? <==> Stabilize(config.reflectedOnly, sizes, learned, first, second).sizes.Ok?
                              && check.Ok? && SweepRun(config, sweep).0.Unfinished?
    ensures out.Done? ==> check.Ok? && SweepRun(config, sweep).0.Finished?
    ensures out.Done? && !config.verify ==> out.found == Dedup(check.value.found + SweepRun(config, sweep).0.found)
  {
    var gate := Stabilize(config.reflectedOnly, sizes, learned, first, second).sizes;
    if gate.Err? then Aborted(gate.error)
    else if check.Err? then Aborted(check.error)
    else match SweepRun(config, sweep).0
      case Failed(e) => Aborted(e)
      case Unfinished(_) => Stalled
      case Finished(more) =>
        var f := Finish(config, Dedup(check.value.found + more), verified, replayed);
        Done(f.found, f.warnings)
  }

  /** With any custom value configured and the sweep enabled, a run that gets
      past the main discovery never completes: every `check_parameters` call of
      the sweep succeeding just leads to the next one. */
  lemma RunNeverCompletesWithCustomValues(config: Config, sizes: Sizes, learned: Result<(seq<string>, Stable)>,
                                          first: Result<Comparison>, second: Result<Comparison>, check: Result<Discovery>,
                                          sweep: seq<Result<Discovery>>, verified: Result<seq<FoundParameter>>,
                                          replayed: Result<()>)
    requires Stabilize(config.reflectedOnly, sizes, learned, first, second).sizes.Ok? && check.Ok?
    requires !config.disableCustomParameters && !AllEmpty(config.customParameters)
    requires AllOk(sweep)
    ensures RunFrom(config, sizes, learned, first, second, check, sweep, verified, replayed) == Stalled
  {
    SweepRunNeverEnds(config, sweep);
  }

  /** Without custom values (or with the sweep disabled) a run that gets past
      the main discovery completes, and what it reports are the main
      discovery's findings after the filter, unless the verifier replaced them. */
  lemma RunCompletesWithoutCustomValues(config: Config, sizes: Sizes, learned: Result<(seq<string>, Stable)>,
                                        first: Result<Comparison>, second: Result<Comparison>, check: Result<Discovery>,
                                        sweep: seq<Result<Discovery>>, verified: Result<seq<FoundParameter>>,
                                        replayed: Result<()>)
    requires Stabilize(config.reflectedOnly, sizes, learned, first, second).sizes.Ok? && check.Ok?
    requires config.disableCustomParameters || AllEmpty(config.customParameters)
    ensures var out := RunFrom(config, sizes, learned, first, second, check, sweep, verified, replayed);
            && out.Done?
            && out == Done(Finish(config, Dedup(check.value.found), verified, replayed).found,
                           Finish(config, Dedup(check.value.found), verified, replayed).warnings)
  {
    SweepRunFinished(config, sweep);
    assert check.value.found + [] == check.value.found;
  }

  /** The runner. `requestDefaults` is its own clone of the caller's template;
      the replay client is not part of this model. */
  class Runner {
    const config: Config
    var requestDefaults: RequestDefaults
    var params: seq<string>
    var defaultMax: int
    var max: nat
    var stable: Stable
    var initialResponse: Response
    var diffs: seq<string>

    /** `max` is the magnitude of the sign-encoded `default_max`, and the
        baseline has no back-link to its request. */
    predicate Valid()
      reads this
    {
      max == Abs(defaultMax) && initialResponse.request == None
    }

    constructor (config: Config, requestDefaults: RequestDefaults, params: seq<string>,
                 defaultMax: int, initialResponse: Response)
      ensures this.config == config && this.requestDefaults == requestDefaults
      ensures this.params == params && this.defaultMax == defaultMax && this.max == Abs(defaultMax)
      ensures this.stable == DefaultStable && this.initialResponse == initialResponse && this.diffs == []
    {
      this.config := config;
      this.requestDefaults := requestDefaults;
      this.params := params;
      this.defaultMax := defaultMax;
      this.max := Abs(defaultMax);
      this.stable := DefaultStable;
      this.initialResponse := initialResponse;
      this.diffs := [];
    }

    /** `Runner::new`. `sent` is the outcome of the first request (sent with the
        single random parameter `randomName`); `possibleParameters` and
        `count` stand for the response's `get_possible_parameters` and `count`. */
    static method New(config: Config, requestDefaults: RequestDefaults, params: ParamList, defaultMax: int,
                      randomName: string, sent: Result<Response>,
                      possibleParameters: Response -> seq<string>, count: (Response, string) -> nat)
      returns (r: Result<Runner>)
      requires -IsizeMax <= defaultMax <= IsizeMax
      modifies params, requestDefaults
      ensures requestDefaults.injectionPlace == old(requestDefaults.injectionPlace)
      ensures requestDefaults.parameters == old(requestDefaults.parameters)
      ensures sent.Err? ==> r == Err(sent.error) && params.items == old(params.items)
                            && requestDefaults.amountOfReflections == old(requestDefaults.amountOfReflections)
      ensures sent.Ok? ==> params.items == (if requestDefaults.injectionPlace != Headers
                                            then Merge(old(params.items), possibleParameters(sent.value))
                                            else old(params.items))
      ensures sent.Ok? ==> (r.Err? <==> Clamp(|params.items|, defaultMax).Err?)
      ensures sent.Ok? && r.Err? ==> r.error == NoParameters
                                     && requestDefaults.amountOfReflections == old(requestDefaults.amountOfReflections)
      ensures r.Ok? ==> sent.Ok?
                        && requestDefaults.amountOfReflections == count(sent.value, randomName)
                        && fresh(r.value) && fresh(r.value.requestDefaults)
                        && r.value.Valid()
                        && r.value.config == config
                        && r.value.params == params.items
                        && Ok(Sizes(r.value.max, r.value.defaultMax)) == Clamp(|params.items|, defaultMax)
                        && r.value.initialResponse == sent.value.(request := None)
                        && r.value.stable == DefaultStable && r.value.diffs == []
                        && r.value.requestDefaults.injectionPlace == requestDefaults.injectionPlace
                        && r.value.requestDefaults.parameters == requestDefaults.parameters
                        && r.value.requestDefaults.amountOfReflections == requestDefaults.amountOfReflections
    {
      var max := Abs(defaultMax);
      var dm := defaultMax;
      if sent.Err? {
        r := Err(sent.error);
        return;
      }
      var response := sent.value;
      if requestDefaults.injectionPlace != Headers {
        MergePossibleParameters(params, possibleParameters(response));
      }
      if |params.items| < max {
        max := |params.items|;
        dm := |params.items|;
        if max == 0 {
          r := Err(NoParameters);
          return;
        }
      }
      requestDefaults.amountOfReflections := count(response, randomName);
      var baseline := Response(response.time, response.code, response.headers, response.text,
                               response.reflectedParameters, response.additionalParameter, None);
      var clone := requestDefaults.Clone();
      var runner := new Runner(config, clone, params.items, dm, baseline);
      r := Ok(runner);
    }

    /** `try_to_increase_max`: the two-rung ladder on `max`, with the sticky
        "body the same" flag of the source. Returns the sizes of the probes sent. */
    method TryToIncreaseMax(first: Result<Comparison>, second: Result<Comparison>)
      returns (r: Result<()>, probes: seq<nat>)
      modifies this
      ensures probes == Ladder(old(max), stable.body, first, second).probes
      ensures r.Ok? <==> Ladder(old(max), stable.body, first, second).grown.Ok?
      ensures r.Ok? ==> Ok(max) == Ladder(old(max), stable.body, first, second).grown
      ensures r.Err? ==> max == old(max) && Err(r.error) == Ladder(old(max), stable.body, first, second).grown
      ensures requestDefaults == old(requestDefaults) && params == old(params)
      ensures defaultMax == old(defaultMax) && stable == old(stable)
      ensures initialResponse == old(initialResponse) && diffs == old(diffs)
    {
      probes := [max + FirstRung];
      if first.Err? {
        r := Err(first.error);
        return;
      }
      var sameBody := true;
      if first.value.newDiffs != [] {
        sameBody := false;
      }
      if !first.value.codeDiffers && (!stable.body || sameBody) {
        probes := probes + [max + SecondRung];
        if second.Err? {
          r := Err(second.error);
          return;
        }
        if second.value.newDiffs != [] {
          sameBody := false;
        }
        if !second.value.codeDiffers && (!stable.body || sameBody) {
          max := max + SecondRung;
        } else {
          max := max + FirstRung;
        }
      }
      r := Ok(());
    }

    /** `stability_checker`: learn the baseline noise, refuse unstable
        reflections when only reflections count, and run the ladder when
        `default_max` is the sentinel, copying a changed `max` back. */
    method StabilityChecker(learned: Result<(seq<string>, Stable)>, first: Result<Comparison>, second: Result<Comparison>)
      returns (r: Result<()>, probes: seq<nat>)
      requires Valid()
      modifies this
      ensures Valid()
      ensures var c := Stabilize(config.reflectedOnly, Sizes(old(max), old(defaultMax)), learned, first, second);
              && probes == c.probes
              && (r.Ok? <==> c.sizes.Ok?)
              && (r.Ok? ==> c.sizes.value == Sizes(max, defaultMax))
              && (r.Err? ==> c.sizes == Err(r.error))
      ensures r.Err? ==> max == old(max) && defaultMax == old(defaultMax)
      ensures learned.Ok? ==> diffs == learned.value.0 && stable == learned.value.1
      ensures learned.Err? ==> diffs == old(diffs) && stable == old(stable)
      ensures requestDefaults == old(requestDefaults) && params == old(params)
      ensures initialResponse == old(initialResponse)
    {
      probes := [];
      if learned.Err? {
        r := Err(learned.error);
        return;
      }
      diffs, stable := learned.value.0, learned.value.1;
      if config.reflectedOnly && !stable.reflections {
        r := Err(Unstable);
        return;
      }
      if defaultMax == Sentinel {
        var grown;
        grown, probes := TryToIncreaseMax(first, second);
        if grown.Err? {
          r := Err(grown.error);
          return;
        }
        if max != Abs(defaultMax) {
          defaultMax := max;
        }
      }
      r := Ok(());
    }

    /** `run`: `check` is the outcome of the main `check_parameters` call,
        `sweep` the outcomes of the sweep's calls, `verified` the verifier's
        answer and `replayed` the replay's. The Rust `run` takes the runner by
        value and consumes it, so the fields it leaves behind can never be
        observed; the contract states only the outcome. */
    method Run(learned: Result<(seq<string>, Stable)>, first: Result<Comparison>, second: Result<Comparison>,
               check: Result<Discovery>, sweep: seq<Result<Discovery>>,
               verified: Result<seq<FoundParameter>>, replayed: Result<()>)
      returns (out: RunOutcome)
      requires Valid()
      modifies this
      ensures out == RunFrom(config, Sizes(old(max), old(defaultMax)), learned, first, second, check, sweep, verified, replayed)
    {
      var gate, probes := StabilityChecker(learned, first, second);
      if gate.Err? {
        return Aborted(gate.error);
      }
      if check.Err? {
        return Aborted(check.error);
      }
      var found := check.value.found;
      var swept, sent := CheckNonRandomParameters(config, sweep);
      match swept {
        case Failed(e) =>
          return Aborted(e);
        case Unfinished(_) =>
          return Stalled;
        case Finished(more) =>
          found := found + more;
      }
      var f := Report(config, found, verified, replayed);
      out := Done(f.found, f.warnings);
    }
  }
}
