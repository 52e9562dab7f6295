/** The batch-size arithmetic of the runner: clamping the requested size to the
    candidate list at construction, and the two-rung ladder that grows it. */
module Batching {
  import opened Wrappers
  import opened Structs

  /** Largest `isize` on a 64-bit target; `isize::MIN` is excluded because
      `default_max.abs()` overflows on it. */
  const IsizeMax := 0x7FFF_FFFF_FFFF_FFFF

  /** `default_max` value that asks for automatic growth from 128. */
  const Sentinel := -128

  /** Extra parameters sent by the first and second ladder probes. */
  const FirstRung := 64
  const SecondRung := 128

  const NoParameters := "No parameters were provided."

  function Abs(x: int): nat
  {
    if x < 0 then -x else x
  }

  /** The pair of sizes a runner is built with. */
  datatype Sizes = Sizes(max: nat, defaultMax: int)

  /** How construction turns the requested `default_max` and the number of
      candidates (after merging) into `max` and `default_max`. */
  function Clamp(count: nat, defaultMax: int): (r: Result<Sizes>)
    ensures r.Err? <==> count == 0 && defaultMax != 0
    ensures r.Err? ==> r.error == NoParameters
    ensures r.Ok? ==> r.value.max <= count && r.value.max == Abs(r.value.defaultMax)
    ensures count < Abs(defaultMax) && r.Ok? ==> r.value.max == count && r.value.defaultMax == count >= 0
    ensures Abs(defaultMax) <= count ==> r == Ok(Sizes(Abs(defaultMax), defaultMax))
  {
    var max := Abs(defaultMax);
    if count < max then
      if count == 0 then Err(NoParameters) else Ok(Sizes(count, count))
    else
      Ok(Sizes(max, defaultMax))
  }

  /** The sentinel survives construction only when there are at least 128
      candidates: a shorter list replaces it by the (positive) list length. */
  lemma SentinelNeedsLongList(count: nat, defaultMax: int)
    requires Clamp(count, defaultMax).Ok?
    ensures Clamp(count, defaultMax).value.defaultMax == Sentinel
        <==> defaultMax == Sentinel && count >= 128
    ensures Clamp(count, defaultMax).value.defaultMax == Sentinel ==> Clamp(count, defaultMax).value.max == 128
  {
  }

  /** Two candidates and `default_max == -128`: both sizes become 2, so the
      sizer is never invoked. */
  lemma ShortListDisarmsSentinel()
    ensures Clamp(2, Sentinel) == Ok(Sizes(2, 2))
  {
  }

  /** One rung of the ladder is safe when the status code did not change and,
      if the body is known to be stable, no unexplained diff appeared. */
  predicate RungPasses(c: Comparison, stableBody: bool)
  {
    !c.codeDiffers && (!stableBody || c.newDiffs == [])
  }

  /** What the ladder does: the sizes of the random probes it sends, and the
      new `max`, or the error of a failed send or compare. */
  datatype Sizing = Sizing(probes: seq<nat>, grown: Result<nat>)

  /** The adaptive batch sizer as a function of the two probe outcomes;
      `second` is only sent (and consulted) when the first rung passes. */
  function Ladder(max: nat, stableBody: bool, first: Result<Comparison>, second: Result<Comparison>): (s: Sizing)
    ensures s.probes == [max + FirstRung] || s.probes == [max + FirstRung, max + SecondRung]
    ensures |s.probes| == 2 <==> first.Ok? && RungPasses(first.value, stableBody)
    ensures s.grown.Ok? ==> s.grown.value in {max, max + FirstRung, max + SecondRung}
    ensures s.grown == Ok(max + SecondRung)
        <==> first.Ok? && RungPasses(first.value, stableBody) && second.Ok? && RungPasses(second.value, stableBody)
    ensures s.grown == Ok(max + FirstRung)
        <==> first.Ok? && RungPasses(first.value, stableBody) && second.Ok? && !RungPasses(second.value, stableBody)
    ensures s.grown == Ok(max) <==> first.Ok? && !RungPasses(first.value, stableBody)
    ensures s.grown.Err? <==> first.Err? || (RungPasses(first.value, stableBody) && second.Err?)
    ensures first.Err? ==> s.grown == Err(first.error)
    ensures first.Ok? && RungPasses(first.value, stableBody) && second.Err? ==> s.grown == Err(second.error)
  {
    match first
    case Err(e) => Sizing([max + FirstRung], Err(e))
    case Ok(c1) =>
      if !RungPasses(c1, stableBody) then
        Sizing([max + FirstRung], Ok(max))
      else
        match second
        case Err(e) => Sizing([max + FirstRung, max + SecondRung], Err(e))
        case Ok(c2) =>
          Sizing([max + FirstRung, max + SecondRung],
                 Ok(if RungPasses(c2, stableBody) then max + SecondRung else max + FirstRung))
  }

  /** When the first rung fails, the second probe has no influence at all. */
  lemma SecondProbeIgnoredUnlessFirstPasses(max: nat, stableBody: bool, first: Result<Comparison>,
                                            second: Result<Comparison>, other: Result<Comparison>)
    requires !(first.Ok? && RungPasses(first.value, stableBody))
    ensures Ladder(max, stableBody, first, second) == Ladder(max, stableBody, first, other)
  {
  }

  /** The ladder never shrinks the batch, and it is not capped by the number of
      candidates: a list of 130 names with the sentinel can end with max 256. */
  lemma LadderIgnoresListLength()
    ensures Clamp(130, Sentinel) == Ok(Sizes(128, Sentinel))
    ensures Ladder(128, true, Ok(Comparison(false, [])), Ok(Comparison(false, []))).grown == Ok(256)
  {
  }
}
