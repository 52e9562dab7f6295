/** What `run` does with the discovered parameters once discovery is over:
    drop `key=value` findings whose bare key was itself found, then optionally
    re-verify the survivors, keeping them unverified when the verifier fails. */
module PostProcess {
  import opened Wrappers
  import opened Structs

  const VerifyWarning := "was unable to verify found parameters"
  const ReplayWarning := "was unable to resend found parameters via different proxy"

  /** The text before the first `=` of a name (`name.split('=').next()`); the
      whole name when it holds no `=`. */
  function KeyOf(name: string): (key: string)
    ensures key <= name
    ensures '=' !in key
    ensures '=' in name ==> |key| < |name| && name[|key|] == '='
    ensures '=' !in name ==> key == name
  {
    if name == [] || name[0] == '=' then [] else [name[0]] + KeyOf(name[1..])
  }

  /** The key of an assignment `k=v` is `k`, as long as `k` itself holds no `=`. */
  lemma KeyOfAssignment(k: string, v: string)
    requires '=' !in k
    ensures KeyOf(k + "=" + v) == k
  {
    var name := k + "=" + v;
    var key := KeyOf(name);
    assert name[|k|] == '=';
    assert key == name[..|key|];
    assert name[..|k|] == k;
  }

  /** `found_params.contains_key(key)`. The method belongs to a trait of the
      structs module, which is not part of this model; it is taken to mean that
      some found parameter is named exactly `key`. */
  predicate ContainsKey(found: seq<FoundParameter>, key: string)
  {
    exists p :: p in found && p.name == key
  }

  /** A finding is redundant when it is an assignment whose key was found bare. */
  predicate Redundant(all: seq<FoundParameter>, p: FoundParameter)
  {
    '=' in p.name && ContainsKey(all, KeyOf(p.name))
  }

  /** `a` is `b` with some elements left out and the rest in their order. */
  predicate IsSubsequence<T(==)>(a: seq<T>, b: seq<T>)
    decreases |b|
  {
    a == [] || (b != [] && ((a[0] == b[0] && IsSubsequence(a[1..], b[1..])) || IsSubsequence(a, b[1..])))
  }

  /** The elements of `s` that are not redundant with respect to `all`. */
  function Keep(all: seq<FoundParameter>, s: seq<FoundParameter>): (kept: seq<FoundParameter>)
    ensures |kept| <= |s|
    ensures forall p :: p in kept <==> p in s && !Redundant(all, p)
    ensures forall p :: multiset(kept)[p] == if Redundant(all, p) then 0 else multiset(s)[p]
  {
    if s == [] then []
    else
      var rest := Keep(all, s[1..]);
      KeepStep(all, s, rest);
      (if Redundant(all, s[0]) then [] else [s[0]]) + rest
  }

  /** One step of `Keep`: prepending the first element, or not, carries the
      count of every finding over from the tail to the whole list. */
  lemma KeepStep(all: seq<FoundParameter>, s: seq<FoundParameter>, rest: seq<FoundParameter>)
    requires s != []
    requires forall p :: multiset(rest)[p] == if Redundant(all, p) then 0 else multiset(s[1..])[p]
    ensures var kept := (if Redundant(all, s[0]) then [] else [s[0]]) + rest;
            && (forall p :: multiset(kept)[p] == if Redundant(all, p) then 0 else multiset(s)[p])
            && (forall p :: p in kept <==> p in s && !Redundant(all, p))
  {
    assert s == [s[0]] + s[1..];
    var kept := (if Redundant(all, s[0]) then [] else [s[0]]) + rest;
    forall p
      ensures multiset(kept)[p] == if Redundant(all, p) then 0 else multiset(s)[p]
    {
      assert multiset(s)[p] == multiset([s[0]])[p] + multiset(s[1..])[p];
    }
  }

  lemma {:induction false} KeepIsSubsequence(all: seq<FoundParameter>, s: seq<FoundParameter>)
    ensures IsSubsequence(Keep(all, s), s)
  {
    if s != [] {
      KeepIsSubsequence(all, s[1..]);
      var rest := Keep(all, s[1..]);
      if !Redundant(all, s[0]) {
        assert Keep(all, s) == [s[0]] + rest;
        assert ([s[0]] + rest)[1..] == rest;
      } else if rest != [] {
        assert Keep(all, s) == rest;
      }
    }
  }

  /** Keeping from a list none of whose elements is redundant changes nothing. */
  lemma {:induction false} KeepNothingRedundant(all: seq<FoundParameter>, s: seq<FoundParameter>)
    requires forall p :: p in s ==> !Redundant(all, p)
    ensures Keep(all, s) == s
  {
    if s != [] {
      assert s[0] in s;
      assert forall p :: p in s[1..] ==> p in s;
      KeepNothingRedundant(all, s[1..]);
      assert [s[0]] + s[1..] == s;
    }
  }

  /** The filter of `run`: a finding whose name holds `=` is dropped exactly
      when some finding (in the whole list) is named by its key; the rest keep
      their order. */
  function Dedup(found: seq<FoundParameter>): (kept: seq<FoundParameter>)
    ensures forall p :: p in kept <==> p in found && ('=' !in p.name || !ContainsKey(found, KeyOf(p.name)))
    ensures forall p :: multiset(kept)[p] == if Redundant(found, p) then 0 else multiset(found)[p]
    ensures IsSubsequence(kept, found)
  {
    KeepIsSubsequence(found, found);
    Keep(found, found)
  }

  /** With both `x` and `x=v` found, the filter keeps `x` and drops every `x=v`;
      names without `=` are never dropped. */
  lemma DedupLaw(found: seq<FoundParameter>, x: string, v: string)
    requires '=' !in x
    requires ContainsKey(found, x)
    ensures forall p :: p in found && p.name == x ==> p in Dedup(found)
    ensures forall p :: p in Dedup(found) ==> p.name != x + "=" + v
  {
    KeyOfAssignment(x, v);
  }

  /** An assignment `x=v` with no bare `x` among the findings survives. */
  lemma LoneAssignmentSurvives(found: seq<FoundParameter>, p: FoundParameter, x: string, v: string)
    requires '=' !in x
    requires p in found && p.name == x + "=" + v
    requires !ContainsKey(found, x)
    ensures p in Dedup(found)
  {
    KeyOfAssignment(x, v);
  }

  /** Filtering twice is filtering once: what survives has no bare key left to
      clash with, since the survivors are a subset of the findings. */
  lemma DedupIdempotent(found: seq<FoundParameter>)
    ensures Dedup(Dedup(found)) == Dedup(found)
  {
    var kept := Dedup(found);
    forall p | p in kept
      ensures !Redundant(kept, p)
    {
    }
    KeepNothingRedundant(kept, kept);
  }

  /** The verify step of `run` and the warnings it and the replay step emit:
      the final list and the warnings, in the order they are printed. */
  datatype Final = Final(found: seq<FoundParameter>, warnings: seq<string>)

  /** Verification and replay after the filter. `verified` is the verifier's
      answer and `replayed` the replay's; each is consulted only when the
      configuration asks for that step. */
  function Finish(config: Config, filtered: seq<FoundParameter>,
                  verified: Result<seq<FoundParameter>>, replayed: Result<()>): (f: Final)
    ensures f.found == (if config.verify && verified.Ok? then verified.value else filtered)
    ensures VerifyWarning in f.warnings <==> config.verify && verified.Err?
    ensures ReplayWarning in f.warnings <==> config.replayProxy != [] && replayed.Err?
    ensures forall w :: w in f.warnings ==> w == VerifyWarning || w == ReplayWarning
    ensures |f.warnings| == (if config.verify && verified.Err? then 1 else 0)
                            + (if config.replayProxy != [] && replayed.Err? then 1 else 0)
    ensures |f.warnings| == 2 ==> f.warnings == [VerifyWarning, ReplayWarning]
  {
    var found := if config.verify && verified.Ok? then verified.value else filtered;
    var verifyWarnings := if config.verify && verified.Err? then [VerifyWarning] else [];
    var replayWarnings := if config.replayProxy != [] && replayed.Err? then [ReplayWarning] else [];
    Final(found, verifyWarnings + replayWarnings)
  }

  /** The end of `run`: the filter, verification with its fallback, and the
      replay warning. */
  method Report(config: Config, found: seq<FoundParameter>,
                verified: Result<seq<FoundParameter>>, replayed: Result<()>)
    returns (f: Final)
    ensures f == Finish(config, Dedup(found), verified, replayed)
  {
    var kept := Dedup(found);
    var warnings := [];
    if config.verify {
      if verified.Ok? {
        kept := verified.value;
      } else {
        warnings := warnings + [VerifyWarning];
      }
    }
    if config.replayProxy != [] && replayed.Err? {
      warnings := warnings + [ReplayWarning];
    }
    f := Final(kept, warnings);
  }

  /** A failing verifier loses nothing: the filtered list is handed on as it is. */
  lemma VerifierFailureKeepsFiltered(config: Config, filtered: seq<FoundParameter>,
                                     e: string, replayed: Result<()>)
    ensures Finish(config, filtered, Err(e), replayed).found == filtered
    ensures config.verify <==> VerifyWarning in Finish(config, filtered, Err(e), replayed).warnings
  {
  }

  /** With verification off, whatever the verifier would have said is ignored. */
  lemma VerifierIgnoredWhenOff(config: Config, filtered: seq<FoundParameter>,
                               a: Result<seq<FoundParameter>>, b: Result<seq<FoundParameter>>, replayed: Result<()>)
    requires !config.verify
    ensures Finish(config, filtered, a, replayed) == Finish(config, filtered, b, replayed)
  {
  }
}
