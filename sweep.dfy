/** The non-random sweep (`check_non_random_parameters`): custom parameters
    such as `debug` or `admin` are probed with their configured values, one
    value per name and round, each value taken off the END of its list. */
module Sweep {
  import opened Wrappers
  import opened Seqs
  import opened Structs

  /** The probe string for a name and a value. */
  function Assignment(name: string, value: string): string
  {
    name + "=" + value
  }

  predicate AllEmpty(custom: CustomParameters)
  {
    forall i :: 0 <= i < |custom| ==> custom[i].1 == []
  }

  /** The strings one pass over the custom parameters pushes: for each name
      that still has values, in order, the name with its last value. At most
      one string per name. */
  function Popped(custom: CustomParameters): (taken: seq<string>)
    ensures |taken| <= |custom|
  {
    if custom == [] then [] else Popped(DropLast(custom)) + PopOne(Last(custom))
  }

  /** What the pass pushes for one name: its last value, if it has one. */
  function PopOne(entry: (string, seq<string>)): (taken: seq<string>)
    ensures |taken| <= 1
  {
    if entry.1 == [] then [] else [Assignment(entry.0, Last(entry.1))]
  }

  /** The custom parameters after one pass (each non-empty list popped once). */
  function AfterPop(custom: CustomParameters): (rest: CustomParameters)
    ensures |rest| == |custom|
  {
    if custom == [] then []
    else AfterPop(DropLast(custom)) + [(Last(custom).0, DropLast(Last(custom).1))]
  }

  /** The length of the longest value list. */
  function MaxLen(custom: CustomParameters): (m: nat)
    ensures custom == [] ==> m == 0
  {
    if custom == [] then 0
    else
      var m := MaxLen(DropLast(custom));
      if |Last(custom).1| <= m then m else |Last(custom).1|
  }

  /** Popping a list that has one more name at the end. */
  lemma PopSnoc(front: CustomParameters, entry: (string, seq<string>))
    ensures Popped(front + [entry]) == Popped(front) + PopOne(entry)
    ensures AfterPop(front + [entry]) == AfterPop(front) + [(entry.0, DropLast(entry.1))]
  {
    assert DropLast(front + [entry]) == front;
  }

  /** A pass over one name, spelled out. */
  lemma PopSingle(a: (string, seq<string>))
    ensures Popped([a]) == PopOne(a)
    ensures AfterPop([a]) == [(a.0, DropLast(a.1))]
  {
    assert DropLast([a]) == [];
  }

  /** A pass over two names, spelled out. */
  lemma PopPair(a: (string, seq<string>), b: (string, seq<string>))
    ensures Popped([a, b]) == PopOne(a) + PopOne(b)
    ensures AfterPop([a, b]) == [(a.0, DropLast(a.1)), (b.0, DropLast(b.1))]
  {
    assert DropLast([a, b]) == [a];
    PopSingle(a);
  }

  /** A pass pops every non-empty list once and leaves names and empty lists alone. */
  lemma {:induction false} AfterPopAt(custom: CustomParameters, i: nat)
    requires i < |custom|
    ensures AfterPop(custom)[i] == (custom[i].0, DropLast(custom[i].1))
  {
    if i < |custom| - 1 {
      AfterPopAt(DropLast(custom), i);
    }
  }

  /** A pass pushes nothing exactly when every list is already empty. */
  lemma {:induction false} PoppedEmpty(custom: CustomParameters)
    ensures Popped(custom) == [] <==> AllEmpty(custom)
  {
    if custom != [] {
      PoppedEmpty(DropLast(custom));
    }
  }

  /** What a pass pushes is exactly the last value of each non-empty list,
      joined to its name. */
  lemma {:induction false} PoppedTakesLastValues(custom: CustomParameters)
    ensures forall i :: 0 <= i < |custom| && custom[i].1 != [] ==>
              Assignment(custom[i].0, Last(custom[i].1)) in Popped(custom)
    ensures forall s :: s in Popped(custom) ==>
              exists i :: 0 <= i < |custom| && custom[i].1 != [] && s == Assignment(custom[i].0, Last(custom[i].1))
  {
    if custom != [] {
      var front := DropLast(custom);
      PoppedTakesLastValues(front);
      forall s | s in Popped(custom)
        ensures exists i :: 0 <= i < |custom| && custom[i].1 != [] && s == Assignment(custom[i].0, Last(custom[i].1))
      {
        if s in Popped(front) {
          var i :| 0 <= i < |front| && front[i].1 != [] && s == Assignment(front[i].0, Last(front[i].1));
          assert custom[i] == front[i];
        } else {
          assert custom[|custom| - 1].1 != [] && s == Assignment(custom[|custom| - 1].0, Last(custom[|custom| - 1].1));
        }
      }
    }
  }

  /** Every list is at most `MaxLen` long, and some list attains it. */
  lemma {:induction false} MaxLenIsMaximum(custom: CustomParameters)
    ensures forall i :: 0 <= i < |custom| ==> |custom[i].1| <= MaxLen(custom)
    ensures MaxLen(custom) == 0 || exists i :: 0 <= i < |custom| && |custom[i].1| == MaxLen(custom)
  {
    if custom != [] {
      var front := DropLast(custom);
      MaxLenIsMaximum(front);
      assert forall i :: 0 <= i < |front| ==> custom[i] == front[i];
      if MaxLen(custom) != 0 && MaxLen(custom) == MaxLen(front) {
        var i :| 0 <= i < |front| && |front[i].1| == MaxLen(front);
        assert custom[i] == front[i];
      }
    }
  }

  /** The probe strings a name's values give, as a multiset. */
  function Assignments(name: string, values: seq<string>): (all: multiset<string>)
    ensures |all| == |values|
  {
    if values == [] then multiset{}
    else Assignments(name, DropLast(values)) + multiset{Assignment(name, Last(values))}
  }

  /** Every probe string the custom parameters can give, as a multiset. */
  function AllAssignments(custom: CustomParameters): multiset<string>
  {
    if custom == [] then multiset{}
    else AllAssignments(DropLast(custom)) + Assignments(Last(custom).0, Last(custom).1)
  }

  lemma {:induction false} AllEmptyMeansNothingLeft(custom: CustomParameters)
    requires AllEmpty(custom)
    ensures AllAssignments(custom) == multiset{}
  {
    if custom != [] {
      AllEmptyMeansNothingLeft(DropLast(custom));
    }
  }

  lemma MaxLenAllEmpty(custom: CustomParameters)
    ensures MaxLen(custom) == 0 <==> AllEmpty(custom)
  {
    MaxLenIsMaximum(custom);
  }

  /** A pass shortens the longest list by one. */
  lemma MaxLenAfterPop(custom: CustomParameters)
    ensures MaxLen(AfterPop(custom)) == if MaxLen(custom) == 0 then 0 else MaxLen(custom) - 1
  {
    var m, m' := MaxLen(custom), MaxLen(AfterPop(custom));
    MaxLenIsMaximum(custom);
    MaxLenIsMaximum(AfterPop(custom));
    if m' != 0 {
      var j :| 0 <= j < |custom| && |AfterPop(custom)[j].1| == m';
      AfterPopAt(custom, j);
    }
    if m != 0 {
      var i :| 0 <= i < |custom| && |custom[i].1| == m;
      AfterPopAt(custom, i);
    }
  }

  /** When every list is empty a pass pushes nothing and changes nothing. */
  lemma AfterPopOfDrained(custom: CustomParameters)
    requires AllEmpty(custom)
    ensures Popped(custom) == [] && AfterPop(custom) == custom
  {
    PoppedEmpty(custom);
    forall i | 0 <= i < |custom|
      ensures AfterPop(custom)[i] == custom[i]
    {
      AfterPopAt(custom, i);
    }
  }

  /** One pass takes values without losing or duplicating any: what it pushes
      plus what is left is everything there was. */
  lemma {:induction false} PopConserves(custom: CustomParameters)
    ensures multiset(Popped(custom)) + AllAssignments(AfterPop(custom)) == AllAssignments(custom)
  {
    if custom != [] {
      var front := DropLast(custom);
      var (name, values) := Last(custom);
      PopConserves(front);
      var after := AfterPop(custom);
      assert after == AfterPop(front) + [(name, DropLast(values))];
      assert DropLast(after) == AfterPop(front);
      assert Last(after) == (name, DropLast(values));
    }
  }

  /** The sweep's state at the top of its loop: the cloned custom parameters
      and the accumulated `params` vector. */
  datatype SweepState = SweepState(custom: CustomParameters, params: seq<string>)

  /** One round of the loop body before the exit test. `params` is never
      cleared, so the round appends to what earlier rounds pushed. */
  function Round(s: SweepState): SweepState
  {
    SweepState(AfterPop(s.custom), s.params + Popped(s.custom))
  }

  /** `step` applied `j` times. */
  function Iterate<S>(step: S -> S, s: S, j: nat): S
    decreases j
  {
    if j == 0 then s else Iterate(step, step(s), j - 1)
  }

  lemma {:induction false} IterateSucc<S>(step: S -> S, s: S, j: nat)
    ensures Iterate(step, s, j + 1) == step(Iterate(step, s, j))
    decreases j
  {
    if j > 0 {
      IterateSucc(step, step(s), j - 1);
    }
  }

  lemma {:induction false} IterateAdd<S>(step: S -> S, s: S, a: nat, b: nat)
    ensures Iterate(step, s, a + b) == Iterate(step, Iterate(step, s, a), b)
    decreases a
  {
    if a > 0 {
      IterateAdd(step, step(s), a - 1, b);
    }
  }

  lemma {:induction false} IterateFixedPoint<S>(step: S -> S, s: S, j: nat)
    requires step(s) == s
    ensures Iterate(step, s, j) == s
    decreases j
  {
    if j > 0 {
      IterateFixedPoint(step, s, j - 1);
    }
  }

  /** The state after `j` rounds. */
  function Rounds(s: SweepState, j: nat): SweepState
  {
    Iterate(Round, s, j)
  }

  lemma RoundsStep(s: SweepState, j: nat)
    requires j > 0
    ensures Rounds(s, j) == Rounds(Round(s), j - 1)
  {
  }

  lemma RoundsSucc(s: SweepState, j: nat)
    ensures Rounds(s, j + 1) == Round(Rounds(s, j))
  {
    IterateSucc(Round, s, j);
  }

  lemma RoundsAdd(s: SweepState, a: nat, b: nat)
    ensures Rounds(s, a + b) == Rounds(Rounds(s, a), b)
  {
    IterateAdd(Round, s, a, b);
  }

  lemma RoundsFixedPoint(s: SweepState, j: nat)
    requires Round(s) == s
    ensures Rounds(s, j) == s
  {
    IterateFixedPoint(Round, s, j);
  }

  /** The names stay, and what earlier rounds pushed stays in front. */
  lemma {:induction false} RoundsShape(s: SweepState, j: nat)
    ensures |Rounds(s, j).custom| == |s.custom|
    ensures |s.params| <= |Rounds(s, j).params|
    ensures Rounds(s, j).params[..|s.params|] == s.params
    decreases j
  {
    if j > 0 {
      RoundsStep(s, j);
      RoundsShape(Round(s), j - 1);
      var t := Round(s);
      assert Rounds(s, j).params[..|t.params|] == t.params;
      assert t.params[..|s.params|] == s.params;
    }
  }

  /** Everything a state accounts for: the strings pushed so far and the
      strings the values still left would give. */
  function Pool(s: SweepState): multiset<string>
  {
    multiset(s.params) + AllAssignments(s.custom)
  }

  /** One round neither loses nor duplicates a value. */
  lemma RoundConserves(s: SweepState)
    ensures Pool(Round(s)) == Pool(s)
  {
    var taken := Popped(s.custom);
    RoundParts(s);
    assert multiset(s.params + taken) == multiset(s.params) + multiset(taken);
    PopConserves(s.custom);
  }

  /** Across any number of rounds nothing is lost or taken twice: the strings
      pushed so far plus the values still left are all there ever were. */
  lemma {:induction false} SweepConserves(s: SweepState, j: nat)
    ensures Pool(Rounds(s, j)) == Pool(s)
    decreases j
  {
    if j > 0 {
      RoundConserves(s);
      RoundsStep(s, j);
      SweepConserves(Round(s), j - 1);
    }
  }

  /** When every list is empty a round changes nothing. */
  lemma RoundOfDrained(s: SweepState)
    requires AllEmpty(s.custom)
    ensures Round(s) == s
  {
    AfterPopOfDrained(s.custom);
  }

  /** Once every list is empty a round changes nothing, however often it runs. */
  lemma DrainedIsFixedPoint(s: SweepState, j: nat)
    requires AllEmpty(s.custom)
    ensures Rounds(s, j) == s
  {
    RoundOfDrained(s);
    RoundsFixedPoint(s, j);
  }

  /** `params` only grows from round to round. */
  lemma ParamsOnlyGrow(s: SweepState, j: nat, k: nat)
    requires j <= k
    ensures |Rounds(s, j).params| <= |Rounds(s, k).params|
    ensures Rounds(s, k).params[..|Rounds(s, j).params|] == Rounds(s, j).params
  {
    RoundsAdd(s, j, k - j);
    RoundsShape(Rounds(s, j), k - j);
  }

  /** After `j` rounds each list has lost exactly its last `j` values (or all
      of them): values are taken from the end, and never twice. */
  lemma {:induction false} ValuesLeft(s: SweepState, j: nat, i: nat)
    requires i < |s.custom|
    ensures |Rounds(s, j).custom| == |s.custom|
    ensures var values := s.custom[i].1;
            var taken := if j <= |values| then j else |values|;
            Rounds(s, j).custom[i] == (s.custom[i].0, values[..|values| - taken])
    decreases j
  {
    RoundsShape(s, j);
    var values := s.custom[i].1;
    if j == 0 {
      assert values[..|values|] == values;
    } else {
      RoundsStep(s, j);
      ValuesLeft(Round(s), j - 1, i);
      var rest := DropLast(values);
      AfterPopAt(s.custom, i);
      assert Round(s).custom[i] == (s.custom[i].0, rest);
      if values != [] {
        var taken := if j <= |values| then j else |values|;
        assert rest[..|rest| - (taken - 1)] == values[..|values| - taken];
      }
    }
  }

  /** After as many rounds as the longest list is long, every list is empty. */
  lemma DrainedAfterMaxLen(s: SweepState, j: nat)
    requires j >= MaxLen(s.custom)
    ensures AllEmpty(Rounds(s, j).custom)
  {
    RoundsShape(s, j);
    MaxLenIsMaximum(s.custom);
    forall i | 0 <= i < |s.custom|
      ensures Rounds(s, j).custom[i].1 == []
    {
      ValuesLeft(s, j, i);
    }
  }

  /** The sweep's start state: the cloned custom parameters, nothing pushed. */
  function Start(custom: CustomParameters): SweepState
  {
    SweepState(custom, [])
  }

  /** The loop's only exit is an empty `params` after a round; that happens
      after some round exactly when every value list was empty to begin with. */
  lemma ExitIffFirstRoundEmpty(custom: CustomParameters, j: nat)
    requires j >= 1
    ensures Rounds(Start(custom), j).params == [] <==> AllEmpty(custom)
  {
    if AllEmpty(custom) {
      DrainedIsFixedPoint(Start(custom), j);
    } else {
      PoppedEmpty(custom);
      RoundsSucc(Start(custom), 0);
      assert Rounds(Start(custom), 0) == Start(custom);
      assert Rounds(Start(custom), 1).params == Popped(custom);
      ParamsOnlyGrow(Start(custom), 1, j);
    }
  }

  /** As written, the sweep never stops once any value is configured: every
      later round has a non-empty `params`, and from round `MaxLen` on the
      same accumulated batch comes back forever. */
  lemma SweepNeverStops(custom: CustomParameters, j: nat)
    requires !AllEmpty(custom)
    ensures j >= 1 ==> Rounds(Start(custom), j).params != []
    ensures Rounds(Start(custom), MaxLen(custom) + j) == Rounds(Start(custom), MaxLen(custom))
    ensures Rounds(Start(custom), MaxLen(custom)).params != []
  {
    if j >= 1 {
      ExitIffFirstRoundEmpty(custom, j);
    }
    MaxLenAllEmpty(custom);
    ExitIffFirstRoundEmpty(custom, MaxLen(custom));
    DrainedAfterMaxLen(Start(custom), MaxLen(custom));
    RoundsAdd(Start(custom), MaxLen(custom), j);
    DrainedIsFixedPoint(Rounds(Start(custom), MaxLen(custom)), j);
  }

  /** The smallest input that shows it: one name, one value, and every round
      from the first on sends the same batch again. */
  lemma DebugOneNeverStops(j: nat)
    ensures Rounds(Start([("debug", ["1"])]), j + 1).params == ["debug=1"]
  {
    var once := SweepState([("debug", [])], ["debug=1"]);
    DebugOneFirstRound();
    assert Round(Start([("debug", ["1"])])) == once;
    assert Rounds(Start([("debug", ["1"])]), j + 1) == Rounds(once, j);
    AfterPopOfDrained(once.custom);
    RoundsFixedPoint(once, j);
  }

  lemma DebugOneFirstRound()
    ensures Popped([("debug", ["1"])]) == ["debug=1"]
    ensures AfterPop([("debug", ["1"])]) == [("debug", [])]
  {
    PopSingle(("debug", ["1"]));
    assert Assignment("debug", "1") == "debug=1";
  }

  /** A pass pushes something exactly while some list is still non-empty. */
  lemma PoppedIffMaxLen(custom: CustomParameters)
    ensures Popped(custom) == [] <==> MaxLen(custom) == 0
  {
    PoppedEmpty(custom);
    MaxLenAllEmpty(custom);
  }

  /** Corrected sweep: `params` made fresh in every round, and the loop left as
      soon as a round takes nothing. The batches it sends, in order. */
  function FixedSweep(custom: CustomParameters): (batches: seq<seq<string>>)
    ensures |batches| == MaxLen(custom)
    decreases MaxLen(custom)
  {
    var batch := Popped(custom);
    PoppedIffMaxLen(custom);
    if batch == [] then []
    else
      MaxLenAfterPop(custom);
      [batch] + FixedSweep(AfterPop(custom))
  }

  lemma FixedSweepUnfold(custom: CustomParameters)
    requires Popped(custom) != []
    ensures 0 < MaxLen(custom) && MaxLen(AfterPop(custom)) == MaxLen(custom) - 1
    ensures FixedSweep(custom) == [Popped(custom)] + FixedSweep(AfterPop(custom))
  {
    PoppedIffMaxLen(custom);
    MaxLenAfterPop(custom);
  }

  /** The corrected sweep never sends an empty batch. */
  lemma {:induction false} FixedSweepBatchesNonEmpty(custom: CustomParameters, t: nat)
    requires t < |FixedSweep(custom)|
    ensures FixedSweep(custom)[t] != []
    decreases t
  {
    PoppedIffMaxLen(custom);
    FixedSweepUnfold(custom);
    if t > 0 {
      FixedSweepBatchesNonEmpty(AfterPop(custom), t - 1);
    }
  }

  /** The corrected sweep sends every configured value exactly once. */
  lemma {:induction false} FixedSweepProbesEachValueOnce(custom: CustomParameters)
    ensures multiset(Flatten(FixedSweep(custom))) == AllAssignments(custom)
    decreases MaxLen(custom)
  {
    PoppedEmpty(custom);
    if Popped(custom) == [] {
      AllEmptyMeansNothingLeft(custom);
    } else {
      FixedSweepUnfold(custom);
      FixedSweepProbesEachValueOnce(AfterPop(custom));
      PopConserves(custom);
      FlattenCons(Popped(custom), FixedSweep(AfterPop(custom)));
    }
  }

  /** The first `j` corrected batches: this round's, then the first `j - 1`
      of the rounds after it. */
  lemma FixedSweepPrefix(custom: CustomParameters, j: nat)
    requires 0 < j <= MaxLen(custom)
    ensures MaxLen(AfterPop(custom)) == MaxLen(custom) - 1
    ensures Flatten(FixedSweep(custom)[..j]) == Popped(custom) + Flatten(FixedSweep(AfterPop(custom))[..j - 1])
  {
    PoppedIffMaxLen(custom);
    FixedSweepUnfold(custom);
    FlattenTake(Popped(custom), FixedSweep(AfterPop(custom)), j - 1);
  }

  /** The two fields of one round, stated without unfolding the round elsewhere. */
  lemma RoundParts(s: SweepState)
    ensures Round(s).custom == AfterPop(s.custom)
    ensures Round(s).params == s.params + Popped(s.custom)
  {
  }

  lemma Reassociate<T>(p: seq<T>, a: seq<T>, b: seq<T>)
    ensures (p + a) + b == p + (a + b)
  {
  }

  /** One round of the as-written loop pushes exactly the next corrected batch. */
  lemma ResendRound(s: SweepState, j: nat)
    requires 0 < j <= MaxLen(s.custom)
    requires j - 1 <= MaxLen(Round(s).custom)
    requires Rounds(Round(s), j - 1).params == Round(s).params + Flatten(FixedSweep(Round(s).custom)[..j - 1])
    ensures Rounds(s, j).params == s.params + Flatten(FixedSweep(s.custom)[..j])
  {
    RoundParts(s);
    RoundsStep(s, j);
    FixedSweepPrefix(s.custom, j);
    Reassociate(s.params, Popped(s.custom), Flatten(FixedSweep(AfterPop(s.custom))[..j - 1]));
  }

  /** What the code as written has pushed after round `j` is everything the
      corrected sweep sends in its first `j` rounds: earlier batches are re-sent. */
  lemma {:induction false} AsWrittenResendsEarlierBatches(s: SweepState, j: nat)
    requires j <= MaxLen(s.custom)
    ensures Rounds(s, j).params == s.params + Flatten(FixedSweep(s.custom)[..j])
    decreases j
  {
    if j == 0 {
      assert FixedSweep(s.custom)[..0] == [];
    } else {
      MaxLenAfterPop(s.custom);
      AsWrittenResendsEarlierBatches(Round(s), j - 1);
      ResendRound(s, j);
    }
  }

  /** A two-name configuration: the value configured last is probed first. */
  lemma DebugAdminFirstRound()
    ensures Popped([("debug", ["1", "true"]), ("admin", ["yes"])]) == ["debug=true", "admin=yes"]
    ensures AfterPop([("debug", ["1", "true"]), ("admin", ["yes"])]) == [("debug", ["1"]), ("admin", [])]
  {
    PopPair(("debug", ["1", "true"]), ("admin", ["yes"]));
    assert Assignment("debug", "true") == "debug=true";
    assert Assignment("admin", "yes") == "admin=yes";
    assert DropLast(["1", "true"]) == ["1"];
  }

  /** ...and as written the second round re-sends the first round's strings. */
  lemma DebugAdminSecondRound()
    ensures Popped([("debug", ["1"]), ("admin", [])]) == ["debug=1"]
    ensures AfterPop([("debug", ["1"]), ("admin", [])]) == [("debug", []), ("admin", [])]
  {
    PopPair(("debug", ["1"]), ("admin", []));
    assert Assignment("debug", "1") == "debug=1";
  }

  /** That configuration as written: round two re-sends round one's strings,
      and from round two on nothing changes. */
  lemma DebugAdminAsWritten()
    ensures var custom := [("debug", ["1", "true"]), ("admin", ["yes"])];
            && Rounds(Start(custom), 1).params == ["debug=true", "admin=yes"]
            && Rounds(Start(custom), 2).params == ["debug=true", "admin=yes", "debug=1"]
            && Rounds(Start(custom), 3) == Rounds(Start(custom), 2)
  {
    var custom := [("debug", ["1", "true"]), ("admin", ["yes"])];
    var one := SweepState([("debug", ["1"]), ("admin", [])], ["debug=true", "admin=yes"]);
    var two := SweepState([("debug", []), ("admin", [])], ["debug=true", "admin=yes", "debug=1"]);
    DebugAdminFirstRound();
    DebugAdminSecondRound();
    RoundOfDrained(two);
    RoundsSucc(Start(custom), 0);
    RoundsSucc(Start(custom), 1);
    RoundsSucc(Start(custom), 2);
  }

  /** That configuration corrected: two batches, each value once. */
  lemma DebugAdminFixed()
    ensures FixedSweep([("debug", ["1", "true"]), ("admin", ["yes"])]) == [["debug=true", "admin=yes"], ["debug=1"]]
  {
    var custom := [("debug", ["1", "true"]), ("admin", ["yes"])];
    var one := [("debug", ["1"]), ("admin", [])];
    var two := [("debug", []), ("admin", [])];
    DebugAdminFirstRound();
    DebugAdminSecondRound();
    FixedSweepUnfold(custom);
    FixedSweepUnfold(one);
    PoppedIffMaxLen(two);
  }

  /** The inner loop over the custom parameters: each name that still has a
      value gives up its last one, which is pushed onto `params`. */
  method PopEach(custom: CustomParameters, params: seq<string>) returns (custom': CustomParameters, params': seq<string>)
    ensures SweepState(custom', params') == Round(SweepState(custom, params))
  {
    custom', params' := custom, params;
    var i := 0;
    PopEachStart(custom, params);
    while i < |custom'|
      invariant 0 <= i <= |custom|
      invariant custom' == AfterPop(custom[..i]) + custom[i..]
      invariant params' == params + Popped(custom[..i])
    {
      PopEachStep(custom, params, i, custom', params');
      var name := custom'[i].0;
      var values := custom'[i].1;
      if values != [] {
        params' := params' + [Assignment(name, Last(values))];
        custom' := custom'[i := (name, DropLast(values))];
      }
      i := i + 1;
    }
    PopEachDone(custom, params, custom', params');
  }

  /** Before the loop has passed any entry, nothing is popped yet. */
  lemma PopEachStart(custom: CustomParameters, params: seq<string>)
    ensures custom == AfterPop(custom[..0]) + custom[0..]
    ensures params == params + Popped(custom[..0])
  {
    assert custom[..0] == [];
  }

  /** When the loop has passed every entry it has done one round. */
  lemma PopEachDone(custom: CustomParameters, params: seq<string>, now: CustomParameters, pushed: seq<string>)
    requires now == AfterPop(custom[..|custom|]) + custom[|custom|..]
    requires pushed == params + Popped(custom[..|custom|])
    ensures SweepState(now, pushed) == Round(SweepState(custom, params))
  {
    assert custom[..|custom|] == custom;
    assert now == AfterPop(custom);
  }

  /** One step of that loop: popping entry `i` in place keeps the loop's
      picture of the list and of `params`. */
  lemma PopEachStep(custom: CustomParameters, params: seq<string>, i: nat, now: CustomParameters, pushed: seq<string>)
    requires i < |custom|
    requires now == AfterPop(custom[..i]) + custom[i..]
    requires pushed == params + Popped(custom[..i])
    ensures i < |now|
    ensures var name := now[i].0;
            var values := now[i].1;
            && (values != [] ==> now[i := (name, DropLast(values))] == AfterPop(custom[..i + 1]) + custom[i + 1..])
            && (values != [] ==> pushed + [Assignment(name, Last(values))] == params + Popped(custom[..i + 1]))
            && (values == [] ==> now == AfterPop(custom[..i + 1]) + custom[i + 1..])
            && (values == [] ==> pushed == params + Popped(custom[..i + 1]))
  {
    assert custom[..i + 1] == custom[..i] + [custom[i]];
    PopSnoc(custom[..i], custom[i]);
    assert now[i] == custom[i];
    var next := AfterPop(custom[..i + 1]) + custom[i + 1..];
    assert now[i := (custom[i].0, DropLast(custom[i].1))] == next;
  }

  /** Every `check_parameters` call of the sweep succeeded. */
  predicate AllOk(outcomes: seq<Result<Discovery>>)
  {
    forall k :: 0 <= k < |outcomes| ==> outcomes[k].Ok?
  }

  /** The parameters the calls reported, in call order. */
  function Found(outcomes: seq<Result<Discovery>>): seq<FoundParameter>
    requires AllOk(outcomes)
  {
    if outcomes == [] then [] else outcomes[0].value.found + Found(outcomes[1..])
  }

  /** How the sweep ends: the loop was left (only ever with nothing found),
      a `check_parameters` call failed, or the supplied call outcomes ran out
      while the loop was still going. */
  datatype SweepOutcome = Finished(found: seq<FoundParameter>) | Failed(error: string) | Unfinished(found: seq<FoundParameter>)

  /** The loop from state `s` on: `found` is what earlier calls reported and
      `outcomes` are the outcomes of the `check_parameters` calls still to
      come. Gives the outcome and the batches sent from here on. */
  function SweepFrom(s: SweepState, found: seq<FoundParameter>, outcomes: seq<Result<Discovery>>)
    : (SweepOutcome, seq<seq<string>>)
    decreases |outcomes|
  {
    var t := Round(s);
    if t.params == [] then (Finished(found), [])
    else if outcomes == [] then (Unfinished(found), [])
    else match outcomes[0]
      case Err(e) => (Failed(e), [t.params])
      case Ok(d) =>
        var rest := SweepFrom(t, found + d.found, outcomes[1..]);
        (rest.0, [t.params] + rest.1)
  }

  /** `check_non_random_parameters` as written, as a function of the outcomes
      of its `check_parameters` calls. Running out of outcomes stands in for
      a loop that, as written, does not stop. */
  function SweepRun(config: Config, outcomes: seq<Result<Discovery>>): (SweepOutcome, seq<seq<string>>)
  {
    if config.disableCustomParameters then (Finished([]), [])
    else SweepFrom(Start(config.customParameters), [], outcomes)
  }

  /** The `k`-th batch sent is `params` after round `k + 1`, and at most one
      batch goes out per call outcome. */
  lemma {:induction false} SweepFromBatches(c: CustomParameters, n: nat, found: seq<FoundParameter>,
                                            outcomes: seq<Result<Discovery>>)
    ensures var sent := SweepFrom(Rounds(Start(c), n), found, outcomes).1;
            && |sent| <= |outcomes|
            && forall k :: 0 <= k < |sent| ==> sent[k] == Rounds(Start(c), n + k + 1).params
    decreases |outcomes|
  {
    var s := Rounds(Start(c), n);
    var t := Round(s);
    RoundsSucc(Start(c), n);
    if t.params != [] && outcomes != [] && outcomes[0].Ok? {
      var d := outcomes[0].value;
      SweepFromBatches(c, n + 1, found + d.found, outcomes[1..]);
      var rest := SweepFrom(t, found + d.found, outcomes[1..]).1;
      var sent := SweepFrom(s, found, outcomes).1;
      assert sent == [t.params] + rest;
      forall k | 0 <= k < |sent|
        ensures sent[k] == Rounds(Start(c), n + k + 1).params
      {
        if k > 0 {
          assert sent[k] == rest[k - 1];
          assert n + 1 + (k - 1) + 1 == n + k + 1;
        }
      }
    }
  }

  /** `params` only grows, so once a round pushes something the loop never
      exits: it is left exactly when the next round pushes nothing. */
  lemma {:induction false} SweepFromFinished(s: SweepState, found: seq<FoundParameter>, outcomes: seq<Result<Discovery>>)
    ensures SweepFrom(s, found, outcomes).0.Finished? <==> Round(s).params == []
    ensures Round(s).params == [] ==> SweepFrom(s, found, outcomes) == (Finished(found), [])
    decreases |outcomes|
  {
    var t := Round(s);
    if t.params != [] && outcomes != [] && outcomes[0].Ok? {
      var d := outcomes[0].value;
      SweepFromFinished(t, found + d.found, outcomes[1..]);
      assert |Round(t).params| >= |t.params|;
    }
  }

  /** A failure is the outcome of the last call made, and every call before it succeeded. */
  lemma {:induction false} SweepFromFailed(s: SweepState, found: seq<FoundParameter>, outcomes: seq<Result<Discovery>>)
    ensures var (r, sent) := SweepFrom(s, found, outcomes);
            r.Failed? ==> 0 < |sent| <= |outcomes| && AllOk(outcomes[..|sent| - 1])
                          && outcomes[|sent| - 1] == Err(r.error)
    decreases |outcomes|
  {
    var t := Round(s);
    if t.params != [] && outcomes != [] && outcomes[0].Ok? {
      var d := outcomes[0].value;
      SweepFromFailed(t, found + d.found, outcomes[1..]);
      var (r, sent) := SweepFrom(s, found, outcomes);
      var rest := SweepFrom(t, found + d.found, outcomes[1..]).1;
      if r.Failed? {
        assert |sent| == |rest| + 1;
        assert outcomes[..|sent| - 1] == [outcomes[0]] + outcomes[1..][..|rest| - 1];
      }
    }
  }

  /** Running out of outcomes means every call was made and succeeded, and
      what was found is everything they reported, in order. */
  lemma {:induction false} SweepFromUnfinished(s: SweepState, found: seq<FoundParameter>, outcomes: seq<Result<Discovery>>)
    ensures var (r, sent) := SweepFrom(s, found, outcomes);
            r.Unfinished? ==> |sent| == |outcomes| && AllOk(outcomes) && r.found == found + Found(outcomes)
    decreases |outcomes|
  {
    var t := Round(s);
    if t.params != [] && outcomes != [] && outcomes[0].Ok? {
      var d := outcomes[0].value;
      SweepFromUnfinished(t, found + d.found, outcomes[1..]);
      var r := SweepFrom(s, found, outcomes).0;
      if r.Unfinished? {
        assert AllOk(outcomes);
        assert found + d.found + Found(outcomes[1..]) == found + Found(outcomes);
      }
    }
  }

  /** The sweep ends normally only when it is disabled or has nothing to
      probe, and then it has found nothing and sent nothing. */
  lemma SweepRunFinished(config: Config, outcomes: seq<Result<Discovery>>)
    ensures var (r, sent) := SweepRun(config, outcomes);
            && (config.disableCustomParameters ==> r == Finished([]) && sent == [])
            && (r.Finished? <==> config.disableCustomParameters || AllEmpty(config.customParameters))
            && (r.Finished? ==> r.found == [] && sent == [])
  {
    if !config.disableCustomParameters {
      var c := config.customParameters;
      SweepFromFinished(Start(c), [], outcomes);
      PoppedEmpty(c);
      assert Round(Start(c)).params == Popped(c);
    }
  }

  /** The `k`-th batch sent is the `params` of round `k + 1`: the values of
      every earlier round again, plus this round's. */
  lemma SweepRunBatches(config: Config, outcomes: seq<Result<Discovery>>)
    ensures var sent := SweepRun(config, outcomes).1;
            && |sent| <= |outcomes|
            && forall k :: 0 <= k < |sent| ==> sent[k] == Rounds(Start(config.customParameters), k + 1).params
  {
    if !config.disableCustomParameters {
      var c := config.customParameters;
      assert Rounds(Start(c), 0) == Start(c);
      SweepFromBatches(c, 0, [], outcomes);
    }
  }

  /** A failure is the error of the last call made; the calls before it succeeded. */
  lemma SweepRunFailed(config: Config, outcomes: seq<Result<Discovery>>)
    ensures var (r, sent) := SweepRun(config, outcomes);
            r.Failed? ==> 0 < |sent| <= |outcomes| && AllOk(outcomes[..|sent| - 1])
                          && outcomes[|sent| - 1] == Err(r.error) && !AllOk(outcomes)
  {
    if !config.disableCustomParameters {
      SweepFromFailed(Start(config.customParameters), [], outcomes);
    }
  }

  /** Running out of outcomes means every call was made and succeeded, and
      what was found is everything they reported, in call order. */
  lemma SweepRunUnfinished(config: Config, outcomes: seq<Result<Discovery>>)
    ensures var res := SweepRun(config, outcomes);
            res.0.Unfinished? ==> |res.1| == |outcomes| && AllOk(outcomes) && res.0.found == Found(outcomes)
  {
    if !config.disableCustomParameters {
      SweepFromUnfinished(Start(config.customParameters), [], outcomes);
      if SweepRun(config, outcomes).0.Unfinished? {
        assert [] + Found(outcomes) == Found(outcomes);
      }
    }
  }

  /** When anything is configured and every call succeeds, the sweep is
      still going when the outcomes run out: it never ends on its own. */
  lemma SweepRunNeverEnds(config: Config, outcomes: seq<Result<Discovery>>)
    requires !config.disableCustomParameters && !AllEmpty(config.customParameters)
    requires AllOk(outcomes)
    ensures SweepRun(config, outcomes).0.Unfinished?
  {
    SweepRunFinished(config, outcomes);
    SweepRunFailed(config, outcomes);
  }

  /** Where the loop stands: what the whole sweep will give, split into the
      batches already sent and what the loop gives from state `s` on. */
  ghost predicate OnTrack(goal: (SweepOutcome, seq<seq<string>>), sent: seq<seq<string>>, s: SweepState,
                          found: seq<FoundParameter>, rest: seq<Result<Discovery>>)
  {
    var tail := SweepFrom(s, found, rest);
    goal == (tail.0, sent + tail.1)
  }

  /** How the loop leaves, by return or break, once round `t` has been done. */
  lemma SweepExit(goal: (SweepOutcome, seq<seq<string>>), sent: seq<seq<string>>, s: SweepState,
                  found: seq<FoundParameter>, rest: seq<Result<Discovery>>)
    requires OnTrack(goal, sent, s, found, rest)
    ensures Round(s).params == [] ==> goal == (Finished(found), sent)
    ensures Round(s).params != [] && rest == [] ==> goal == (Unfinished(found), sent)
    ensures Round(s).params != [] && rest != [] && rest[0].Err?
            ==> goal == (Failed(rest[0].error), sent + [Round(s).params])
  {
    assert sent + [] == sent;
  }

  /** A successful call: the batch joins `sent`, its findings join `found`. */
  lemma SweepAdvance(goal: (SweepOutcome, seq<seq<string>>), sent: seq<seq<string>>, s: SweepState,
                     found: seq<FoundParameter>, rest: seq<Result<Discovery>>)
    requires OnTrack(goal, sent, s, found, rest)
    requires Round(s).params != [] && rest != [] && rest[0].Ok?
    ensures OnTrack(goal, sent + [Round(s).params], Round(s), found + rest[0].value.found, rest[1..])
  {
    var t := Round(s);
    var tail := SweepFrom(t, found + rest[0].value.found, rest[1..]);
    assert SweepFrom(s, found, rest) == (tail.0, [t.params] + tail.1);
    assert sent + ([t.params] + tail.1) == (sent + [t.params]) + tail.1;
  }

  /** The loop itself: the custom parameters are popped in place round after
      round and each non-empty `params` goes to `check_parameters`, whose
      `k`-th outcome is `outcomes[k]`; `sent` are the batches passed. */
  method CheckNonRandomParameters(config: Config, outcomes: seq<Result<Discovery>>)
    returns (r: SweepOutcome, sent: seq<seq<string>>)
    ensures (r, sent) == SweepRun(config, outcomes)
  {
    var found: seq<FoundParameter> := [];
    sent := [];
    if !config.disableCustomParameters {
      ghost var goal := SweepRun(config, outcomes);
      var custom := config.customParameters;
      var params: seq<string> := [];
      var calls := 0;
      assert outcomes[0..] == outcomes;
      assert goal == SweepFrom(Start(custom), [], outcomes);
      assert sent + goal.1 == goal.1;
      assert OnTrack(goal, sent, Start(custom), found, outcomes[calls..]);
      while true
        invariant calls <= |outcomes|
        invariant OnTrack(goal, sent, SweepState(custom, params), found, outcomes[calls..])
        decreases |outcomes| - calls
      {
        ghost var before := SweepState(custom, params);
        SweepExit(goal, sent, before, found, outcomes[calls..]);
        custom, params := PopEach(custom, params);
        if params == [] {
          break;
        }
        if calls == |outcomes| {
          return Unfinished(found), sent;
        }
        match outcomes[calls]
        case Err(e) =>
          return Failed(e), sent + [params];
        case Ok(d) =>
          SweepAdvance(goal, sent, before, found, outcomes[calls..]);
          assert outcomes[calls..][1..] == outcomes[calls + 1..];
          found := found + d.found;
          sent := sent + [params];
        calls := calls + 1;
      }
    }
    r := Finished(found);
  }
}
