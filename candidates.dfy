/** Merging the names inferred from the first response into the caller's list
    of candidate parameters. */
module Candidates {
  import opened Seqs
  import opened Structs

  /** The caller's list after each inferred name has been checked in turn and
      appended when not yet present. */
  function Merge(params: seq<string>, inferred: seq<string>): (merged: seq<string>)
    ensures |params| <= |merged| && merged[..|params|] == params
    ensures forall name :: name in merged <==> name in params || name in inferred
    ensures forall name :: name in params ==> multiset(merged)[name] == multiset(params)[name]
    ensures forall name :: name !in params && name in inferred ==> multiset(merged)[name] == 1
  {
    if inferred == [] then params
    else
      var before := Merge(params, DropLast(inferred));
      if Last(inferred) in before then before else before + [Last(inferred)]
  }

  /** The `for param in ... { if !params.contains(&param) { params.push(param) } }`
      loop of construction, on the caller's list. */
  method MergePossibleParameters(params: ParamList, inferred: seq<string>)
    modifies params
    ensures params.items == Merge(old(params.items), inferred)
  {
    var i := 0;
    while i < |inferred|
      invariant 0 <= i <= |inferred|
      invariant params.items == Merge(old(params.items), inferred[..i])
    {
      assert DropLast(inferred[..i + 1]) == inferred[..i];
      if inferred[i] !in params.items {
        params.items := params.items + [inferred[i]];
      }
      i := i + 1;
    }
    assert inferred[..|inferred|] == inferred;
  }
}
