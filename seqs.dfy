/** Small sequence helpers shared by the other modules. */
module Seqs {

  function Last<T>(s: seq<T>): T
    requires s != []
  {
    s[|s| - 1]
  }

  /** `s` without its last element; `Vec::pop` leaves this behind. */
  function DropLast<T>(s: seq<T>): seq<T>
  {
    if s == [] then [] else s[..|s| - 1]
  }

  /** Putting the last element back gives the sequence again. */
  lemma DropLastThenLast<T>(s: seq<T>)
    requires s != []
    ensures DropLast(s) + [Last(s)] == s
  {
  }

  /** Concatenation of a sequence of sequences, front to back. */
  function Flatten<T>(ss: seq<seq<T>>): seq<T>
  {
    if ss == [] then [] else ss[0] + Flatten(ss[1..])
  }

  lemma FlattenCons<T>(x: seq<T>, ys: seq<seq<T>>)
    ensures Flatten([x] + ys) == x + Flatten(ys)
  {
    assert ([x] + ys)[1..] == ys;
  }

  /** The first `k + 1` pieces of `[x] + ys` are `x` and the first `k` of `ys`. */
  lemma FlattenTake<T>(x: seq<T>, ys: seq<seq<T>>, k: nat)
    requires k <= |ys|
    ensures Flatten(([x] + ys)[..k + 1]) == x + Flatten(ys[..k])
  {
    assert ([x] + ys)[..k + 1] == [x] + ys[..k];
    FlattenCons(x, ys[..k]);
  }
}
