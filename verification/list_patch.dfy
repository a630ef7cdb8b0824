/** The list update both list screens apply after a successful request:
    `xs.map(x => hit(x) ? update(x) : x)`, rewriting the matching entries in place. */
module ListPatch {

  function Patch<T>(xs: seq<T>, hit: T -> bool, update: T -> T): (r: seq<T>)
    ensures |r| == |xs|
    ensures forall i :: 0 <= i < |xs| && hit(xs[i]) ==> r[i] == update(xs[i])
    ensures forall i :: 0 <= i < |xs| && !hit(xs[i]) ==> r[i] == xs[i]
  {
    if |xs| == 0 then []
    else [if hit(xs[0]) then update(xs[0]) else xs[0]] + Patch(xs[1..], hit, update)
  }

  /** When the rewrite fixes every entry it hits, the patch is the identity. */
  lemma PatchFixed<T>(xs: seq<T>, hit: T -> bool, update: T -> T)
    requires forall i :: 0 <= i < |xs| && hit(xs[i]) ==> update(xs[i]) == xs[i]
    ensures Patch(xs, hit, update) == xs
  {
  }

  /** Two patches with the same selector, where the first rewrite keeps entries
      selected and the second rewrite overrides the first, compose to the second. */
  lemma PatchTwice<T>(xs: seq<T>, hit: T -> bool, update1: T -> T, update2: T -> T)
    requires forall i :: 0 <= i < |xs| && hit(xs[i]) ==> hit(update1(xs[i])) && update2(update1(xs[i])) == update2(xs[i])
    ensures Patch(Patch(xs, hit, update1), hit, update2) == Patch(xs, hit, update2)
  {
  }
}
