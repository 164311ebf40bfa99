/** Generic facts about sequences that the list-building and scanning loops rely on. */
module Seqs {
  import opened Wrappers

  /** `[f(x) for x in xs]`. */
  function MapSeq<A, B>(f: A -> B, xs: seq<A>): (r: seq<B>)
    ensures |r| == |xs|
    ensures forall i | 0 <= i < |xs| :: r[i] == f(xs[i])
  {
    if xs == [] then [] else MapSeq(f, xs[..|xs| - 1]) + [f(xs[|xs| - 1])]
  }

  /** Mapping one more element appends its image. */
  lemma MapSeqSnoc<A, B>(f: A -> B, xs: seq<A>, i: nat)
    requires i < |xs|
    ensures MapSeq(f, xs[..i + 1]) == MapSeq(f, xs[..i]) + [f(xs[i])]
  {
    assert xs[..i + 1][..i] == xs[..i];
  }

  /** The index of the first element satisfying `p`, if any. */
  function FirstWhere<T>(xs: seq<T>, p: T -> bool): (r: Option<nat>)
    ensures r.Some? ==> r.value < |xs| && p(xs[r.value]) && forall j | 0 <= j < r.value :: !p(xs[j])
    ensures r.None? ==> forall j | 0 <= j < |xs| :: !p(xs[j])
  {
    if xs == [] then None
    else if p(xs[0]) then Some(0)
    else
      match FirstWhere(xs[1..], p)
      case None => None
      case Some(k) => Some(k + 1)
  }

  /** The first index is determined by the scan: `i` satisfies `p` and nothing before it does. */
  lemma FirstWhereIs<T>(xs: seq<T>, p: T -> bool, i: nat)
    requires i < |xs| && p(xs[i]) && forall j | 0 <= j < i :: !p(xs[j])
    ensures FirstWhere(xs, p) == Some(i)
  {
  }

  /** Elements in front that fail `p` only shift the first index. */
  lemma {:induction false} FirstWhereSkip<T>(pre: seq<T>, xs: seq<T>, p: T -> bool)
    requires forall j | 0 <= j < |pre| :: !p(pre[j])
    ensures FirstWhere(pre + xs, p).Some? <==> FirstWhere(xs, p).Some?
    ensures FirstWhere(xs, p).Some? ==> FirstWhere(pre + xs, p) == Some(|pre| + FirstWhere(xs, p).value)
  {
    var r := FirstWhere(xs, p);
    if r.Some? {
      assert (pre + xs)[|pre| + r.value] == xs[r.value];
      forall j | 0 <= j < |pre| + r.value ensures !p((pre + xs)[j]) {
        if j >= |pre| {
          assert (pre + xs)[j] == xs[j - |pre|];
        }
      }
      FirstWhereIs(pre + xs, p, |pre| + r.value);
    } else {
      forall j | 0 <= j < |pre + xs| ensures !p((pre + xs)[j]) {
        if j >= |pre| {
          assert (pre + xs)[j] == xs[j - |pre|];
        }
      }
    }
  }
}
