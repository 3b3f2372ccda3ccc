/** Sequence operations the source performs through slicing and through
    loops that append only the successful results of a call. */
module Seqs {
  import opened Wrappers

  /** Python's `s[:n]` for `n >= 0`: the first `n` elements, or all of `s`
      when it is shorter. */
  function Take<T>(s: seq<T>, n: nat): (r: seq<T>)
    ensures |r| == if |s| <= n then |s| else n
    ensures r == s[..|r|]
  {
    if |s| <= n then s else s[..n]
  }

  /** The concatenation of a sequence of sequences, first to last. */
  function Flatten<T>(ss: seq<seq<T>>): seq<T> {
    if ss == [] then [] else ss[0] + Flatten(ss[1..])
  }

  lemma {:induction false} FlattenSnoc<T>(ss: seq<seq<T>>, x: seq<T>)
    ensures Flatten(ss + [x]) == Flatten(ss) + x
  {
    if ss == [] {
      assert [] + [x] == [x];
    } else {
      assert (ss + [x])[1..] == ss[1..] + [x];
      FlattenSnoc(ss[1..], x);
    }
  }

  /** What a loop builds that appends `v` for each `Some(v)` and skips each
      `None`, in order: the values of the successful outcomes. */
  function Successes<T>(os: seq<Option<T>>): (r: seq<T>)
    ensures |r| <= |os|
  {
    if os == [] then []
    else Successes(os[..|os| - 1]) + (if os[|os| - 1].Some? then [os[|os| - 1].value] else [])
  }

  /** The positions of the successful outcomes, in increasing order. */
  function SuccessIndices<T>(os: seq<Option<T>>): (ks: seq<nat>)
    ensures forall j :: 0 <= j < |ks| ==> ks[j] < |os| && os[ks[j]].Some?
    ensures forall k :: 0 <= k < |os| && os[k].Some? ==> k in ks
    ensures forall i, j :: 0 <= i < j < |ks| ==> ks[i] < ks[j]
  {
    if os == [] then []
    else SuccessIndices(os[..|os| - 1]) + (if os[|os| - 1].Some? then [|os| - 1] else [])
  }

  /** The kept values are exactly the successful outcomes, taken in their
      original order: the `j`-th kept value is the outcome at the `j`-th
      successful position. */
  lemma {:induction false} SuccessesSelect<T>(os: seq<Option<T>>)
    ensures |Successes(os)| == |SuccessIndices(os)|
    ensures forall j :: 0 <= j < |Successes(os)| ==> Successes(os)[j] == os[SuccessIndices(os)[j]].value
  {
    if os != [] {
      var init := os[..|os| - 1];
      SuccessesSelect(init);
      forall j | 0 <= j < |SuccessIndices(init)|
        ensures Successes(init)[j] == os[SuccessIndices(init)[j]].value
      {
        assert os[SuccessIndices(init)[j]] == init[SuccessIndices(init)[j]];
      }
    }
  }

  /** When every outcome succeeds nothing is dropped. */
  lemma {:induction false} SuccessesAllOk<T>(os: seq<Option<T>>)
    requires forall k :: 0 <= k < |os| ==> os[k].Some?
    ensures |Successes(os)| == |os|
    ensures forall k :: 0 <= k < |os| ==> Successes(os)[k] == os[k].value
  {
    if os != [] {
      SuccessesAllOk(os[..|os| - 1]);
    }
  }

  /** When every outcome fails nothing is kept. */
  lemma {:induction false} SuccessesAllFailed<T>(os: seq<Option<T>>)
    requires forall k :: 0 <= k < |os| ==> os[k].None?
    ensures Successes(os) == []
  {
    if os != [] {
      SuccessesAllFailed(os[..|os| - 1]);
    }
  }
}
