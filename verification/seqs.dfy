/** Sequence helpers that stand for Python list comprehensions and loops. */
module Seqs {
  import opened Results

  /** `[f(x) for x in xs]` for an `f` that cannot raise. */
  function Map<A, B>(f: A -> B, xs: seq<A>): (r: seq<B>)
    ensures |r| == |xs|
    ensures forall i :: 0 <= i < |xs| ==> r[i] == f(xs[i])
  {
    seq(|xs|, i requires 0 <= i < |xs| => f(xs[i]))
  }

  /** `[f(x) for x in xs]` for an `f` that may raise: the first element whose
      conversion raises aborts the whole list with that error. */
  function MapAll<A, B, E>(f: A -> Result<B, E>, xs: seq<A>): (r: Result<seq<B>, E>)
    ensures r.Success? <==> forall i :: 0 <= i < |xs| ==> f(xs[i]).Success?
    ensures r.Success? ==> |r.value| == |xs|
    ensures r.Success? ==> forall i :: 0 <= i < |xs| ==> f(xs[i]) == Success(r.value[i])
    ensures r.Failure? ==>
      exists k :: 0 <= k < |xs| && f(xs[k]) == Failure(r.error)
                  && forall j :: 0 <= j < k ==> f(xs[j]).Success?
    decreases |xs|
  {
    if |xs| == 0 then Success([])
    else
      match f(xs[0])
      case Failure(e) => Failure(e)
      case Success(y) =>
        match MapAll(f, xs[1..])
        case Failure(e) =>
          assert forall j :: 1 <= j < |xs| ==> xs[1..][j - 1] == xs[j];
          Failure(e)
        case Success(ys) => Success([y] + ys)
  }

  /** The concatenation of every group, in order. */
  function Flatten<T>(groups: seq<seq<T>>): (r: seq<T>)
    decreases |groups|
  {
    if |groups| == 0 then [] else groups[0] + Flatten(groups[1..])
  }

  /** The sum of the group lengths. */
  function TotalLength<T>(groups: seq<seq<T>>): nat
    decreases |groups|
  {
    if |groups| == 0 then 0 else |groups[0]| + TotalLength(groups[1..])
  }

  /** Where group `k` starts inside `Flatten(groups)`. */
  function Offset<T>(groups: seq<seq<T>>, k: nat): nat
    requires k <= |groups|
  {
    TotalLength(groups[..k])
  }

  lemma {:induction false} FlattenLength<T>(groups: seq<seq<T>>)
    ensures |Flatten(groups)| == TotalLength(groups)
    decreases |groups|
  {
    if |groups| > 0 {
      FlattenLength(groups[1..]);
    }
  }

  lemma {:induction false} FlattenAppend<T>(a: seq<seq<T>>, b: seq<seq<T>>)
    ensures Flatten(a + b) == Flatten(a) + Flatten(b)
    decreases |a|
  {
    if |a| == 0 {
      assert a + b == b;
    } else {
      assert (a + b)[1..] == a[1..] + b;
      FlattenAppend(a[1..], b);
    }
  }

  /** Group `k` occupies `Flatten(groups)` from `Offset(groups, k)` on:
      flattening keeps every element and the encounter order. */
  lemma {:induction false} FlattenSlice<T>(groups: seq<seq<T>>, k: nat)
    requires k < |groups|
    ensures Offset(groups, k) + |groups[k]| <= |Flatten(groups)|
    ensures Flatten(groups)[Offset(groups, k)..Offset(groups, k) + |groups[k]|] == groups[k]
  {
    var before := groups[..k];
    var rest := groups[k..];
    assert groups == before + rest;
    FlattenAppend(before, rest);
    FlattenLength(before);
    assert Flatten(rest) == groups[k] + Flatten(rest[1..]);
  }

  lemma FlattenAt<T>(groups: seq<seq<T>>, k: nat, i: nat)
    requires k < |groups| && i < |groups[k]|
    ensures Offset(groups, k) + i < |Flatten(groups)|
    ensures Flatten(groups)[Offset(groups, k) + i] == groups[k][i]
  {
    var flat, o := Flatten(groups), Offset(groups, k);
    FlattenSlice(groups, k);
    assert flat[o..o + |groups[k]|][i] == flat[o + i];
  }

  /** Element `i` of group `k` is element `Offset(groups, k) + i` of the
      flattened sequence. */
  lemma FlattenPositions<T>(groups: seq<seq<T>>)
    ensures |Flatten(groups)| == TotalLength(groups)
    ensures forall k: int :: 0 <= k < |groups| ==> Offset(groups, k) + |groups[k]| <= |Flatten(groups)|
    ensures forall k: int, i: int :: 0 <= k < |groups| && 0 <= i < |groups[k]| ==>
      Flatten(groups)[Offset(groups, k) + i] == groups[k][i]
  {
    FlattenLength(groups);
    forall k: int | 0 <= k < |groups|
      ensures Offset(groups, k) + |groups[k]| <= |Flatten(groups)|
    {
      FlattenSlice(groups, k);
    }
    forall k: int, i: int | 0 <= k < |groups| && 0 <= i < |groups[k]|
      ensures Flatten(groups)[Offset(groups, k) + i] == groups[k][i]
    {
      FlattenAt(groups, k, i);
    }
  }

  /** `sep.join(parts)`: the parts in order with `sep` between neighbours. */
  function Join<T>(sep: seq<T>, parts: seq<seq<T>>): (r: seq<T>)
    ensures |parts| == 0 ==> r == []
    ensures |parts| == 1 ==> r == parts[0]
    ensures |parts| > 0 ==> |r| == TotalLength(parts) + |sep| * (|parts| - 1)
    ensures |parts| > 0 ==> r[..|parts[0]|] == parts[0]
    decreases |parts|
  {
    if |parts| == 0 then []
    else if |parts| == 1 then parts[0]
    else parts[0] + sep + Join(sep, parts[1..])
  }

  /** Joining two non-empty runs of parts puts one separator between the two
      joined runs. */
  lemma {:induction false} JoinAppend<T>(sep: seq<T>, a: seq<seq<T>>, b: seq<seq<T>>)
    requires |a| > 0 && |b| > 0
    ensures Join(sep, a + b) == Join(sep, a) + sep + Join(sep, b)
    decreases |a|
  {
    if |a| == 1 {
      assert (a + b)[1..] == b;
    } else {
      assert (a + b)[1..] == a[1..] + b;
      JoinAppend(sep, a[1..], b);
    }
  }
}
