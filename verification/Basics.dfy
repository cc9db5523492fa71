/** Value types shared by every part of the model. */
module Basics {

  newtype byte = x: int | 0 <= x < 256

  type Bytes = seq<byte>

  /** Text is its UTF-8 encoding: that is what the Agent compares, sorts and measures. */
  type Text = Bytes

  /** A Job's UUID. */
  type JobId = Bytes

  /** A plugin's id and version. */
  type PluginKey = (Text, Text)

  datatype Option<+T> = None | Some(value: T)

  datatype Result<+T, +E> = Ok(value: T) | Err(error: E)

  const U64_MAX: nat := 0xFFFF_FFFF_FFFF_FFFF

  function Min(a: nat, b: nat): nat {
    if a < b then a else b
  }

  /** The elements of `xs` are pairwise distinct. */
  predicate Distinct<T(==)>(xs: seq<T>) {
    forall i, j :: 0 <= i < j < |xs| ==> xs[i] != xs[j]
  }

  function Elements<T>(xs: seq<T>): set<T> {
    set x | x in xs
  }

  lemma {:induction false} DistinctSize<T>(xs: seq<T>)
    requires Distinct(xs)
    ensures |Elements(xs)| == |xs|
  {
    if xs != [] {
      DistinctSize(xs[1..]);
      assert Elements(xs) == {xs[0]} + Elements(xs[1..]);
      assert xs[0] !in xs[1..];
    }
  }

  lemma MapSize<K, V>(m: map<K, V>)
    ensures |m| == |m.Keys|
  {
  }

  lemma SubsetSize<T>(a: set<T>, b: set<T>)
    requires a <= b
    ensures |a| <= |b|
    ensures |b - a| == |b| - |a|
    ensures |a| == |b| ==> a == b
  {
    assert b == a + (b - a);
  }
}
