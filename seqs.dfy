/** Concatenation of a sequence of sequences, the shape of the batch loop's and the all-results loop's `extend` calls. */
module Seqs {

  /** The elements of `parts`, concatenated in order. */
  function Flatten<T>(parts: seq<seq<T>>): seq<T>
    decreases |parts|
  {
    if parts == [] then [] else Flatten(parts[..|parts| - 1]) + parts[|parts| - 1]
  }

  /** Flattening distributes over concatenation. */
  lemma {:induction false} FlattenAppend<T>(x: seq<seq<T>>, y: seq<seq<T>>)
    ensures Flatten(x + y) == Flatten(x) + Flatten(y)
    decreases |y|
  {
    if y != [] {
      var last := |y| - 1;
      FlattenAppend(x, y[..last]);
      assert (x + y)[..|x + y| - 1] == x + y[..last];
    } else {
      assert x + y == x;
    }
  }

  /** Appending one part appends its elements. */
  lemma FlattenSnoc<T>(parts: seq<seq<T>>, last: seq<T>)
    ensures Flatten(parts + [last]) == Flatten(parts) + last
  {
    assert (parts + [last])[..|parts|] == parts;
  }

  /** The concatenation is empty exactly when every part is. */
  lemma {:induction false} FlattenEmpty<T>(parts: seq<seq<T>>)
    ensures Flatten(parts) == [] <==> forall i :: 0 <= i < |parts| ==> parts[i] == []
    decreases |parts|
  {
    if parts != [] {
      var init := parts[..|parts| - 1];
      FlattenEmpty(init);
      assert forall i :: 0 <= i < |init| ==> init[i] == parts[i];
    }
  }

  /** `x` is an element of one of the parts. */
  ghost predicate InSomePart<T>(x: T, parts: seq<seq<T>>)
  {
    exists i, k :: 0 <= i < |parts| && 0 <= k < |parts[i]| && parts[i][k] == x
  }

  /** Every element of the concatenation is an element of one of the parts. */
  lemma {:induction false} FlattenMember<T>(parts: seq<seq<T>>)
    ensures forall j :: 0 <= j < |Flatten(parts)| ==> InSomePart(Flatten(parts)[j], parts)
    decreases |parts|
  {
    if parts != [] {
      var last := |parts| - 1;
      var init := parts[..last];
      FlattenMember(init);
      var before := Flatten(init);
      assert Flatten(parts) == before + parts[last];
      forall j | 0 <= j < |Flatten(parts)|
        ensures InSomePart(Flatten(parts)[j], parts)
      {
        if j < |before| {
          assert InSomePart(before[j], init);
          var i, k :| 0 <= i < |init| && 0 <= k < |init[i]| && init[i][k] == before[j];
          assert parts[i][k] == init[i][k];
        } else {
          assert parts[last][j - |before|] == Flatten(parts)[j];
        }
      }
    }
  }
}
