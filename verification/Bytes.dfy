/** Byte strings and `bytes.find`. */
module Bytes {
  import opened Basics

  type Byte = b: int | 0 <= b < 256

  ghost predicate Lacks(text: seq<Byte>, pattern: seq<Byte>) {
    forall i: nat :: i <= |text| ==> !At(text, i, pattern)
  }

  lemma SliceOfTail(text: seq<Byte>, i: nat, j: nat)
    requires 1 <= i <= j <= |text|
    ensures text[1..][i - 1..j - 1] == text[i..j]
  {
    var tail := text[1..];
    assert |tail[i - 1..j - 1]| == |text[i..j]|;
    forall k | 0 <= k < j - i ensures tail[i - 1..j - 1][k] == text[i..j][k] {
      assert tail[i - 1 + k] == text[i + k];
    }
  }

  lemma AtInTail(text: seq<Byte>, pattern: seq<Byte>)
    requires text != []
    ensures forall i: nat :: 1 <= i <= |text| ==> (At(text, i, pattern) <==> At(text[1..], i - 1, pattern))
  {
    forall i: nat | 1 <= i <= |text| ensures At(text, i, pattern) <==> At(text[1..], i - 1, pattern) {
      if i + |pattern| <= |text| { SliceOfTail(text, i, i + |pattern|); }
    }
  }

  /** The position of the first occurrence. */
  function First(text: seq<Byte>, pattern: seq<Byte>): (r: Option<nat>)
    ensures r.Some? ==> r.value <= |text| && At(text, r.value, pattern) && forall i: nat :: i < r.value ==>
      !At(text, i, pattern)
    ensures r.None? <==> Lacks(text, pattern)
  {
    if At(text, 0, pattern) then Some(0)
    else if text == [] then None
    else
      var rest := First(text[1..], pattern);
      AtInTail(text, pattern);
      if rest.Some? then Some(rest.value + 1) else None
  }

  lemma FirstIs(text: seq<Byte>, pattern: seq<Byte>, k: nat)
    requires At(text, k, pattern) && forall i: nat :: i < k ==> !At(text, i, pattern)
    ensures First(text, pattern) == Some(k)
  {
  }
}
