/** `DoubleArrayList`: a growable buffer of doubles, used by the chart reader
    for the X column whose length is not known in advance. */
module DoubleArrayLists {

  /** The capacity `ensureCapacityInternal` grows to: one and a half times
      the old capacity (`old + (old >> 1)`), or `minCapacity` when that is
      larger. */
  function NewCapacity(oldCapacity: nat, minCapacity: nat): (c: nat)
    ensures c >= minCapacity
    ensures c >= oldCapacity + oldCapacity / 2
    ensures c == minCapacity || c == oldCapacity + oldCapacity / 2
  {
    var grown := oldCapacity + oldCapacity / 2;
    if grown < minCapacity then minCapacity else grown
  }

  /** Growing by one element from a non-empty buffer of capacity at least 2
      always uses the one-and-a-half rule, and strictly enlarges the buffer. */
  lemma GrowByOne(oldCapacity: nat)
    requires oldCapacity >= 2
    ensures NewCapacity(oldCapacity, oldCapacity + 1) == oldCapacity + oldCapacity / 2
    ensures NewCapacity(oldCapacity, oldCapacity + 1) > oldCapacity
  {
  }

  /** `Arrays.copyOf(src, n)`: a fresh array of length `n` holding the first
      elements of `src`, padded with zeros. */
  method CopyOf(src: array<real>, n: nat) returns (dst: array<real>)
    ensures fresh(dst) && dst.Length == n
    ensures forall i :: 0 <= i < n && i < src.Length ==> dst[i] == src[i]
    ensures forall i :: src.Length <= i < n ==> dst[i] == 0.0
  {
    dst := new real[n];
    var i := 0;
    while i < n
      invariant 0 <= i <= n
      invariant forall k :: 0 <= k < i && k < src.Length ==> dst[k] == src[k]
      invariant forall k :: src.Length <= k < i ==> dst[k] == 0.0
    {
      dst[i] := if i < src.Length then src[i] else 0.0;
      i := i + 1;
    }
  }

  class DoubleArrayList {
    var elementData: array<real>
    var size: nat

    ghost predicate Valid()
      reads this
    {
      size <= elementData.Length
    }

    /** The elements added so far, in order. */
    ghost function Contents(): seq<real>
      reads this, elementData
      requires Valid()
    {
      elementData[..size]
    }

    /** A new list is empty, with room for ten elements. */
    constructor ()
      ensures Valid() && fresh(elementData)
      ensures elementData.Length == 10 && size == 0
      ensures Contents() == []
    {
      elementData := new real[10];
      size := 0;
    }

    /** `ensureCapacityInternal`: regrows the buffer, keeping the elements,
        only when `minCapacity` exceeds the current capacity. */
    method EnsureCapacityInternal(minCapacity: nat)
      requires Valid()
      modifies this`elementData
      ensures Valid() && Contents() == old(Contents())
      ensures old(elementData.Length) < minCapacity ==>
                fresh(elementData) &&
                elementData.Length == NewCapacity(old(elementData.Length), minCapacity)
      ensures minCapacity <= old(elementData.Length) ==> elementData == old(elementData)
      ensures elementData.Length >= minCapacity
    {
      if minCapacity - elementData.Length > 0 {
        var oldCapacity := elementData.Length;
        var newCapacity := NewCapacity(oldCapacity, minCapacity);
        elementData := CopyOf(elementData, newCapacity);
        assert elementData[..size] == old(elementData[..size]);
      }
    }

    /** `add(e)`: appends `e`; the earlier elements stay where they were. */
    method Add(e: real)
      requires Valid()
      modifies this, elementData
      ensures Valid()
      ensures Contents() == old(Contents()) + [e]
      ensures size == old(size) + 1
      ensures old(size) < old(elementData.Length) ==> elementData == old(elementData)
      ensures old(elementData.Length) <= old(size) ==>
                fresh(elementData) &&
                elementData.Length == NewCapacity(old(elementData.Length), old(size) + 1)
    {
      EnsureCapacityInternal(size + 1);
      elementData[size] := e;
      size := size + 1;
    }

    /** `toArray()`: exactly the elements added; the backing array itself
        when it is full, a fresh copy otherwise. */
    method ToArray() returns (a: array<real>)
      requires Valid()
      ensures a[..] == Contents()
      ensures size == elementData.Length ==> a == elementData
      ensures size != elementData.Length ==> fresh(a)
    {
      if elementData.Length == size {
        a := elementData;
      } else {
        a := CopyOf(elementData, size);
        assert a[..] == elementData[..size];
      }
    }
  }
}
