/** `SettableFuture<V>`: a value that can be set once, with an ordered list
    of subscribed callbacks that are told the value when it arrives.

    Callbacks are compared by identity in the source (`==` on references);
    here they are values of a type `C` with equality. Each compare-and-set
    retry loop is modelled as one atomic step, and the dispatch of a callback
    (directly or through the main looper) as an entry appended to the
    `deliveries` log. */
module SettableFutures {
  import opened JavaLang

  // ------------------------------------------------ arrays of callbacks

  /** `glue(src, newElement)`: a copy of `src` with one more element at the end. */
  function Glue<C>(src: seq<C>, newElement: C): (dst: seq<C>)
    ensures |dst| == |src| + 1
    ensures dst[..|src|] == src && dst[|src|] == newElement
  {
    src + [newElement]
  }

  /** The search loop of `without`: the index of the first element equal to
      `victim`, or -1 when there is none. */
  function FirstIndex<C(==)>(src: seq<C>, victim: C): (idx: int)
    ensures idx == -1 <==> victim !in src
    ensures idx != -1 ==> 0 <= idx < |src| && src[idx] == victim
    ensures idx != -1 ==> forall j :: 0 <= j < idx ==> src[j] != victim
    decreases |src|
  {
    if |src| == 0 then -1
    else if src[0] == victim then 0
    else
      var rest := FirstIndex(src[1..], victim);
      if rest == -1 then -1 else rest + 1
  }

  /** `without(src, victim)`: `src` itself when `victim` is absent, otherwise
      a copy one shorter with the first occurrence removed. */
  function Without<C(==)>(src: seq<C>, victim: C): (dst: seq<C>)
    ensures victim !in src ==> dst == src
    ensures victim in src ==> |dst| == |src| - 1
    ensures victim in src ==> multiset(dst) == multiset(src) - multiset{victim}
  {
    var idx := FirstIndex(src, victim);
    if idx == -1 then src
    else
      assert src == src[..idx] + [src[idx]] + src[idx + 1..];
      src[..idx] + src[idx + 1..]
  }

  /** `without` keeps the other elements in order: the elements before the
      first occurrence stay in place and the ones after it move down by one. */
  lemma WithoutKeepsOrder<C>(src: seq<C>, victim: C, i: int)
    requires victim in src && 0 <= i < |src| - 1
    ensures var idx := FirstIndex(src, victim);
            Without(src, victim)[i] == if i < idx then src[i] else src[i + 1]
  {
  }

  /** The identity test `prev.second == newCallbacks` in `unsubscribe`:
      `without` returns its argument exactly when the victim is absent. */
  lemma WithoutUnchangedIff<C>(src: seq<C>, victim: C)
    ensures Without(src, victim) == src <==> victim !in src
  {
    if victim in src {
      assert |Without(src, victim)| != |src|;
    }
  }

  /** Removing a callback that was just glued on, and was not there before,
      gives back the original array. */
  lemma WithoutUndoesGlue<C>(src: seq<C>, c: C)
    requires c !in src
    ensures Without(Glue(src, c), c) == src
  {
    var g := Glue(src, c);
    assert forall j :: 0 <= j < |src| ==> g[j] != c;
    assert FirstIndex(g, c) == |src|;
    assert g[..|src|] == src;
  }

  /** What `notify(callbacks, value)` dispatches: each callback in order,
      each with the value. */
  function Deliveries<C, V>(callbacks: seq<C>, value: Option<V>): (d: seq<(C, Option<V>)>)
    ensures |d| == |callbacks|
    ensures forall i :: 0 <= i < |d| ==> d[i] == (callbacks[i], value)
  {
    seq(|callbacks|, i requires 0 <= i < |callbacks| => (callbacks[i], value))
  }

  // ------------------------------------------------------------ the future

  /** `android.util.Pair<V, ValueCallback<V>[]>`, with `null` as `None`. */
  datatype Pair<V, C> = Pair(first: Option<V>, second: Option<seq<C>>)

  class SettableFuture<V, C(==)> {
    /** The contents of the `AtomicReference`; `None` is `null`. */
    var ref: Option<Pair<V, C>>
    /** Every callback invocation so far, in order. */
    var deliveries: seq<(C, Option<V>)>

    /** The value held, `None` while no non-null value has been set. */
    function Value(): Option<V>
      reads this
    {
      if ref.None? then None else ref.value.first
    }

    /** The subscribed callbacks, in subscription order. */
    function Callbacks(): seq<C>
      reads this
    {
      if ref.None? || ref.value.second.None? then [] else ref.value.second.value
    }

    constructor ()
      ensures ref == None && deliveries == []
    {
      ref := None;
      deliveries := [];
    }

    /** `notify(callbacks, value)`: runs the callbacks in order. */
    method Notify(callbacks: seq<C>, value: Option<V>)
      modifies this`deliveries
      ensures deliveries == old(deliveries) + Deliveries(callbacks, value)
    {
      var i := 0;
      while i < |callbacks|
        invariant 0 <= i <= |callbacks|
        invariant deliveries == old(deliveries) + Deliveries(callbacks[..i], value)
      {
        deliveries := deliveries + [(callbacks[i], value)];
        i := i + 1;
        assert Deliveries(callbacks[..i], value)
            == Deliveries(callbacks[..i - 1], value) + [(callbacks[i - 1], value)];
      }
      assert callbacks[..i] == callbacks;
    }

    /** `set(value)`: succeeds only while no non-null value is held; the
        callbacks are kept and each is told the value, in order. A failed
        `set` changes nothing. */
    method Set(value: Option<V>) returns (ok: bool)
      modifies this
      ensures ok <==> old(Value()).None?
      ensures !ok ==> ref == old(ref) && deliveries == old(deliveries)
      ensures ok ==> Value() == value && Callbacks() == old(Callbacks())
      ensures ok ==> deliveries == old(deliveries) + Deliveries(old(Callbacks()), value)
      ensures ok ==> ref.Some? && ref.value.second == (if old(ref).None? then None else old(ref).value.second)
    {
      var prev := ref;
      var next;
      if prev.None? {
        next := Pair(value, None);
      } else if prev.value.first.None? {
        next := Pair(value, prev.value.second);
      } else {
        return false;
      }
      ref := Some(next);
      if prev.Some? && prev.value.second.Some? {
        Notify(prev.value.second.value, value);
      }
      return true;
    }

    /** `subscribe(callback)`: appends the callback after the existing ones;
        when a value is already held, only the new callback is told it. The
        value is left as it was. */
    method Subscribe(callback: C)
      modifies this
      ensures Value() == old(Value())
      ensures Callbacks() == old(Callbacks()) + [callback]
      ensures ref.Some? && ref.value.second.Some?
      ensures old(Value()).None? ==> deliveries == old(deliveries)
      ensures old(Value()).Some? ==> deliveries == old(deliveries) + [(callback, old(Value()))]
    {
      var prev := ref;
      var next;
      if prev.None? {
        next := Pair(None, Some([callback]));
      } else if prev.value.second.None? {
        next := Pair(prev.value.first, Some([callback]));
      } else {
        next := Pair(prev.value.first, Some(Glue(prev.value.second.value, callback)));
      }
      ref := Some(next);
      if prev.Some? && prev.value.first.Some? {
        Notify([callback], prev.value.first);
      }
    }

    /** `unsubscribe(victim)`: removes the first subscription of `victim`;
        returns false, changing nothing, when there are no callbacks or
        `victim` is not among them. The value is left as it was. */
    method Unsubscribe(victim: C) returns (removed: bool)
      modifies this`ref
      ensures removed <==> victim in old(Callbacks())
      ensures !removed ==> ref == old(ref)
      ensures Value() == old(Value())
      ensures Callbacks() == Without(old(Callbacks()), victim)
    {
      var prev := ref;
      if prev.None? || prev.value.second.None? {
        return false;
      }
      var newCallbacks := Without(prev.value.second.value, victim);
      WithoutUnchangedIff(prev.value.second.value, victim);
      if prev.value.second.value == newCallbacks {
        return false;
      }
      ref := Some(Pair(prev.value.first, Some(newCallbacks)));
      return true;
    }
  }
}
