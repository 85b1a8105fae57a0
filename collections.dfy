/**
 * The two mutable Java collections the core updates in place: an
 * insertion-ordered set (`LinkedHashSet`) and a list (`ArrayList`). Each is an
 * object whose contents, in iteration order, are the sequence `elems`, so that
 * code holding a reference to the collection sees every change made through
 * another reference.
 */
module Collections {

  /** No element occurs twice. */
  ghost predicate NoDups<T>(s: seq<T>) {
    forall i, j | 0 <= i < j < |s| :: s[i] != s[j]
  }

  /** `add(x)` on an insertion-ordered set with contents `s`: appended only if absent. */
  function Insert<T(==)>(s: seq<T>, x: T): seq<T> {
    if x in s then s else s + [x]
  }

  /** `addAll(xs)`: `add` of every element of `xs`, in the iteration order of `xs`. */
  function InsertAll<T(==)>(s: seq<T>, xs: seq<T>): seq<T>
    decreases |xs|
  {
    if xs == [] then s else Insert(InsertAll(s, xs[..|xs| - 1]), xs[|xs| - 1])
  }

  /** Adding to a set never creates a duplicate. */
  lemma {:induction false} InsertAllNoDups<T>(s: seq<T>, xs: seq<T>)
    requires NoDups(s)
    ensures NoDups(InsertAll(s, xs))
    decreases |xs|
  {
    if xs != [] {
      InsertAllNoDups(s, xs[..|xs| - 1]);
    }
  }

  /**
   * When no element of `xs` is already present and `xs` itself has no
   * duplicates, `addAll` appends `xs` exactly, in its order.
   */
  lemma {:induction false} InsertAllFresh<T>(s: seq<T>, xs: seq<T>)
    requires NoDups(s + xs)
    ensures InsertAll(s, xs) == s + xs
    decreases |xs|
  {
    if xs != [] {
      var init, last := xs[..|xs| - 1], xs[|xs| - 1];
      assert s + xs == (s + init) + [last];
      assert NoDups(s + init) by {
        forall i, j | 0 <= i < j < |s + init|
          ensures (s + init)[i] != (s + init)[j]
        {
          assert (s + init)[i] == (s + xs)[i] && (s + init)[j] == (s + xs)[j];
        }
      }
      InsertAllFresh(s, init);
      assert last !in s + init by {
        forall k | 0 <= k < |s + init|
          ensures (s + init)[k] != last
        {
          assert (s + init)[k] == (s + xs)[k] && last == (s + xs)[|s + xs| - 1];
        }
      }
    }
  }

  /** An insertion-ordered set (`java.util.LinkedHashSet`). */
  class OrderedSet<T(==)> {
    /** The elements in iteration order. */
    var elems: seq<T>

    ghost predicate Valid()
      reads this
    {
      NoDups(elems)
    }

    constructor ()
      ensures Valid() && elems == []
    {
      elems := [];
    }

    /** `clear()`. */
    method Clear()
      modifies this
      ensures Valid() && elems == []
    {
      elems := [];
    }

    /** `add(x)`: answers whether `x` was absent, and appends it if so. */
    method Add(x: T) returns (added: bool)
      requires Valid()
      modifies this
      ensures Valid()
      ensures added <==> x !in old(elems)
      ensures elems == Insert(old(elems), x)
    {
      added := x !in elems;
      if added {
        elems := elems + [x];
      }
    }

    /** `addAll(xs)`: adds each element of `xs` in turn. */
    method AddAll(xs: seq<T>)
      requires Valid()
      modifies this
      ensures Valid()
      ensures elems == InsertAll(old(elems), xs)
    {
      ghost var start := elems;
      for i := 0 to |xs|
        invariant Valid()
        invariant elems == InsertAll(start, xs[..i])
      {
        assert xs[..i + 1][..i] == xs[..i];
        var _ := Add(xs[i]);
      }
      assert xs[..|xs|] == xs;
    }

    /**
     * The replace-in-place idiom of the entry's collection setters: a null
     * argument clears this set; this set itself changes nothing; any other set
     * is copied in after clearing, so this set ends up with exactly its
     * elements, in its iteration order.
     */
    method ReplaceWith(input: OrderedSet?<T>)
      requires Valid()
      requires input != null ==> input.Valid()
      modifies this
      ensures Valid()
      ensures input == null ==> elems == []
      ensures input == this ==> elems == old(elems)
      ensures input != null && input != this ==> elems == old(input.elems)
    {
      if input == null {
        Clear();
        return;
      }
      if input != this {
        Clear();
        AddAll(input.elems);
        InsertAllFresh([], input.elems);
        assert [] + input.elems == input.elems;
      }
    }
  }

  /** A list (`java.util.ArrayList`). */
  class ArrayList<T> {
    /** The elements in order. */
    var elems: seq<T>

    constructor ()
      ensures elems == []
    {
      elems := [];
    }

    /** `clear()`. */
    method Clear()
      modifies this
      ensures elems == []
    {
      elems := [];
    }

    /** `add(x)`. */
    method Add(x: T)
      modifies this
      ensures elems == old(elems) + [x]
    {
      elems := elems + [x];
    }

    /** `addAll(xs)`: the elements of `xs`, as they are when the call is made, appended. */
    method AddAll(xs: seq<T>)
      modifies this
      ensures elems == old(elems) + xs
    {
      elems := elems + xs;
    }
  }
}
