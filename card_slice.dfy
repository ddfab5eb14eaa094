/** The in-place splice `CardSlice.remove`: take the element at an index
    out of a slice, closing the gap. Decks, hands and the prophecy reuse
    the same splice. */
module CardSlices {
  import opened Cards

  /** The sequence without its element at `i`. */
  function RemoveAt<T>(s: seq<T>, i: nat): (r: seq<T>)
    requires i < |s|
    ensures |r| == |s| - 1
    ensures forall k {:trigger r[k]} :: 0 <= k < i ==> r[k] == s[k]
    ensures forall k {:trigger r[k]} :: i <= k < |r| ==> r[k] == s[k + 1]
  {
    s[..i] + s[i + 1..]
  }

  /** A sequence is its prefix, the element at `i` and its suffix; removal
      keeps the prefix and the suffix. */
  lemma RemoveAtSplits<T>(s: seq<T>, i: nat)
    requires i < |s|
    ensures s == s[..i] + [s[i]] + s[i + 1..]
    ensures RemoveAt(s, i) == s[..i] + s[i + 1..]
  {
    assert s == s[..i] + [s[i]] + s[i + 1..];
  }

  /** The removed element and what remains make up the original. */
  lemma RemoveAtMultiset<T>(s: seq<T>, i: nat)
    requires i < |s|
    ensures multiset(RemoveAt(s, i)) + multiset{s[i]} == multiset(s)
  {
    assert s == s[..i] + [s[i]] + s[i + 1..];
  }

  /** Two rearrangements of one sequence stay rearrangements of each other
      when the first loses its head and the second an equal element. */
  lemma RemoveMatchingHeads<T>(s: seq<T>, t: seq<T>, k: nat)
    requires multiset(s) == multiset(t) && s != [] && k < |t| && t[k] == s[0]
    ensures multiset(s[1..]) == multiset(RemoveAt(t, k))
  {
    assert s == [s[0]] + s[1..];
    RemoveAtMultiset(t, k);
    assert multiset(s) == multiset{s[0]} + multiset(s[1..]);
    forall y ensures multiset(s[1..])[y] == multiset(RemoveAt(t, k))[y] {
      assert (multiset{s[0]} + multiset(s[1..]))[y] == (multiset(RemoveAt(t, k)) + multiset{t[k]})[y];
    }
  }

  class CardSlice {
    var elems: seq<Card>

    constructor (elems: seq<Card>)
      ensures this.elems == elems
    {
      this.elems := elems;
    }

    /** Removes and returns the element at `i`. */
    method Remove(i: nat) returns (card: Card)
      requires i < |elems|
      modifies this
      ensures card == old(elems)[i]
      ensures elems == RemoveAt(old(elems), i)
    {
      card := elems[i];
      elems := elems[..i] + elems[i + 1..];
    }
  }
}
