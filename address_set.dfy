/**
 * BTreeSet<Address>: a set of addresses kept in ascending byte order. It is
 * modelled as the sequence the set iterates in, strictly increasing, so
 * duplicates cannot occur and the order of insertion does not matter.
 */
module AddressSet {
  import opened Primitives

  predicate StrictlySorted(s: seq<Address>)
  {
    forall i, j :: 0 <= i < j < |s| ==> Below(s[i], s[j])
  }

  function Elements(s: seq<Address>): set<Address>
  {
    set x | x in s
  }

  /** BTreeSet::insert: an address already present leaves the set as it was. */
  function Insert(s: seq<Address>, x: Address): (r: seq<Address>)
    requires StrictlySorted(s)
    ensures StrictlySorted(r)
    ensures Elements(r) == Elements(s) + {x}
    ensures forall y | y in r :: y == x || y in s
  {
    if s == [] then [x]
    else if x == s[0] then s
    else if Below(x, s[0]) then
      BelowHead(x, s);
      [x] + s
    else
      BelowTotal(x, s[0]);
      var rest := Insert(s[1..], x);
      assert forall y | y in rest :: Below(s[0], y);
      ElementsOfTail(s);
      [s[0]] + rest
  }

  /** An address below the least element is below every element. */
  lemma BelowHead(x: Address, s: seq<Address>)
    requires StrictlySorted(s) && s != [] && Below(x, s[0])
    ensures StrictlySorted([x] + s)
  {
    forall j | 0 <= j < |s| ensures Below(x, s[j]) {
      if j > 0 { BelowTransitive(x, s[0], s[j]); }
    }
  }

  lemma ElementsOfTail(s: seq<Address>)
    requires s != []
    ensures Elements(s) == {s[0]} + Elements(s[1..])
  {
    assert s == [s[0]] + s[1..];
  }

  /** FromIterator for BTreeSet: insert the addresses in the order given. */
  function FromSeq(xs: seq<Address>): (r: seq<Address>)
    ensures StrictlySorted(r)
    ensures Elements(r) == Elements(xs)
  {
    if xs == [] then []
    else
      var init := xs[..|xs| - 1];
      assert xs == init + [xs[|xs| - 1]];
      Insert(FromSeq(init), xs[|xs| - 1])
  }

  /** Inserting an address larger than every element appends it. */
  lemma {:induction false} InsertLast(s: seq<Address>, x: Address)
    requires StrictlySorted(s)
    requires forall y | y in s :: Below(y, x)
    ensures Insert(s, x) == s + [x]
  {
    if s != [] {
      BelowAsymmetric(s[0], x);
      assert x != s[0] by { BelowIrreflexive(x); }
      InsertLast(s[1..], x);
      assert [s[0]] + (s[1..] + [x]) == s + [x];
    }
  }

  /** Collecting the elements of a set, in iteration order, rebuilds the same set. */
  lemma {:induction false} FromSortedSeq(s: seq<Address>)
    requires StrictlySorted(s)
    ensures FromSeq(s) == s
  {
    if s != [] {
      var init := s[..|s| - 1];
      FromSortedSeq(init);
      InsertLast(init, s[|s| - 1]);
      assert init + [s[|s| - 1]] == s;
    }
  }

  /** A set has exactly one sorted form: two sorted sequences with the same elements are equal. */
  lemma {:induction false} SortedUnique(s: seq<Address>, t: seq<Address>)
    requires StrictlySorted(s) && StrictlySorted(t)
    requires Elements(s) == Elements(t)
    ensures s == t
  {
    if s != [] && t != [] {
      assert s[0] in Elements(t) && t[0] in Elements(s);
      if s[0] != t[0] {
        var i :| 0 <= i < |t| && t[i] == s[0];
        var k :| 0 <= k < |s| && s[k] == t[0];
        BelowAsymmetric(s[0], t[0]);
        assert false;
      }
      ElementsOfTail(s);
      ElementsOfTail(t);
      assert s[0] !in Elements(s[1..]) by {
        if s[0] in Elements(s[1..]) { BelowIrreflexive(s[0]); }
      }
      assert t[0] !in Elements(t[1..]) by {
        if t[0] in Elements(t[1..]) { BelowIrreflexive(t[0]); }
      }
      assert Elements(s[1..]) == Elements(t[1..]);
      SortedUnique(s[1..], t[1..]);
      assert s == [s[0]] + s[1..] && t == [t[0]] + t[1..];
    } else {
      NoElements(s);
      NoElements(t);
    }
  }

  lemma NoElements(s: seq<Address>)
    ensures Elements(s) == {} <==> s == []
  {
    if s != [] {
      assert s[0] in Elements(s);
    }
  }

  /** The set built from a list depends only on which addresses the list holds. */
  lemma FromSeqCanonical(xs: seq<Address>, ys: seq<Address>)
    requires Elements(xs) == Elements(ys)
    ensures FromSeq(xs) == FromSeq(ys)
  {
    SortedUnique(FromSeq(xs), FromSeq(ys));
  }
}
