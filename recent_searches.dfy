/** The recent-searches list of the modal search: the pure list computation
    inside `addToRecentSearches` (prepend the pick, drop old entries with the
    same `id`, keep at most five). */
module RecentSearches {
  import opened Entities
  import opened Seqs

  const Capacity: nat := 5

  /** The test `item.id !== company.id` of the filter, for a fixed `company.id`. */
  function HasOtherId(id: Id): Company -> bool
  {
    (x: Company) => x.id != id
  }

  /** The old entries that survive a pick with identity `id`, in their order. */
  function WithoutId(recents: seq<Company>, id: Id): (r: seq<Company>)
    ensures forall x :: x in r <==> x in recents && x.id != id
    ensures IsSubsequence(r, recents)
  {
    var r := Filter(recents, HasOtherId(id));
    forall x ensures x in r <==> x in recents && x.id != id {
      FilterMembership(recents, HasOtherId(id), x);
    }
    FilterIsSubsequence(recents, HasOtherId(id));
    r
  }

  /** The filter keeps every surviving entry as many times as it occurred and
      no copy of any other, so duplicates are neither merged nor invented. */
  lemma WithoutIdCounts(recents: seq<Company>, id: Id)
    ensures forall x ::
              multiset(WithoutId(recents, id))[x] == (if x.id != id then multiset(recents)[x] else 0)
  {
    forall x
      ensures multiset(WithoutId(recents, id))[x] == (if x.id != id then multiset(recents)[x] else 0)
    {
      FilterCounts(recents, HasOtherId(id), x);
    }
  }

  /** The list `addToRecentSearches(c)` stores: `[c, ...recents.filter(..)].slice(0, 5)`. */
  function WithRecent(recents: seq<Company>, c: Company): (r: seq<Company>)
    ensures 1 <= |r| <= Capacity && r[0] == c
    ensures forall i :: 1 <= i < |r| ==> r[i].id != c.id
  {
    Take([c] + WithoutId(recents, c.id), Capacity)
  }

  /** The entries after the head are the surviving old entries, in their
      original order, cut only as far as the capacity forces. */
  lemma WithRecentTail(recents: seq<Company>, c: Company)
    ensures var r := WithRecent(recents, c);
            var kept := WithoutId(recents, c.id);
            && r[1..] <= kept
            && |r| == (if |kept| < Capacity then 1 + |kept| else Capacity)
            && IsSubsequence(r[1..], recents)
  {
    var r := WithRecent(recents, c);
    var kept := WithoutId(recents, c.id);
    assert r[1..] <= kept;
    PrefixOfSubsequence(r[1..], kept, recents);
  }

  /** Picking a company without an `id` evicts every id-less entry:
      `undefined !== undefined` is false, so all of them fail the filter. */
  lemma IdlessPickEvictsAllIdless(recents: seq<Company>, c: Company)
    requires c.id == Undefined
    ensures var r := WithRecent(recents, c);
            forall i :: 0 <= i < |r| ==> (r[i].id == Undefined <==> i == 0)
  {
  }

  /** Committing the same company twice leaves the list as one commit does. */
  lemma {:induction false} WithRecentIdempotent(recents: seq<Company>, c: Company)
    ensures WithRecent(WithRecent(recents, c), c) == WithRecent(recents, c)
  {
    var once := WithRecent(recents, c);
    var tail := once[1..];
    assert once == [c] + tail;
    // the head is dropped by the second filter, the tail survives it whole
    FilterAppend([c], tail, HasOtherId(c.id));
    assert Filter([c], HasOtherId(c.id)) == [];
    FilterKeepsAll(tail, HasOtherId(c.id));
    assert WithoutId(once, c.id) == tail;
    assert |tail| <= Capacity - 1;
  }

  /** No two entries share an `id` (the list's uniqueness invariant). */
  predicate DistinctIds(s: seq<Company>)
  {
    s == [] || ((forall x :: x in s[1..] ==> x.id != s[0].id) && DistinctIds(s[1..]))
  }

  lemma {:induction false} FilterKeepsDistinct(s: seq<Company>, keep: Company -> bool)
    requires DistinctIds(s)
    ensures DistinctIds(Filter(s, keep))
  {
    if s != [] {
      FilterKeepsDistinct(s[1..], keep);
      if keep(s[0]) {
        var f := Filter(s, keep);
        assert f[1..] == Filter(s[1..], keep);
        forall x | x in f[1..] ensures x.id != f[0].id {
          FilterMembership(s[1..], keep, x);
        }
      }
    }
  }

  lemma {:induction false} PrefixKeepsDistinct(p: seq<Company>, s: seq<Company>)
    requires p <= s && DistinctIds(s)
    ensures DistinctIds(p)
  {
    if p != [] {
      assert p[0] == s[0];
      assert p[1..] <= s[1..];
      PrefixKeepsDistinct(p[1..], s[1..]);
      forall x | x in p[1..] ensures x.id != p[0].id {
        assert x in s[1..];
      }
    }
  }

  /** Adding an entry keeps the ids unique: re-picking moves, never duplicates. */
  lemma {:induction false} WithRecentKeepsIdsDistinct(recents: seq<Company>, c: Company)
    requires DistinctIds(recents)
    ensures DistinctIds(WithRecent(recents, c))
  {
    var r := WithRecent(recents, c);
    var kept := WithoutId(recents, c.id);
    FilterKeepsDistinct(recents, HasOtherId(c.id));
    PrefixKeepsDistinct(r[1..], kept);
    forall x | x in r[1..] ensures x.id != r[0].id {
      assert x in kept;
    }
  }

  /** A full list evicts its oldest entry: [A,B,C,D,E] + F gives [F,A,B,C,D]. */
  lemma EvictsOldest(a: Company, b: Company, c: Company, d: Company, e: Company, f: Company)
    requires f.id != a.id && f.id != b.id && f.id != c.id && f.id != d.id && f.id != e.id
    ensures WithRecent([a, b, c, d, e], f) == [f, a, b, c, d]
  {
    var old5 := [a, b, c, d, e];
    assert Filter(old5, HasOtherId(f.id)) == old5 by {
      FilterKeepsAll(old5, HasOtherId(f.id));
    }
    var all := [f] + old5;
    assert all[..Capacity] == [f, a, b, c, d];
  }

  /** Re-picking an entry moves it to the front: [A,B,C] + B gives [B,A,C]. */
  lemma MovesToFront(a: Company, b: Company, c: Company)
    requires a.id != b.id && c.id != b.id
    ensures WithRecent([a, b, c], b) == [b, a, c]
  {
    var keep := HasOtherId(b.id);
    FilterAppend([a], [b, c], keep);
    FilterAppend([b], [c], keep);
    assert [a, b, c] == [a] + [b, c] && [b, c] == [b] + [c];
  }
}
