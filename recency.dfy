/** The listing order `sort({ updatedAt: -1, _id: -1 })`: most recently
    updated first, and among companies updated at the same instant the larger
    `_id` first. */
module Recency {
  import opened CompanyModel

  /** `a` may be listed before `b`: it was updated later, or at the same
      instant with an id at least as large. */
  predicate NotAfter(a: Company, b: Company)
  {
    a.updatedAt > b.updatedAt || (a.updatedAt == b.updatedAt && a.id >= b.id)
  }

  ghost predicate Sorted(s: seq<Company>)
  {
    forall i, j :: 0 <= i < j < |s| ==> NotAfter(s[i], s[j])
  }

  /** Companies that share an id are the same company. The unique `_id`
      index gives this, and unlike position-based uniqueness it survives
      reordering. */
  ghost predicate SameIdSameCompany(s: seq<Company>)
  {
    forall x, y :: x in s && y in s && x.id == y.id ==> x == y
  }

  lemma UniqueIdsSameCompany(s: seq<Company>)
    requires UniqueIds(s)
    ensures SameIdSameCompany(s)
  {
    forall x, y | x in s && y in s && x.id == y.id ensures x == y {
      var i :| 0 <= i < |s| && s[i] == x;
      var j :| 0 <= j < |s| && s[j] == y;
      assert i == j;
    }
  }

  /** Places `c` into an already ordered sequence. */
  function Insert(c: Company, s: seq<Company>): (r: seq<Company>)
    requires Sorted(s)
    ensures Sorted(r)
    ensures multiset(r) == multiset(s) + multiset{c}
    ensures forall x :: x in r <==> x == c || x in s
  {
    if s == [] then [c]
    else if NotAfter(c, s[0]) then [c] + s
    else
      assert s == [s[0]] + s[1..];
      var t := Insert(c, s[1..]);
      assert forall x | x in s[1..] :: NotAfter(s[0], x);
      assert forall x | x in t :: NotAfter(s[0], x);
      var r := [s[0]] + t;
      assert forall j | 0 < j < |r| :: r[j] == t[j - 1];
      r
  }

  /** The store's sort, as an insertion sort: the result is ordered and holds
      exactly the given companies. */
  function SortByRecency(s: seq<Company>): (r: seq<Company>)
    ensures Sorted(r)
    ensures multiset(r) == multiset(s)
  {
    if s == [] then []
    else
      assert s == [s[0]] + s[1..];
      Insert(s[0], SortByRecency(s[1..]))
  }

  /** The order is deterministic: when ids are unique, two ordered
      arrangements of the same companies are the same sequence. This is what
      the `_id` tie-break buys; by `updatedAt` alone two companies updated at
      the same instant could come in either order. */
  lemma {:induction false} SortedPermutationUnique(a: seq<Company>, b: seq<Company>)
    requires Sorted(a) && Sorted(b)
    requires multiset(a) == multiset(b)
    requires SameIdSameCompany(a)
    ensures a == b
  {
    if a == [] {
      assert |b| == |multiset(b)| == 0;
    } else {
      assert |b| == |multiset(b)| == |multiset(a)| == |a|;
      SameHead(a, b);
      assert a == [a[0]] + a[1..] && b == [b[0]] + b[1..];
      assert multiset(a[1..]) == multiset(a) - multiset{a[0]};
      assert multiset(b[1..]) == multiset(b) - multiset{b[0]};
      SortedPermutationUnique(a[1..], b[1..]);
    }
  }

  /** Both arrangements start with the company that comes first. */
  lemma SameHead(a: seq<Company>, b: seq<Company>)
    requires Sorted(a) && Sorted(b) && a != [] && b != []
    requires multiset(a) == multiset(b)
    requires SameIdSameCompany(a)
    ensures a[0] == b[0]
  {
    assert a[0] in multiset(b);
    var k :| 0 <= k < |b| && b[k] == a[0];
    assert NotAfter(b[0], a[0]);
    assert b[0] in multiset(a);
    var m :| 0 <= m < |a| && a[m] == b[0];
    assert NotAfter(a[0], b[0]);
  }
}
