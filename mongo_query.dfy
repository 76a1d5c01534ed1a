/** The document-store query steps the service chains together, as operations
    on sequences: `find(filter)` keeps the matching documents in order,
    `skip(n)` drops a prefix and `limit(n)` keeps a prefix, where `limit(0)`
    means "no limit". */
module MongoQuery {

  /** `find(filter)`: the documents satisfying `p`, in their original order. */
  function Filter<T(!new)>(s: seq<T>, p: T -> bool): (r: seq<T>)
    ensures |r| <= |s|
    ensures forall x :: x in r <==> x in s && p(x)
  {
    if s == [] then []
    else (if p(s[0]) then [s[0]] else []) + Filter(s[1..], p)
  }

  /** `find` keeps each matching document as often as it occurs and drops
      every other one. */
  lemma {:induction false} FilterCount<T(!new)>(s: seq<T>, p: T -> bool)
    ensures forall x :: multiset(Filter(s, p))[x] == if p(x) then multiset(s)[x] else 0
  {
    if s != [] {
      FilterCount(s[1..], p);
      assert s == [s[0]] + s[1..];
      var head := if p(s[0]) then [s[0]] else [];
      assert multiset(Filter(s, p)) == multiset(head) + multiset(Filter(s[1..], p));
      assert multiset(s) == multiset{s[0]} + multiset(s[1..]);
    }
  }

  /** One step of the scan: the first document is kept or dropped on its own. */
  lemma FilterCons<T(!new)>(x: T, s: seq<T>, p: T -> bool)
    ensures Filter([x] + s, p) == (if p(x) then [x] else []) + Filter(s, p)
  {
    assert ([x] + s)[1..] == s;
  }

  /** Filtering commutes with concatenation, so it never reorders documents. */
  lemma {:induction false} FilterAppend<T(!new)>(s: seq<T>, t: seq<T>, p: T -> bool)
    ensures Filter(s + t, p) == Filter(s, p) + Filter(t, p)
  {
    if s == [] {
      assert s + t == t;
    } else {
      assert (s + t)[0] == s[0];
      assert (s + t)[1..] == s[1..] + t;
      FilterAppend(s[1..], t, p);
    }
  }

  /** A filter and its complement split the collection: together they hold
      every document exactly as often as the collection does. */
  lemma FilterSplit<T(!new)>(s: seq<T>, p: T -> bool, q: T -> bool)
    requires forall x :: q(x) == !p(x)
    ensures multiset(Filter(s, p)) + multiset(Filter(s, q)) == multiset(s)
    ensures forall x :: !(x in Filter(s, p) && x in Filter(s, q))
  {
    var a, b := Filter(s, p), Filter(s, q);
    FilterCount(s, p);
    FilterCount(s, q);
    forall x ensures (multiset(a) + multiset(b))[x] == multiset(s)[x] {
      assert multiset(a)[x] == if p(x) then multiset(s)[x] else 0;
      assert multiset(b)[x] == if q(x) then multiset(s)[x] else 0;
    }
  }

  function Min(a: nat, b: nat): nat
  {
    if a <= b then a else b
  }

  /** `skip(n)` followed by `limit(limit)`, with the offset `page * limit`
      the service computes. A page past the end is empty; `limit == 0` returns
      everything, since the offset is then 0 and the store reads no limit. */
  function Paginate<T>(s: seq<T>, page: nat, limit: nat): (r: seq<T>)
    ensures limit == 0 ==> r == s
    ensures limit > 0 ==> |r| == if page * limit >= |s| then 0 else Min(limit, |s| - page * limit)
    ensures forall k :: 0 <= k < |r| ==> page * limit + k < |s| && r[k] == s[page * limit + k]
    ensures forall x :: x in r ==> x in s
  {
    var skip := page * limit;
    var rest := if skip >= |s| then [] else s[skip..];
    if limit == 0 || limit >= |rest| then rest else rest[..limit]
  }

  /** Every position of the collection is reached by exactly one request:
      position `i` is item `i % limit` of page `i / limit`. */
  lemma PageOfIndex<T>(s: seq<T>, i: nat, limit: nat)
    requires 0 < limit && i < |s|
    ensures i % limit < |Paginate(s, i / limit, limit)|
    ensures Paginate(s, i / limit, limit)[i % limit] == s[i]
  {
    var p, k := i / limit, i % limit;
    assert p * limit + k == i;
    var r := Paginate(s, p, limit);
    assert p * limit <= i < |s|;
    assert k < Min(limit, |s| - p * limit);
  }

  lemma MulStep(p: nat, q: nat, limit: nat)
    requires p < q
    ensures p * limit + limit <= q * limit
  {
    if q == p + 1 {
      assert q * limit == p * limit + limit;
    } else {
      MulStep(p, q - 1, limit);
      assert q * limit == (q - 1) * limit + limit;
    }
  }

  /** Two different pages never read the same position. */
  lemma PagesDisjoint<T>(s: seq<T>, p: nat, q: nat, limit: nat, k1: nat, k2: nat)
    requires 0 < limit && p != q
    requires k1 < |Paginate(s, p, limit)| && k2 < |Paginate(s, q, limit)|
    ensures p * limit + k1 != q * limit + k2
  {
    assert k1 < limit && k2 < limit;
    if p < q {
      MulStep(p, q, limit);
    } else {
      MulStep(q, p, limit);
    }
  }

  /** When the documents are pairwise distinct, no document is listed on two
      different pages. */
  lemma NoDocumentOnTwoPages<T>(s: seq<T>, p: nat, q: nat, limit: nat)
    requires 0 < limit && p != q
    requires forall i, j :: 0 <= i < j < |s| ==> s[i] != s[j]
    ensures forall x :: !(x in Paginate(s, p, limit) && x in Paginate(s, q, limit))
  {
    if p < q {
      MulStep(p, q, limit);
    } else {
      MulStep(q, p, limit);
    }
    PageWithin(s, p, limit);
    PageWithin(s, q, limit);
    DisjointWindows(s, Paginate(s, p, limit), Paginate(s, q, limit), p * limit, q * limit, limit);
  }

  lemma PageWithin<T>(s: seq<T>, page: nat, limit: nat)
    ensures var r := Paginate(s, page, limit); |r| == 0 || page * limit + |r| <= |s|
  {
    var r := Paginate(s, page, limit);
    if |r| > 0 {
      assert page * limit + (|r| - 1) < |s|;
    }
  }

  /** Two windows of at most `limit` items, starting at least `limit` apart,
      share no item of a sequence of distinct items. */
  lemma DisjointWindows<T>(s: seq<T>, a: seq<T>, b: seq<T>, offA: nat, offB: nat, limit: nat)
    requires forall i, j :: 0 <= i < j < |s| ==> s[i] != s[j]
    requires |a| <= limit && |b| <= limit
    requires offA + limit <= offB || offB + limit <= offA
    requires |a| == 0 || offA + |a| <= |s|
    requires |b| == 0 || offB + |b| <= |s|
    requires forall k :: 0 <= k < |a| ==> a[k] == s[offA + k]
    requires forall k :: 0 <= k < |b| ==> b[k] == s[offB + k]
    ensures forall x :: !(x in a && x in b)
  {
    forall x | x in a ensures x !in b {
      var k1 :| 0 <= k1 < |a| && a[k1] == x;
      forall k2 | 0 <= k2 < |b| ensures b[k2] != x {
        var i, j := offA + k1, offB + k2;
        assert a[k1] == s[i] && b[k2] == s[j];
        if i < j {
          assert s[i] != s[j];
        } else {
          assert s[j] != s[i];
        }
      }
    }
  }
}
