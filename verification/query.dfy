/**
 * The part of MongoDB's `find` that the repository and the handler rely on:
 * an equality filter, a single-field sort, `skip` and `limit`, and counting.
 * Documents are kept in the collection's natural (insertion) order; a sort
 * keeps documents with equal keys in that order.
 */
module Query {
  import opened Wrappers

  /**
   * A sort key as MongoDB compares it for the fields used here: a missing or
   * null field sorts before every number or date, which are compared by value
   * (dates as their instant).
   */
  datatype Key = Null | Num(n: int)

  predicate KeyLe(a: Key, b: Key) {
    match (a, b)
    case (Null, _) => true
    case (Num(_), Null) => false
    case (Num(x), Num(y)) => x <= y
  }

  /** Sort direction: 1 (ascending) or -1 (descending) in a BSON sort document. */
  datatype Direction = Asc | Desc

  /** `a` may come before `b` in a result sorted in direction `dir`. */
  predicate InOrder(a: Key, b: Key, dir: Direction) {
    if dir == Asc then KeyLe(a, b) else KeyLe(b, a)
  }

  lemma InOrderTotal(a: Key, b: Key, dir: Direction)
    ensures InOrder(a, b, dir) || InOrder(b, a, dir)
  {
  }

  /** Every pair of documents is in order under `key` and `dir`. */
  ghost predicate Sorted<T>(s: seq<T>, key: T -> Key, dir: Direction) {
    forall i, j :: 0 <= i < j < |s| ==> InOrder(key(s[i]), key(s[j]), dir)
  }

  /** Inserts `x` before the first document it may precede (after the equal ones it follows). */
  function Insert<T>(x: T, s: seq<T>, key: T -> Key, dir: Direction): (r: seq<T>)
    requires Sorted(s, key, dir)
    ensures multiset(r) == multiset(s) + multiset{x}
    ensures |r| == |s| + 1
    ensures r[0] == x || (s != [] && r[0] == s[0])
    ensures Sorted(r, key, dir)
  {
    if s == [] || InOrder(key(x), key(s[0]), dir) then
      ConsSorted(x, s, key, dir);
      [x] + s
    else
      var t := Insert(x, s[1..], key, dir);
      assert s == [s[0]] + s[1..];
      InOrderTotal(key(x), key(s[0]), dir);
      ConsSorted(s[0], t, key, dir);
      [s[0]] + t
  }

  lemma InOrderTrans(a: Key, b: Key, c: Key, dir: Direction)
    requires InOrder(a, b, dir) && InOrder(b, c, dir)
    ensures InOrder(a, c, dir)
  {
  }

  /** A document that may precede the head of a sorted sequence may precede all of it. */
  lemma ConsSorted<T>(y: T, t: seq<T>, key: T -> Key, dir: Direction)
    requires Sorted(t, key, dir)
    requires t != [] ==> InOrder(key(y), key(t[0]), dir)
    ensures Sorted([y] + t, key, dir)
  {
    var r := [y] + t;
    forall i, j | 0 <= i < j < |r|
      ensures InOrder(key(r[i]), key(r[j]), dir)
    {
      if i == 0 && j > 1 {
        InOrderTrans(key(y), key(t[0]), key(t[j - 1]), dir);
      }
    }
  }

  /** The documents of `s` in the order the sort specification `(key, dir)` gives. */
  function SortBy<T>(s: seq<T>, key: T -> Key, dir: Direction): (r: seq<T>)
    ensures multiset(r) == multiset(s)
    ensures |r| == |s|
    ensures Sorted(r, key, dir)
  {
    if s == [] then []
    else
      assert s == [s[0]] + s[1..];
      Insert(s[0], SortBy(s[1..], key, dir), key, dir)
  }

  /** What the database does with one find: answer, fail the find, or fail while the cursor is decoded. */
  datatype DbOutcome = Answers | FindFails | DecodeFails

  /** The documents that match the filter, in their original order. */
  function Filter<T(!new)>(s: seq<T>, matches: T -> bool): (r: seq<T>)
    ensures |r| <= |s|
    ensures forall x :: x in r <==> x in s && matches(x)
  {
    if s == [] then []
    else if matches(s[0]) then [s[0]] + Filter(s[1..], matches)
    else Filter(s[1..], matches)
  }

  /** Each matching document is kept as often as it occurs, and no other is kept. */
  lemma {:induction false} FilterMultiset<T(!new)>(s: seq<T>, matches: T -> bool, x: T)
    ensures multiset(Filter(s, matches))[x] == if matches(x) then multiset(s)[x] else 0
  {
    if s != [] {
      assert s == [s[0]] + s[1..];
      FilterMultiset(s[1..], matches, x);
    }
  }

  /** Filtering keeps the order: the matches of a concatenation are those of each part, in turn. */
  lemma {:induction false} FilterConcat<T(!new)>(a: seq<T>, b: seq<T>, matches: T -> bool)
    ensures Filter(a + b, matches) == Filter(a, matches) + Filter(b, matches)
  {
    if a == [] {
      assert a + b == b;
    } else {
      assert (a + b)[1..] == a[1..] + b;
      FilterConcat(a[1..], b, matches);
    }
  }

  /** `CountDocuments(filter)`: how many documents match. */
  function Count<T(!new)>(s: seq<T>, matches: T -> bool): (n: nat)
    ensures n <= |s|
    ensures n == 0 <==> forall x :: x in s ==> !matches(x)
    ensures n == |Filter(s, matches)|
  {
    var r := Filter(s, matches);
    assert r != [] ==> r[0] in r;
    |r|
  }

  /** One more document raises the count by one exactly when it matches. */
  lemma CountAppend<T(!new)>(s: seq<T>, x: T, matches: T -> bool)
    ensures Count(s + [x], matches) == Count(s, matches) + if matches(x) then 1 else 0
  {
    FilterConcat(s, [x], matches);
    assert [x][1..] == [];
  }
  /** A contiguous slice of a sorted sequence is sorted. */
  lemma SortedSlice<T>(s: seq<T>, lo: nat, hi: nat, key: T -> Key, dir: Direction)
    requires Sorted(s, key, dir)
    requires lo <= hi <= |s|
    ensures Sorted(s[lo..hi], key, dir)
  {
  }

  /**
   * `find(filter)` with `sort`, `skip` and `limit`: a negative skip is refused
   * by the server; a limit of 0 means no limit and a negative limit returns at
   * most its absolute value.
   */
  function Find<T(!new)>(docs: seq<T>, matches: T -> bool, key: T -> Key, dir: Direction, skip: int, limit: int)
    : (r: Result<seq<T>, string>)
    ensures r.Err? <==> skip < 0
    ensures r.Ok? ==> Sorted(r.value, key, dir)
    ensures r.Ok? ==> forall x :: x in r.value ==> x in docs && matches(x)
    ensures r.Ok? ==> multiset(r.value) <= multiset(Filter(docs, matches))
    ensures r.Ok? && limit != 0 ==> |r.value| <= if limit < 0 then -limit else limit
    ensures r.Ok? ==> |r.value| == Window(Count(docs, matches), skip, limit)
    ensures r.Ok? ==> IsPage(r.value, SortBy(Filter(docs, matches), key, dir), skip)
  {
    if skip < 0 then Err("skip value must be non-negative")
    else
      var matching := Filter(docs, matches);
      var sorted := SortBy(matching, key, dir);
      var page := PageOf(sorted, skip, limit, key, dir);
      assert forall x :: x in page ==> x in multiset(matching);
      Ok(page)
  }

  /**
   * `page` is the run of `sorted` that starts after the first `skip`
   * documents (or at the end, when there are fewer).
   */
  ghost predicate IsPage<T>(page: seq<T>, sorted: seq<T>, skip: int) {
    var lo := if skip < 0 then 0 else if skip < |sorted| then skip else |sorted|;
    lo + |page| <= |sorted| && page == sorted[lo..lo + |page|]
  }

  /** The page a skip and limit cut from an already sorted sequence. */
  function PageOf<T>(sorted: seq<T>, skip: nat, limit: int, key: T -> Key, dir: Direction): (page: seq<T>)
    requires Sorted(sorted, key, dir)
    ensures |page| == Window(|sorted|, skip, limit)
    ensures IsPage(page, sorted, skip)
    ensures multiset(page) <= multiset(sorted)
    ensures Sorted(page, key, dir)
  {
    var lo := if skip >= |sorted| then |sorted| else skip;
    var n := Window(|sorted|, skip, limit);
    SortedSlice(sorted, lo, lo + n, key, dir);
    assert sorted == sorted[..lo] + sorted[lo..lo + n] + sorted[lo + n..];
    sorted[lo..lo + n]
  }

  /** How many of `total` matching documents a page with this skip and limit holds. */
  function Window(total: nat, skip: int, limit: int): (n: nat)
    requires skip >= 0
    ensures n <= total
    ensures n == 0 <==> skip >= total
    ensures skip < total && (limit == 0 || total - skip <= Abs(limit)) ==> n == total - skip
    ensures skip < total && limit != 0 && total - skip > Abs(limit) ==> n == Abs(limit)
  {
    var rest := if skip >= total then 0 else total - skip;
    var cap := if limit < 0 then -limit else limit;
    if limit == 0 || rest <= cap then rest else cap
  }

  function Abs(x: int): nat {
    if x < 0 then -x else x
  }

  /** The filter that matches every document (an empty BSON filter). */
  function All<T>(): T -> bool {
    _ => true
  }

  /** The empty filter matches every document. */
  lemma {:induction false} FilterAll<T(!new)>(s: seq<T>)
    ensures Filter(s, All()) == s
  {
    if s != [] {
      FilterAll(s[1..]);
    }
  }

  /**
   * A find from the start with a positive limit returns the top of the
   * order: every matching document left out comes after every one returned.
   */
  lemma FindTop<T(!new)>(docs: seq<T>, matches: T -> bool, key: T -> Key, dir: Direction, k: nat)
    requires k > 0
    ensures Find(docs, matches, key, dir, 0, k).Ok?
    ensures var r := Find(docs, matches, key, dir, 0, k).value;
      forall x :: x in docs && matches(x) && x !in r ==> forall y :: y in r ==> InOrder(key(y), key(x), dir)
  {
    var sorted := SortBy(Filter(docs, matches), key, dir);
    var n := Window(|sorted|, 0, k);
    var r := Find(docs, matches, key, dir, 0, k).value;
    assert r == sorted[0..n];
    forall x, y | x in docs && matches(x) && x !in r && y in r
      ensures InOrder(key(y), key(x), dir)
    {
      assert x in multiset(sorted);
      var j :| 0 <= j < |sorted| && sorted[j] == x;
      var i :| 0 <= i < n && sorted[i] == y;
    }
  }

  /**
   * A find from the start, with the whole collection as the filter and a
   * positive limit `k`: the first `k` documents in the sort order, so no
   * document left out comes before one returned.
   */
  function Top<T(!new)>(docs: seq<T>, key: T -> Key, dir: Direction, k: nat): (r: seq<T>)
    requires k > 0
    ensures |r| == if |docs| < k then |docs| else k
    ensures multiset(r) <= multiset(docs)
    ensures forall x :: x in r ==> x in docs
    ensures Sorted(r, key, dir)
    ensures forall x, y :: x in docs && x !in r && y in r ==> InOrder(key(y), key(x), dir)
  {
    FilterAll(docs);
    FindTop(docs, All(), key, dir, k);
    Find(docs, All(), key, dir, 0, k).value
  }

  /** A find without skip or limit returns every match, in the sort order. */
  lemma FindUnlimited<T(!new)>(docs: seq<T>, matches: T -> bool, key: T -> Key, dir: Direction)
    ensures Find(docs, matches, key, dir, 0, 0) == Ok(SortBy(Filter(docs, matches), key, dir))
  {
    var sorted := SortBy(Filter(docs, matches), key, dir);
    var page := Find(docs, matches, key, dir, 0, 0).value;
    assert page == sorted[0..|sorted|];
    assert sorted[0..|sorted|] == sorted;
  }
}
