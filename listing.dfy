/**
 * The read-only handlers of routes/products.js: the three GET `/` variants
 * (all records, category filter, category filter with pagination), the name
 * search and the per-category statistics. Each is a function of the current
 * `products` sequence and leaves it as it is.
 */
module Listing {
  import opened Values
  import opened Catalog
  import opened Http

  /**
   * `s.filter(keep)`: the elements satisfying `keep`, each as often as in `s`,
   * in their order in `s`.
   */
  function Filter<T(!new)>(s: seq<T>, keep: T -> bool): (r: seq<T>)
    ensures |r| <= |s|
    ensures IsSubsequence(r, s)
    ensures forall x :: multiset(r)[x] == if keep(x) then multiset(s)[x] else 0
    ensures forall x :: x in r <==> x in s && keep(x)
  {
    if s == [] then []
    else
      var rest := Filter(s[1..], keep);
      assert s == [s[0]] + s[1..];
      if keep(s[0]) then
        assert ([s[0]] + rest)[1..] == rest;
        [s[0]] + rest
      else
        rest
  }

  /** A filter that keeps everything is the identity. */
  lemma {:induction false} FilterKeepsAll<T(!new)>(s: seq<T>, keep: T -> bool)
    requires forall x :: x in s ==> keep(x)
    ensures Filter(s, keep) == s
  {
    if s != [] {
      assert forall x :: x in s[1..] ==> x in s;
      FilterKeepsAll(s[1..], keep);
    }
  }

  /** Filters with pointwise equal callbacks give the same result. */
  lemma {:induction false} FilterSame<T(!new)>(s: seq<T>, keep: T -> bool, keep': T -> bool)
    requires forall x :: keep(x) == keep'(x)
    ensures Filter(s, keep) == Filter(s, keep')
  {
    if s != [] {
      FilterSame(s[1..], keep, keep');
    }
  }

  /** `Array.prototype.slice` index normalisation: negative counts from the end, then clamp. */
  function RelativeIndex(rel: int, len: nat): (k: nat)
    ensures k <= len
  {
    if rel < 0 then (if len + rel < 0 then 0 else len + rel)
    else if rel > len then len
    else rel
  }

  /**
   * `s.slice(start, end)` with integer arguments: the items from the
   * normalised start up to, not including, the normalised end.
   */
  function Slice<T>(s: seq<T>, start: int, end: int): (r: seq<T>)
    ensures var k, f := RelativeIndex(start, |s|), RelativeIndex(end, |s|);
      && |r| == (if k < f then f - k else 0)
      && forall i :: 0 <= i < |r| ==> k + i < |s| && r[i] == s[k + i]
  {
    var k := RelativeIndex(start, |s|);
    var f := RelativeIndex(end, |s|);
    if k < f then s[k..f] else []
  }

  /** GET `/` (line 8): every record, in store order. */
  function ListAll(ps: seq<Product>): (r: Reply<seq<Product>>)
    ensures r.Json? && r.status == 200
    ensures |r.body| == |ps| && forall i :: 0 <= i < |ps| ==> r.body[i] == ps[i]
  {
    Json(200, ps)
  }

  /** `category ? products.filter(p => p.category === category) : products`. */
  function ByCategory(ps: seq<Product>, category: Option<string>): (r: seq<Product>)
    ensures category.None? || category == Some("") ==> r == ps
    ensures category.Some? && category.value != "" ==>
      && IsSubsequence(r, ps)
      && (forall p :: p in r <==> p in ps && p.category == Str(category.value))
      && (forall p :: multiset(r)[p] == if p.category == Str(category.value) then multiset(ps)[p] else 0)
  {
    if category.Some? && category.value != "" then
      Filter(ps, (p: Product) => p.category == Str(category.value))
    else
      ps
  }

  /** GET `/` with a category filter (lines 67-71). */
  function ListByCategory(ps: seq<Product>, category: Option<string>): (r: Reply<seq<Product>>)
    ensures r.Json? && r.status == 200 && r.body == ByCategory(ps, category)
  {
    Json(200, ByCategory(ps, category))
  }

  /** When every record has the requested category, the filter keeps the whole store. */
  lemma CategoryOfAll(ps: seq<Product>, c: string)
    requires c != "" && forall p :: p in ps ==> p.category == Str(c)
    ensures ListByCategory(ps, Some(c)) == ListAll(ps)
  {
    FilterKeepsAll(ps, (p: Product) => p.category == Str(c));
  }

  /** Without a (non-empty) category, the filtered listing is the plain listing. */
  lemma UnfilteredListing(ps: seq<Product>)
    ensures ListByCategory(ps, None) == ListAll(ps)
    ensures ListByCategory(ps, Some("")) == ListAll(ps)
  {
  }

  /** `f.slice(start, start + limit)` is the window of `f` at `start`, at most `limit` long. */
  lemma SliceWindow<T>(f: seq<T>, start: nat, limit: nat)
    ensures var r := Slice(f, start, start + limit);
      && |r| <= limit
      && (start >= |f| ==> r == [])
      && (start < |f| ==> |r| == if |f| - start < limit then |f| - start else limit)
      && forall i :: 0 <= i < |r| ==> start + i < |f| && r[i] == f[start + i]
  {
  }

  lemma PageArithmetic(page: int, limit: int)
    requires page >= 1 && limit >= 0
    ensures (page - 1) * limit >= 0
    ensures page * limit == (page - 1) * limit + limit
  {
  }

  /**
   * `f.slice((page - 1) * limit, page * limit)`. For page >= 1 and limit >= 0
   * it is the window of at most `limit` items starting at offset
   * `(page - 1) * limit`, and is empty when that offset is past the end.
   */
  function Page<T>(f: seq<T>, page: int, limit: int): (r: seq<T>)
    ensures page >= 1 && limit >= 0 ==>
      && |r| <= limit
      && ((page - 1) * limit >= |f| ==> r == [])
      && ((page - 1) * limit < |f| ==>
            |r| == if |f| - (page - 1) * limit < limit then |f| - (page - 1) * limit else limit)
      && forall i :: 0 <= i < |r| ==> (page - 1) * limit + i < |f| && r[i] == f[(page - 1) * limit + i]
  {
    if page >= 1 && limit >= 0 then
      PageArithmetic(page, limit);
      SliceWindow(f, (page - 1) * limit, limit);
      Slice(f, (page - 1) * limit, page * limit)
    else
      Slice(f, (page - 1) * limit, page * limit)
  }

  /**
   * GET `/` with filter and pagination (lines 74-81): page and limit
   * default to 1 and 10 when absent.
   */
  function ListPage(ps: seq<Product>, category: Option<string>, page: Option<int>, limit: Option<int>)
    : (r: Reply<seq<Product>>)
    ensures r.Json? && r.status == 200
    ensures r.body == Page(ByCategory(ps, category), page.GetOr(1), limit.GetOr(10))
  {
    Json(200, Page(ByCategory(ps, category), page.GetOr(1), limit.GetOr(10)))
  }

  /** With no query parameters the listing is the first ten records of the store. */
  lemma DefaultPage(ps: seq<Product>)
    ensures ListPage(ps, None, None, None) == Json(200, if |ps| <= 10 then ps else ps[..10])
  {
    assert ByCategory(ps, None) == ps;
    assert (1 - 1) * 10 == 0 && 1 * 10 == 10;
    assert ps[0..|ps|] == ps;
    assert Slice(ps, 0, 10) == if |ps| <= 10 then ps else ps[..10];
  }

  /** Fifteen matching records, limit 10, page 2: the records at offsets 10 to 14. */
  lemma SecondPageOfFifteen(ps: seq<Product>, c: string)
    requires c != "" && |ByCategory(ps, Some(c))| == 15
    ensures ListPage(ps, Some(c), Some(2), Some(10)) == Json(200, ByCategory(ps, Some(c))[10..15])
  {
  }

  /** The search predicate: the lower-cased name contains the lower-cased query. */
  predicate NameMatches(p: Product, query: string) {
    p.name.Str? && Includes(Lower(p.name.s), Lower(query))
  }

  /**
   * GET `/search` (lines 84-91). A missing or empty query is answered with
   * 400; a record whose name is not a string makes `toLowerCase` throw.
   */
  function Search(ps: seq<Product>, query: Option<string>): (r: Reply<seq<Product>>)
    ensures query.None? || query == Some("") ==> r == Text(400, "Query parameter is required")
    ensures query.Some? && query.value != "" && (exists i :: 0 <= i < |ps| && !ps[i].name.Str?) ==>
      r == Thrown
    ensures query.Some? && query.value != "" && (forall i :: 0 <= i < |ps| ==> ps[i].name.Str?) ==>
      && r.Json? && r.status == 200
      && IsSubsequence(r.body, ps)
      && (forall p :: p in r.body <==> p in ps && Contains(Lower(p.name.s), Lower(query.value)))
      && (forall p :: multiset(r.body)[p] == if NameMatches(p, query.value) then multiset(ps)[p] else 0)
  {
    if query.None? || query.value == "" then
      Text(400, "Query parameter is required")
    else if exists i :: 0 <= i < |ps| && !ps[i].name.Str? then
      Thrown
    else
      Json(200, Filter(ps, (p: Product) => NameMatches(p, query.value)))
  }

  /** Search ignores the case of the query. */
  lemma SearchIgnoresQueryCase(ps: seq<Product>, q: string)
    requires q != ""
    ensures Lower(q) != ""
    ensures Search(ps, Some(q)) == Search(ps, Some(Lower(q)))
  {
    LowerIdempotent(q);
    FilterSame(ps, (p: Product) => NameMatches(p, q), (p: Product) => NameMatches(p, Lower(q)));
  }

  /**
   * A record named "Widget" is found by the query "wid" in any store whose
   * names are all strings.
   */
  lemma WidgetFoundByWid(ps: seq<Product>, p: Product)
    requires p in ps && p.name == Str("Widget")
    requires forall q :: q in ps ==> q.name.Str?
    ensures Search(ps, Some("wid")).Json?
    ensures p in Search(ps, Some("wid")).body
  {
    WidgetMatchesWid(p);
  }

  lemma WidgetMatchesWid(p: Product)
    requires p.name == Str("Widget")
    ensures NameMatches(p, "wid")
  {
    var name, query := Lower("Widget"), Lower("wid");
    assert name[..3] == "wid" by {
      assert forall i :: 0 <= i < 3 ==> name[i] == LowerChar("Widget"[i]);
      assert forall i :: 0 <= i < 3 ==> query[i] == LowerChar("wid"[i]);
    }
    assert query == "wid";
    assert query <= name;
  }

  // ---------------------------------------------------------------------
  // GET /stats (lines 94-100)

  /** The property key a category becomes in `acc[product.category]`. */
  function CategoryKey(p: Product): string {
    JsString(p.category)
  }

  /** One step of the reducer: `acc[k] = (acc[k] || 0) + 1`. */
  function Bump(acc: map<string, nat>, k: string): map<string, nat> {
    acc[k := (if k in acc then acc[k] else 0) + 1]
  }

  /** `products.reduce(step, {})`, folded from the left as `reduce` does. */
  function Tally(ps: seq<Product>): (r: map<string, nat>)
    ensures forall k :: k in r ==> 1 <= r[k] <= |ps|
  {
    if ps == [] then map[] else Bump(Tally(ps[..|ps| - 1]), CategoryKey(ps[|ps| - 1]))
  }

  /** How many records have category key `k`. */
  function CountKey(ps: seq<Product>, k: string): (n: nat)
    ensures n <= |ps|
  {
    if ps == [] then 0
    else CountKey(ps[..|ps| - 1], k) + (if CategoryKey(ps[|ps| - 1]) == k then 1 else 0)
  }

  /** The keys present in the store. */
  ghost function KeysOf(ps: seq<Product>): set<string> {
    set p | p in ps :: CategoryKey(p)
  }

  /** Sum of all counts of a statistics map. */
  ghost function SumCounts(m: map<string, nat>): nat
    decreases |m.Keys|
  {
    if m.Keys == {} then 0
    else
      var k :| k in m.Keys;
      assert |(m - {k}).Keys| < |m.Keys| by { assert (m - {k}).Keys == m.Keys - {k}; }
      m[k] + SumCounts(m - {k})
  }

  /** The sum does not depend on which key is taken out first. */
  lemma {:induction false} SumCountsRemove(m: map<string, nat>, k: string)
    requires k in m
    ensures SumCounts(m) == m[k] + SumCounts(m - {k})
    decreases |m.Keys|
  {
    var j :| j in m.Keys && SumCounts(m) == m[j] + SumCounts(m - {j});
    if j != k {
      assert (m - {j}).Keys == m.Keys - {j};
      assert (m - {k}).Keys == m.Keys - {k};
      SumCountsRemove(m - {j}, k);
      SumCountsRemove(m - {k}, j);
      assert m - {j} - {k} == m - {k} - {j};
    }
  }

  /** The statistics map: its keys are exactly the categories present, each with its count. */
  lemma {:induction false} TallyCounts(ps: seq<Product>)
    ensures Tally(ps).Keys == KeysOf(ps)
    ensures forall k :: k in Tally(ps) ==> Tally(ps)[k] == CountKey(ps, k) && Tally(ps)[k] >= 1
    ensures forall k :: k !in Tally(ps) ==> CountKey(ps, k) == 0
  {
    if ps != [] {
      var init := ps[..|ps| - 1];
      TallyCounts(init);
      assert ps == init + [ps[|ps| - 1]];
      assert KeysOf(ps) == KeysOf(init) + {CategoryKey(ps[|ps| - 1])};
    }
  }

  /** The counts of the statistics map add up to the number of records. */
  lemma {:induction false} TallyTotal(ps: seq<Product>)
    ensures SumCounts(Tally(ps)) == |ps|
  {
    if ps != [] {
      var init := ps[..|ps| - 1];
      var t, k := Tally(init), CategoryKey(ps[|ps| - 1]);
      TallyTotal(init);
      var t' := Bump(t, k);
      SumCountsRemove(t', k);
      if k in t {
        SumCountsRemove(t, k);
        assert t' - {k} == t - {k};
      } else {
        assert t' - {k} == t;
      }
    }
  }

  /** The reducer loop of GET `/stats`, answered with 200. */
  method GetStats(ps: seq<Product>) returns (r: Reply<map<string, nat>>)
    ensures r.Json? && r.status == 200 && r.body == Tally(ps)
    ensures r.body.Keys == KeysOf(ps)
    ensures forall k :: k in r.body ==> r.body[k] == CountKey(ps, k)
    ensures SumCounts(r.body) == |ps|
  {
    var acc: map<string, nat> := map[];
    var i := 0;
    while i < |ps|
      invariant 0 <= i <= |ps|
      invariant acc == Tally(ps[..i])
    {
      var k := CategoryKey(ps[i]);
      acc := acc[k := (if k in acc then acc[k] else 0) + 1];
      assert ps[..i + 1][..i] == ps[..i];
      i := i + 1;
    }
    assert ps[..|ps|] == ps;
    TallyCounts(ps);
    TallyTotal(ps);
    r := Json(200, acc);
  }

  /** Records in categories A, A, B give the statistics { A: 2, B: 1 }. */
  lemma TwoCategories(a: Product, a': Product, b: Product)
    requires a.category == Str("A") && a'.category == Str("A") && b.category == Str("B")
    ensures Tally([a, a', b]) == map["A" := 2, "B" := 1]
  {
    assert [a, a', b][..2] == [a, a'];
    assert [a, a'][..1] == [a];
    assert [a][..0] == [];
    assert CategoryKey(a) == "A" && CategoryKey(a') == "A" && CategoryKey(b) == "B";
    assert Tally([a]) == map["A" := 1];
    assert Tally([a, a']) == map["A" := 2];
  }
}
