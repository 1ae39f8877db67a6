/**
 * The read-only store records (products.json and orders.json entries) and the
 * ordering the tool layer applies to products: Python's stable `sorted` with a
 * key, followed by the slice `[:n]`.
 */
module Catalog {
  import opened Wrappers
  import opened Json

  /**
   * A products.json entry (prices are whole currency units). `others` holds
   * the entry's remaining keys, so that two entries are equal exactly when
   * Python's dictionary comparison finds them equal.
   */
  datatype Product = Product(title: string, price: int, tags: seq<string>, others: map<string, Json>)

  /**
   * The `created_at` entry of an order: missing, a string (with the instant it
   * denotes in whole seconds, None when it is not ISO-8601), or a value of
   * another JSON type.
   */
  datatype CreatedAt = CreatedAbsent | CreatedText(instant: Option<int>) | CreatedNotText

  /** The creation instant, when `created_at` is a readable timestamp. */
  function CreationInstant(c: CreatedAt): Option<int> {
    if c.CreatedText? then c.instant else None
  }

  /** An orders.json entry. */
  datatype Order = Order(orderId: string, email: string, createdAt: CreatedAt)

  // ---------------------------------------------------------------- sort keys

  /** The sort orders used by the product searches. */
  datatype Ranking =
    | ByPrice                          // key=lambda p: p["price"]
    | ByRelevance(wanted: seq<string>) // (-matching tag count, price) when tags were requested, else (price,)

  /** The distinct requested tags that the product carries: `len(set(wanted) & set(p["tags"]))`. */
  function TagScore(p: Product, wanted: seq<string>): nat {
    |(set t | t in wanted) * (set t | t in p.tags)|
  }

  /** A sort key as a pair compared lexicographically; a one-element key is padded with a leading 0. */
  function KeyOf(p: Product, ranking: Ranking): (int, int) {
    match ranking
    case ByPrice => (0, p.price)
    case ByRelevance(wanted) => if |wanted| > 0 then (-(TagScore(p, wanted) as int), p.price) else (0, p.price)
  }

  /** Tuple comparison `a <= b`. */
  predicate KeyLe(a: (int, int), b: (int, int)) {
    a.0 < b.0 || (a.0 == b.0 && a.1 <= b.1)
  }

  predicate Ranked(s: seq<Product>, ranking: Ranking) {
    forall i, j :: 0 <= i < j < |s| ==> KeyLe(KeyOf(s[i], ranking), KeyOf(s[j], ranking))
  }

  // ---------------------------------------------------------------- stable sort

  /** The elements of `s` whose key is `k`, in their order in `s`. */
  function WithKey(s: seq<Product>, ranking: Ranking, k: (int, int)): seq<Product>
    decreases |s|
  {
    if |s| == 0 then []
    else (if KeyOf(s[0], ranking) == k then [s[0]] else []) + WithKey(s[1..], ranking, k)
  }

  /** Putting `y` ahead of a ranked sequence whose elements all rank at or after it keeps it ranked. */
  lemma RankedCons(y: Product, s: seq<Product>, ranking: Ranking)
    requires Ranked(s, ranking)
    requires forall z :: z in s ==> KeyLe(KeyOf(y, ranking), KeyOf(z, ranking))
    ensures Ranked([y] + s, ranking)
  {
    var r := [y] + s;
    forall i, j | 0 <= i < j < |r| ensures KeyLe(KeyOf(r[i], ranking), KeyOf(r[j], ranking)) {
      assert r[j] == s[j - 1];
      if i > 0 {
        assert r[i] == s[i - 1];
      }
    }
  }

  /**
   * Inserts `x` into the ranked `s` before the first element whose key is not
   * smaller, so that `x` stays ahead of the elements that tie with it.
   */
  function Insert(x: Product, s: seq<Product>, ranking: Ranking): (r: seq<Product>)
    requires Ranked(s, ranking)
    ensures Ranked(r, ranking)
    ensures multiset(r) == multiset{x} + multiset(s)
    decreases |s|
  {
    if |s| == 0 then [x]
    else if KeyLe(KeyOf(x, ranking), KeyOf(s[0], ranking)) then
      RankedCons(x, s, ranking);
      [x] + s
    else
      assert s == [s[0]] + s[1..];
      var rest := Insert(x, s[1..], ranking);
      InsertRankedStep(x, s, rest, ranking);
      [s[0]] + rest
  }

  /**
   * Insert places `x` after nothing that shares its key: among the elements
   * with key `k`, `x` (if its key is `k`) comes first and the rest keep their order.
   */
  lemma {:induction false} InsertKeepsTies(x: Product, s: seq<Product>, ranking: Ranking, k: (int, int))
    requires Ranked(s, ranking)
    ensures WithKey(Insert(x, s, ranking), ranking, k) == (if KeyOf(x, ranking) == k then [x] else []) + WithKey(s, ranking, k)
    decreases |s|
  {
    var kx := KeyOf(x, ranking);
    var own := if kx == k then [x] else [];
    if |s| == 0 {
      assert [x][1..] == [];
      calc {
        WithKey([x], ranking, k);
        own + WithKey([], ranking, k);
      }
    } else if KeyLe(kx, KeyOf(s[0], ranking)) {
      assert Insert(x, s, ranking) == [x] + s;
      assert ([x] + s)[1..] == s;
      calc {
        WithKey([x] + s, ranking, k);
        own + WithKey(s, ranking, k);
      }
    } else {
      var rest := Insert(x, s[1..], ranking);
      assert Insert(x, s, ranking) == [s[0]] + rest;
      InsertKeepsTies(x, s[1..], ranking, k);
      assert ([s[0]] + rest)[1..] == rest;
      var head := if KeyOf(s[0], ranking) == k then [s[0]] else [];
      assert kx == k ==> head == [];
      calc {
        WithKey([s[0]] + rest, ranking, k);
        head + WithKey(rest, ranking, k);
        head + (own + WithKey(s[1..], ranking, k));
        own + (head + WithKey(s[1..], ranking, k));
        own + WithKey(s, ranking, k);
      }
    }
  }

  lemma InsertKeepsAllTies(x: Product, s: seq<Product>, ranking: Ranking)
    requires Ranked(s, ranking)
    ensures forall k :: WithKey(Insert(x, s, ranking), ranking, k) == (if KeyOf(x, ranking) == k then [x] else []) + WithKey(s, ranking, k)
  {
    forall k {
      InsertKeepsTies(x, s, ranking, k);
    }
  }

  /** The recursive case of Insert: `s[0]` ranks ahead of `x` and of everything after it. */
  lemma InsertRankedStep(x: Product, s: seq<Product>, rest: seq<Product>, ranking: Ranking)
    requires |s| > 0 && Ranked(s, ranking) && !KeyLe(KeyOf(x, ranking), KeyOf(s[0], ranking))
    requires Ranked(rest, ranking) && multiset(rest) == multiset{x} + multiset(s[1..])
    ensures Ranked([s[0]] + rest, ranking)
  {
    forall y | y in rest ensures KeyLe(KeyOf(s[0], ranking), KeyOf(y, ranking)) {
      assert y in multiset(rest);
      if y != x {
        assert y in s[1..];
        var j :| 0 <= j < |s[1..]| && s[1..][j] == y;
        assert s[j + 1] == y;
      }
    }
    RankedCons(s[0], rest, ranking);
  }

  /**
   * `sorted(s, key=...)`: a ranked rearrangement of `s` that is stable, that is,
   * the elements sharing a key keep their order in `s`.
   */
  function Sort(s: seq<Product>, ranking: Ranking): (r: seq<Product>)
    ensures Ranked(r, ranking)
    ensures multiset(r) == multiset(s)
    ensures forall k :: WithKey(r, ranking, k) == WithKey(s, ranking, k)
    decreases |s|
  {
    if |s| == 0 then []
    else
      assert s == [s[0]] + s[1..];
      InsertKeepsAllTies(s[0], Sort(s[1..], ranking), ranking);
      Insert(s[0], Sort(s[1..], ranking), ranking)
  }

  /** `s[:n]`. */
  function Take(s: seq<Product>, n: nat): (r: seq<Product>)
    ensures |r| <= n && |r| <= |s|
    ensures r == s[..|r|]
    ensures |r| == n || r == s
  {
    if |s| <= n then s else s[..n]
  }

  /**
   * The first `n` of a ranked sequence are its best: no element left behind
   * ranks strictly ahead of one that was taken.
   */
  lemma TakeRankedIsBest(s: seq<Product>, ranking: Ranking, n: nat)
    requires Ranked(s, ranking)
    ensures forall x, y :: x in Take(s, n) && y in multiset(s) - multiset(Take(s, n))
              ==> KeyLe(KeyOf(x, ranking), KeyOf(y, ranking))
  {
    var t := Take(s, n);
    var rest := s[|t|..];
    assert s == t + rest;
    assert multiset(s) - multiset(t) == multiset(rest);
    forall x, y | x in t && y in multiset(s) - multiset(t)
      ensures KeyLe(KeyOf(x, ranking), KeyOf(y, ranking))
    {
      assert y in rest;
      RankedPrefixAhead(s, ranking, |t|, x, y);
    }
  }

  /** In a ranked sequence an element before position `k` ranks at or ahead of one from `k` on. */
  lemma RankedPrefixAhead(s: seq<Product>, ranking: Ranking, k: nat, x: Product, y: Product)
    requires Ranked(s, ranking) && k <= |s| && x in s[..k] && y in s[k..]
    ensures KeyLe(KeyOf(x, ranking), KeyOf(y, ranking))
  {
    var i :| 0 <= i < k && s[..k][i] == x;
    var j :| 0 <= j < |s| - k && s[k..][j] == y;
    assert s[i] == x && s[k + j] == y;
  }

  /** Sorting and taking a prefix only ever return elements of the input. */
  lemma TakeSortedFrom(s: seq<Product>, ranking: Ranking, n: nat)
    ensures forall x :: x in Take(Sort(s, ranking), n) ==> x in s
  {
    var sorted := Sort(s, ranking);
    forall x | x in Take(sorted, n) ensures x in s {
      assert x in sorted;
      assert x in multiset(sorted);
    }
  }

  /**
   * `sorted(s, key)[:n]` keeps the `n` best elements of `s` (all of them when
   * there are fewer), in ranked order.
   */
  lemma SortThenTake(s: seq<Product>, ranking: Ranking, n: nat)
    ensures var r := Take(Sort(s, ranking), n);
      && |r| == (if |s| < n then |s| else n)
      && Ranked(r, ranking)
      && (forall x :: x in r ==> x in s)
      && forall x, y :: x in r && y in multiset(s) - multiset(r) ==> KeyLe(KeyOf(x, ranking), KeyOf(y, ranking))
  {
    var sorted := Sort(s, ranking);
    var r := Take(sorted, n);
    assert |sorted| == |s| by {
      assert |multiset(sorted)| == |multiset(s)|;
    }
    TakeSortedFrom(s, ranking, n);
    TakeRankedIsBest(sorted, ranking, n);
    assert forall i :: 0 <= i < |r| ==> r[i] == sorted[i];
  }

  /** The elements with a given key in a prefix are a prefix of those in the whole. */
  lemma {:induction false} WithKeyOfPrefix(a: seq<Product>, b: seq<Product>, ranking: Ranking, k: (int, int))
    requires a <= b
    ensures WithKey(a, ranking, k) <= WithKey(b, ranking, k)
    decreases |a|
  {
    if |a| > 0 {
      assert a[1..] <= b[1..];
      WithKeyOfPrefix(a[1..], b[1..], ranking, k);
    }
  }

  /**
   * `sorted(s, key)[:n]` keeps, of the elements sharing a key, those that come
   * first in `s`: the cut falls among ties by input order.
   */
  lemma TakeSortedKeepsEarliestTies(s: seq<Product>, ranking: Ranking, n: nat)
    ensures forall k :: WithKey(Take(Sort(s, ranking), n), ranking, k) <= WithKey(s, ranking, k)
  {
    var sorted := Sort(s, ranking);
    forall k ensures WithKey(Take(sorted, n), ranking, k) <= WithKey(s, ranking, k) {
      WithKeyOfPrefix(Take(sorted, n), sorted, ranking, k);
    }
  }

  /**
   * The first `n` after a stable sort by price ascend by price, are the
   * cheapest, and of equally priced elements keep those that come first in `s`.
   */
  lemma CheapestByPrice(s: seq<Product>, n: nat)
    ensures var r := Take(Sort(s, ByPrice), n);
      && |r| == (if |s| < n then |s| else n)
      && (forall x :: x in r ==> x in s)
      && (forall i, j :: 0 <= i < j < |r| ==> r[i].price <= r[j].price)
      && (forall x, y :: x in r && y in multiset(s) - multiset(r) ==> x.price <= y.price)
      && forall k :: WithKey(r, ByPrice, k) <= WithKey(s, ByPrice, k)
  {
    var r := Take(Sort(s, ByPrice), n);
    SortThenTake(s, ByPrice, n);
    TakeSortedKeepsEarliestTies(s, ByPrice, n);
    RankedByPrice(r, multiset(s) - multiset(r));
  }

  /** Ranking by the price key is ordering by price. */
  lemma RankedByPrice(r: seq<Product>, rest: multiset<Product>)
    requires Ranked(r, ByPrice)
    requires forall x, y :: x in r && y in rest ==> KeyLe(KeyOf(x, ByPrice), KeyOf(y, ByPrice))
    ensures forall i, j :: 0 <= i < j < |r| ==> r[i].price <= r[j].price
    ensures forall x, y :: x in r && y in rest ==> x.price <= y.price
  {
  }
}
