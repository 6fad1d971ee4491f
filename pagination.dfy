/**
 * The pagination arithmetic used by the list endpoints: skip =
 * (page - 1) * limit, totalPages = Math.ceil(total / limit),
 * hasNextPage = page < totalPages, hasPrevPage = page > 1.
 */
module Pagination {

  /** Math.ceil of a real. */
  function Ceil(x: real): (n: int)
    ensures x <= n as real < x + 1.0
  {
    -((-x).Floor)
  }

  /** The number of pages, a JavaScript number: total / 0 is Infinity, or NaN when total is also 0. */
  datatype PageCount = Finite(pages: int) | Infinite | NotANumber

  function Skip(page: int, limit: int): int {
    (page - 1) * limit
  }

  function TotalPages(total: nat, limit: int): (c: PageCount)
    ensures limit != 0 ==> c == Finite(Ceil(total as real / limit as real))
    ensures limit == 0 ==> c == (if total == 0 then NotANumber else Infinite)
  {
    if limit == 0 then (if total == 0 then NotANumber else Infinite)
    else Finite(Ceil(total as real / limit as real))
  }

  /** page < totalPages, with JavaScript's comparisons against Infinity and NaN. */
  function HasNextPage(page: int, total: nat, limit: int): bool {
    match TotalPages(total, limit)
    case Finite(n) => page < n
    case Infinite => true
    case NotANumber => false
  }

  function HasPrevPage(page: int): bool {
    page > 1
  }

  /** Converting a product to a real is the product of the conversions. */
  lemma {:induction false} RealOfProduct(a: int, b: nat)
    ensures (a * b) as real == a as real * b as real
    decreases b
  {
    if b > 0 {
      RealOfProduct(a, b - 1);
      assert a * b == a * (b - 1) + a;
      assert a as real * b as real == a as real * (b - 1) as real + a as real;
    }
  }

  /** Multiplying by a positive real keeps an order. */
  lemma ScaleKeepsOrder(a: real, b: real, l: real)
    requires l > 0.0 && a <= b
    ensures a * l <= b * l
  {
    assert b * l - a * l == (b - a) * l;
  }

  lemma ScaleKeepsStrictOrder(a: real, b: real, l: real)
    requires l > 0.0 && a < b
    ensures a * l < b * l
  {
    assert b * l - a * l == (b - a) * l;
  }

  /** The quotient total / limit times limit is total again. */
  lemma QuotientTimesDivisor(total: nat, limit: int)
    requires limit > 0
    ensures (total as real / limit as real) * limit as real == total as real
  {
  }

  /** An integer below total / limit, times limit, is below total. */
  lemma BelowQuotient(p: int, x: real, limit: int, total: nat)
    requires limit > 0 && p as real < x && x * limit as real == total as real
    ensures p * limit < total
  {
    ScaleKeepsStrictOrder(p as real, x, limit as real);
    RealOfProduct(p, limit);
  }

  /** An integer at least total / limit, times limit, is at least total. */
  lemma AtLeastQuotient(p: int, x: real, limit: int, total: nat)
    requires limit > 0 && x <= p as real && x * limit as real == total as real
    ensures p * limit >= total
  {
    ScaleKeepsOrder(x, p as real, limit as real);
    RealOfProduct(p, limit);
  }

  /** With a positive limit, totalPages pages of limit entries hold all total entries and one fewer would not. */
  lemma TotalPagesIsTight(total: nat, limit: int)
    requires limit > 0
    ensures TotalPages(total, limit).Finite?
    ensures var n := TotalPages(total, limit).pages;
      n >= 0 && n * limit >= total && (n - 1) * limit < total
  {
    var x := total as real / limit as real;
    var n := Ceil(x);
    QuotientTimesDivisor(total, limit);
    ScaleKeepsOrder(0.0, x, limit as real);
    AtLeastQuotient(n, x, limit, total);
    BelowQuotient(n - 1, x, limit, total);
  }

  /**
   * With a positive limit, hasNextPage holds exactly when some entry lies
   * beyond the current page: page * limit < total.
   */
  lemma HasNextIffMoreEntries(page: int, total: nat, limit: int)
    requires limit > 0
    ensures HasNextPage(page, total, limit) <==> page * limit < total
  {
    var x := total as real / limit as real;
    var n := Ceil(x);
    QuotientTimesDivisor(total, limit);
    assert HasNextPage(page, total, limit) == (page < n);
    if page < n {
      BelowQuotient(page, x, limit, total);
    } else {
      AtLeastQuotient(page, x, limit, total);
    }
  }

  /** The skip of a page that exists, as a natural number. */
  function PageStart(page: int, limit: int): (n: nat)
    requires page >= 1 && limit >= 0
    ensures n == Skip(page, limit) && n + limit == page * limit
  {
    SkipBeforePage(page, limit);
    Skip(page, limit)
  }

  /** The skipped entries and this page's entries partition the first page * limit positions. */
  lemma SkipBeforePage(page: int, limit: int)
    requires page >= 1 && limit >= 0
    ensures 0 <= Skip(page, limit) && Skip(page, limit) + limit == page * limit
  {
  }

  /** min(parseInt(limit), cap), the cap several list endpoints apply. */
  function CappedLimit(requested: int, cap: int): (n: int)
    ensures n <= cap
    ensures requested <= cap ==> n == requested
    ensures requested > cap ==> n == cap
  {
    if requested > cap then cap else requested
  }

  function Min(x: int, y: int): (m: int)
    ensures m <= x && m <= y && (m == x || m == y)
  {
    if x <= y then x else y
  }

  /** .skip(skip).limit(limitNum): the window of at most limitNum entries starting at skip. */
  function PageOf<T>(s: seq<T>, skip: nat, limitNum: nat): (r: seq<T>)
    ensures |r| <= limitNum
    ensures forall t | t in r :: t in s
    ensures skip < |s| ==> r == s[skip..Min(skip + limitNum, |s|)]
    ensures skip >= |s| ==> r == []
  {
    if skip >= |s| then [] else s[skip..Min(skip + limitNum, |s|)]
  }
}
