// pkg/pagination: page parameters and the arithmetic behind OFFSET and total_pages, in 64-bit integers.
module Pagination {
  import opened Text

  const DEFAULT_PAGE := 1
  const DEFAULT_LIMIT := 10
  const MAX_LIMIT := 100

  datatype Params = Params(page: int, limit: int)

  datatype Meta = Meta(page: int, limit: int, total: int, totalPages: int)

  const TWO_TO_THE_64: int := 0x1_0000_0000_0000_0000

  /** Two's-complement wrap-around to 64 bits. */
  function Wrap(n: int): (w: int)
    ensures IsInt64(w) && (IsInt64(n) ==> w == n)
  {
    var m := n % TWO_TO_THE_64;
    if m > MAX_INT then m - TWO_TO_THE_64 else m
  }

  /** Go's integer division truncates toward zero. */
  function Quotient(a: int, b: int): int
    requires b > 0
  {
    if a < 0 then -(-a / b) else a / b
  }

  predicate Valid(p: Params) { 1 <= p.page <= MAX_INT && 1 <= p.limit <= MAX_LIMIT }

  /** Each of the two, if in range, is kept, whatever the other; what is not is clamped. */
  function NewParams(page: int, limit: int): (p: Params)
    requires IsInt64(page) && IsInt64(limit)
    ensures Valid(p)
    ensures p.page == page || (page < 1 && p.page == 1)
    ensures 1 <= limit <= 100 ==> p.limit == limit
    ensures limit > 100 ==> p.limit == 100
    ensures limit < 1 ==> p.limit == 10
  {
    var page' := if page < 1 then DEFAULT_PAGE else page;
    var limit' := if limit < 1 then DEFAULT_LIMIT else limit;
    Params(page', if limit' > MAX_LIMIT then MAX_LIMIT else limit')
  }

  function Offset(p: Params): int { Wrap(Wrap(p.page - 1) * p.limit) }

  function NewMeta(p: Params, total: int): Meta {
    Meta(p.page, p.limit, total,
         if p.limit > 0 then Wrap(Quotient(Wrap(Wrap(total + p.limit) - 1), p.limit)) else 0)
  }

  // ------------------------------------------------------------ exactness

  /** How many pages n rows fill. */
  function PagesFor(n: nat, limit: int): nat
    requires limit > 0
  {
    (n + limit - 1) / limit
  }

  lemma WrapOfWrap(n: int)
    ensures Wrap(Wrap(n) - 1) == Wrap(n - 1)
  {
    var m := n % TWO_TO_THE_64;
    var q := n / TWO_TO_THE_64;
    assert n == q * TWO_TO_THE_64 + m;
    SameResidue(Wrap(n) - 1, n - 1, if m > MAX_INT then q + 1 else q);
  }

  lemma SameResidue(a: int, b: int, k: int)
    requires b == a + k * TWO_TO_THE_64
    ensures Wrap(a) == Wrap(b)
  {
    assert a % TWO_TO_THE_64 == b % TWO_TO_THE_64;
  }

  lemma Product(a: int, b: int)
    requires a >= 0 && b >= 1
    ensures a * b >= a
  {
  }

  lemma Times(a: int, b: int, c: int)
    requires a <= b && c >= 0
    ensures a * c <= b * c
  {
  }

  /** The offset is exact if and only if the true one fits in 64 bits. */
  lemma OffsetExactIff(p: Params)
    requires Valid(p)
    ensures Offset(p) == (p.page - 1) * p.limit <==> (p.page - 1) * p.limit <= MAX_INT
  {
    Product(p.page - 1, p.limit);
  }

  lemma CeilBounds(n: nat, limit: int)
    requires 1 <= limit
    ensures PagesFor(n, limit) <= n && n <= PagesFor(n, limit) * limit < n + limit
  {
    var q, r := (n + limit - 1) / limit, (n + limit - 1) % limit;
    assert n + limit - 1 == q * limit + r;
    if n > 0 { Product(limit - 1, n); }
    if q > n { Times(n + 1, q, limit); }
  }

  /** The parameters and the total are reported as they are; total_pages is the number of pages the rows fill if and
      only if total + limit - 1 fits in 64 bits. */
  lemma TotalPagesExactIff(p: Params, total: nat)
    requires Valid(p) && total <= MAX_INT
    ensures var meta := NewMeta(p, total);
            && meta.page == p.page && meta.limit == p.limit && meta.total == total
            && (meta.totalPages == PagesFor(total, p.limit) <==> total + p.limit - 1 <= MAX_INT)
  {
    var sum := total + p.limit;
    WrapOfWrap(sum);
    if sum - 1 <= MAX_INT {
      CeilBounds(total, p.limit);
    } else {
      assert Wrap(sum - 1) == sum - 1 - TWO_TO_THE_64;
      NegativeQuotient(sum - 1 - TWO_TO_THE_64, p.limit);
      PositiveQuotient(sum - 1, p.limit);
    }
  }

  lemma NegativeQuotient(a: int, b: int)
    requires MIN_INT <= a <= -b && b > 0
    ensures MIN_INT <= Quotient(a, b) < 0
  {
    var q, r := -a / b, -a % b;
    assert -a == q * b + r;
    if q < 1 { Times(q, 0, b); }
    Product(q, b);
  }

  lemma PositiveQuotient(a: int, b: int)
    requires a >= 0 && b > 0
    ensures a / b >= 0
  {
  }

  // ------------------------------------------------------------------ pages

  /** OFFSET and LIMIT as gorm renders them: an offset that is not positive is left out. */
  function PageOf<T>(rows: seq<T>, p: Params): seq<T>
    requires p.limit >= 0
  {
    var from := if Offset(p) <= 0 then 0 else if Offset(p) < |rows| then Offset(p) else |rows|;
    rows[from..if from + p.limit <= |rows| then from + p.limit else |rows|]
  }

  /** The page a caller expects. */
  function Promised<T>(rows: seq<T>, p: Params): seq<T>
    requires Valid(p)
  {
    Slice(rows, (p.page - 1) * p.limit, p.page * p.limit)
  }

  function Clip(n: int, top: nat): nat { if n < 0 then 0 else if n < top then n else top }

  function Slice<T>(rows: seq<T>, from: int, to: int): seq<T>
    requires from <= to
  {
    rows[Clip(from, |rows|)..Clip(to, |rows|)]
  }

  lemma PageIsPromised<T>(rows: seq<T>, p: Params)
    requires Valid(p) && (p.page - 1) * p.limit <= MAX_INT
    ensures PageOf(rows, p) == Promised(rows, p)
  {
    OffsetExactIff(p);
    NextMultiple(p.page - 1, p.limit);
    Product(p.page - 1, p.limit);
    hide Offset, Wrap;
    SamePage(rows, p, (p.page - 1) * p.limit, p.page * p.limit);
  }

  lemma NextMultiple(a: int, b: int)
    ensures (a + 1) * b == a * b + b
  {
  }

  lemma SamePage<T>(rows: seq<T>, p: Params, from: int, to: int)
    requires Offset(p) == from >= 0 && to == from + p.limit && p.limit >= 0
    ensures PageOf(rows, p) == Slice(rows, from, to)
  {
    hide Offset, Wrap;
  }

  ghost predicate ServesEveryTable<T(!new)>(p: Params)
    requires Valid(p)
  {
    forall rows: seq<T> :: PageOf(rows, p) == Promised(rows, p)
  }

  /** A page is what its number promises, on every table, if and only if its true offset fits in 64 bits:
      past that the offset wraps, and a page far beyond the last shows rows again. */
  lemma PageExactIff<T(!new)>(p: Params, row: T)
    requires Valid(p)
    ensures ServesEveryTable<T>(p) <==> (p.page - 1) * p.limit <= MAX_INT
  {
    if (p.page - 1) * p.limit <= MAX_INT {
      forall rows: seq<T> ensures PageOf(rows, p) == Promised(rows, p) { PageIsPromised(rows, p); }
    } else {
      SomeTableShowsIt(p, row);
    }
  }

  /** A table one row longer than the wrapped offset. */
  lemma SomeTableShowsIt<T(!new)>(p: Params, row: T)
    requires Valid(p) && (p.page - 1) * p.limit > MAX_INT
    ensures !ServesEveryTable<T>(p)
  {
    assert IsInt64(Offset(p));
    hide Offset, Wrap;
    var n := if Offset(p) < 0 then 1 else Offset(p) + 1;
    var rows: seq<T> := seq(n, _ => row);
    assert p.page * p.limit == (p.page - 1) * p.limit + p.limit;
    BeyondTheEnd(rows, (p.page - 1) * p.limit, p.page * p.limit);
    assert |PageOf(rows, p)| > 0;
    assert PageOf(rows, p) != Promised(rows, p);
  }

  lemma BeyondTheEnd<T>(rows: seq<T>, from: int, to: int)
    requires |rows| <= from <= to
    ensures Slice(rows, from, to) == []
  {
  }

  /** Pages 1 to n of a listing, each fetched by its number. */
  function PagesUpTo<T>(rows: seq<T>, limit: int, n: nat): seq<T>
    requires limit >= 0
  {
    if n == 0 then [] else PagesUpTo(rows, limit, n - 1) + PageOf(rows, Params(n, limit))
  }

  lemma PrefixThenSlice<T>(rows: seq<T>, a: nat, b: nat)
    requires a <= b
    ensures rows[..Clip(a, |rows|)] + Slice(rows, a, b) == rows[..Clip(b, |rows|)]
  {
  }

  lemma {:induction false} PagesAreAPrefix<T>(rows: seq<T>, limit: int, n: nat)
    requires 1 <= limit <= MAX_LIMIT && n <= MAX_INT && (n > 0 ==> (n - 1) * limit <= MAX_INT)
    ensures PagesUpTo(rows, limit, n) == rows[..Clip(n * limit, |rows|)]
  {
    if n > 0 {
      PageIsPromised(rows, Params(n, limit));
      hide PageOf, Clip, Slice;
      Product(n - 1, limit);
      assert n * limit == (n - 1) * limit + limit;
      if n > 1 { Times(n - 2, n - 1, limit); }
      PagesAreAPrefix(rows, limit, n - 1);
      PrefixThenSlice(rows, (n - 1) * limit, n * limit);
    }
  }

  /** Pages 1 to total_pages are the whole listing, in order, nothing twice and nothing left out; and total is its
      length. */
  lemma PagesTile<T>(rows: seq<T>, p: Params)
    requires Valid(p) && |rows| + p.limit - 1 <= MAX_INT
    ensures var meta := NewMeta(p, |rows|);
            meta.total == |rows| && meta.totalPages >= 0 && PagesUpTo(rows, p.limit, meta.totalPages) == rows
  {
    MetaCounts(p, |rows|);
    hide *;
    var n := NewMeta(p, |rows|).totalPages;
    PagesAreAPrefix(rows, p.limit, n);
    WholeClip(rows, n * p.limit);
  }

  lemma WholeClip<T>(rows: seq<T>, n: int)
    requires n >= |rows|
    ensures rows[..Clip(n, |rows|)] == rows
  {
  }

  lemma MetaCounts(p: Params, total: nat)
    requires Valid(p) && total + p.limit - 1 <= MAX_INT
    ensures var meta := NewMeta(p, total); var n := meta.totalPages;
            meta.total == total && 0 <= n <= total && n * p.limit >= total && (n > 0 ==> (n - 1) * p.limit < total)
    ensures 1 <= p.limit <= MAX_LIMIT && total <= MAX_INT
  {
    TotalPagesExactIff(p, total);
    CeilBounds(total, p.limit);
    hide Wrap, Quotient, PagesFor;
    NextMultiple(PagesFor(total, p.limit) - 1, p.limit);
  }

  /** And every page after total_pages is empty, as long as its offset does not wrap. */
  lemma BeyondIsEmpty<T>(rows: seq<T>, p: Params)
    requires Valid(p) && |rows| + p.limit - 1 <= MAX_INT && (p.page - 1) * p.limit <= MAX_INT
    requires p.page > NewMeta(p, |rows|).totalPages
    ensures PageOf(rows, p) == []
  {
    TotalPagesExactIff(p, |rows|);
    CeilBounds(|rows|, p.limit);
    Times(PagesFor(|rows|, p.limit), p.page - 1, p.limit);
    OffsetExactIff(p);
    Product(p.page - 1, p.limit);
  }
}
