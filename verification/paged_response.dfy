/**
 * `PagedResponseImpl`: wraps one page of a list with its page information and
 * optionally shuffles the list first. JavaScript numbers are modelled as exact
 * reals for the page arithmetic; the random draws of the shuffle are a parameter.
 */
module PagedResponse {

  import opened Wrappers

  const DefaultLimit: int := 25
  const DefaultOffset: int := 0

  /** The constructor's options; an absent option takes its default. */
  datatype Options = Options(limit: Option<int>, offset: Option<int>, count: Option<int>, shuffle: Option<int>)

  datatype PageInfo = PageInfo(totalRows: int, page: real, pageSize: int, isFirstPage: bool, isLastPage: bool)

  /** The constructed object: `pageInfo` stays unset when no count is given. */
  datatype Response<T> = Response(list: seq<T>, pageInfo: Option<PageInfo>)

  /** `Math.ceil`. */
  function Ceil(x: real): (r: int)
    ensures r as real - 1.0 < x <= r as real
  {
    -((-x).Floor)
  }

  /** The 1-based page of an offset: page 1 for a zero offset, else one more than the exact quotient by the limit. */
  function PageNumber(offset: int, limit: int): real
    requires limit != 0
  {
    if offset == 0 then 1.0 else offset as real / limit as real + 1.0
  }

  /** The ceiling of the exact quotient of rows by page size, where a ceiling of zero counts as one page. */
  function LastPageNumber(totalRows: int, pageSize: int): (r: int)
    requires pageSize != 0
    ensures r != 0
    ensures var q := totalRows as real / pageSize as real;
            !(-1.0 < q <= 0.0) ==> r as real - 1.0 < q <= r as real
    ensures var q := totalRows as real / pageSize as real;
            -1.0 < q <= 0.0 ==> r == 1
  {
    var c := Ceil(totalRows as real / pageSize as real);
    if c == 0 then 1 else c
  }

  /** The page information computed when a count is given. */
  function MakePageInfo(limit: int, offset: int, count: int): (p: PageInfo)
    requires limit != 0
    ensures p.totalRows == count && p.pageSize == limit
    ensures offset == 0 ==> p.page == 1.0
    ensures offset != 0 ==> p.page * limit as real == offset as real + limit as real
    ensures p.isFirstPage <==> p.page == 1.0
    ensures p.isLastPage <==> p.page == LastPageNumber(count, limit) as real
  {
    var page := PageNumber(offset, limit);
    PageInfo(count, page, limit, page == 1.0, page == LastPageNumber(count, limit) as real)
  }

  /** An offset that is a multiple of the limit lands on the 1-based page index. */
  lemma AlignedOffsetPage(k: nat, limit: int)
    requires limit > 0
    ensures PageNumber(k * limit, limit) == (k + 1) as real
  {
    if k != 0 {
      assert (k * limit) as real == k as real * limit as real;
      assert (k * limit) as real / limit as real == k as real;
    }
  }

  lemma MultipleAtLeast(x: int, d: int)
    requires x >= 1 && d > 0
    ensures x * d >= d
  {
  }

  /** Euclidean division is determined by a quotient-remainder decomposition. */
  lemma DivisionUnique(a: int, d: int, k: int, m: int)
    requires d > 0 && 0 <= m < d && a == k * d + m
    ensures a / d == k
  {
    var q, r := a / d, a % d;
    assert a == q * d + r;
    if q > k {
      MultipleAtLeast(q - k, d);
      assert false;
    } else if q < k {
      MultipleAtLeast(k - q, d);
      assert false;
    }
  }

  /** Any integer within one below a real is its ceiling. */
  lemma CeilUnique(x: real, n: int)
    requires n as real - 1.0 < x <= n as real
    ensures Ceil(x) == n
  {
  }

  /** The exact quotient splits into the integer quotient and the remainder's fraction. */
  lemma RealQuotient(totalRows: nat, pageSize: int)
    requires pageSize > 0
    ensures totalRows as real / pageSize as real
            == (totalRows / pageSize) as real + (totalRows % pageSize) as real / pageSize as real
  {
    var q, m := totalRows / pageSize, totalRows % pageSize;
    var d := pageSize as real;
    assert totalRows as real == q as real * d + m as real;
    assert (q as real + m as real / d) * d == q as real * d + m as real;
  }

  /** A quotient without remainder is its own ceiling. */
  lemma ExactQuotientCeiling(totalRows: nat, pageSize: int)
    requires pageSize > 0 && totalRows % pageSize == 0
    ensures Ceil(totalRows as real / pageSize as real) == (totalRows + pageSize - 1) / pageSize
  {
    var q := totalRows / pageSize;
    RealQuotient(totalRows, pageSize);
    CeilUnique(totalRows as real / pageSize as real, q);
    DivisionUnique(totalRows + pageSize - 1, pageSize, q, pageSize - 1);
  }

  /** A quotient with a remainder rounds up to the next integer. */
  lemma FractionalQuotientCeiling(totalRows: nat, pageSize: int)
    requires pageSize > 0 && totalRows % pageSize != 0
    ensures Ceil(totalRows as real / pageSize as real) == (totalRows + pageSize - 1) / pageSize
  {
    var q, m := totalRows / pageSize, totalRows % pageSize;
    RealQuotient(totalRows, pageSize);
    assert 0.0 < m as real / pageSize as real < 1.0;
    CeilUnique(totalRows as real / pageSize as real, q + 1);
    DivisionUnique(totalRows + pageSize - 1, pageSize, q + 1, m - 1);
  }

  /** With a non-negative row count, the last page is the integer ceiling, and at least 1. */
  lemma LastPageIsIntegerCeiling(totalRows: nat, pageSize: int)
    requires pageSize > 0
    ensures LastPageNumber(totalRows, pageSize)
            == if totalRows == 0 then 1 else (totalRows + pageSize - 1) / pageSize
  {
    if totalRows % pageSize == 0 {
      ExactQuotientCeiling(totalRows, pageSize);
    } else {
      FractionalQuotientCeiling(totalRows, pageSize);
    }
  }

  /** On an aligned offset, the first-page and last-page flags are the page index comparisons. */
  lemma AlignedPageFlags(k: nat, limit: int, count: nat)
    requires limit > 0
    ensures MakePageInfo(limit, k * limit, count).isFirstPage <==> k == 0
    ensures MakePageInfo(limit, k * limit, count).isLastPage
            <==> k + 1 == (if count == 0 then 1 else (count + limit - 1) / limit)
  {
    AlignedOffsetPage(k, limit);
    LastPageIsIntegerCeiling(count, limit);
  }

  /** Exchanging two positions of a sequence keeps its length and its multiset. */
  lemma SwapIsPermutation<T>(s: seq<T>, i: nat, j: nat)
    requires i < |s| && j < |s|
    ensures multiset(s[i := s[j]][j := s[i]]) == multiset(s)
  {
    var t := s[i := s[j]];
    assert multiset(t) == multiset(s) - multiset{s[i]} + multiset{s[j]};
  }

  /**
   * The backward Fisher-Yates loop: for `i` from the last index down to 1 it
   * swaps position `i` with a uniformly random position `j` between 0 and `i`
   * inclusive; `draw(i) % (i + 1)` stands for that choice.
   */
  method Shuffle<T>(list: seq<T>, draw: nat -> nat) returns (s: seq<T>)
    ensures |s| == |list|
    ensures multiset(s) == multiset(list)
  {
    s := list;
    var i := |list| - 1;
    while i > 0
      invariant |s| == |list|
      invariant i < |list| || |list| == 0
      invariant multiset(s) == multiset(list)
      decreases i
    {
      var j := draw(i) % (i + 1);
      SwapIsPermutation(s, i, j);
      s := s[i := s[j]][j := s[i]];
      i := i - 1;
    }
  }

  /** The constructor. */
  method NewPagedResponse<T>(list: seq<T>, options: Options, draw: nat -> nat) returns (r: Response<T>)
    requires options.count.Some? ==> options.limit.GetOr(DefaultLimit) != 0
    ensures |r.list| == |list| && multiset(r.list) == multiset(list)
    ensures options.shuffle.GetOr(0) == 0 ==> r.list == list
    ensures r.pageInfo.None? <==> options.count.None?
    ensures r.pageInfo.Some? ==>
              var p := r.pageInfo.value;
              var limit := options.limit.GetOr(DefaultLimit);
              && p.totalRows == options.count.value
              && p.pageSize == limit
              && (p.isFirstPage <==> p.page == 1.0)
              && (p.isLastPage <==> p.page == LastPageNumber(p.totalRows, limit) as real)
              && (options.offset.GetOr(DefaultOffset) == 0 ==> p.page == 1.0)
              && (options.offset.GetOr(DefaultOffset) != 0 ==>
                    p.page * limit as real == options.offset.GetOr(DefaultOffset) as real + limit as real)
  {
    var limit := options.limit.GetOr(DefaultLimit);
    var offset := options.offset.GetOr(DefaultOffset);
    var items := list;
    if options.shuffle.GetOr(0) != 0 {
      items := Shuffle(list, draw);
    }
    var info: Option<PageInfo> := None;
    if options.count.Some? {
      info := Some(MakePageInfo(limit, offset, options.count.value));
    }
    r := Response(items, info);
  }
}
