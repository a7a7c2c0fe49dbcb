/** The shop's pagination arithmetic: twelve products a page, and the clamped Previous/Next buttons. */
module Pagination {
  import opened Seqs

  const ProductsPerPage: nat := 12

  /** `Math.ceil(n / productsPerPage)`: the fewest pages that hold `n` products. */
  function TotalPages(n: nat): (t: nat)
    ensures n <= t * ProductsPerPage
    ensures t > 0 ==> (t - 1) * ProductsPerPage < n
  {
    (n + ProductsPerPage - 1) / ProductsPerPage
  }

  /** The pager is rendered only when there is more than one page, that is, more than twelve products. */
  predicate ShowPager(n: nat) {
    TotalPages(n) > 1
  }

  lemma ShowPagerWhenOverOnePage(n: nat)
    ensures ShowPager(n) <==> n > ProductsPerPage
  {
  }

  /** `(currentPage - 1) * productsPerPage`. */
  function PageStart(page: int): int {
    (page - 1) * ProductsPerPage
  }

  /** `filtered.slice(startIndex, startIndex + productsPerPage)`. */
  function PageItems<T>(xs: seq<T>, page: int): (r: seq<T>)
    ensures |r| <= ProductsPerPage
    ensures forall i :: 0 <= i < |r| ==> r[i] in xs
    ensures 1 <= page <= TotalPages(|xs|) ==>
              r != [] && r == xs[PageStart(page)..Min(PageStart(page) + ProductsPerPage, |xs|)]
    ensures page > TotalPages(|xs|) ==> r == []
  {
    Slice(xs, PageStart(page), PageStart(page) + ProductsPerPage)
  }

  /** Pages 1 to `m`, in order. */
  function Pages<T>(xs: seq<T>, m: nat): (ps: seq<seq<T>>)
    ensures |ps| == m
  {
    if m == 0 then [] else Pages(xs, m - 1) + [PageItems(xs, m)]
  }

  /** Pages 1 to `m` together are the first `12 * m` products. */
  lemma {:induction false} PagesCoverPrefix<T>(xs: seq<T>, m: nat)
    requires m <= TotalPages(|xs|)
    ensures Flatten(Pages(xs, m)) == xs[..Min(m * ProductsPerPage, |xs|)]
  {
    if m > 0 {
      var ps := Pages(xs, m);
      assert ps[..m - 1] == Pages(xs, m - 1);
      PagesCoverPrefix(xs, m - 1);
    }
  }

  /** Concatenating pages 1 to TotalPages gives back the whole filtered list. */
  lemma PagesConcatenate<T>(xs: seq<T>)
    ensures Flatten(Pages(xs, TotalPages(|xs|))) == xs
  {
    PagesCoverPrefix(xs, TotalPages(|xs|));
  }

  /** Previous: `Math.max(prev - 1, 1)`. */
  function PreviousPageNumber(page: int): (r: int)
    ensures r >= 1
    ensures page > 1 ==> r == page - 1
    ensures page <= 1 ==> r == 1
  {
    if page - 1 >= 1 then page - 1 else 1
  }

  /** Next: `Math.min(prev + 1, totalPages)`. */
  function NextPageNumber(page: int, total: int): (r: int)
    ensures r <= total
    ensures page < total ==> r == page + 1
    ensures page >= total ==> r == total
  {
    if page + 1 <= total then page + 1 else total
  }

  /** From a page within range, Previous and Next land within range. */
  lemma PagerStaysInRange(page: int, total: int)
    requires 1 <= page <= total
    ensures 1 <= PreviousPageNumber(page) <= total
    ensures 1 <= NextPageNumber(page, total) <= total
  {
  }
}
