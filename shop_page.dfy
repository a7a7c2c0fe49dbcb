/**
 * The shop page's state: the fetched products, the filtered listing, the
 * category options, the filter settings and the current page, each updated
 * by the page's handlers and effects.
 */
module ShopPage {
  import opened Options
  import opened Catalog
  import opened ShopFilter
  import opened Pagination

  /** The answer of the `products` query: an error, or rows (possibly `null`). */
  datatype FetchResult = FetchFailed | Rows(data: Option<seq<Product>>)

  class Shop {
    var allProducts: seq<Product>
    var filteredProducts: seq<Product>
    var categories: seq<string>
    var loading: bool
    var searchTerm: string
    var selectedCategory: string
    var minPrice: int
    var maxPrice: int
    var currentPage: int

    function Settings(): Criteria
      reads this
    {
      Criteria(searchTerm, selectedCategory, minPrice, maxPrice)
    }

    /**
     * The listing follows the products and the settings, the options follow
     * the products, and the current page is 1 or one of the listing's pages.
     */
    ghost predicate Valid()
      reads this
    {
      && filteredProducts == FilterProducts(allProducts, Settings())
      && categories == Categories(allProducts)
      && 1 <= currentPage
      && (currentPage == 1 || currentPage <= TotalPages(|filteredProducts|))
    }

    /** The page as first rendered, after its filter effect has run once over no products. */
    constructor ()
      ensures Valid()
      ensures allProducts == [] && filteredProducts == [] && categories == ["All"] && loading
      ensures Settings() == Criteria("", "All", 0, 300) && currentPage == 1
    {
      allProducts := [];
      categories := ["All"];
      loading := true;
      searchTerm := "";
      selectedCategory := "All";
      minPrice, maxPrice := 0, 300;
      currentPage := 1;
      filteredProducts := FilterProducts([], Criteria("", "All", 0, 300));
    }

    /** The filter effect: recompute the listing and go back to page 1. */
    method ApplyFilters()
      modifies this
      ensures filteredProducts == FilterProducts(allProducts, Settings()) && currentPage == 1
      ensures allProducts == old(allProducts) && categories == old(categories) && loading == old(loading)
      ensures Settings() == old(Settings())
      ensures categories == Categories(allProducts) ==> Valid()
    {
      filteredProducts := FilterProducts(allProducts, Settings());
      currentPage := 1;
    }

    /**
     * The end of `fetchProducts`: on an error every list is emptied and the
     * options are just "All"; otherwise the rows (none for `null`) are
     * installed with their categories. Either way the product list is a new
     * array, so the filter effect runs and the listing is filtered again.
     */
    method ReceiveProducts(result: FetchResult)
      modifies this
      ensures allProducts == if result.FetchFailed? then [] else result.data.GetOr([])
      ensures result.FetchFailed? ==> filteredProducts == [] && categories == ["All"]
      ensures categories == Categories(allProducts)
      ensures filteredProducts == FilterProducts(allProducts, Settings())
      ensures !loading && currentPage == 1 && Settings() == old(Settings())
      ensures Valid()
    {
      if result.FetchFailed? {
        allProducts := [];
        filteredProducts := [];
        categories := ["All"];
        loading := false;
      } else {
        var data := result.data.GetOr([]);
        allProducts := data;
        filteredProducts := data;
        categories := Categories(data);
        loading := false;
      }
      ApplyFilters();
    }

    /** Typing in the search box; an unchanged value does not re-run the filter effect. */
    method SetSearchTerm(term: string)
      requires Valid()
      modifies this
      ensures searchTerm == term && selectedCategory == old(selectedCategory)
      ensures minPrice == old(minPrice) && maxPrice == old(maxPrice)
      ensures allProducts == old(allProducts) && categories == old(categories) && loading == old(loading)
      ensures term != old(searchTerm) ==> currentPage == 1
      ensures term == old(searchTerm) ==> currentPage == old(currentPage)
      ensures Valid()
    {
      if term != searchTerm {
        searchTerm := term;
        ApplyFilters();
      }
    }

    /** Choosing a category; an unchanged value does not re-run the filter effect. */
    method SelectCategory(category: string)
      requires Valid()
      modifies this
      ensures selectedCategory == category && searchTerm == old(searchTerm)
      ensures minPrice == old(minPrice) && maxPrice == old(maxPrice)
      ensures allProducts == old(allProducts) && categories == old(categories) && loading == old(loading)
      ensures category != old(selectedCategory) ==> currentPage == 1
      ensures category == old(selectedCategory) ==> currentPage == old(currentPage)
      ensures Valid()
    {
      if category != selectedCategory {
        selectedCategory := category;
        ApplyFilters();
      }
    }

    /** Moving the price slider sets the upper bound; the range is a new array, so the effect always runs. */
    method SetMaxPrice(bound: int)
      requires Valid()
      modifies this
      ensures maxPrice == bound && minPrice == old(minPrice)
      ensures searchTerm == old(searchTerm) && selectedCategory == old(selectedCategory)
      ensures allProducts == old(allProducts) && categories == old(categories) && loading == old(loading)
      ensures currentPage == 1
      ensures Valid()
    {
      maxPrice := bound;
      ApplyFilters();
    }

    /** The products shown: at most twelve, and some whenever the listing is not empty. */
    function CurrentProducts(): (r: seq<Product>)
      reads this
      requires Valid()
      ensures |r| <= ProductsPerPage
      ensures filteredProducts != [] ==> r != []
      ensures forall i :: 0 <= i < |r| ==> r[i] in filteredProducts
    {
      assert filteredProducts != [] ==> 1 <= currentPage <= TotalPages(|filteredProducts|);
      PageItems(filteredProducts, currentPage)
    }

    predicate PagerShown()
      reads this
    {
      ShowPager(|filteredProducts|)
    }

    /** The Previous button, which exists only while the pager is shown. */
    method GoToPreviousPage()
      requires Valid() && PagerShown()
      modifies this
      ensures currentPage == PreviousPageNumber(old(currentPage))
      ensures 1 <= currentPage <= TotalPages(|filteredProducts|)
      ensures filteredProducts == old(filteredProducts) && allProducts == old(allProducts)
      ensures categories == old(categories) && loading == old(loading) && Settings() == old(Settings())
      ensures Valid()
    {
      currentPage := PreviousPageNumber(currentPage);
    }

    /** The Next button, which exists only while the pager is shown. */
    method GoToNextPage()
      requires Valid() && PagerShown()
      modifies this
      ensures currentPage == NextPageNumber(old(currentPage), TotalPages(|filteredProducts|))
      ensures 1 <= currentPage <= TotalPages(|filteredProducts|)
      ensures filteredProducts == old(filteredProducts) && allProducts == old(allProducts)
      ensures categories == old(categories) && loading == old(loading) && Settings() == old(Settings())
      ensures Valid()
    {
      currentPage := NextPageNumber(currentPage, TotalPages(|filteredProducts|));
    }

    /** A numbered page button; the buttons are numbered 1 to TotalPages. */
    method GoToPage(page: int)
      requires Valid() && PagerShown() && 1 <= page <= TotalPages(|filteredProducts|)
      modifies this
      ensures currentPage == page
      ensures filteredProducts == old(filteredProducts) && allProducts == old(allProducts)
      ensures categories == old(categories) && loading == old(loading) && Settings() == old(Settings())
      ensures Valid()
    {
      currentPage := page;
    }
  }
}
