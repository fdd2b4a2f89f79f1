/**
 * The state kept by the base class of all Views pager plugins: the current
 * page (unknown until set), the total number of items (filled in by the count
 * query) and the `items_per_page`, `offset` and `id` entries of the plugin's
 * option map.
 */
module ViewsPager {
  import opened Wrappers

  const ItemsPerPageKey := "items_per_page"
  const OffsetKey := "offset"
  const PagerIdKey := "id"

  /** The argument of `set_current_page`: left out (NULL), an integer, or a
      value that is not numeric at all. */
  datatype PageArgument = Omitted | Numeric(n: int) | NotNumeric

  /** The page number `set_current_page` stores for its argument: the number
      itself when it is a non-negative integer, and 0 for anything else. */
  function PageNumber(arg: PageArgument): (r: nat)
    ensures arg.Numeric? && arg.n >= 0 ==> r == arg.n
    ensures arg.Numeric? && arg.n < 0 ==> r == 0
    ensures !arg.Numeric? ==> r == 0
  {
    match arg
    case Numeric(n) => if n < 0 then 0 else n
    case _ => 0
  }

  /** PHP's `intval` of the current page: NULL reads as 0. */
  function IntVal(page: Option<int>): (r: int)
    ensures page.None? ==> r == 0
    ensures page.Some? ==> r == page.value
  {
    page.GetOr(0)
  }

  class PagerPluginBase {
    /** NULL while the current page is not known. */
    var currentPage: Option<int>
    var totalItems: int
    /** The plugin's options; only the three keys above are read here. */
    var options: map<string, int>

    /** A new pager: the options come from the plugin's configuration, the
        current page is unknown and no items are counted yet. */
    constructor (options: map<string, int>)
      ensures currentPage == None && totalItems == 0
      ensures this.options == options
    {
      currentPage := None;
      totalItems := 0;
      this.options := options;
    }

    /** How many items one page shows; 0 when the option is not set. */
    function ItemsPerPage(): (r: int)
      reads this
      ensures ItemsPerPageKey in options ==> r == options[ItemsPerPageKey]
      ensures ItemsPerPageKey !in options ==> r == 0
    {
      if ItemsPerPageKey in options then options[ItemsPerPageKey] else 0
    }

    method SetItemsPerPage(items: int)
      modifies this`options
      ensures options == old(options)[ItemsPerPageKey := items]
      ensures ItemsPerPage() == items
      ensures Offset() == old(Offset()) && PagerId() == old(PagerId())
    {
      options := options[ItemsPerPageKey := items];
    }

    /** How many items are skipped before the first page; 0 when unset. */
    function Offset(): (r: int)
      reads this
      ensures OffsetKey in options ==> r == options[OffsetKey]
      ensures OffsetKey !in options ==> r == 0
    {
      if OffsetKey in options then options[OffsetKey] else 0
    }

    method SetOffset(offset: int)
      modifies this`options
      ensures options == old(options)[OffsetKey := offset]
      ensures Offset() == offset
      ensures ItemsPerPage() == old(ItemsPerPage()) && PagerId() == old(PagerId())
    {
      options := options[OffsetKey := offset];
    }

    /** The current page, NULL when not known. */
    function CurrentPage(): (r: Option<int>)
      reads this
      ensures r == currentPage
    {
      currentPage
    }

    /** Stores the page number of `number`: never negative, 0 for a missing,
        negative or non-numeric argument. */
    method SetCurrentPage(number: PageArgument)
      modifies this`currentPage
      ensures currentPage == Some(PageNumber(number) as int)
      ensures currentPage.value >= 0
      ensures number.Numeric? && number.n >= 0 ==> currentPage == Some(number.n)
      ensures number == Omitted ==> currentPage == Some(0)
    {
      var page := 0;
      if number.Numeric? && number.n >= 0 {
        page := number.n;
      }
      currentPage := Some(page);
    }

    /** The counted number of items, net of the offset. */
    function TotalItems(): (r: int)
      reads this
      ensures r == totalItems
    {
      totalItems
    }

    /** The pager's id; 0 when the option is not set. */
    function PagerId(): (r: int)
      reads this
      ensures PagerIdKey in options ==> r == options[PagerIdKey]
      ensures PagerIdKey !in options ==> r == 0
    {
      if PagerIdKey in options then options[PagerIdKey] else 0
    }

    /** Every pager of this base pages its results. */
    predicate UsePager()
      ensures UsePager()
    {
      true
    }

    /** Every pager of this base needs a count query. */
    predicate UseCountQuery()
      ensures UseCountQuery()
    {
      true
    }

    /** The base pager has no exposed form elements. */
    predicate UsesExposed()
      ensures !UsesExposed()
    {
      false
    }

    /** The number of items per page is not exposed to the user. */
    predicate ItemsPerPageExposed()
      ensures !ItemsPerPageExposed()
    {
      false
    }

    /** The offset is not exposed to the user. */
    predicate OffsetExposed()
      ensures !OffsetExposed()
    {
      false
    }

    /** Takes the result `count` of the count query, subtracts a set, nonzero
        offset, and returns the new total. Nothing clamps the total, so an
        offset larger than the count leaves it negative. */
    method ExecuteCountQuery(count: int) returns (total: int)
      modifies this`totalItems
      ensures total == totalItems
      ensures OffsetKey in options && options[OffsetKey] != 0 ==> totalItems == count - options[OffsetKey]
      ensures !(OffsetKey in options && options[OffsetKey] != 0) ==> totalItems == count
      ensures totalItems == count - Offset()
    {
      totalItems := count;
      if OffsetKey in options && options[OffsetKey] != 0 {
        totalItems := totalItems - options[OffsetKey];
      }
      UpdatePageInfo();
      total := totalItems;
    }

    /** A hook for pagers that keep global paging values; the base does
        nothing. */
    method UpdatePageInfo()
    {
    }

    /** Whether records remain beyond the current page: never without a page
        size, and otherwise exactly when the total exceeds the items up to
        and including the current page (an unknown page counts as page 0). */
    function HasMoreRecords(): (r: bool)
      reads this
      ensures ItemsPerPage() == 0 ==> !r
      ensures ItemsPerPage() != 0 ==>
        (r <==> totalItems > (IntVal(currentPage) + 1) * ItemsPerPage())
    {
      ItemsPerPage() != 0 && totalItems > (IntVal(currentPage) + 1) * ItemsPerPage()
    }
  }
}
