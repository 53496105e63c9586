/**
 * The public-profile donations tab: the table's sort order, toggled by
 * clicking a column header, and the page window the donations query asks for.
 */
module DonationsTab {

  /** `EOrderBy`: the sortable columns. */
  datatype OrderBy = CreationDate | TokenAmount | UsdAmount

  /** `EDirection`. */
  datatype Direction = Asc | Desc

  /** `IOrder`. */
  datatype Order = Order(orderBy: OrderBy, direction: Direction)

  /** The icon beside a column header. */
  datatype SortIcon = Neutral | ArrowDown | ArrowUp

  /** `itemPerPage`. */
  const ItemPerPage: nat := 10

  /** The order a tab opens with: newest donations first. */
  const InitialOrder := Order(CreationDate, Desc)

  /**
   * `orderChangeHandler`'s new order: clicking the current column flips its
   * direction, clicking another column sorts by it descending.
   */
  function NextOrder(order: Order, clicked: OrderBy): (r: Order)
    ensures r.orderBy == clicked
    ensures clicked == order.orderBy ==> r.direction != order.direction
    ensures clicked != order.orderBy ==> r.direction == Desc
  {
    if clicked == order.orderBy then
      Order(clicked, if order.direction == Asc then Desc else Asc)
    else
      Order(clicked, Desc)
  }

  /** Clicking the current column twice restores the order. */
  lemma ClickTwiceRestores(order: Order)
    ensures NextOrder(NextOrder(order, order.orderBy), order.orderBy) == order
  {
  }

  /** `injectSortIcon`: neutral on other columns, down for DESC and up for ASC on the sorted one. */
  function InjectSortIcon(order: Order, title: OrderBy): (icon: SortIcon)
    ensures icon == Neutral <==> order.orderBy != title
    ensures icon == ArrowDown <==> order.orderBy == title && order.direction == Desc
    ensures icon == ArrowUp <==> order.orderBy == title && order.direction == Asc
  {
    if order.orderBy == title then
      match order.direction
      case Desc => ArrowDown
      case Asc => ArrowUp
    else
      Neutral
  }

  /** The paging variables of the donations query. */
  datatype Window = Window(take: nat, skip: nat)

  /** `take: itemPerPage, skip: page * itemPerPage`. */
  function QueryWindow(page: nat): (w: Window)
    ensures w.take == ItemPerPage
    ensures w.skip % ItemPerPage == 0 && w.skip / ItemPerPage == page
  {
    Window(ItemPerPage, page * ItemPerPage)
  }

  /** Consecutive pages are adjacent windows, so distinct pages never overlap. */
  lemma {:induction false} PagesTile(p: nat, q: nat)
    requires p < q
    ensures QueryWindow(p).skip + QueryWindow(p).take <= QueryWindow(q).skip
    ensures QueryWindow(p + 1).skip == QueryWindow(p).skip + QueryWindow(p).take
  {
  }

  /** The tab's own state: the sort order and the current page. */
  class DonationsTabState {
    var order: Order
    var page: nat

    constructor ()
      ensures order == InitialOrder && page == 0
    {
      order := InitialOrder;
      page := 0;
    }

    /** `orderChangeHandler`. */
    method OrderChange(clicked: OrderBy)
      modifies this`order
      ensures order == NextOrder(old(order), clicked)
    {
      if clicked == order.orderBy {
        order := Order(clicked, if order.direction == Asc then Desc else Asc);
      } else {
        order := Order(clicked, Desc);
      }
    }

    /** `setPage`, passed to the pagination control. */
    method SetPage(p: nat)
      modifies this`page
      ensures page == p
    {
      page := p;
    }

    /** The window the query of the current page asks for. */
    function Query(): (w: Window)
      reads this
      ensures w.take == ItemPerPage && w.skip == page * ItemPerPage
    {
      QueryWindow(page)
    }
  }
}
