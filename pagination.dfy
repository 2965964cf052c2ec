/** The pager under the result list: how many pages it offers, and the page
    change it reports back to the results page. */
module Pagination {

  /** `Math.ceil(totalItems / itemsPerPage)`: the fewest pages of
      `itemsPerPage` items that hold `totalItems` items. */
  function PageCount(totalItems: nat, itemsPerPage: int): (count: nat)
    requires itemsPerPage > 0
    ensures totalItems == 0 <==> count == 0
    ensures totalItems > 0 ==> (count - 1) * itemsPerPage < totalItems <= count * itemsPerPage
  {
    var q := totalItems / itemsPerPage;
    var r := totalItems % itemsPerPage;
    assert totalItems == q * itemsPerPage + r;
    if r == 0 then q else q + 1
  }

  /** Every item index falls on a page the pager offers: item `i` (counting
      from 0) is shown on page `i / itemsPerPage + 1`. */
  lemma ItemOnOfferedPage(i: nat, totalItems: nat, itemsPerPage: int)
    requires itemsPerPage > 0 && i < totalItems
    ensures 1 <= i / itemsPerPage + 1 <= PageCount(totalItems, itemsPerPage)
  {
    var count := PageCount(totalItems, itemsPerPage);
    var q := i / itemsPerPage;
    assert q * itemsPerPage <= i < count * itemsPerPage;
    FactorsOrdered(q, count, itemsPerPage);
  }

  /** Cancelling a positive factor from both sides of `<`. */
  lemma FactorsOrdered(a: int, b: int, c: int)
    requires c > 0 && a * c < b * c
    ensures a < b
  {
  }

  /** `handleChange`: the page chosen in the pager is passed on unchanged;
      the event that came with it plays no part. */
  function HandleChange<E>(event: E, value: int): (forwarded: int)
    ensures forwarded == value
  {
    value
  }
}
