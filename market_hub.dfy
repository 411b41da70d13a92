/**
 * The member market hub (pages/dashboard/MarketHubView.tsx): other members'
 * listings paged ten at a time, the page number kept in range as listings
 * come and go, the new-listing form and the delete confirmation.
 */
module MarketHub {
  import opened Records
  import opened Seqs

  const ItemsPerPage: nat := 10

  /** Whether a listing belongs to someone other than the signed-in user (everyone's, when signed out). */
  function NotMine(user: Option<User>): Listing -> bool
  {
    (l: Listing) => user.None? || l.userId != user.value.uid
  }

  /** The listings shown in the community list: all but the user's own, in order. */
  function CommunityListings(listings: seq<Listing>, user: Option<User>): (r: seq<Listing>)
    ensures user.None? ==> r == listings
    ensures user.Some? ==> forall l :: l in r <==> l in listings && l.userId != user.value.uid
    ensures IsSubsequence(r, listings)
    ensures forall l :: multiset(r)[l] == if NotMine(user)(l) then multiset(listings)[l] else 0
  {
    FilterIsSubsequence(listings, NotMine(user));
    FilterCounts(listings, NotMine(user));
    if user.None? then
      FilterKeepsAll(listings, NotMine(user));
      Filter(listings, NotMine(user))
    else Filter(listings, NotMine(user))
  }

  /** `Math.ceil(n / 10)`. */
  function TotalPages(n: nat): (t: nat)
    ensures t * ItemsPerPage >= n
    ensures t > 0 ==> (t - 1) * ItemsPerPage < n
    ensures t == 0 <==> n == 0
  {
    (n + ItemsPerPage - 1) / ItemsPerPage
  }

  /** The effect: a page beyond the last one falls back to the last one; with no pages nothing changes. */
  function ClampPage(current: int, totalPages: nat): (p: int)
    ensures totalPages > 0 && current >= 1 ==> 1 <= p <= totalPages
    ensures current <= totalPages || totalPages == 0 ==> p == current
  {
    if current > totalPages && totalPages > 0 then totalPages else current
  }

  /** The listings of one page: `slice((page - 1) * 10, page * 10)`. */
  function PageSlice(list: seq<Listing>, page: int): seq<Listing>
  {
    JsSlice(list, (page - 1) * ItemsPerPage, page * ItemsPerPage)
  }

  /** A page in range is a run of ten listings, the last page holding the remainder (one to ten). */
  lemma PageSliceSize(list: seq<Listing>, page: int)
    requires 1 <= page <= TotalPages(|list|)
    ensures page < TotalPages(|list|) ==> |PageSlice(list, page)| == ItemsPerPage
    ensures page == TotalPages(|list|) ==> |PageSlice(list, page)| == |list| - (page - 1) * ItemsPerPage
    ensures 1 <= |PageSlice(list, page)| <= ItemsPerPage
    ensures PageSlice(list, page) == list[(page - 1) * ItemsPerPage ..
                                         if page * ItemsPerPage < |list| then page * ItemsPerPage else |list|]
  {
  }

  /** The first `k` pages, one after the other. */
  function FirstPages(list: seq<Listing>, k: nat): seq<Listing>
  {
    if k == 0 then [] else FirstPages(list, k - 1) + PageSlice(list, k)
  }

  /** The first `k` pages together are the first `10 k` listings (or all of them). */
  lemma {:induction false} FirstPagesArePrefix(list: seq<Listing>, k: nat)
    ensures FirstPages(list, k) == list[..if k * ItemsPerPage < |list| then k * ItemsPerPage else |list|]
  {
    if k > 0 {
      FirstPagesArePrefix(list, k - 1);
      var lo := if (k - 1) * ItemsPerPage < |list| then (k - 1) * ItemsPerPage else |list|;
      var hi := if k * ItemsPerPage < |list| then k * ItemsPerPage else |list|;
      assert PageSlice(list, k) == list[lo..hi];
      assert list[..lo] + list[lo..hi] == list[..hi];
    }
  }

  /** Paging neither drops nor repeats a listing: the pages in order are the whole list. */
  lemma PagesCoverList(list: seq<Listing>)
    ensures FirstPages(list, TotalPages(|list|)) == list
  {
    FirstPagesArePrefix(list, TotalPages(|list|));
  }

  /** The pager shows only when there is more than one page. */
  predicate PagerVisible(totalPages: nat)
  {
    totalPages > 1
  }

  /** The text, quantity and unparsed price of a new listing, with its owner. */
  datatype ListingDraft = ListingDraft(productName: string, quantity: string, price: string, userId: string)

  class MarketHubScreen {
    var currentPage: int
    var productName: string
    var quantity: string
    var price: string
    var isSubmitting: bool
    var showConfirm: bool
    var listingToDelete: Option<string>

    predicate Valid()
      reads this
    {
      currentPage >= 1
    }

    constructor ()
      ensures Valid() && currentPage == 1
      ensures productName == "" && quantity == "" && price == ""
      ensures !isSubmitting && !showConfirm && listingToDelete == None
    {
      currentPage := 1;
      productName, quantity, price := "", "", "";
      isSubmitting := false;
      showConfirm := false;
      listingToDelete := None;
    }

    /** The listings on screen for the current page. */
    function CurrentListings(listings: seq<Listing>, user: Option<User>): seq<Listing>
      reads this
    {
      PageSlice(CommunityListings(listings, user), currentPage)
    }

    /** The effect run whenever the listings or the page change. */
    method ClampToListings(listings: seq<Listing>, user: Option<User>)
      requires Valid()
      modifies this`currentPage
      ensures Valid()
      ensures currentPage == ClampPage(old(currentPage), TotalPages(|CommunityListings(listings, user)|))
      ensures CommunityListings(listings, user) != [] ==>
                currentPage <= TotalPages(|CommunityListings(listings, user)|) &&
                CurrentListings(listings, user) != []
    {
      var total := TotalPages(|CommunityListings(listings, user)|);
      currentPage := ClampPage(currentPage, total);
      if CommunityListings(listings, user) != [] {
        PageSliceSize(CommunityListings(listings, user), currentPage);
      }
    }

    /** "Previous": one page back, never below the first. */
    method Previous()
      requires Valid()
      modifies this`currentPage
      ensures Valid()
      ensures currentPage == if old(currentPage) > 1 then old(currentPage) - 1 else 1
    {
      currentPage := if currentPage - 1 > 1 then currentPage - 1 else 1;
    }

    /** "Next", shown only with more than one page: one page on, never past the last. */
    method Next(totalPages: nat)
      requires Valid() && PagerVisible(totalPages)
      modifies this`currentPage
      ensures Valid()
      ensures currentPage == if old(currentPage) + 1 < totalPages then old(currentPage) + 1 else totalPages
      ensures old(currentPage) <= totalPages ==> currentPage <= totalPages
    {
      currentPage := if currentPage + 1 < totalPages then currentPage + 1 else totalPages;
    }

    method SetProductName(value: string)
      modifies this`productName
      ensures productName == value
    {
      productName := value;
    }

    method SetQuantity(value: string)
      modifies this`quantity
      ensures quantity == value
    {
      quantity := value;
    }

    method SetPrice(value: string)
      modifies this`price
      ensures price == value
    {
      price := value;
    }

    /**
     * `handleCreateListing`: nothing is written without a signed-in user or
     * with any field empty; otherwise the listing is posted under the user's
     * id and, only when the write succeeds, the form is cleared.
     */
    method CreateListing(user: Option<User>, succeeded: bool) returns (posted: Option<ListingDraft>)
      modifies this`productName, this`quantity, this`price, this`isSubmitting
      ensures posted.None? <==> user.None? || old(productName) == "" || old(quantity) == "" || old(price) == ""
      ensures posted.None? ==> productName == old(productName) && quantity == old(quantity) &&
                               price == old(price) && isSubmitting == old(isSubmitting)
      ensures posted.Some? ==> posted.value == ListingDraft(old(productName), old(quantity), old(price), user.value.uid)
      ensures posted.Some? && succeeded ==> productName == "" && quantity == "" && price == ""
      ensures posted.Some? && !succeeded ==>
                productName == old(productName) && quantity == old(quantity) && price == old(price)
      ensures posted.Some? ==> !isSubmitting
    {
      if user.None? || productName == "" || quantity == "" || price == "" {
        return None;
      }
      isSubmitting := true;
      posted := Some(ListingDraft(productName, quantity, price, user.value.uid));
      if succeeded {
        productName, quantity, price := "", "", "";
      }
      isSubmitting := false;
    }

    method OpenDeleteConfirm(id: string)
      modifies this`listingToDelete, this`showConfirm
      ensures listingToDelete == Some(id) && showConfirm
    {
      listingToDelete := Some(id);
      showConfirm := true;
    }

    /** The dialog's cancel: it closes and keeps its target. */
    method CancelDelete()
      modifies this`showConfirm
      ensures !showConfirm && listingToDelete == old(listingToDelete)
    {
      showConfirm := false;
    }

    /**
     * `handleDeleteListing`: without a target (none, or an empty id) nothing
     * happens; otherwise the listing document is removed when the store is
     * reachable, and the dialog closes and forgets its target either way.
     */
    method DeleteListing(store: map<string, Listing>, reachable: bool) returns (store': map<string, Listing>)
      modifies this`listingToDelete, this`showConfirm
      ensures (old(listingToDelete) == None || old(listingToDelete) == Some("")) ==>
                store' == store && listingToDelete == old(listingToDelete) && showConfirm == old(showConfirm)
      ensures old(listingToDelete).Some? && old(listingToDelete).value != "" ==>
                store' == (if reachable then store - {old(listingToDelete).value} else store) &&
                listingToDelete == None && !showConfirm
    {
      if listingToDelete.None? || listingToDelete.value == "" {
        return store;
      }
      store' := if reachable then store - {listingToDelete.value} else store;
      showConfirm := false;
      listingToDelete := None;
    }
  }
}
