/**
 * The UI slice (src/store/slices/uiSlice.ts): the menu-detail modal, the filter
 * drawer and the summary of the last checkout. `None` stands for `null` in the
 * two ids and for `undefined` in the `last*` fields; numbers are integers.
 */
module UiSlice {
  import opened Wrappers

  /** The `setLastCheckoutSummary` payload; every field may be absent. */
  datatype CheckoutSummary = CheckoutSummary(
    paymentMethod: Option<string>,
    subtotal: Option<int>,
    deliveryFee: Option<int>,
    serviceFee: Option<int>,
    total: Option<int>,
    items: Option<int>)

  class Ui {
    var isMenuDetailOpen: bool
    var activeMenuId: Option<int>
    var activeRestaurantId: Option<int>
    var isFilterOpen: bool
    var lastCheckoutAt: Option<string>
    var lastPaymentMethod: Option<string>
    var lastSubtotal: Option<int>
    var lastDeliveryFee: Option<int>
    var lastServiceFee: Option<int>
    var lastTotal: Option<int>
    var lastItems: Option<int>

    /**
     * The modal is open exactly when a menu item is active, and a closed modal
     * has no active restaurant. The source does not demand it of its callers: it
     * is an invariant the constructor establishes and every reducer keeps.
     */
    ghost predicate Valid()
      reads this
    {
      (isMenuDetailOpen <==> activeMenuId.Some?) && (!isMenuDetailOpen ==> activeRestaurantId.None?)
    }

    /** `initialState`: modal and drawer closed, no ids, no checkout recorded. */
    constructor ()
      ensures !isMenuDetailOpen && activeMenuId == None && activeRestaurantId == None && !isFilterOpen
      ensures lastCheckoutAt == None && lastPaymentMethod == None && lastSubtotal == None
      ensures lastDeliveryFee == None && lastServiceFee == None && lastTotal == None && lastItems == None
      ensures Valid()
    {
      isMenuDetailOpen, activeMenuId, activeRestaurantId, isFilterOpen := false, None, None, false;
      lastCheckoutAt, lastPaymentMethod := None, None;
      lastSubtotal, lastDeliveryFee, lastServiceFee, lastTotal, lastItems := None, None, None, None, None;
    }

    /** `openMenuDetail`: opens the modal on `menuId`; the restaurant is `restaurantId ?? null`. */
    method OpenMenuDetail(menuId: int, restaurantId: Option<int>)
      modifies this`isMenuDetailOpen, this`activeMenuId, this`activeRestaurantId
      ensures isMenuDetailOpen && activeMenuId == Some(menuId) && activeRestaurantId == restaurantId
      ensures Valid()
    {
      isMenuDetailOpen := true;
      activeMenuId := Some(menuId);
      activeRestaurantId := restaurantId;
    }

    /** `closeMenuDetail`: closes the modal and clears both ids. */
    method CloseMenuDetail()
      modifies this`isMenuDetailOpen, this`activeMenuId, this`activeRestaurantId
      ensures !isMenuDetailOpen && activeMenuId == None && activeRestaurantId == None
      ensures Valid()
    {
      isMenuDetailOpen := false;
      activeMenuId := None;
      activeRestaurantId := None;
    }

    /** `toggleFilter`: `open ?? !isFilterOpen`. */
    method ToggleFilter(open: Option<bool>)
      modifies this`isFilterOpen
      ensures isFilterOpen == if open.Some? then open.value else !old(isFilterOpen)
      ensures old(Valid()) ==> Valid()
    {
      isFilterOpen := if open.Some? then open.value else !isFilterOpen;
    }

    /** `setLastCheckoutAt`. */
    method SetLastCheckoutAt(at: Option<string>)
      modifies this`lastCheckoutAt
      ensures lastCheckoutAt == at
      ensures old(Valid()) ==> Valid()
    {
      lastCheckoutAt := at;
    }

    /** `setLastCheckoutSummary`: overwrites all six fields; an absent payload field clears its field. */
    method SetLastCheckoutSummary(summary: CheckoutSummary)
      modifies this`lastPaymentMethod, this`lastSubtotal, this`lastDeliveryFee, this`lastServiceFee, this`lastTotal, this`lastItems
      ensures lastPaymentMethod == summary.paymentMethod && lastSubtotal == summary.subtotal
      ensures lastDeliveryFee == summary.deliveryFee && lastServiceFee == summary.serviceFee
      ensures lastTotal == summary.total && lastItems == summary.items
      ensures old(Valid()) ==> Valid()
    {
      lastPaymentMethod := summary.paymentMethod;
      lastSubtotal := summary.subtotal;
      lastDeliveryFee := summary.deliveryFee;
      lastServiceFee := summary.serviceFee;
      lastTotal := summary.total;
      lastItems := summary.items;
    }
  }

  /** Toggling without a value twice restores the drawer, and nothing else changes. */
  method ToggleTwiceRestores(ui: Ui)
    modifies ui`isFilterOpen
    ensures ui.isFilterOpen == old(ui.isFilterOpen)
  {
    ui.ToggleFilter(None);
    ui.ToggleFilter(None);
  }

  /** Opening then closing the modal leaves it as after a close, whatever was open before. */
  method OpenThenClose(ui: Ui, menuId: int, restaurantId: Option<int>)
    modifies ui`isMenuDetailOpen, ui`activeMenuId, ui`activeRestaurantId
    ensures !ui.isMenuDetailOpen && ui.activeMenuId == None && ui.activeRestaurantId == None && ui.Valid()
    ensures ui.isFilterOpen == old(ui.isFilterOpen) && ui.lastCheckoutAt == old(ui.lastCheckoutAt)
  {
    ui.OpenMenuDetail(menuId, restaurantId);
    ui.CloseMenuDetail();
  }
}
