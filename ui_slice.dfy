/** frontend/src/store/slices/uiSlice.js: modal flags, the panels that open and
    close, the selection used for bulk operations, and `resetUI`. */
module UiSlice {
  import opened Common

  /** The modal flags `initialState` declares. */
  function InitialModals(): (r: map<string, bool>)
    ensures r.Keys == {"authModal", "cartModal", "productModal", "confirmModal"}
    ensures forall k :: k in r ==> !r[k]
  {
    map["authModal" := false, "cartModal" := false, "productModal" := false, "confirmModal" := false]
  }

  /** A notification as `addNotification` stores it; only its id matters here. */
  datatype Notification = Notification(id: real, message: string)

  /** `selectedItems.filter(id => id !== itemId)`. */
  function Deselected(items: seq<Id>, itemId: Id): seq<Id> {
    if items == [] then []
    else if items[|items| - 1] == itemId then Deselected(items[..|items| - 1], itemId)
    else Deselected(items[..|items| - 1], itemId) + [items[|items| - 1]]
  }

  /** No id is selected twice. */
  predicate NoDuplicates(items: seq<Id>) {
    forall i, j :: 0 <= i < j < |items| ==> items[i] != items[j]
  }

  /** `selectItem`: append the id unless it is already there. */
  function Selected(items: seq<Id>, itemId: Id): seq<Id> {
    if itemId in items then items else items + [itemId]
  }

  /** `indexOf`: the first position of the id, or -1. */
  function IndexOf(items: seq<Id>, itemId: Id): (r: int)
    ensures -1 <= r < |items|
    ensures r == -1 <==> itemId !in items
    ensures r >= 0 ==> items[r] == itemId && forall j :: 0 <= j < r ==> items[j] != itemId
  {
    if items == [] then -1
    else if items[0] == itemId then 0
    else
      var k := IndexOf(items[1..], itemId);
      if k == -1 then -1 else k + 1
  }

  /** `toggleItemSelection`: remove the first occurrence if the id is there,
      otherwise append it. */
  function Toggled(items: seq<Id>, itemId: Id): seq<Id> {
    var index := IndexOf(items, itemId);
    if index > -1 then items[..index] + items[index + 1..] else items + [itemId]
  }

  /** `deselectItem` removes every occurrence of the id and nothing else. */
  lemma {:induction false} DeselectedMembers(items: seq<Id>, itemId: Id)
    ensures var r := Deselected(items, itemId);
      |r| <= |items| && (forall x :: x in r <==> x in items && x != itemId)
  {
    if items != [] {
      var front := items[..|items| - 1];
      DeselectedMembers(front, itemId);
      assert items == front + [items[|items| - 1]];
    }
  }

  /** `deselectItem` keeps the selection free of duplicates. */
  lemma {:induction false} DeselectedNoDuplicates(items: seq<Id>, itemId: Id)
    requires NoDuplicates(items)
    ensures NoDuplicates(Deselected(items, itemId))
  {
    if items != [] {
      var front := items[..|items| - 1];
      var last := items[|items| - 1];
      DeselectedNoDuplicates(front, itemId);
      DeselectedMembers(front, itemId);
      if last != itemId {
        assert last !in front;
      }
    }
  }

  /** `selectItem` makes the id selected, keeps every other selection and
      never introduces a duplicate. */
  lemma SelectedEffect(items: seq<Id>, itemId: Id)
    ensures var r := Selected(items, itemId);
      itemId in r && (forall x :: x in r <==> x in items || x == itemId)
      && (NoDuplicates(items) ==> NoDuplicates(r))
  {
  }

  /** Toggling an unselected id selects it, and toggling a selected one
      unselects it when it was selected once; the selection stays free of
      duplicates. */
  lemma ToggledEffect(items: seq<Id>, itemId: Id)
    requires NoDuplicates(items)
    ensures var r := Toggled(items, itemId);
      NoDuplicates(r)
      && (itemId in items <==> itemId !in r)
      && (forall x :: x != itemId ==> (x in r <==> x in items))
  {
    var index := IndexOf(items, itemId);
    var r := Toggled(items, itemId);
    if index > -1 {
      assert items == items[..index] + [itemId] + items[index + 1..];
      forall x | x != itemId ensures x in r <==> x in items {
        assert x in items ==> x in items[..index] || x in items[index + 1..];
      }
    }
  }

  /** Toggling the same id twice restores the same set of selected ids. */
  lemma ToggleTwice(items: seq<Id>, itemId: Id)
    requires NoDuplicates(items)
    ensures var r := Toggled(Toggled(items, itemId), itemId);
      forall x :: x in r <==> x in items
  {
    ToggledEffect(items, itemId);
    ToggledEffect(Toggled(items, itemId), itemId);
  }

  /** Toggling an unselected id twice gives back the very same list. */
  lemma ToggleTwiceUnselected(items: seq<Id>, itemId: Id)
    requires itemId !in items
    ensures Toggled(Toggled(items, itemId), itemId) == items
  {
    var r := items + [itemId];
    assert IndexOf(r, itemId) == |items| by {
      assert r[|items|] == itemId;
      assert forall j :: 0 <= j < |items| ==> r[j] != itemId;
    }
    assert r[..|items|] == items;
  }

  /** Every field of the UI state, as one value. */
  datatype UiView = UiView(
    isGlobalLoading: bool, loadingMessage: string, modals: map<string, bool>,
    notifications: seq<Notification>, isMobileMenuOpen: bool, searchQuery: string,
    isSearchModalOpen: bool, isFiltersOpen: bool, theme: string, currentPage: int,
    selectedItems: seq<Id>, viewMode: string, isSidebarOpen: bool,
    globalError: Option<string>, language: string)

  /** `localStorage.getItem(key) || fallback`. */
  function Stored(value: Option<string>, fallback: string): (r: string)
    ensures value.Some? && value.value != "" ==> r == value.value
    ensures value.None? || value.value == "" ==> r == fallback
  {
    if value.Some? && value.value != "" then value.value else fallback
  }

  /** Every modal flag set to false, the same modals present. */
  function AllClosed(modals: map<string, bool>): (r: map<string, bool>)
    ensures r.Keys == modals.Keys
    ensures forall k :: k in r ==> !r[k]
  {
    map k | k in modals :: false
  }

  /** The state `resetUI` leaves: the reset fields at their initial values,
      the others as they were. */
  function Reset(v: UiView): (r: UiView)
    ensures r.theme == v.theme && r.viewMode == v.viewMode && r.language == v.language
    ensures r.currentPage == v.currentPage && r.searchQuery == v.searchQuery && r.isSidebarOpen == v.isSidebarOpen
    ensures r.modals == InitialModals() && r.selectedItems == [] && r.notifications == []
    ensures !r.isGlobalLoading && !r.isMobileMenuOpen && !r.isSearchModalOpen && !r.isFiltersOpen
    ensures r.loadingMessage == "" && r.globalError == None
  {
    v.(isGlobalLoading := false, loadingMessage := "", modals := InitialModals(), notifications := [],
       isMobileMenuOpen := false, isSearchModalOpen := false, isFiltersOpen := false,
       selectedItems := [], globalError := None)
  }

  /** `resetUI` twice is `resetUI` once, and the result no longer depends on
      any field it resets. */
  lemma ResetIdempotent(v: UiView, w: UiView)
    ensures Reset(Reset(v)) == Reset(v)
    ensures (w.theme == v.theme && w.viewMode == v.viewMode && w.language == v.language
             && w.currentPage == v.currentPage && w.searchQuery == v.searchQuery
             && w.isSidebarOpen == v.isSidebarOpen)
            ==> Reset(w) == Reset(v)
  {
  }

  /** Opening a closed modal and closing it again restores the flags; an
      unknown name leaves them alone either way. */
  lemma ModalRoundTrip(modals: map<string, bool>, name: string)
    requires name in modals ==> !modals[name]
    ensures var shown := if name in modals then modals[name := true] else modals;
      (if name in shown then shown[name := false] else shown) == modals
  {
  }

  /** The UI part of the client store. `theme`, `viewMode` and `language` are
      read from local storage when the store is built; here they are given. */
  class UiState {
    var isGlobalLoading: bool
    var loadingMessage: string
    var modals: map<string, bool>
    var notifications: seq<Notification>
    var isMobileMenuOpen: bool
    var searchQuery: string
    var isSearchModalOpen: bool
    var isFiltersOpen: bool
    var theme: string
    var currentPage: int
    var selectedItems: seq<Id>
    var viewMode: string
    var isSidebarOpen: bool
    var globalError: Option<string>
    var language: string

    /** The whole state as a value. */
    function View(): UiView
      reads this
    {
      UiView(isGlobalLoading, loadingMessage, modals, notifications, isMobileMenuOpen, searchQuery,
             isSearchModalOpen, isFiltersOpen, theme, currentPage, selectedItems, viewMode,
             isSidebarOpen, globalError, language)
    }

    /** `initialState`, with what local storage holds for `theme`, `viewMode`
        and `language`. */
    constructor (storedTheme: Option<string>, storedViewMode: Option<string>, storedLanguage: Option<string>)
      ensures View() == UiView(false, "", InitialModals(), [], false, "", false, false,
                               Stored(storedTheme, "light"), 1, [], Stored(storedViewMode, "grid"),
                               true, None, Stored(storedLanguage, "en"))
    {
      isGlobalLoading, loadingMessage, modals, notifications := false, "", InitialModals(), [];
      isMobileMenuOpen, searchQuery, isSearchModalOpen, isFiltersOpen := false, "", false, false;
      theme, currentPage, selectedItems := Stored(storedTheme, "light"), 1, [];
      viewMode, isSidebarOpen, globalError := Stored(storedViewMode, "grid"), true, None;
      language := Stored(storedLanguage, "en");
    }

    /** `openModal`: only a modal the state already has is opened. */
    method OpenModal(name: string)
      modifies this
      ensures name in old(modals) ==> View() == old(View()).(modals := old(modals)[name := true])
      ensures name !in old(modals) ==> View() == old(View())
    {
      if name in modals {
        modals := modals[name := true];
      }
    }

    /** `closeModal`: only a modal the state already has is closed. */
    method CloseModal(name: string)
      modifies this
      ensures name in old(modals) ==> View() == old(View()).(modals := old(modals)[name := false])
      ensures name !in old(modals) ==> View() == old(View())
    {
      if name in modals {
        modals := modals[name := false];
      }
    }

    /** `closeAllModals`: every key of `modals` set to false, one at a time. */
    method CloseAllModals()
      modifies this
      ensures View() == old(View()).(modals := AllClosed(old(modals)))
    {
      modals := CloseEach(modals);
    }

    /** `toggleMobileMenu`. */
    method ToggleMobileMenu()
      modifies this
      ensures View() == old(View()).(isMobileMenuOpen := !old(isMobileMenuOpen))
    {
      isMobileMenuOpen := !isMobileMenuOpen;
    }

    /** `closeMobileMenu`: closed afterwards, whatever it was. */
    method CloseMobileMenu()
      modifies this
      ensures View() == old(View()).(isMobileMenuOpen := false)
    {
      isMobileMenuOpen := false;
    }

    /** `toggleSearchModal`. */
    method ToggleSearchModal()
      modifies this
      ensures View() == old(View()).(isSearchModalOpen := !old(isSearchModalOpen))
    {
      isSearchModalOpen := !isSearchModalOpen;
    }

    /** `closeSearchModal`. */
    method CloseSearchModal()
      modifies this
      ensures View() == old(View()).(isSearchModalOpen := false)
    {
      isSearchModalOpen := false;
    }

    /** `toggleFilters`. */
    method ToggleFilters()
      modifies this
      ensures View() == old(View()).(isFiltersOpen := !old(isFiltersOpen))
    {
      isFiltersOpen := !isFiltersOpen;
    }

    /** `closeFilters`. */
    method CloseFilters()
      modifies this
      ensures View() == old(View()).(isFiltersOpen := false)
    {
      isFiltersOpen := false;
    }

    /** `toggleSidebar`. */
    method ToggleSidebar()
      modifies this
      ensures View() == old(View()).(isSidebarOpen := !old(isSidebarOpen))
    {
      isSidebarOpen := !isSidebarOpen;
    }

    /** `selectItem`. */
    method SelectItem(itemId: Id)
      modifies this
      ensures View() == old(View()).(selectedItems := Selected(old(selectedItems), itemId))
    {
      if itemId !in selectedItems {
        selectedItems := selectedItems + [itemId];
      }
    }

    /** `deselectItem`: the filter, written as the loop it runs. */
    method DeselectItem(itemId: Id)
      modifies this
      ensures View() == old(View()).(selectedItems := Deselected(old(selectedItems), itemId))
    {
      var kept: seq<Id> := [];
      var k := 0;
      while k < |selectedItems|
        invariant 0 <= k <= |selectedItems|
        invariant kept == Deselected(selectedItems[..k], itemId)
      {
        assert selectedItems[..k + 1][..k] == selectedItems[..k];
        if selectedItems[k] != itemId {
          kept := kept + [selectedItems[k]];
        }
        k := k + 1;
      }
      assert selectedItems[..k] == selectedItems;
      selectedItems := kept;
    }

    /** `selectAllItems`: the payload becomes the selection as given. */
    method SelectAllItems(items: seq<Id>)
      modifies this
      ensures View() == old(View()).(selectedItems := items)
    {
      selectedItems := items;
    }

    /** `clearSelection`. */
    method ClearSelection()
      modifies this
      ensures View() == old(View()).(selectedItems := [])
    {
      selectedItems := [];
    }

    /** `toggleItemSelection`: find the id with `indexOf`, then `splice` it
        out or `push` it. */
    method ToggleItemSelection(itemId: Id)
      modifies this
      ensures View() == old(View()).(selectedItems := Toggled(old(selectedItems), itemId))
    {
      var index := FindId(selectedItems, itemId);
      if index > -1 {
        selectedItems := selectedItems[..index] + selectedItems[index + 1..];
      } else {
        selectedItems := selectedItems + [itemId];
      }
    }

    /** `resetUI`. */
    method ResetUI()
      modifies this
      ensures View() == Reset(old(View()))
    {
      isGlobalLoading := false;
      loadingMessage := "";
      modals := InitialModals();
      notifications := [];
      isMobileMenuOpen := false;
      isSearchModalOpen := false;
      isFiltersOpen := false;
      selectedItems := [];
      globalError := None;
    }
  }

  /** The loop of `closeAllModals`: each key of the map set to false in turn. */
  method CloseEach(modals: map<string, bool>) returns (closed: map<string, bool>)
    ensures closed == AllClosed(modals)
  {
    closed := modals;
    var keys := modals.Keys;
    while keys != {}
      invariant keys <= closed.Keys && closed.Keys == modals.Keys
      invariant forall k :: k in closed && k !in keys ==> !closed[k]
      decreases keys
    {
      var key :| key in keys;
      closed := closed[key := false];
      keys := keys - {key};
    }
  }

  /** `indexOf`, as the loop it runs. */
  method FindId(items: seq<Id>, itemId: Id) returns (index: int)
    ensures index == IndexOf(items, itemId)
  {
    var k := 0;
    while k < |items|
      invariant 0 <= k <= |items|
      invariant forall j :: 0 <= j < k ==> items[j] != itemId
    {
      if items[k] == itemId {
        IndexOfIsFirst(items, itemId, k);
        return k;
      }
      k := k + 1;
    }
    return -1;
  }

  lemma IndexOfIsFirst(items: seq<Id>, itemId: Id, k: nat)
    requires k < |items| && items[k] == itemId
    requires forall j :: 0 <= j < k ==> items[j] != itemId
    ensures IndexOf(items, itemId) == k
  {
  }
}
