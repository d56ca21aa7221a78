/** The landing page's autocomplete: a debounced lookup whose response is
    unwrapped and filtered, the dropdown it feeds, and the pick that stores
    the company's name and navigates to the dashboard. */
module Landing {
  import opened Wrappers
  import opened Entities
  import opened Storage
  import opened Text
  import opened Seqs

  /** `navigate("/dashboard", {state: {companyUrl, companyName}})`. */
  datatype Navigation = Navigation(path: string, companyUrl: Option<string>, companyName: string)

  /** `apiResponse.results || []`: reading `results` of `null` throws; any
      other response without a `results` list (a bare array included) gives []. */
  datatype Unwrapped = Items(items: seq<Company>) | Threw

  function UnwrapResults(response: Response): Unwrapped
  {
    match response
    case Null => Threw
    case Object(Some(items)) => Items(items)
    case _ => Items([])
  }

  /** The filter test `!item.isSearchEverywhere`. */
  predicate Listable(c: Company)
  {
    !c.searchEverywhere
  }

  /** What the debounced fetch stores once its lookup settles: the unwrapped
      items without the "search everywhere" ones, or [] when it threw. */
  function SettledResults(response: Response): (r: seq<Company>)
    ensures !(response.Object? && response.results.Some?) ==> r == []
    ensures response.Object? && response.results.Some? ==>
      && IsSubsequence(r, response.results.value)
      && forall x :: x in r <==> x in response.results.value && !x.searchEverywhere
  {
    match UnwrapResults(response)
    case Threw => []
    case Items(items) =>
      var r := Filter(items, Listable);
      FilterIsSubsequence(items, Listable);
      forall x ensures x in r <==> x in items && !x.searchEverywhere {
        FilterMembership(items, Listable, x);
      }
      r
  }

  /** The filter keeps the service's order: results of a concatenated list
      are the concatenation of the results of its parts. */
  lemma SettledResultsKeepOrder(a: seq<Company>, b: seq<Company>)
    ensures SettledResults(Object(Some(a + b))) ==
            SettledResults(Object(Some(a))) + SettledResults(Object(Some(b)))
  {
    FilterAppend(a, b, Listable);
  }

  /** When no item is flagged the list is stored exactly as returned. */
  lemma UnflaggedResultsPassThrough(items: seq<Company>)
    requires forall i :: 0 <= i < |items| ==> !items[i].searchEverywhere
    ensures SettledResults(Object(Some(items))) == items
  {
    FilterKeepsAll(items, Listable);
  }

  /** The lookup's own failure value (`[]`) and a bare array both store []. */
  lemma BareArrayStoresNothing(items: seq<Company>)
    ensures SettledResults(Array(items)) == []
    ensures SettledResults(FailedLookup) == []
  {
  }

  /** The debounce slot after one keystroke: a keystroke that is not blank
      replaces the pending query; a blank one leaves it (nothing cancels it). */
  function AfterKeystroke(pending: Option<string>, value: string): Option<string>
  {
    if IsBlank(value) then pending else Some(value)
  }

  /** The debounce slot after a burst of keystrokes with no timer expiry. */
  function PendingAfter(pending: Option<string>, values: seq<string>): Option<string>
    decreases |values|
  {
    if values == [] then pending else PendingAfter(AfterKeystroke(pending, values[0]), values[1..])
  }

  /** The last keystroke of a burst that is not blank, if any. */
  function LastNonBlank(values: seq<string>): (r: Option<string>)
    ensures r.Some? ==> r.value in values && !IsBlank(r.value)
    ensures r.None? ==> forall i :: 0 <= i < |values| ==> IsBlank(values[i])
  {
    if values == [] then None
    else if !IsBlank(values[|values| - 1]) then Some(values[|values| - 1])
    else LastNonBlank(values[..|values| - 1])
  }

  lemma {:induction false} PendingAfterSnoc(pending: Option<string>, values: seq<string>, v: string)
    ensures PendingAfter(pending, values + [v]) == AfterKeystroke(PendingAfter(pending, values), v)
    decreases |values|
  {
    if values == [] {
      assert values + [v] == [v];
    } else {
      assert (values + [v])[0] == values[0];
      assert (values + [v])[1..] == values[1..] + [v];
      PendingAfterSnoc(AfterKeystroke(pending, values[0]), values[1..], v);
    }
  }

  /** A burst of keystrokes faster than the debounce window leaves one pending
      query: the last one that is not blank, or the old one if all were blank. */
  lemma {:induction false} DebounceKeepsLastNonBlank(pending: Option<string>, values: seq<string>)
    ensures PendingAfter(pending, values) ==
            if LastNonBlank(values).Some? then LastNonBlank(values) else pending
    decreases |values|
  {
    if values != [] {
      var init := values[..|values| - 1];
      assert values == init + [values[|values| - 1]];
      PendingAfterSnoc(pending, init, values[|values| - 1]);
      DebounceKeepsLastNonBlank(pending, init);
    }
  }

  /** What the dropdown area shows. */
  datatype Dropdown = Hidden | Spinner | ResultList(items: seq<Company>)

  /** Rendered when open and there is a term or a result; while loading the
      spinner replaces the list. */
  function DropdownView(open: bool, term: string, loading: bool, results: seq<Company>): Dropdown
  {
    if !(open && (term != "" || |results| > 0)) then Hidden
    else if loading then Spinner
    else ResultList(results)
  }

  lemma DropdownShownIff(open: bool, term: string, loading: bool, results: seq<Company>)
    ensures var d := DropdownView(open, term, loading, results);
            && (d != Hidden <==> open && (term != "" || results != []))
            && (d != Hidden ==> (d == Spinner <==> loading))
            && (d.ResultList? ==> d.items == results)
  {
  }

  /** "Start typing to search for companies..." shows for an empty term only. */
  predicate HintShown(term: string)
  {
    term == ""
  }

  /** The hint and the dropdown: with the hint showing, the dropdown shows
      only if it is open and still holds results; once a term is typed the
      hint goes and an open dropdown always shows. */
  lemma HintAndDropdown(open: bool, term: string, loading: bool, results: seq<Company>)
    ensures HintShown(term) ==>
      (DropdownView(open, term, loading, results) != Hidden <==> open && results != [])
    ensures !HintShown(term) ==>
      (DropdownView(open, term, loading, results) != Hidden <==> open)
  {
  }

  /** The landing page's state. `pending` is the debounce slot (the query the
      timer will send), `inFlight` the queries whose lookups have not settled,
      `issued` every query sent, `navigations` every navigation requested. */
  class LandingPage {
    const store: Store
    var term: string
    var results: seq<Company>
    var loading: bool
    var dropdownOpen: bool
    var selected: Option<Company>
    var pending: Option<string>
    var inFlight: multiset<string>
    var issued: seq<string>
    var navigations: seq<Navigation>

    constructor (store: Store)
      ensures this.store == store
      ensures term == "" && results == [] && !loading && !dropdownOpen && selected == None
      ensures pending == None && inFlight == multiset{} && issued == [] && navigations == []
    {
      this.store := store;
      term, results, loading, dropdownOpen, selected := "", [], false, false, None;
      pending, inFlight, issued, navigations := None, multiset{}, [], [];
    }

    function CurrentDropdown(): Dropdown
      reads this
    {
      DropdownView(dropdownOpen, term, loading, results)
    }

    /** `handleSearchChange`: echo the term, open the dropdown, then either
        overwrite the debounced query or clear the results at once. */
    method Input(value: string)
      modifies this
      ensures term == value && dropdownOpen
      ensures pending == AfterKeystroke(old(pending), value)
      ensures results == (if IsBlank(value) then [] else old(results))
      ensures loading == old(loading) && selected == old(selected)
      ensures inFlight == old(inFlight) && issued == old(issued) && navigations == old(navigations)
    {
      term := value;
      dropdownOpen := true;
      if HasText(value) {
        pending := Some(value);
      } else {
        results := [];
      }
    }

    /** The debounce timer expires: the pending query, if any, is sent and
        loading starts. */
    method Fire()
      modifies this
      ensures pending == None
      ensures old(pending).Some? ==>
        loading && issued == old(issued) + [old(pending).value] &&
        inFlight == old(inFlight) + multiset{old(pending).value}
      ensures old(pending).None? ==>
        loading == old(loading) && issued == old(issued) && inFlight == old(inFlight)
      ensures term == old(term) && results == old(results) && dropdownOpen == old(dropdownOpen)
      ensures selected == old(selected) && navigations == old(navigations)
    {
      if pending.Some? {
        var query := pending.value;
        loading := true;
        issued := issued + [query];
        inFlight := inFlight + multiset{query};
        pending := None;
      }
    }

    /** A sent lookup settles: the filtered results (or [] when unwrapping
        threw) replace the list whatever the term is now, and the `finally`
        clears loading. */
    method LookupSettles(query: string, response: Response)
      requires query in inFlight
      modifies this
      ensures results == SettledResults(response) && !loading
      ensures inFlight == old(inFlight) - multiset{query}
      ensures term == old(term) && dropdownOpen == old(dropdownOpen) && pending == old(pending)
      ensures selected == old(selected) && issued == old(issued) && navigations == old(navigations)
    {
      results := SettledResults(response);
      loading := false;
      inFlight := inFlight - multiset{query};
    }

    /** `handleResultClick` and the effect on `selectedCompany`: when the
        selection changes, the name goes to storage and the page navigates. */
    method ResultClick(result: Company)
      modifies this, store
      ensures selected == Some(result) && !dropdownOpen
      ensures old(selected) != Some(result) ==>
        store.slots == old(store.slots)[SelectedKey := Text(result.name)] &&
        navigations == old(navigations) + [Navigation(DashboardRoute, result.url, result.name)]
      ensures old(selected) == Some(result) ==>
        store.slots == old(store.slots) && navigations == old(navigations)
      ensures old(store.HoldsSelectedName()) ==> store.HoldsSelectedName()
      ensures old(store.HoldsRecentList()) ==> store.HoldsRecentList()
      ensures term == old(term) && results == old(results) && loading == old(loading)
      ensures pending == old(pending) && inFlight == old(inFlight) && issued == old(issued)
    {
      var changed := selected != Some(result);
      selected := Some(result);
      dropdownOpen := false;
      if changed {
        store.SetItem(SelectedKey, Text(result.name));
        navigations := navigations + [Navigation(DashboardRoute, result.url, result.name)];
      }
    }
  }

  /** Typing "Tata" then "Tata Motors" within the window sends one lookup,
      for "Tata Motors". */
  method TypeAheadSendsOneLookup() returns (sent: seq<string>)
    ensures sent == ["Tata Motors"]
  {
    var store := new Store(map[]);
    var page := new LandingPage(store);
    SolidHeadNotBlank("Tata");
    SolidHeadNotBlank("Tata Motors");
    page.Input("Tata");
    page.Input("Tata Motors");
    page.Fire();
    sent := page.issued;
  }

  /** Clearing the input does not cancel the pending query: it is still sent. */
  method ClearDoesNotCancel() returns (sent: seq<string>, shown: seq<Company>)
    ensures sent == ["Tata"] && shown == []
  {
    var store := new Store(map[]);
    var page := new LandingPage(store);
    SolidHeadNotBlank("Tata");
    page.Input("Tata");
    page.Input("");
    shown := page.results;
    page.Fire();
    sent := page.issued;
  }

  /** Without a stale-response guard a lookup that settles after the input
      was cleared fills the dropdown under an empty term. */
  method LateResultsUnderEmptyTerm(found: seq<Company>) returns (d: Dropdown)
    requires found != [] && forall i :: 0 <= i < |found| ==> !found[i].searchEverywhere
    ensures d == ResultList(found)
  {
    var store := new Store(map[]);
    var page := new LandingPage(store);
    SolidHeadNotBlank("Tata");
    page.Input("Tata");
    page.Fire();
    page.Input("");
    UnflaggedResultsPassThrough(found);
    page.LookupSettles("Tata", Object(Some(found)));
    d := page.CurrentDropdown();
  }
}
