/** The quick-search modal (`ModalSearch`): input handling without debounce,
    the recent-searches commit, the recent-entry click, the reset when the
    modal opens, and which sections the modal renders. */
module ModalSearch {
  import opened Wrappers
  import opened Entities
  import opened Storage
  import opened Text
  import opened RecentSearches

  /** The static list shown while the search term is empty. */
  const Recommended: seq<Company> := [
    Company(Num(1), "Reliance Industries Limited", Some("/company/RELIANCE/consolidated/"), false),
    Company(Num(2), "Indian Oil Corporation", Some("/company/IOC/consolidated/"), false),
    Company(Num(3), "Life Insurance Corporation of India (LIC)", Some("/company/LICI/consolidated/"), false),
    Company(Num(4), "Oil and Natural Gas Corporation (ONGC)", Some("/company/ONGC/consolidated/"), false),
    Company(Num(5), "State Bank of India (SBI)", Some("/company/SBIN/consolidated/"), false),
    Company(Num(6), "Tata Motors", Some("/company/TATAMOTORS/consolidated/"), false),
    Company(Num(7), "Tata Steel", Some("/company/TATASTEEL/consolidated/"), false),
    Company(Num(8), "Tata Consultancy Services (TCS)", Some("/company/TCS/consolidated/"), false),
    Company(Num(9), "HDFC Bank", Some("/company/HDFCBANK/consolidated/"), false),
    Company(Num(10), "Infosys", Some("/company/INFY/consolidated/"), false)
  ]

  /** The search-results section. The stored results are whatever the lookup
      returned, so its `length` is a number only for an array: for an object
      or a scalar both `length > 0` and `length === 0` are false and only the
      heading shows; for `null` reading `length` throws while rendering, and
      then the whole render fails: the other fields of a `ModalView` whose
      results section is `RenderThrows` describe nothing on screen. */
  datatype ResultsSection =
    | NotShown
    | Searching
    | Listed(items: seq<Company>)
    | NoResults
    | HeadingOnly
    | RenderThrows

  datatype ModalView = ModalView(
    results: ResultsSection,
    recent: Option<seq<Company>>,
    recommended: Option<seq<Company>>)

  function ResultsSectionOf(term: string, loading: bool, results: Response): ResultsSection
  {
    if term == "" then NotShown
    else if loading then Searching
    else match results
      case Array(items) => if |items| > 0 then Listed(items) else NoResults
      case Null => RenderThrows
      case _ => HeadingOnly
  }

  /** The sections the modal body renders, top to bottom. */
  function View(term: string, loading: bool, results: Response, recents: seq<Company>): ModalView
  {
    ModalView(
      ResultsSectionOf(term, loading, results),
      if |recents| > 0 then Some(recents) else None,
      if term == "" then Some(Recommended) else None)
  }

  /** With an empty term the modal shows no results section, the recommended
      list, and the recent list exactly when it is non-empty; recent entries
      are shown whatever the term. */
  lemma ViewWithEmptyTerm(loading: bool, results: Response, recents: seq<Company>)
    ensures var v := View("", loading, results, recents);
            && v.results == NotShown
            && v.recommended == Some(Recommended)
            && v.recent == (if recents != [] then Some(recents) else None)
  {
  }

  /** With a non-empty term the recommended list is hidden while the recent
      list still shows when non-empty; while loading the
      heading reads "Searching..." and neither the list nor "No results found"
      is shown; once settled on an array the list shows exactly when it is
      non-empty and "No results found" exactly when it is empty. */
  lemma ViewWithTerm(term: string, loading: bool, results: Response, recents: seq<Company>)
    requires term != ""
    ensures var v := View(term, loading, results, recents);
            && v.recommended == None
            && (loading ==> v.results == Searching)
            && (!loading && results.Array? ==>
                  (v.results.Listed? <==> |results.items| > 0) &&
                  (v.results == NoResults <==> |results.items| == 0))
            && (!loading && !results.Array? ==> !v.results.Listed? && v.results != NoResults)
            && (v.results.Listed? ==> v.results.items == results.items)
            && v.recent == (if recents != [] then Some(recents) else None)
  {
  }

  /** A term of spaces still shows the results section (the test is on the
      untrimmed term), although typing it issued no lookup. */
  lemma BlankTermShowsResultsSection(loading: bool, results: Response, recents: seq<Company>)
    ensures View(" ", loading, results, recents).results != NotShown
    ensures IsBlank(" ")
  {
  }

  /** The response envelope the landing page unwraps (`{results: [...]}`) is
      stored as is here: the modal then shows neither a list nor "No results". */
  lemma EnvelopeShowsNeitherListNorEmpty(term: string, found: seq<Company>, recents: seq<Company>)
    requires term != ""
    ensures var v := View(term, false, Object(Some(found)), recents);
            !v.results.Listed? && v.results != NoResults && v.results == HeadingOnly
  {
  }

  /** The modal component's state. `inFlight` holds the queries whose lookups
      have not completed yet, `issued` every query sent, and `navigatedTo`
      the routes the modal's links led to. */
  class Modal {
    const store: Store
    var term: string
    var results: Response
    var recents: seq<Company>
    var loading: bool
    var open: bool
    var inFlight: multiset<string>
    var issued: seq<string>
    var navigatedTo: seq<string>

    /** Mounting: empty state, then the recent list loaded from storage. */
    constructor (store: Store, modalOpen: bool)
      requires store.HoldsRecentList()
      ensures this.store == store && store.slots == old(store.slots)
      ensures term == "" && results == Array([]) && !loading && open == modalOpen
      ensures recents == (if RecentsKey in store.slots then store.slots[RecentsKey].items else [])
      ensures inFlight == multiset{} && issued == [] && navigatedTo == []
    {
      this.store := store;
      term, results, loading, open := "", Array([]), false, modalOpen;
      inFlight, issued, navigatedTo := multiset{}, [], [];
      var stored := store.GetItem(RecentsKey);
      if stored.Some? {
        recents := stored.value.items;
      } else {
        recents := [];
      }
    }

    function CurrentView(): ModalView
      reads this
    {
      View(term, loading, results, recents)
    }

    /** The host opens the modal; the effect on `modalOpen` resets the term
        and the results only when the flag actually turns true. */
    method Open()
      modifies this
      ensures open
      ensures !old(open) ==> term == "" && results == Array([])
      ensures old(open) ==> term == old(term) && results == old(results)
      ensures recents == old(recents) && loading == old(loading)
      ensures inFlight == old(inFlight) && issued == old(issued) && navigatedTo == old(navigatedTo)
    {
      if !open {
        term, results := "", Array([]);
      }
      open := true;
    }

    /** A click outside the dialog or the Escape key closes it. */
    method Close()
      modifies this
      ensures !open
      ensures term == old(term) && results == old(results) && recents == old(recents)
      ensures loading == old(loading) && inFlight == old(inFlight) && issued == old(issued)
      ensures navigatedTo == old(navigatedTo)
    {
      open := false;
    }

    /** `handleSearchChange` up to its `await`: every keystroke that is not
        blank sends its own lookup at once (there is no debounce). */
    method Input(value: string)
      modifies this
      ensures term == value
      ensures !IsBlank(value) ==>
        loading && results == old(results) &&
        inFlight == old(inFlight) + multiset{value} && issued == old(issued) + [value]
      ensures IsBlank(value) ==>
        results == Array([]) && loading == old(loading) &&
        inFlight == old(inFlight) && issued == old(issued)
      ensures recents == old(recents) && open == old(open) && navigatedTo == old(navigatedTo)
    {
      term := value;
      if HasText(value) {
        loading := true;
        inFlight := inFlight + multiset{value};
        issued := issued + [value];
      } else {
        results := Array([]);
      }
    }

    /** The rest of `handleSearchChange`: a lookup completes. Completions may
        come in any order and nothing compares `query` with the current term,
        so whichever completes last decides the results, and loading is
        cleared even while other lookups are still pending. */
    method LookupSettles(query: string, response: Response)
      requires query in inFlight
      modifies this
      ensures results == response && !loading
      ensures inFlight == old(inFlight) - multiset{query}
      ensures term == old(term) && recents == old(recents) && open == old(open)
      ensures issued == old(issued) && navigatedTo == old(navigatedTo)
    {
      results := response;
      loading := false;
      inFlight := inFlight - multiset{query};
    }

    /** `addToRecentSearches(c)`: the new list in memory and in storage, the
        selected company's name in its slot, and the modal closed. */
    method AddToRecentSearches(c: Company)
      modifies this, store
      ensures recents == WithRecent(old(recents), c)
      ensures store.slots == old(store.slots)[RecentsKey := CompanyList(recents)][SelectedKey := Text(c.name)]
      ensures store.WellTyped()
      ensures !open
      ensures term == old(term) && results == old(results) && loading == old(loading)
      ensures inFlight == old(inFlight) && issued == old(issued) && navigatedTo == old(navigatedTo)
    {
      recents := WithRecent(recents, c);
      store.SetItem(RecentsKey, CompanyList(recents));
      store.SetItem(SelectedKey, Text(c.name));
      open := false;
    }

    /** `handleSubmit`: commit the first result when there is one. When the
        stored results are not an array `length > 0` is false (or, for `null`,
        throws before anything changes), so nothing happens. */
    method Submit()
      modifies this, store
      ensures old(results).Array? && |old(results).items| > 0 ==>
        recents == WithRecent(old(recents), old(results).items[0]) &&
        store.slots == old(store.slots)[RecentsKey := CompanyList(recents)]
                                       [SelectedKey := Text(old(results).items[0].name)] &&
        !open
      ensures !(old(results).Array? && |old(results).items| > 0) ==>
        recents == old(recents) && store.slots == old(store.slots) && open == old(open)
      ensures term == old(term) && results == old(results) && loading == old(loading)
      ensures inFlight == old(inFlight) && issued == old(issued) && navigatedTo == old(navigatedTo)
    {
      if results.Array? && |results.items| > 0 {
        AddToRecentSearches(results.items[0]);
      }
    }

    /** A search-result or recommended link: commit the company, then follow
        the link to the dashboard. */
    method ClickCompanyLink(c: Company)
      modifies this, store
      ensures recents == WithRecent(old(recents), c)
      ensures store.slots == old(store.slots)[RecentsKey := CompanyList(recents)][SelectedKey := Text(c.name)]
      ensures !open && navigatedTo == old(navigatedTo) + [DashboardRoute]
      ensures term == old(term) && results == old(results) && loading == old(loading)
      ensures inFlight == old(inFlight) && issued == old(issued)
    {
      AddToRecentSearches(c);
      navigatedTo := navigatedTo + [DashboardRoute];
    }

    /** A recent-search link: record the name and close, leaving the recent
        list as it is, then follow the link to the dashboard. */
    method ClickRecent(c: Company)
      modifies this, store
      ensures recents == old(recents)
      ensures store.slots == old(store.slots)[SelectedKey := Text(c.name)]
      ensures store.HoldsSelectedName()
      ensures old(store.HoldsRecentList()) ==> store.HoldsRecentList()
      ensures !open && navigatedTo == old(navigatedTo) + [DashboardRoute]
      ensures term == old(term) && results == old(results) && loading == old(loading)
      ensures inFlight == old(inFlight) && issued == old(issued)
    {
      store.SetItem(SelectedKey, Text(c.name));
      open := false;
      navigatedTo := navigatedTo + [DashboardRoute];
    }
  }

  /** A fresh modal with nothing stored shows the recommended list only. */
  method FreshModalView() returns (v: ModalView)
    ensures v == ModalView(NotShown, None, Some(Recommended))
  {
    var store := new Store(map[]);
    var m := new Modal(store, true);
    v := m.CurrentView();
  }

  /** Without a stale-response guard: type "Tata", clear the input, and the
      late completion of the "Tata" lookup still becomes the stored results. */
  method ClearedInputTakesLateResults(late: Response) returns (term: string, shown: Response)
    ensures term == "" && shown == late
  {
    var store := new Store(map[]);
    var m := new Modal(store, true);
    SolidHeadNotBlank("Tata");
    m.Input("Tata");
    m.Input("");
    assert "Tata" in m.inFlight;
    m.LookupSettles("Tata", late);
    term, shown := m.term, m.results;
  }

  /** Two keystrokes send two lookups; the earlier one completing last wins. */
  method OutOfOrderCompletion(first: Response, second: Response) returns (lookups: seq<string>, shown: Response)
    ensures lookups == ["T", "Ta"] && shown == first
  {
    var store := new Store(map[]);
    var m := new Modal(store, true);
    SolidHeadNotBlank("T");
    SolidHeadNotBlank("Ta");
    m.Input("T");
    m.Input("Ta");
    m.LookupSettles("Ta", second);
    assert "T" in m.inFlight;
    m.LookupSettles("T", first);
    lookups, shown := m.issued, m.results;
  }

  /** Picking the same first result in two sessions stores the list that
      one pick stores. */
  method SubmitTwice(recents: seq<Company>, c: Company, rest: seq<Company>)
    returns (once: seq<Company>, twice: seq<Company>)
    ensures 0 < |once| <= Capacity && once[0] == c && twice == once
  {
    SolidHeadNotBlank("x");
    var store := new Store(map[RecentsKey := CompanyList(recents)]);
    var m := new Modal(store, true);
    m.Input("x");
    m.LookupSettles("x", Array([c] + rest));
    m.Submit();
    once := m.recents;
    m.Open();
    m.Input("x");
    m.LookupSettles("x", Array([c] + rest));
    m.Submit();
    twice := m.recents;
    WithRecentIdempotent(recents, c);
  }
}
