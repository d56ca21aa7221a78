/** The dashboard report (`FinancialRecordReport`): the fetch of the selected
    company's ratios, which screen it shows, the two columns of collapsible
    ratio categories, and the info tooltip. */
module Dashboard {
  import opened Wrappers
  import opened Storage
  import opened Seqs

  const DefaultCompany: string := "Banks and NBFC"
  const FetchErrorPrefix: string := "Failed to fetch financial data: "
  const StatusErrorPrefix: string := "API request failed with status "

  /** A ratio's JSON value. JavaScript numbers are modelled as reals (NaN is
      not modelled). */
  datatype Value = JsonNull | Bool(b: bool) | Number(x: real) | Str(s: string)

  predicate Truthy(v: Value)
  {
    match v
    case JsonNull => false
    case Bool(b) => b
    case Number(x) => x != 0.0
    case Str(s) => s != ""
  }

  /** The scraper's JSON body: `null`, or an object whose `ratios` may be missing. */
  datatype Body = NullBody | Obj(ratios: Option<map<string, Value>>)

  /** How the scraper request ends: an HTTP response (whose JSON body parsed),
      or a thrown error (network failure, or a body that is not JSON). */
  datatype FetchOutcome = Responded(status: nat, body: Body) | Failed(message: string)

  /** `response.ok`. */
  predicate IsOk(status: nat)
  {
    200 <= status <= 299
  }

  /** `${n}` for a non-negative integer. */
  function DecimalText(n: nat): (r: string)
    ensures |r| >= 1
    ensures forall i :: 0 <= i < |r| ==> '0' <= r[i] <= '9'
  {
    if n < 10 then [DigitChar(n)] else DecimalText(n / 10) + [DigitChar(n % 10)]
  }

  function DigitChar(d: nat): (c: char)
    requires d < 10
    ensures '0' <= c <= '9' && c as int - '0' as int == d
  {
    (d + '0' as int) as char
  }

  /** Reads decimal digits back into a number. */
  function DecimalValue(s: string): nat
    requires forall i :: 0 <= i < |s| ==> '0' <= s[i] <= '9'
  {
    if s == [] then 0
    else 10 * DecimalValue(s[..|s| - 1]) + (s[|s| - 1] as int - '0' as int)
  }

  /** The status text in the error message names the status exactly. */
  lemma {:induction false} DecimalTextRoundTrip(n: nat)
    ensures DecimalValue(DecimalText(n)) == n
    decreases n
  {
    if n >= 10 {
      DecimalTextRoundTrip(n / 10);
      var s := DecimalText(n);
      assert s[..|s| - 1] == DecimalText(n / 10);
    }
  }

  /** The heading: the stored selection, or the default when it is missing or empty. */
  function DisplayName(stored: Option<string>): (r: string)
    ensures r != ""
    ensures stored.Some? && stored.value != "" ==> r == stored.value
    ensures !(stored.Some? && stored.value != "") ==> r == DefaultCompany
  {
    if stored.Some? && stored.value != "" then stored.value else DefaultCompany
  }

  /** The message shown after a failed fetch. */
  function ErrorMessage(outcome: FetchOutcome): (m: string)
    requires !(outcome.Responded? && IsOk(outcome.status))
    ensures FetchErrorPrefix <= m
  {
    match outcome
    case Responded(status, _) => FetchErrorPrefix + StatusErrorPrefix + DecimalText(status)
    case Failed(message) => FetchErrorPrefix + message
  }

  /** A category of ratios and the parameter names it lists. */
  datatype Category = Category(name: string, params: seq<string>)

  const Categories: seq<Category> := [
    Category("Valuation Metrics", ["Market Cap", "Current Price", "High / Low", "Stock P/E",
      "Price to book value", "CMP / FCF", "P/E Ratio", "P/FCF Ratio", "EV/EBITDA", "PEG Ratio", "P/B Ratio"]),
    Category("Profitability", ["OPM", "Profit after tax", "ROCE", "ROE", "Return on equity",
      "Return on assets", "Net Income", "EBITDA", "NIM"]),
    Category("Growth", ["Sales growth", "Profit growth", "G Factor", "Revenue Growth", "Growth Score"]),
    Category("Financial Health", ["Book Value", "Debt", "Debt to equity", "Altman Z Score",
      "Piotroski score", "Int Coverage", "Debt-to-Equity", "Interest Coverage Ratio", "CAR", "Gross NPA"]),
    Category("Cash Flow", ["Free Cash Flow", "Operating Cash Flow"]),
    Category("Shareholder Returns", ["Dividend Yield", "Face Value", "Book Value per Share"])
  ]

  /** `Object.entries(financialCategories).slice(0, 3)` and `.slice(3)`. */
  const LeftCategories: seq<Category> := Categories[..3]
  const RightCategories: seq<Category> := Categories[3..]

  /** The left column holds the first three categories and the right column
      the other three, in order; together they are all six, none in both. */
  lemma ColumnsSplitCategories()
    ensures |LeftCategories| == 3 && |RightCategories| == 3
    ensures LeftCategories + RightCategories == Categories
    ensures forall i, j :: 0 <= i < 3 && 0 <= j < 3 ==>
              LeftCategories[i].name != RightCategories[j].name
  {
  }

  /** `expandedCategories[k]` read as a condition: a missing key is collapsed. */
  predicate IsExpanded(expanded: map<string, bool>, k: string)
  {
    k in expanded && expanded[k]
  }

  /** `toggleCategory(k)`: `{...expanded, [k]: !expanded[k]}`. */
  function Toggled(expanded: map<string, bool>, k: string): (r: map<string, bool>)
    ensures IsExpanded(r, k) == !IsExpanded(expanded, k)
    ensures forall j :: j != k ==> IsExpanded(r, j) == IsExpanded(expanded, j)
    ensures r.Keys == expanded.Keys + {k}
  {
    expanded[k := !IsExpanded(expanded, k)]
  }

  /** Toggling a category twice restores every category's state. */
  lemma ToggleTwiceRestores(expanded: map<string, bool>, k: string)
    ensures forall j :: IsExpanded(Toggled(Toggled(expanded, k), k), j) == IsExpanded(expanded, j)
  {
  }

  /** ... though not the map itself: a key that was missing is now `false`. */
  lemma ToggleTwiceRecordsKey(expanded: map<string, bool>, k: string)
    requires k !in expanded
    ensures Toggled(Toggled(expanded, k), k) != expanded
  {
  }

  /** The row test `financialData?.ratios && financialData.ratios[param]`. */
  predicate RatioShown(data: Body, param: string)
  {
    data.Obj? && data.ratios.Some? && param in data.ratios.value && Truthy(data.ratios.value[param])
  }

  /** `financialData.ratios[param]` where it exists. */
  function RatioOf(data: Body, param: string): Value
  {
    if data.Obj? && data.ratios.Some? && param in data.ratios.value
    then data.ratios.value[param] else JsonNull
  }

  function ShownIn(data: Body): string -> bool
  {
    (p: string) => RatioShown(data, p)
  }

  /** One table row: the parameter, its value and whether its tooltip shows. */
  datatype Row = Row(param: string, value: Value, tooltipShown: bool)

  /** The rows of an expanded category: its parameters with a truthy ratio. */
  function Rows(params: seq<string>, data: Body, tooltip: Option<string>): (rows: seq<Row>)
    ensures |rows| <= |params|
    ensures forall i :: 0 <= i < |rows| ==>
      RatioShown(data, rows[i].param) && rows[i].value == data.ratios.value[rows[i].param] &&
      (rows[i].tooltipShown <==> tooltip == Some(rows[i].param))
  {
    var shown := Filter(params, ShownIn(data));
    seq(|shown|, i requires 0 <= i < |shown| =>
      Row(shown[i], RatioOf(data, shown[i]), tooltip == Some(shown[i])))
  }

  function Params(rows: seq<Row>): (ps: seq<string>)
    ensures |ps| == |rows| && forall i :: 0 <= i < |rows| ==> ps[i] == rows[i].param
  {
    seq(|rows|, i requires 0 <= i < |rows| => rows[i].param)
  }

  /** The rows are exactly the listed parameters whose ratio is truthy, in
      the listed order. */
  lemma RowsAreTruthyParams(params: seq<string>, data: Body, tooltip: Option<string>)
    ensures var ps := Params(Rows(params, data, tooltip));
            && IsSubsequence(ps, params)
            && forall p :: p in ps <==> p in params && RatioShown(data, p)
  {
    var shown := Filter(params, ShownIn(data));
    assert Params(Rows(params, data, tooltip)) == shown;
    FilterIsSubsequence(params, ShownIn(data));
    forall p ensures p in shown <==> p in params && RatioShown(data, p) {
      FilterMembership(params, ShownIn(data), p);
    }
  }

  /** A category header and, when expanded, its rows. */
  datatype CategoryView = CategoryView(name: string, expanded: bool, rows: seq<Row>)

  /** One ratio panel (`renderRatioPanel`) over the given categories. */
  function PanelView(cats: seq<Category>, expanded: map<string, bool>, data: Body,
                     tooltip: Option<string>): (panel: seq<CategoryView>)
    ensures |panel| == |cats|
    ensures forall i :: 0 <= i < |cats| ==>
      panel[i].name == cats[i].name &&
      panel[i].expanded == IsExpanded(expanded, cats[i].name) &&
      (!panel[i].expanded ==> panel[i].rows == [])
    ensures forall i :: 0 <= i < |cats| && panel[i].expanded ==>
      panel[i].rows == Rows(cats[i].params, data, tooltip)
  {
    seq(|cats|, i requires 0 <= i < |cats| =>
      var open := IsExpanded(expanded, cats[i].name);
      CategoryView(cats[i].name, open, if open then Rows(cats[i].params, data, tooltip) else []))
  }

  datatype Panels = Panels(left: seq<CategoryView>, right: seq<CategoryView>)

  datatype DashboardView =
    | LoadingScreen
    | ErrorScreen(message: string)
    | ReportScreen(title: string, panels: Option<Panels>)

  /** The component's render: loading first, then a (truthy) error, then the
      report, whose ratio panels need a (truthy) body. */
  function ViewOf(loading: bool, error: Option<string>, companyName: string, data: Body,
                  expanded: map<string, bool>, tooltip: Option<string>): DashboardView
  {
    if loading then LoadingScreen
    else if error.Some? && error.value != "" then ErrorScreen(error.value)
    else ReportScreen(companyName,
                if data.Obj?
                then Some(Panels(PanelView(LeftCategories, expanded, data, tooltip),
                                 PanelView(RightCategories, expanded, data, tooltip)))
                else None)
  }

  lemma ViewPrecedence(loading: bool, error: Option<string>, companyName: string, data: Body,
                       expanded: map<string, bool>, tooltip: Option<string>)
    ensures var v := ViewOf(loading, error, companyName, data, expanded, tooltip);
            && (v == LoadingScreen <==> loading)
            && (v.ErrorScreen? <==> !loading && error.Some? && error.value != "")
            && (v.ReportScreen? ==> v.title == companyName && (v.panels.Some? <==> data.Obj?))
  {
  }

  /** With the tooltip set to `p`, the only row showing a tooltip is `p`'s. */
  lemma OnlyOneTooltip(cats: seq<Category>, expanded: map<string, bool>, data: Body, p: string)
    ensures var panel := PanelView(cats, expanded, data, Some(p));
            forall i, j :: 0 <= i < |panel| && 0 <= j < |panel[i].rows| ==>
              (panel[i].rows[j].tooltipShown <==> panel[i].rows[j].param == p)
  {
  }

  /** The dashboard's state. `requests` records the names posted to the
      scraper; `awaiting` says the request has not settled yet. */
  class Report {
    const store: Store
    var companyName: string
    var loading: bool
    var data: Body
    var error: Option<string>
    var tooltip: Option<string>
    var expanded: map<string, bool>
    var requests: seq<string>
    var awaiting: bool

    /** Mounting runs `fetchData` up to its `await`: loading on, no error, the
        company name read from storage, and the scraper request sent for it. */
    constructor (store: Store)
      requires store.HoldsSelectedName()
      ensures this.store == store && store.slots == old(store.slots)
      ensures loading && error == None && data == NullBody && awaiting
      ensures companyName ==
        DisplayName(if SelectedKey in store.slots then Some(store.slots[SelectedKey].text) else None)
      ensures requests == [companyName]
      ensures tooltip == None && expanded == map[]
    {
      this.store := store;
      data, tooltip, expanded := NullBody, None, map[];
      loading := true;
      error := None;
      var stored := store.GetItem(SelectedKey);
      companyName := DisplayName(if stored.Some? then Some(stored.value.text) else None);
      requests := [companyName];
      awaiting := true;
    }

    function CurrentView(): DashboardView
      reads this
    {
      ViewOf(loading, error, companyName, data, expanded, tooltip)
    }

    /** The rest of `fetchData`: an OK response sets the data; a non-OK
        status or a thrown error sets the message and leaves the data; the
        `finally` clears loading in every case. */
    method FetchSettles(outcome: FetchOutcome)
      requires awaiting
      modifies this
      ensures !loading && !awaiting
      ensures outcome.Responded? && IsOk(outcome.status) ==>
        data == outcome.body && error == old(error)
      ensures !(outcome.Responded? && IsOk(outcome.status)) ==>
        data == old(data) && error == Some(ErrorMessage(outcome))
      ensures companyName == old(companyName) && requests == old(requests)
      ensures tooltip == old(tooltip) && expanded == old(expanded)
    {
      if outcome.Responded? && IsOk(outcome.status) {
        data := outcome.body;
      } else {
        error := Some(ErrorMessage(outcome));
      }
      loading := false;
      awaiting := false;
    }

    method ToggleCategory(k: string)
      modifies this
      ensures expanded == Toggled(old(expanded), k)
      ensures companyName == old(companyName) && loading == old(loading) && data == old(data)
      ensures error == old(error) && tooltip == old(tooltip)
      ensures requests == old(requests) && awaiting == old(awaiting)
    {
      expanded := Toggled(expanded, k);
    }

    method ShowInfo(param: string)
      modifies this
      ensures tooltip == Some(param)
      ensures companyName == old(companyName) && loading == old(loading) && data == old(data)
      ensures error == old(error) && expanded == old(expanded)
      ensures requests == old(requests) && awaiting == old(awaiting)
    {
      tooltip := Some(param);
    }

    method HideInfo()
      modifies this
      ensures tooltip == None
      ensures companyName == old(companyName) && loading == old(loading) && data == old(data)
      ensures error == old(error) && expanded == old(expanded)
      ensures requests == old(requests) && awaiting == old(awaiting)
    {
      tooltip := None;
    }
  }

  /** A failed request shows the error screen, never the report. */
  method FailedFetchShowsError(status: nat) returns (v: DashboardView)
    requires !IsOk(status)
    ensures v == ErrorScreen(FetchErrorPrefix + StatusErrorPrefix + DecimalText(status))
  {
    var store := new Store(map[]);
    var r := new Report(store);
    r.FetchSettles(Responded(status, Obj(None)));
    v := r.CurrentView();
  }
}
