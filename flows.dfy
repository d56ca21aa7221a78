/** How a selection reaches the dashboard: both search surfaces write the
    company's name to the same storage slot, which the dashboard reads when
    it mounts. */
module Flows {
  import opened Entities
  import opened Storage
  import ModalSearch
  import Landing
  import Dashboard

  /** A company picked in the modal names the dashboard's report and request. */
  method ModalPickNamesDashboard(c: Company) returns (title: string, requested: seq<string>)
    ensures title == (if c.name != "" then c.name else Dashboard.DefaultCompany)
    ensures requested == [title]
  {
    var store := new Store(map[]);
    var modal := new ModalSearch.Modal(store, true);
    modal.ClickCompanyLink(c);
    var report := new Dashboard.Report(store);
    title, requested := report.companyName, report.requests;
  }

  /** A result picked on the landing page does the same, and the navigation
      carries the company's url and name. */
  method LandingPickNamesDashboard(c: Company) returns (title: string, nav: seq<Landing.Navigation>)
    ensures title == (if c.name != "" then c.name else Dashboard.DefaultCompany)
    ensures nav == [Landing.Navigation(DashboardRoute, c.url, c.name)]
  {
    var store := new Store(map[]);
    var page := new Landing.LandingPage(store);
    page.ResultClick(c);
    var report := new Dashboard.Report(store);
    title, nav := report.companyName, page.navigations;
  }

  /** Opening the dashboard with nothing stored reports on the default name. */
  method NothingStoredUsesDefault() returns (title: string)
    ensures title == "Banks and NBFC"
  {
    var store := new Store(map[]);
    var report := new Dashboard.Report(store);
    title := report.companyName;
  }
}
