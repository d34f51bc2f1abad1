/** The filter bar above every application table. */
module FilterBar {
  import opened Wrappers
  import opened Types
  import opened Text
  import opened ApplicationFilter
  import StatusTimeline

  /** The status drop-down: "All" and then the five stages in timeline order. */
  const StatusOptions: seq<string> := ["All"] + StatusTimeline.Stages

  /** `companyFilter || dateFilter || statusFilter !== "All"`. */
  predicate IsFiltersApplied(f: Filters) {
    f.company != "" || f.date != "" || f.status != "All"
  }

  /** Which of the bar's buttons are drawn. */
  datatype Buttons = Buttons(clearCompany: bool, clearDate: bool, clearFilters: bool)

  function Render(f: Filters): (r: Buttons)
    ensures r.clearCompany <==> f.company != ""
    ensures r.clearDate <==> f.date != ""
    ensures r.clearFilters <==> f != Cleared
  {
    Buttons(f.company != "", f.date != "", IsFiltersApplied(f))
  }

  /** An application with empty company and date and a status different from the filter's. */
  function Rejected(f: Filters): Application {
    Application("", None, "", None, "", "", if f.status == "x" then "y" else "x",
                None, None)
  }

  /** The "Clear Filters" button is shown exactly when the filters could hide an application. */
  lemma AppliedHidesSomeApplication(f: Filters)
    requires IsFiltersApplied(f)
    ensures exists app :: !Matches(app, f)
  {
    var app := Rejected(f);
    if f.company != "" {
      assert ToLower(app.companyName) == "";
      assert |ToLower(f.company)| > 0;
      assert !Includes(ToLower(app.companyName), ToLower(f.company));
    }
    assert !Matches(app, f);
  }

  /** Without an applied filter every application is shown. */
  lemma NotAppliedShowsEverything(f: Filters, app: Application)
    requires !IsFiltersApplied(f)
    ensures Matches(app, f)
  {
    assert f == Cleared;
    assert ToLower(f.company) == "";
    IncludesEmpty(ToLower(app.companyName));
  }
}
