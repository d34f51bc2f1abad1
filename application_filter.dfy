/** The company/date/status filter that JobApplicationTracker, Sheet, PublicSheet,
    PublicUserTracker and ExploreTracker each carry a copy of; here it is defined once. */
module ApplicationFilter {
  import opened Types
  import opened Text
  import opened Sequences

  /** The three filter inputs: company search text, exact date ("" = any), status ("All" = any). */
  datatype Filters = Filters(company: string, date: string, status: string)

  /** The state every component starts in and `clearFilters` restores. */
  const Cleared: Filters := Filters("", "", "All")

  /** `matchesCompany && matchesDate && matchesStatus`. */
  predicate Matches(app: Application, f: Filters)
    ensures f == Cleared ==> Matches(app, f)
  {
    IncludesEmpty(ToLower(app.companyName));
    && Includes(ToLower(app.companyName), ToLower(f.company))
    && (f.date == "" || app.date == f.date)
    && (f.status == "All" || app.status == f.status)
  }

  /** An application passes exactly when the lowered filter text occurs in its lowered company
      name, the date filter is empty or equal, and the status filter is "All" or equal. */
  lemma MatchesIff(app: Application, f: Filters)
    ensures Matches(app, f) ==>
      (exists i :: OccursAt(ToLower(app.companyName), ToLower(f.company), i))
      && (f.date == "" || app.date == f.date)
      && (f.status == "All" || app.status == f.status)
    ensures ((exists i :: OccursAt(ToLower(app.companyName), ToLower(f.company), i))
      && (f.date == "" || app.date == f.date)
      && (f.status == "All" || app.status == f.status)) ==> Matches(app, f)
  {
    IncludesIff(ToLower(app.companyName), ToLower(f.company));
  }

  /** `applications.filter(...)`: an order-preserving selection of exactly the matching applications. */
  function FilterApplications(apps: seq<Application>, f: Filters): (r: seq<Application>)
    ensures forall a :: a in r <==> a in apps && Matches(a, f)
    ensures forall a :: multiset(r)[a] == if Matches(a, f) then multiset(apps)[a] else 0
    ensures IsSubsequence(r, apps)
  {
    Filter(a => Matches(a, f), apps)
  }

  /** With the cleared filters every application is shown, in its place. */
  lemma {:induction false} ClearedShowsAll(apps: seq<Application>)
    ensures FilterApplications(apps, Cleared) == apps
  {
    forall i | 0 <= i < |apps| ensures Matches(apps[i], Cleared) {
      assert ToLower(Cleared.company) == "";
      IncludesEmpty(ToLower(apps[i].companyName));
    }
    FilterKeepsAll(a => Matches(a, Cleared), apps);
  }
}
