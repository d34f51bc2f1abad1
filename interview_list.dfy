/** The card that lists the page's filtered interviews. */
module InterviewList {
  import opened Wrappers
  import opened Types
  import opened Sequences
  import opened InterviewsPage

  /** `getTitle`; `selected` is the picked day already written out as the locale shows it. */
  function GetTitle(range: DateRange, selected: Option<string>): (r: string)
    ensures r == "All Interviews" <==> range == All
    ensures r == "Upcoming Interviews" <==> range == Custom && selected.None?
    ensures range == Custom && selected.Some? ==> r == "Interviews on " + selected.value
    ensures r == "Today's Interviews" <==> range == Today
    ensures r == "This Week's Interviews" <==> range == ThisWeek
    ensures r == "This Month's Interviews" <==> range == ThisMonth
  {
    match range
    case Today => "Today's Interviews"
    case ThisWeek => "This Week's Interviews"
    case ThisMonth => "This Month's Interviews"
    case Custom =>
      if selected.Some? then
        DayTitleInitial(selected.value);
        "Interviews on " + selected.value
      else "Upcoming Interviews"
    case All => "All Interviews"
  }

  /** The two titles that promise an unrestricted list are exactly the ranges whose list keeps
      every interview. */
  lemma {:induction false} UnrestrictedTitles(ivs: seq<Interview>, range: DateRange, selected: Option<string>, cal: Calendar)
    requires GetTitle(range, selected) == "All Interviews" || GetTitle(range, selected) == "Upcoming Interviews"
    ensures FilterInterviews(ivs, range, selected, cal) == ivs
  {
    UnrestrictedRangesKeepAll(ivs, range, selected, cal);
  }

  /** A title naming a day starts with 'I', unlike "All Interviews" and "Upcoming Interviews". */
  lemma DayTitleInitial(day: string)
    ensures ("Interviews on " + day)[0] == 'I'
    ensures "Interviews on " + day != "All Interviews" && "Interviews on " + day != "Upcoming Interviews"
    ensures "Interviews on " + day != "Today's Interviews" && "Interviews on " + day != "This Week's Interviews"
    ensures "Interviews on " + day != "This Month's Interviews"
  {
    assert ("Interviews on " + day)[0] == 'I';
    assert "All Interviews"[0] == 'A' && "Upcoming Interviews"[0] == 'U';
    assert "Today's Interviews"[0] == 'T' && "This Week's Interviews"[0] == 'T' && "This Month's Interviews"[0] == 'T';
  }

  /** A day picked on the calendar is named in the title. */
  lemma CustomTitleNamesDay(day: string)
    ensures GetTitle(Custom, Some(day)) == "Interviews on " + day
  {
  }

  /** `jobApplication?.companyName || "Unknown Company"`, where `jobApplication` is the first
      application with the interview's `jobApplicationId`. */
  function CompanyFor(apps: seq<Application>, iv: Interview): (r: string)
    ensures (forall j :: 0 <= j < |apps| ==> apps[j].id != iv.details.jobApplicationId) ==> r == "Unknown Company"
    ensures r != "Unknown Company" ==> exists j :: 0 <= j < |apps| && apps[j].id == iv.details.jobApplicationId
                                                    && apps[j].companyName == r
                                                    && forall k :: 0 <= k < j ==> apps[k].id != iv.details.jobApplicationId
    ensures r != ""
  {
    match Find((a: Application) => a.id == iv.details.jobApplicationId, apps)
    case None => "Unknown Company"
    case Some(a) => if a.companyName != "" then a.companyName else "Unknown Company"
  }

  /** The first application with the id names the company, unless its name is empty. */
  lemma {:induction false} CompanyForFirstMatch(apps: seq<Application>, iv: Interview, j: nat)
    requires j < |apps| && apps[j].id == iv.details.jobApplicationId && apps[j].companyName != ""
    requires forall k :: 0 <= k < j ==> apps[k].id != iv.details.jobApplicationId
    ensures CompanyFor(apps, iv) == apps[j].companyName
  {
    FindAt((a: Application) => a.id == iv.details.jobApplicationId, apps, j);
  }

  /** One list item: the company heading and the interview it describes. */
  datatype Row = Row(company: string, interview: Interview)

  /** The interviews the rows describe, in row order. */
  function RowInterviews(rows: seq<Row>): (r: seq<Interview>)
    ensures |r| == |rows| && forall i :: 0 <= i < |rows| ==> r[i] == rows[i].interview
  {
    seq(|rows|, i requires 0 <= i < |rows| => rows[i].interview)
  }

  datatype Body = EmptyState | Rows(rows: seq<Row>)

  datatype View = View(title: string, body: Body)

  /** The card: the title, then either the empty-state message or the interviews sorted, on a
      copy, by `key` (the date and time), each under its company. */
  function Render(ivs: seq<Interview>, apps: seq<Application>, range: DateRange, selected: Option<string>,
                  key: Interview -> int): (r: View)
    ensures r.title == GetTitle(range, selected)
    ensures r.body.EmptyState? <==> |ivs| == 0
    ensures r.body.Rows? ==> multiset(RowInterviews(r.body.rows)) == multiset(ivs)
    ensures r.body.Rows? ==> SortedBy(key, RowInterviews(r.body.rows))
    ensures r.body.Rows? ==> forall i :: 0 <= i < |r.body.rows| ==>
                               r.body.rows[i].company == CompanyFor(apps, r.body.rows[i].interview)
  {
    var sorted := SortBy(key, ivs);
    if |sorted| == 0 then View(GetTitle(range, selected), EmptyState)
    else
      var rows := seq(|sorted|, i requires 0 <= i < |sorted| => Row(CompanyFor(apps, sorted[i]), sorted[i]));
      assert RowInterviews(rows) == sorted;
      View(GetTitle(range, selected), Rows(rows))
  }
}
