/** The local (server-less) tracker: its React state as the fields of one object, each handler
    as a method that changes the fields it sets and nothing else. */
module JobApplicationTracker {
  import opened Types
  import opened ApplicationFilter
  import opened ApplicationList
  import Visibility

  class Component {
    var applications: seq<Application>
    var interviews: seq<Interview>
    var isAddingRow: bool
    var isPublic: bool
    var showConfirmationModal: bool
    var pendingVisibilityChange: bool
    /** `companyFilter`, `dateFilter` and `statusFilter`. */
    var filters: Filters

    /** The first render: no applications, no interviews, form and dialog closed, private, no filter. */
    constructor ()
      ensures applications == [] && interviews == [] && !isAddingRow
      ensures VisibilityState() == Visibility.Initial
      ensures filters == Cleared
    {
      applications := [];
      interviews := [];
      isAddingRow := false;
      isPublic := false;
      showConfirmationModal := false;
      pendingVisibilityChange := false;
      filters := Cleared;
    }

    function VisibilityState(): Visibility.State
      reads this
    {
      Visibility.State(isPublic, pendingVisibilityChange, showConfirmationModal)
    }

    /** The rows the table shows (`filteredApplications`). */
    function FilteredApplications(): seq<Application>
      reads this
    {
      FilterApplications(applications, filters)
    }

    /** `addApplication`: appends the submitted application with its history replaced by a single
        "Saved" entry, and closes the add form. */
    method AddApplication(newApplication: Application)
      modifies this`applications, this`isAddingRow
      ensures applications == old(applications) + [WithSavedHistory(newApplication)]
      ensures !isAddingRow
    {
      applications := applications + [WithSavedHistory(newApplication)];
      isAddingRow := false;
    }

    /** `updateApplicationStatus`: every application with client id `id` takes the new status and
        one more history entry; the others are untouched. */
    method UpdateApplicationStatus(id: Id, newStatus: string, statusDate: string)
      modifies this`applications
      ensures applications == UpdateStatusById(old(applications), id, newStatus, statusDate)
    {
      applications := UpdateStatusById(applications, id, newStatus, statusDate);
    }

    /** `addInterview`: `stamp` is the id `Date.now().toString()` gives the interview. It is
        appended to the interview list and to every application whose id it names. */
    method AddInterview(newInterview: InterviewDraft, stamp: Id)
      modifies this`interviews, this`applications
      ensures interviews == old(interviews) + [Interview(stamp, newInterview)]
      ensures applications == AttachInterview(old(applications), Interview(stamp, newInterview))
    {
      var interview := Interview(stamp, newInterview);
      interviews := interviews + [interview];
      applications := AttachInterview(applications, interview);
    }

    /** The "Add Entry" button and the form's cancel button. */
    method SetAddingRow(open: bool)
      modifies this`isAddingRow
      ensures isAddingRow == open
    {
      isAddingRow := open;
    }

    /** The filter bar's `onCompanyFilterChange`, `onDateFilterChange` and `onStatusFilterChange`. */
    method SetFilters(f: Filters)
      modifies this`filters
      ensures filters == f
    {
      filters := f;
    }

    /** `clearFilters`. */
    method ClearFilters()
      modifies this`filters
      ensures filters == Cleared
      ensures FilteredApplications() == applications
    {
      filters := Cleared;
      ClearedShowsAll(applications);
    }

    /** `handleVisibilityToggle`. */
    method HandleVisibilityToggle()
      modifies this`pendingVisibilityChange, this`showConfirmationModal
      ensures VisibilityState() == Visibility.Toggle(old(VisibilityState()))
    {
      pendingVisibilityChange := !isPublic;
      showConfirmationModal := true;
    }

    /** `confirmVisibilityChange`. */
    method ConfirmVisibilityChange()
      modifies this`isPublic, this`showConfirmationModal
      ensures VisibilityState() == Visibility.Confirm(old(VisibilityState()))
    {
      isPublic := pendingVisibilityChange;
      showConfirmationModal := false;
    }

    /** `cancelVisibilityChange`. */
    method CancelVisibilityChange()
      modifies this`pendingVisibilityChange, this`showConfirmationModal
      ensures VisibilityState() == Visibility.Cancel(old(VisibilityState()))
    {
      pendingVisibilityChange := isPublic;
      showConfirmationModal := false;
    }
  }
}
