/** The signed-in user's sheet: the same table as the tracker, but every change goes through a
    request first. A request's outcome is a parameter: `None` for a response that was not ok
    (or a request that threw), `Some(x)` for the `application` the server sent back. */
module Sheet {
  import opened Wrappers
  import opened Types
  import opened ApplicationFilter
  import opened ApplicationList
  import Visibility

  /** The three fields `updateApplicationDetails` sends. */
  datatype DetailsUpdate = DetailsUpdate(companyName: string, position: string, location: string)

  class Component {
    var title: string
    var isEditingTitle: bool
    var applications: seq<Application>
    var isAddingRow: bool
    var isPublic: bool
    var showConfirmationModal: bool
    var pendingVisibilityChange: bool
    var filters: Filters

    /** The first render, before the sheet is loaded. */
    constructor ()
      ensures title == "" && !isEditingTitle && applications == [] && !isAddingRow
      ensures VisibilityState() == Visibility.Initial
      ensures filters == Cleared
    {
      title := "";
      isEditingTitle := false;
      applications := [];
      isAddingRow := false;
      isPublic := false;
      showConfirmationModal := false;
      pendingVisibilityChange := false;
      filters := Cleared;
    }

    function VisibilityState(): Visibility.State
      reads this
    {
      Visibility.State(isPublic, pendingVisibilityChange, showConfirmationModal)
    }

    /** The rows the table shows (`filteredApplications`), by the tracker's own predicate. */
    function FilteredApplications(): seq<Application>
      reads this
    {
      FilterApplications(applications, filters)
    }

    /** `handleTitleChange`. */
    method HandleTitleChange(value: string)
      modifies this`title
      ensures title == value
    {
      title := value;
    }

    /** `saveTitle`: editing always ends; the typed title survives only when the session has an
        email and the update request succeeded (`ok`), and is blanked otherwise. */
    method SaveTitle(session: Session, ok: bool)
      modifies this`isEditingTitle, this`title
      ensures !isEditingTitle
      ensures title == if HasEmail(session) && ok then old(title) else ""
    {
      isEditingTitle := false;
      if !HasEmail(session) {
        title := "";
        return;
      }
      if !ok {
        title := "";
      }
    }

    /** `addEntry`: opens the add form when signed in, otherwise asks for a redirect to sign-in. */
    method AddEntry(session: Session) returns (redirect: bool)
      modifies this`isAddingRow
      ensures redirect == !LoggedIn(session)
      ensures isAddingRow == if LoggedIn(session) then true else old(isAddingRow)
    {
      if !LoggedIn(session) {
        return true;
      }
      isAddingRow := true;
      return false;
    }

    /** `addApplication`: without a session email nothing is sent and nothing changes; when the
        server returns the created application it is appended and the form closes. */
    method AddApplication(session: Session, response: Option<Application>)
      modifies this`applications, this`isAddingRow
      ensures HasEmail(session) && response.Some? ==>
        applications == old(applications) + [response.value] && !isAddingRow
      ensures !(HasEmail(session) && response.Some?) ==>
        applications == old(applications) && isAddingRow == old(isAddingRow)
    {
      if !HasEmail(session) {
        return;
      }
      if response.None? {
        return;
      }
      applications := applications + [response.value];
      isAddingRow := false;
    }

    /** `updateApplicationStatus`: the server's copy replaces the applications whose `_id` is `id`. */
    method UpdateApplicationStatus(id: Id, newStatus: string, statusDate: string, response: Option<Application>)
      modifies this`applications
      ensures applications == if response.Some? then ReplaceByDocId(old(applications), id, response.value)
                              else old(applications)
    {
      if response.Some? {
        applications := ReplaceByDocId(applications, id, response.value);
      }
    }

    /** `updateApplicationDetails`: the same replacement, after a details request. */
    method UpdateApplicationDetails(id: Id, updates: DetailsUpdate, response: Option<Application>)
      modifies this`applications
      ensures applications == if response.Some? then ReplaceByDocId(old(applications), id, response.value)
                              else old(applications)
    {
      if response.Some? {
        applications := ReplaceByDocId(applications, id, response.value);
      }
    }

    /** `deleteApplication`: after an ok response every application with the deleted one's `_id` goes. */
    method DeleteApplication(application: Application, ok: bool)
      modifies this`applications
      ensures applications == if ok then RemoveByDocId(old(applications), application.docId)
                              else old(applications)
    {
      if ok {
        applications := RemoveByDocId(applications, application.docId);
      }
    }

    /** The filter bar's three setters. */
    method SetFilters(f: Filters)
      modifies this`filters
      ensures filters == f
    {
      filters := f;
    }

    /** `clearFilters`: back to ("", "", "All"), which shows every application. */
    method ClearFilters()
      modifies this`filters
      ensures filters == Cleared
      ensures FilteredApplications() == applications
    {
      filters := Cleared;
      ClearedShowsAll(applications);
    }

    /** `handleVisibilityToggle`: when not signed in, only a redirect. */
    method HandleVisibilityToggle(session: Session) returns (redirect: bool)
      modifies this`pendingVisibilityChange, this`showConfirmationModal
      ensures redirect == !LoggedIn(session)
      ensures VisibilityState() == Visibility.SheetToggle(old(VisibilityState()), session)
    {
      if !LoggedIn(session) {
        return true;
      }
      pendingVisibilityChange := !isPublic;
      showConfirmationModal := true;
      return false;
    }

    /** `confirmVisibilityChange`: closes the dialog, then adopts the pending value if the
        session has an email and the update request succeeded. */
    method ConfirmVisibilityChange(session: Session, ok: bool)
      modifies this`isPublic, this`showConfirmationModal
      ensures VisibilityState() == Visibility.SheetConfirm(old(VisibilityState()), session, ok)
    {
      showConfirmationModal := false;
      if !HasEmail(session) {
        return;
      }
      if ok {
        isPublic := pendingVisibilityChange;
      }
    }

    /** `cancelVisibilityChange`. */
    method CancelVisibilityChange()
      modifies this`pendingVisibilityChange, this`showConfirmationModal
      ensures VisibilityState() == Visibility.Cancel(old(VisibilityState()))
    {
      pendingVisibilityChange := isPublic;
      showConfirmationModal := false;
    }
  }
}
