/** The interviews page: the date-range selector and calendar, the visibility switch, the
    filtered list, and the hand-off of a new interview to the server. */
module InterviewsPage {
  import opened Wrappers
  import opened Types
  import opened Sequences
  import Visibility

  /** `DateRangeOption`. */
  datatype DateRange = All | Today | ThisWeek | ThisMonth | Custom

  /** What the clock-dependent cases compare against, fixed for one render: whether an
      interview falls today, this week, this month, or on a given calendar day. */
  datatype Calendar = Calendar(
    today: Interview -> bool,
    thisWeek: Interview -> bool,
    thisMonth: Interview -> bool,
    sameDay: (Interview, string) -> bool)

  /** The `switch (dateRange)` inside `filteredInterviews`; `selected` is the calendar day picked. */
  predicate KeepsInterview(iv: Interview, range: DateRange, selected: Option<string>, cal: Calendar)
    ensures range == All || (range == Custom && selected.None?) ==> KeepsInterview(iv, range, selected, cal)
  {
    match range
    case Today => cal.today(iv)
    case ThisWeek => cal.thisWeek(iv)
    case ThisMonth => cal.thisMonth(iv)
    case Custom => selected.None? || cal.sameDay(iv, selected.value)
    case All => true
  }

  /** `filteredInterviews`: the interviews for the range, in their order. */
  function FilterInterviews(ivs: seq<Interview>, range: DateRange, selected: Option<string>, cal: Calendar)
    : (r: seq<Interview>)
    ensures forall iv :: iv in r <==> iv in ivs && KeepsInterview(iv, range, selected, cal)
    ensures forall iv :: multiset(r)[iv] == if KeepsInterview(iv, range, selected, cal) then multiset(ivs)[iv] else 0
    ensures IsSubsequence(r, ivs)
  {
    Filter(iv => KeepsInterview(iv, range, selected, cal), ivs)
  }

  /** The "all" range, and "custom" before a day is picked, show every interview whatever the clock says. */
  lemma {:induction false} UnrestrictedRangesKeepAll(ivs: seq<Interview>, range: DateRange, selected: Option<string>, cal: Calendar)
    requires range == All || (range == Custom && selected.None?)
    ensures FilterInterviews(ivs, range, selected, cal) == ivs
  {
    FilterKeepsAll(iv => KeepsInterview(iv, range, selected, cal), ivs);
  }

  /** `newInterview.userEmail = session.user.email` when the session has an email. */
  function StampEmail(draft: InterviewDraft, session: Session): (r: InterviewDraft)
    ensures HasEmail(session) ==> r.userEmail == Some(session.email)
    ensures !HasEmail(session) ==> r == draft
    ensures r.(userEmail := draft.userEmail) == draft
  {
    if HasEmail(session) then draft.(userEmail := Some(session.email)) else draft
  }

  class Component {
    var interviews: seq<Interview>
    var jobApplications: seq<Application>
    var selectedDate: Option<string>
    var dateRange: DateRange
    var isPublic: bool
    var showConfirmationModal: bool
    var pendingVisibilityChange: bool

    constructor ()
      ensures interviews == [] && jobApplications == [] && selectedDate.None? && dateRange == All
      ensures VisibilityState() == Visibility.Initial
    {
      interviews := [];
      jobApplications := [];
      selectedDate := None;
      dateRange := All;
      isPublic := false;
      showConfirmationModal := false;
      pendingVisibilityChange := false;
    }

    function VisibilityState(): Visibility.State
      reads this
    {
      Visibility.State(isPublic, pendingVisibilityChange, showConfirmationModal)
    }

    /** The interviews handed to the list for the current range and day. */
    function FilteredInterviews(cal: Calendar): seq<Interview>
      reads this
    {
      FilterInterviews(interviews, dateRange, selectedDate, cal)
    }

    /** `handleDateSelect`: picking a day switches to the custom range; clearing the day does
        not change the range. */
    method HandleDateSelect(date: Option<string>)
      modifies this`selectedDate, this`dateRange
      ensures selectedDate == date
      ensures dateRange == if date.Some? then Custom else old(dateRange)
    {
      selectedDate := date;
      if date.Some? {
        dateRange := Custom;
      }
    }

    /** `handleDateRangeChange`: every range but "custom" forgets the picked day. */
    method HandleDateRangeChange(newRange: DateRange)
      modifies this`selectedDate, this`dateRange
      ensures dateRange == newRange
      ensures selectedDate == if newRange == Custom then old(selectedDate) else None
    {
      dateRange := newRange;
      if newRange != Custom {
        selectedDate := None;
      }
    }

    /** `handleAddInterview`. `sent` is the draft as posted, with the session's email stamped in;
        `response` is the value taken from an ok response (`None` when it was not ok), and
        `key` orders interviews by their date and time. */
    method HandleAddInterview(newInterview: InterviewDraft, session: Session,
                              response: Option<Interview>, key: Interview -> int)
      returns (sent: InterviewDraft)
      modifies this`interviews
      ensures sent == StampEmail(newInterview, session)
      ensures response.Some? ==> interviews == SortBy(key, old(interviews) + [response.value])
      ensures response.None? ==> interviews == old(interviews)
    {
      sent := StampEmail(newInterview, session);
      if response.Some? {
        interviews := SortBy(key, interviews + [response.value]);
      }
    }

    /** `handleVisibilityToggle`. */
    method HandleVisibilityToggle()
      modifies this`pendingVisibilityChange, this`showConfirmationModal
      ensures VisibilityState() == Visibility.Toggle(old(VisibilityState()))
    {
      pendingVisibilityChange := !isPublic;
      showConfirmationModal := true;
    }

    /** `confirmVisibilityChange` (nothing is sent to the server). */
    method ConfirmVisibilityChange()
      modifies this`isPublic, this`showConfirmationModal
      ensures VisibilityState() == Visibility.Confirm(old(VisibilityState()))
    {
      isPublic := pendingVisibilityChange;
      showConfirmationModal := false;
    }

    /** `cancelVisibilityChange`. */
    method CancelVisibilityChange()
      modifies this`pendingVisibilityChange, this`showConfirmationModal
      ensures VisibilityState() == Visibility.Cancel(old(VisibilityState()))
    {
      pendingVisibilityChange := isPublic;
      showConfirmationModal := false;
    }
  }
}
