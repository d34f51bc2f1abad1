/** The inline form that builds a new application. */
module AddRowForm {
  import opened Wrappers
  import opened Types
  import ApplicationList

  class Component {
    var companyName: string
    var position: string
    var date: string
    var location: string
    var status: string

    /** The form's first state: empty text fields, today's date, status "Saved". */
    constructor (today: string)
      ensures companyName == "" && position == "" && date == today && location == ""
      ensures status == "Saved"
    {
      companyName := "";
      position := "";
      date := today;
      location := "";
      status := "Saved";
    }

    /** The five inputs' `onChange` setters. */
    method Fill(companyName: string, position: string, date: string, location: string, status: string)
      modifies this
      ensures this.companyName == companyName && this.position == position && this.date == date
      ensures this.location == location && this.status == status
    {
      this.companyName := companyName;
      this.position := position;
      this.date := date;
      this.location := location;
      this.status := status;
    }

    /** `handleSubmit`: the one application handed to `onSubmit`, with `stamp` as the id
        `Date.now().toString()` gives it. The fields are the form's, verbatim, and the history
        is the single entry made of the form's status and date. */
    method HandleSubmit(stamp: Id) returns (submitted: Application)
      ensures submitted.id == stamp && submitted.docId.None?
      ensures submitted.companyName == companyName && submitted.position == Some(position)
      ensures submitted.date == date && submitted.location == location && submitted.status == status
      ensures submitted.statusHistory == Some([HistoryEntry(status, date)])
      ensures submitted.interviews.None?
      ensures StatusConsistent(submitted)
    {
      submitted := Application(stamp, None, companyName, Some(position), date, location, status,
                               Some([HistoryEntry(status, date)]), None);
    }
  }

  /** A submitted application keeps its history through the tracker's "Saved" stamp exactly when
      it was submitted with the initial status "Saved". */
  lemma SubmittedSurvivesSavedStamp(submitted: Application)
    requires submitted.statusHistory == Some([HistoryEntry(submitted.status, submitted.date)])
    ensures ApplicationList.WithSavedHistory(submitted) == submitted <==> submitted.status == "Saved"
  {
    if ApplicationList.WithSavedHistory(submitted) == submitted {
      assert History(submitted) == [HistoryEntry("Saved", submitted.date)];
      assert History(submitted)[0].status == "Saved";
    }
  }
}
