/** The list rebuilds that the tracker and the sheet hand to `setApplications`: the history
    stamp of a newly added application, the status update by client id, the replacement and
    the removal by database `_id`, and the attachment of an interview. */
module ApplicationList {
  import opened Wrappers
  import opened Types
  import opened Sequences

  /** `{ ...app, statusHistory: [{ status: "Saved", date: app.date }] }`: whatever history came
      in is replaced by a single "Saved" entry dated with the application's own date. */
  function WithSavedHistory(app: Application): (r: Application)
    ensures History(r) == [HistoryEntry("Saved", app.date)]
    ensures r.(statusHistory := app.statusHistory) == app
  {
    app.(statusHistory := Some([HistoryEntry("Saved", app.date)]))
  }

  /** The stamped application is consistent exactly when it was submitted with status "Saved";
      a form status such as "Applied" leaves `status` disagreeing with its only history entry. */
  lemma SavedHistoryConsistentIff(app: Application)
    ensures StatusConsistent(WithSavedHistory(app)) <==> app.status == "Saved"
  {
    assert History(WithSavedHistory(app)) == [HistoryEntry("Saved", app.date)];
  }

  /** `{ ...app, status, statusHistory: [...(app.statusHistory || []), { status, date }] }`. */
  function ApplyStatus(app: Application, status: string, date: string): (r: Application)
    ensures r.status == status
    ensures History(r) == History(app) + [HistoryEntry(status, date)]
    ensures StatusConsistent(r)
    ensures r.(status := app.status, statusHistory := app.statusHistory) == app
  {
    app.(status := status, statusHistory := Some(History(app) + [HistoryEntry(status, date)]))
  }

  /** `applications.map(app => app.id === id ? ApplyStatus(app, ...) : app)`. */
  function UpdateStatusById(apps: seq<Application>, id: Id, status: string, date: string): (r: seq<Application>)
    ensures |r| == |apps|
    ensures forall i :: 0 <= i < |apps| && apps[i].id != id ==> r[i] == apps[i]
    ensures forall i :: 0 <= i < |apps| && apps[i].id == id ==>
      r[i].status == status && History(r[i]) == History(apps[i]) + [HistoryEntry(status, date)]
      && r[i].(status := apps[i].status, statusHistory := apps[i].statusHistory) == apps[i]
    ensures forall i :: 0 <= i < |apps| ==> r[i].id == apps[i].id
  {
    seq(|apps|, i requires 0 <= i < |apps| =>
      if apps[i].id == id then ApplyStatus(apps[i], status, date) else apps[i])
  }

  /** Applies a run of status changes one after the other to the same application. */
  function ApplyStatuses(app: Application, changes: seq<HistoryEntry>): Application
    decreases |changes|
  {
    if changes == [] then app
    else ApplyStatuses(ApplyStatus(app, changes[0].status, changes[0].date), changes[1..])
  }

  /** Status changes are accepted in any order and repeated: the history only grows, by exactly
      the changes in the order they were made, and the status ends as the last change's. */
  lemma {:induction false} ApplyStatusesAppends(app: Application, changes: seq<HistoryEntry>)
    ensures History(ApplyStatuses(app, changes)) == History(app) + changes
    ensures changes != [] ==> ApplyStatuses(app, changes).status == changes[|changes| - 1].status
    ensures changes == [] ==> ApplyStatuses(app, changes) == app
    decreases |changes|
  {
    if changes != [] {
      var next := ApplyStatus(app, changes[0].status, changes[0].date);
      ApplyStatusesAppends(next, changes[1..]);
      assert History(app) + changes == History(next) + changes[1..];
    }
  }

  /** An update by id keeps every application in the list status-consistent. */
  lemma UpdateKeepsConsistent(apps: seq<Application>, id: Id, status: string, date: string)
    requires forall i :: 0 <= i < |apps| ==> StatusConsistent(apps[i])
    ensures forall i :: 0 <= i < |apps| ==> StatusConsistent(UpdateStatusById(apps, id, status, date)[i])
  {
    var r := UpdateStatusById(apps, id, status, date);
    forall i | 0 <= i < |apps| ensures StatusConsistent(r[i]) {
      if apps[i].id == id {
        assert r[i] == ApplyStatus(apps[i], status, date);
      }
    }
  }

  /** `applications.map(app => app._id === id ? updated : app)`: the server's copy takes the place
      of every application whose database id is `id`; applications never saved (no `_id`) stay. */
  function ReplaceByDocId(apps: seq<Application>, id: Id, updated: Application): (r: seq<Application>)
    ensures |r| == |apps|
    ensures forall i :: 0 <= i < |apps| ==> r[i] == if apps[i].docId == Some(id) then updated else apps[i]
  {
    seq(|apps|, i requires 0 <= i < |apps| => if apps[i].docId == Some(id) then updated else apps[i])
  }

  /** When the server's copy carries the same `_id`, the applications with other ids are exactly
      the same, in the same order, before and after the replacement. */
  lemma ReplaceKeepsOthers(apps: seq<Application>, id: Id, updated: Application)
    requires updated.docId == Some(id)
    ensures Filter((a: Application) => a.docId != Some(id), ReplaceByDocId(apps, id, updated))
         == Filter((a: Application) => a.docId != Some(id), apps)
  {
    FilterAgrees((a: Application) => a.docId != Some(id), ReplaceByDocId(apps, id, updated), apps);
  }

  /** `applications.filter(app => app._id !== target)`, where `target` is the deleted
      application's `_id` (absent for an application that never came back from the server). */
  function RemoveByDocId(apps: seq<Application>, target: Option<Id>): (r: seq<Application>)
    ensures forall a :: a in r ==> a.docId != target
    ensures forall a :: a in apps && a.docId != target ==> a in r
    ensures forall a :: multiset(r)[a] == if a.docId != target then multiset(apps)[a] else 0
    ensures IsSubsequence(r, apps)
  {
    Filter((a: Application) => a.docId != target, apps)
  }

  /** Deleting an application without an `_id` drops every application without an `_id`,
      not only the one that was clicked. */
  lemma RemoveUnsavedDropsAllUnsaved(apps: seq<Application>, clicked: Application)
    requires clicked.docId.None?
    ensures forall a :: a in RemoveByDocId(apps, clicked.docId) ==> a.docId.Some?
  {
  }

  /** The interview appended to the applications whose client id equals its `jobApplicationId`:
      `{ ...app, interviews: [...(app.interviews || []), interview] }`. */
  function AttachInterview(apps: seq<Application>, iv: Interview): (r: seq<Application>)
    ensures |r| == |apps|
    ensures forall i :: 0 <= i < |apps| && apps[i].id != iv.details.jobApplicationId ==> r[i] == apps[i]
    ensures forall i :: 0 <= i < |apps| && apps[i].id == iv.details.jobApplicationId ==>
      r[i] == apps[i].(interviews := Some(apps[i].interviews.GetOr([]) + [iv]))
  {
    seq(|apps|, i requires 0 <= i < |apps| =>
      if apps[i].id == iv.details.jobApplicationId
      then apps[i].(interviews := Some(apps[i].interviews.GetOr([]) + [iv]))
      else apps[i])
  }

  /** The number of interviews held by all the applications. */
  function InterviewTotal(apps: seq<Application>): nat {
    if apps == [] then 0 else |apps[0].interviews.GetOr([])| + InterviewTotal(apps[1..])
  }

  /** The number of applications whose client id is `id`. */
  function CountId(apps: seq<Application>, id: Id): nat {
    if apps == [] then 0 else (if apps[0].id == id then 1 else 0) + CountId(apps[1..], id)
  }

  /** Attaching an interview adds one interview per application with the matching id, and none
      when no application has that id. */
  lemma {:induction false} AttachInterviewTotal(apps: seq<Application>, iv: Interview)
    ensures InterviewTotal(AttachInterview(apps, iv)) == InterviewTotal(apps) + CountId(apps, iv.details.jobApplicationId)
  {
    if apps != [] {
      AttachInterviewTotal(apps[1..], iv);
      assert AttachInterview(apps, iv)[1..] == AttachInterview(apps[1..], iv);
    }
  }
}
