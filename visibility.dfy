/** The public/private switch that the tracker, the sheet and the interviews page put behind a
    confirmation dialog: `isPublic`, `pendingVisibilityChange` and `showConfirmationModal`. */
module Visibility {
  import opened Types

  datatype State = State(isPublic: bool, pending: bool, modalOpen: bool)

  /** All three start `false`. */
  const Initial: State := State(false, false, false)

  /** With the dialog closed the pending value agrees with the current one. */
  predicate Settled(v: State) {
    !v.modalOpen ==> v.pending == v.isPublic
  }

  /** `handleVisibilityToggle`: propose the opposite of the current value and open the dialog. */
  function Toggle(v: State): (r: State)
    ensures r.isPublic == v.isPublic && r.pending == !v.isPublic && r.modalOpen
  {
    State(v.isPublic, !v.isPublic, true)
  }

  /** `confirmVisibilityChange` of the tracker and the interviews page: adopt the pending value, close. */
  function Confirm(v: State): (r: State)
    ensures r.isPublic == v.pending && r.pending == v.pending && !r.modalOpen
  {
    State(v.pending, v.pending, false)
  }

  /** `cancelVisibilityChange`: drop the pending value, keep the current one, close. */
  function Cancel(v: State): (r: State)
    ensures r.isPublic == v.isPublic && r.pending == v.isPublic && !r.modalOpen
  {
    State(v.isPublic, v.isPublic, false)
  }

  /** The sheet's toggle: when not signed in it only redirects, leaving the state as it was. */
  function SheetToggle(v: State, session: Session): (r: State)
    ensures LoggedIn(session) ==> r == Toggle(v)
    ensures !LoggedIn(session) ==> r == v
  {
    if LoggedIn(session) then Toggle(v) else v
  }

  /** The sheet's confirm: the dialog closes first; the pending value is adopted only when the
      session has an email and the server accepted the change (`ok`). */
  function SheetConfirm(v: State, session: Session, ok: bool): (r: State)
    ensures !r.modalOpen && r.pending == v.pending
    ensures r.isPublic == if HasEmail(session) && ok then v.pending else v.isPublic
  {
    State(if HasEmail(session) && ok then v.pending else v.isPublic, v.pending, false)
  }

  /** Each step of the tracker's and the page's dialog keeps the state settled. */
  lemma DialogKeepsSettled(v: State)
    requires Settled(v)
    ensures Settled(Toggle(v)) && Settled(Confirm(v)) && Settled(Cancel(v))
  {
  }

  /** Toggle then confirm flips the visibility; toggle then cancel gives back the state before. */
  lemma ToggleThenResolve(v: State)
    requires Settled(v) && !v.modalOpen
    ensures Confirm(Toggle(v)).isPublic == !v.isPublic
    ensures Cancel(Toggle(v)) == v
  {
  }

  /** A successful sheet confirm after a toggle flips the visibility, as on the tracker. */
  lemma SheetConfirmSucceeds(v: State, email: string)
    requires email != ""
    ensures SheetConfirm(Toggle(v), Authenticated(email), true) == Confirm(Toggle(v))
  {
  }

  /** A failed sheet confirm closes the dialog yet keeps the proposed value pending, so the
      closed dialog and the pending value disagree until the next toggle or cancel. */
  lemma SheetConfirmFailureUnsettles(v: State, session: Session)
    ensures !Settled(SheetConfirm(Toggle(v), session, false))
  {
  }

  /** The next toggle only looks at the current value, so a stale pending value never leaks. */
  lemma ToggleIgnoresPending(v: State, w: State)
    requires v.isPublic == w.isPublic
    ensures Toggle(v) == Toggle(w)
  {
  }
}
