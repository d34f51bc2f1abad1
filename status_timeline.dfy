/** The five-point progress line drawn under each application. */
module StatusTimeline {
  import opened Wrappers
  import opened Types
  import opened Sequences

  /** The stage names, in the order they are drawn. */
  const Stages: seq<string> := ["Saved", "Applied", "Screen", "Interview", "Offer"]

  /** One drawn point: its label, whether it is filled, and the date printed under it. */
  datatype StagePoint = StagePoint(name: string, active: bool, date: Option<string>)

  /** The whole timeline: the points and whether the "Status" edit button is shown. */
  datatype View = View(points: seq<StagePoint>, editButton: bool)

  /** `statusHistory.find(h => h.status === name)`, drawn: the point is filled exactly when some
      entry has this status, and then it shows the date of the first such entry. */
  function StagePointFor(history: seq<HistoryEntry>, name: string): (r: StagePoint)
    ensures r.name == name
    ensures r.active <==> r.date.Some?
    ensures !r.active <==> forall j :: 0 <= j < |history| ==> history[j].status != name
    ensures r.active ==> exists j :: 0 <= j < |history| && history[j].status == name
                                  && r.date == Some(history[j].date) && forall k :: 0 <= k < j ==> history[k].status != name
  {
    match Find((h: HistoryEntry) => h.status == name, history)
    case None => StagePoint(name, false, None)
    case Some(e) => StagePoint(name, true, Some(e.date))
  }

  /** `StatusTimeline({ statusHistory = [], onEditStatus })`. */
  function Timeline(statusHistory: Option<seq<HistoryEntry>>, hasEditHandler: bool): (r: View)
    ensures |r.points| == |Stages|
    ensures forall k :: 0 <= k < |Stages| ==> r.points[k].name == Stages[k]
    ensures forall k :: 0 <= k < |Stages| ==> r.points[k] == StagePointFor(statusHistory.GetOr([]), Stages[k])
    ensures r.editButton == hasEditHandler
  {
    View(seq(|Stages|, k requires 0 <= k < |Stages| => StagePointFor(statusHistory.GetOr([]), Stages[k])),
         hasEditHandler)
  }

  /** Without a history nothing is filled and no date is shown. */
  lemma NoHistoryNothingActive(hasEditHandler: bool)
    ensures forall k :: 0 <= k < |Stages| ==>
      !Timeline(None, hasEditHandler).points[k].active && Timeline(None, hasEditHandler).points[k].date.None?
  {
    var v := Timeline(None, hasEditHandler);
    forall k | 0 <= k < |Stages| ensures !v.points[k].active {
      assert v.points[k] == StagePointFor([], Stages[k]);
    }
  }

  /** Searching for an element that satisfies `p` is unaffected by first discarding elements
      that fail a weaker test `q`. */
  lemma {:induction false} FindIgnoresFiltered<T(!new)>(p: T -> bool, q: T -> bool, s: seq<T>)
    requires forall x :: p(x) ==> q(x)
    ensures Find(p, Filter(q, s)) == Find(p, s)
  {
    if s != [] {
      FindIgnoresFiltered(p, q, s[1..]);
      assert s == [s[0]] + s[1..];
      FindCons(p, s[0], s[1..]);
      if q(s[0]) {
        FindCons(p, s[0], Filter(q, s[1..]));
      }
    }
  }

  /** Entries whose status is not one of the five stages are never drawn: dropping them leaves
      the timeline as it was. */
  lemma {:induction false} OffStageEntriesIgnored(history: seq<HistoryEntry>, hasEditHandler: bool)
    ensures Timeline(Some(Filter((h: HistoryEntry) => h.status in Stages, history)), hasEditHandler)
         == Timeline(Some(history), hasEditHandler)
  {
    var kept := Filter((h: HistoryEntry) => h.status in Stages, history);
    var a := Timeline(Some(kept), hasEditHandler);
    var b := Timeline(Some(history), hasEditHandler);
    forall k | 0 <= k < |Stages| ensures a.points[k] == b.points[k] {
      var name := Stages[k];
      FindIgnoresFiltered((h: HistoryEntry) => h.status == name, (h: HistoryEntry) => h.status in Stages, history);
    }
  }

  /** The stage an application is currently in (when it is one of the five) is always filled. */
  lemma CurrentStageActive(app: Application, hasEditHandler: bool)
    requires StatusConsistent(app) && app.status in Stages
    ensures exists k :: 0 <= k < |Stages| && Stages[k] == app.status
                        && Timeline(app.statusHistory, hasEditHandler).points[k].active
  {
    var h := History(app);
    var k :| 0 <= k < |Stages| && Stages[k] == app.status;
    var p := Timeline(app.statusHistory, hasEditHandler).points[k];
    assert h[|h| - 1].status == Stages[k];
    assert p == StagePointFor(h, Stages[k]);
  }
}
