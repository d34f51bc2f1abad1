/** The explore page's table of other users' public applications (built-in data). */
module ExploreTracker {
  import opened Types
  import opened Text
  import opened Sequences
  import opened ApplicationFilter

  /** A public application together with its owner (`userId`, `userName`). */
  datatype PublicEntry = PublicEntry(userId: string, userName: string, app: Application)

  /** `dummyPublicData`. */
  const DummyPublicData: seq<PublicEntry> := [
    PublicEntry("user1", "Alice Johnson",
      PublicApplication("1", "Tech Giants Inc.", "2025-01-15", "San Francisco, CA", "Interview",
        [HistoryEntry("Applied", "2025-01-15"), HistoryEntry("Screen", "2025-01-20"),
         HistoryEntry("Interview", "2025-01-25")])),
    PublicEntry("user2", "Bob Smith",
      PublicApplication("2", "Startup Innovators", "2025-01-10", "New York, NY", "Offer",
        [HistoryEntry("Applied", "2025-01-10"), HistoryEntry("Screen", "2025-01-18"),
         HistoryEntry("Interview", "2025-01-22"), HistoryEntry("Offer", "2025-01-30")])),
    PublicEntry("user3", "Charlie Brown",
      PublicApplication("3", "Global Solutions Ltd.", "2025-01-20", "London, UK", "Applied",
        [HistoryEntry("Applied", "2025-01-20")]))
  ]

  /** Every built-in record is status-consistent. */
  lemma DummyDataConsistent()
    ensures forall i :: 0 <= i < |DummyPublicData| ==> StatusConsistent(DummyPublicData[i].app)
  {
  }

  /** `filteredApplications`: the shared predicate applied to each entry's application. */
  function FilterEntries(entries: seq<PublicEntry>, f: Filters): (r: seq<PublicEntry>)
    ensures forall e :: e in r <==> e in entries && Matches(e.app, f)
    ensures forall e :: multiset(r)[e] == if Matches(e.app, f) then multiset(entries)[e] else 0
    ensures IsSubsequence(r, entries)
  {
    Filter((e: PublicEntry) => Matches(e.app, f), entries)
  }

  /** With the filters cleared every entry is shown, in order. */
  lemma {:induction false} ClearedShowsAllEntries(entries: seq<PublicEntry>)
    ensures FilterEntries(entries, Cleared) == entries
  {
    forall i | 0 <= i < |entries| ensures Matches(entries[i].app, Cleared) {
      assert ToLower(Cleared.company) == "";
      IncludesEmpty(ToLower(entries[i].app.companyName));
    }
    FilterKeepsAll((e: PublicEntry) => Matches(e.app, Cleared), entries);
  }

  class Component {
    var applications: seq<PublicEntry>
    var filters: Filters

    /** `useState(dummyPublicData)` and no filter. */
    constructor ()
      ensures applications == DummyPublicData && filters == Cleared
    {
      applications := DummyPublicData;
      filters := Cleared;
    }

    function FilteredApplications(): seq<PublicEntry>
      reads this
    {
      FilterEntries(applications, filters)
    }

    method SetFilters(f: Filters)
      modifies this`filters
      ensures filters == f
    {
      filters := f;
    }

    /** `clearFilters`: afterwards every entry is shown. */
    method ClearFilters()
      modifies this`filters
      ensures filters == Cleared
      ensures FilteredApplications() == applications
    {
      filters := Cleared;
      ClearedShowsAllEntries(applications);
    }
  }
}
