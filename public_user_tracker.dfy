/** A user's sheet on the explore pages, served from a built-in table instead of the server. */
module PublicUserTracker {
  import opened Wrappers
  import opened Types
  import opened ApplicationFilter

  datatype UserData = UserData(userName: string, applications: seq<Application>)

  /** `dummyUserData`. */
  const DummyUserData: map<string, UserData> := map[
    "user1" := UserData("Alice", [
      PublicApplication("1", "Tech Giants Inc.", "2025-01-15", "San Francisco, CA", "Interview",
        [HistoryEntry("Applied", "2025-01-15"), HistoryEntry("Screen", "2025-01-20"),
         HistoryEntry("Interview", "2025-01-25")]),
      PublicApplication("2", "Startup Innovators", "2025-01-10", "New York, NY", "Offer",
        [HistoryEntry("Applied", "2025-01-10"), HistoryEntry("Screen", "2025-01-18"),
         HistoryEntry("Interview", "2025-01-22"), HistoryEntry("Offer", "2025-01-30")])]),
    "user2" := UserData("Bob", [
      PublicApplication("3", "Global Solutions Ltd.", "2025-01-20", "London, UK", "Applied",
        [HistoryEntry("Applied", "2025-01-20")])])
  ]

  /** The fallback for an id not in the table. */
  const UnknownUser: UserData := UserData("Unknown User", [])

  /** `dummyUserData[userId] || { userName: "Unknown User", applications: [] }`. */
  function FetchUserData(userId: string): (r: UserData)
    ensures userId in DummyUserData ==> r == DummyUserData[userId]
    ensures userId !in DummyUserData ==> r == UnknownUser
  {
    if userId in DummyUserData then DummyUserData[userId] else UnknownUser
  }

  /** Only "user1" and "user2" are known; every other id is the unknown user with no applications. */
  lemma FetchCases(userId: string)
    ensures userId == "user1" ==> FetchUserData(userId).userName == "Alice" && |FetchUserData(userId).applications| == 2
    ensures userId == "user2" ==> FetchUserData(userId).userName == "Bob" && |FetchUserData(userId).applications| == 1
    ensures userId != "user1" && userId != "user2" ==>
      FetchUserData(userId).userName == "Unknown User" && FetchUserData(userId).applications == []
  {
  }

  /** Every record in the table is status-consistent. */
  lemma DummyDataConsistent()
    ensures forall id :: id in DummyUserData ==>
      forall i :: 0 <= i < |DummyUserData[id].applications| ==> StatusConsistent(DummyUserData[id].applications[i])
  {
  }

  class Component {
    var userName: string
    var applications: seq<Application>
    var isLoading: bool
    var filters: Filters

    constructor ()
      ensures userName == "" && applications == [] && isLoading && filters == Cleared
    {
      userName := "";
      applications := [];
      isLoading := true;
      filters := Cleared;
    }

    /** The rows shown once loaded (`filteredApplications`). */
    function FilteredApplications(): seq<Application>
      reads this
    {
      FilterApplications(applications, filters)
    }

    /** `loadData` for `userId`. */
    method LoadData(userId: string)
      modifies this`userName, this`applications, this`isLoading
      ensures userName == FetchUserData(userId).userName
      ensures applications == FetchUserData(userId).applications
      ensures !isLoading
    {
      isLoading := true;
      var data := FetchUserData(userId);
      userName := data.userName;
      applications := data.applications;
      isLoading := false;
    }

    method SetFilters(f: Filters)
      modifies this`filters
      ensures filters == f
    {
      filters := f;
    }

    /** `clearFilters`. */
    method ClearFilters()
      modifies this`filters
      ensures filters == Cleared
      ensures FilteredApplications() == applications
    {
      filters := Cleared;
      ClearedShowsAll(applications);
    }
  }
}
