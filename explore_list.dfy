/** The explore page's list of public users, searched by name. */
module ExploreList {
  import opened Text
  import opened Sequences

  datatype PublicUser = PublicUser(id: string, name: string, jobCount: nat, lastUpdated: string)

  /** `dummyUsers`. */
  const DummyUsers: seq<PublicUser> := [
    PublicUser("user1", "Alice Johnson", 5, "2025-01-30"),
    PublicUser("user2", "Bob Smith", 3, "2025-01-28"),
    PublicUser("user3", "Charlie Brown", 7, "2025-01-29"),
    PublicUser("user4", "Diana Prince", 2, "2025-01-27"),
    PublicUser("user5", "Ethan Hunt", 4, "2025-01-26")
  ]

  /** `user.name.toLowerCase().includes(searchTerm.toLowerCase())`. */
  predicate NameMatches(u: PublicUser, searchTerm: string) {
    Includes(ToLower(u.name), ToLower(searchTerm))
  }

  /** `filteredUsers`: every kept user matches, no matching user is dropped, order is kept. */
  function FilteredUsers(searchTerm: string): (r: seq<PublicUser>)
    ensures forall u :: u in r <==> u in DummyUsers && NameMatches(u, searchTerm)
    ensures IsSubsequence(r, DummyUsers)
    ensures |r| <= 5
  {
    Filter(u => NameMatches(u, searchTerm), DummyUsers)
  }

  /** A kept user's lowered name contains the lowered term at some position. */
  lemma KeptUsersContainTerm(searchTerm: string, u: PublicUser)
    requires u in FilteredUsers(searchTerm)
    ensures exists i :: OccursAt(ToLower(u.name), ToLower(searchTerm), i)
  {
    IncludesIff(ToLower(u.name), ToLower(searchTerm));
  }

  /** An empty search lists all five users. */
  lemma {:induction false} EmptySearchListsAll()
    ensures FilteredUsers("") == DummyUsers
  {
    forall i | 0 <= i < |DummyUsers| ensures NameMatches(DummyUsers[i], "") {
      IncludesEmpty(ToLower(DummyUsers[i].name));
    }
    FilterKeepsAll(u => NameMatches(u, ""), DummyUsers);
  }
}
