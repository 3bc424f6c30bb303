/** The admin's user table (src/pages/AdminUsers.tsx): the search box and
    the role and status drop-downs that narrow the list, the button that
    activates or deactivates one user, and the initials shown in each row's
    avatar. */
module AdminUsers {
  import opened Types
  import opened Seqs
  import opened Text

  /** The drop-down value that disables a filter. */
  const All := "all"

  /** The filter of the table: a user is listed when the lower-cased name or
      e-mail includes the lower-cased query, and the role and status match
      their drop-downs (or the drop-down says "all"). An empty query with
      both drop-downs on "all" lists everyone; a query longer than both the
      name and the e-mail lists nobody. */
  function Matches(u: User, query: string, role: string, status: string): (r: bool)
    ensures query == "" && role == All && status == All ==> r
    ensures r ==> |query| <= |u.name| || |query| <= |u.email|
  {
    ContainsEmpty(Lower(u.name));
    && (Contains(Lower(u.name), Lower(query)) || Contains(Lower(u.email), Lower(query)))
    && (role == All || RoleName(u.role) == role)
    && (status == All || StatusName(u.status) == status)
  }

  /** `filteredUsers`. */
  function FilteredUsers(users: seq<User>, query: string, role: string, status: string): (r: seq<User>)
    ensures |r| <= |users|
    ensures forall u :: u in r <==> u in users && Matches(u, query, role, status)
  {
    Filter(users, (u: User) => Matches(u, query, role, status))
  }

  /** The table lists users in the order of the full list, leaving some out. */
  lemma FilteredKeepsOrder(users: seq<User>, query: string, role: string, status: string)
    ensures IsSubsequence(FilteredUsers(users, query, role, status), users)
  {
    FilterIsSubsequence(users, (u: User) => Matches(u, query, role, status));
  }

  /** Filtering the filtered table again with the same settings changes
      nothing. */
  lemma FilteredIdempotent(users: seq<User>, query: string, role: string, status: string)
    ensures FilteredUsers(FilteredUsers(users, query, role, status), query, role, status) ==
            FilteredUsers(users, query, role, status)
  {
    FilterIdempotent(users, (u: User) => Matches(u, query, role, status));
  }

  /** With an empty search and both drop-downs on "all", every user is
      listed. */
  lemma NoFilterListsEveryone(users: seq<User>)
    ensures FilteredUsers(users, "", All, All) == users
  {
    forall u | u in users
      ensures Matches(u, "", All, All)
    {
      ContainsEmpty(Lower(u.name));
    }
    FilterAll(users, (u: User) => Matches(u, "", All, All));
  }

  /** The search ignores the case of the query. */
  lemma SearchIgnoresQueryCase(u: User, query: string, role: string, status: string)
    ensures Matches(u, Lower(query), role, status) == Matches(u, query, role, status)
  {
    LowerIdempotent(query);
  }

  /** The other status. */
  function Flip(s: Status): (r: Status)
    ensures r != s
  {
    match s
    case Active => Inactive
    case Inactive => Active
  }

  /** `handleToggleStatus(userId)`: the users with that id change status,
      everyone else is left as is, and the list keeps its length and order. */
  function ToggleStatus(users: seq<User>, userId: string): (r: seq<User>)
    ensures |r| == |users|
    ensures forall i :: 0 <= i < |users| && users[i].id == userId ==>
              r[i] == users[i].(status := Flip(users[i].status))
    ensures forall i :: 0 <= i < |users| && users[i].id != userId ==> r[i] == users[i]
  {
    seq(|users|, i requires 0 <= i < |users| =>
      if users[i].id == userId then users[i].(status := Flip(users[i].status)) else users[i])
  }

  /** Toggling the same user twice restores the list. */
  lemma ToggleTwiceRestores(users: seq<User>, userId: string)
    ensures ToggleStatus(ToggleStatus(users, userId), userId) == users
  {
    var once := ToggleStatus(users, userId);
    var twice := ToggleStatus(once, userId);
    forall i | 0 <= i < |users|
      ensures twice[i] == users[i]
    {
      if users[i].id == userId {
        assert once[i].id == userId;
      }
    }
  }

  /** An unknown id changes nothing. */
  lemma ToggleUnknownIsNoOp(users: seq<User>, userId: string)
    requires forall u :: u in users ==> u.id != userId
    ensures ToggleStatus(users, userId) == users
  {
    var r := ToggleStatus(users, userId);
    forall i | 0 <= i < |users|
      ensures r[i] == users[i]
    {
      assert users[i] in users;
    }
  }

  /** While the status drop-down says "active", deactivating a listed user
      takes that user off the table. */
  lemma DeactivatedLeavesActiveView(users: seq<User>, query: string, role: string, i: nat)
    requires i < |users| && users[i].status == Active
    ensures ToggleStatus(users, users[i].id)[i] !in FilteredUsers(ToggleStatus(users, users[i].id), query, role, "active")
  {
  }

  /** The toggle never changes who is listed while the status drop-down
      says "all". */
  lemma ToggleKeepsAllStatusView(users: seq<User>, userId: string, query: string, role: string, i: nat)
    requires i < |users|
    ensures Matches(ToggleStatus(users, userId)[i], query, role, All) <==> Matches(users[i], query, role, All)
  {
  }

  /** A piece of a split that has a first letter. */
  predicate NonEmpty(w: string) {
    w != []
  }

  /** The pieces that have a first letter, in order. */
  function Words(pieces: seq<string>): (r: seq<string>)
    ensures forall w :: w in r <==> w in pieces && w != []
    ensures forall k :: 0 <= k < |r| ==> r[k] != []
  {
    var r := Filter(pieces, NonEmpty);
    assert forall k :: 0 <= k < |r| ==> r[k] in r;
    r
  }

  /** `name.split(' ').map(n => n[0]).join('')`: the first letter of every
      space-separated word, in order; an empty piece (between two spaces)
      gives `undefined`, which `join` prints as nothing. */
  function Initials(name: string): (r: string)
    ensures |r| == |Words(Split(name, ' '))| <= |Split(name, ' ')|
    ensures forall k :: 0 <= k < |r| ==> r[k] == Words(Split(name, ' '))[k][0]
  {
    FirstLetters(Split(name, ' '))
  }

  /** The first letters of the non-empty words, one each, in order. */
  function FirstLetters(words: seq<string>): (r: string)
    ensures |r| == |Words(words)| <= |words|
    ensures forall k :: 0 <= k < |r| ==> r[k] == Words(words)[k][0]
  {
    if words == [] then []
    else
      var rest := FirstLetters(words[1..]);
      var head := if words[0] == [] then [] else [words[0][0]];
      assert Words(words) == (if words[0] == [] then [] else [words[0]]) + Words(words[1..]);
      head + rest
  }

  /** For non-empty words without spaces, the letters are the words' first
      letters, one each, in order. */
  lemma {:induction false} FirstLettersOfWords(words: seq<string>)
    requires forall k :: 0 <= k < |words| ==> words[k] != []
    ensures |FirstLetters(words)| == |words|
    ensures forall k :: 0 <= k < |words| ==> FirstLetters(words)[k] == words[k][0]
  {
    if words != [] {
      FirstLettersOfWords(words[1..]);
    }
  }

  /** A name made of words joined by single spaces has one initial per
      word: "John Smith" gives "JS". */
  lemma InitialsOfJoinedWords(words: seq<string>)
    requires |words| >= 1
    requires forall k :: 0 <= k < |words| ==> words[k] != [] && ' ' !in words[k]
    ensures |Initials(Join(words, ' '))| == |words|
    ensures forall k :: 0 <= k < |words| ==> Initials(Join(words, ' '))[k] == words[k][0]
  {
    SplitJoin(words, ' ');
    FirstLettersOfWords(words);
  }

  /** The table's state fields. */
  class AdminUsersPage {
    var users: seq<User>
    var searchQuery: string
    var filterRole: string
    var filterStatus: string

    constructor (initial: seq<User>)
      ensures users == initial && searchQuery == "" && filterRole == All && filterStatus == All
    {
      users := initial;
      searchQuery := "";
      filterRole := All;
      filterStatus := All;
    }

    /** The rows shown, and the count in the table's title. */
    function Listed(): (r: seq<User>)
      reads this
      ensures r == FilteredUsers(users, searchQuery, filterRole, filterStatus)
      ensures forall u :: u in r <==> u in users && Matches(u, searchQuery, filterRole, filterStatus)
      ensures IsSubsequence(r, users)
    {
      FilteredKeepsOrder(users, searchQuery, filterRole, filterStatus);
      FilteredUsers(users, searchQuery, filterRole, filterStatus)
    }

    method SetSearchQuery(q: string)
      modifies this
      ensures searchQuery == q && users == old(users)
      ensures filterRole == old(filterRole) && filterStatus == old(filterStatus)
    {
      searchQuery := q;
    }

    method SetFilterRole(role: string)
      modifies this
      ensures filterRole == role && users == old(users)
      ensures searchQuery == old(searchQuery) && filterStatus == old(filterStatus)
    {
      filterRole := role;
    }

    method SetFilterStatus(status: string)
      modifies this
      ensures filterStatus == status && users == old(users)
      ensures searchQuery == old(searchQuery) && filterRole == old(filterRole)
    {
      filterStatus := status;
    }

    method HandleToggleStatus(userId: string)
      modifies this
      ensures users == ToggleStatus(old(users), userId)
      ensures searchQuery == old(searchQuery) && filterRole == old(filterRole) && filterStatus == old(filterStatus)
    {
      users := ToggleStatus(users, userId);
    }
  }
}
