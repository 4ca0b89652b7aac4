/** `POST /api/bookmarks/toggle`: a signed-in user adds or removes a bookmark
    row `(user_id, cv_id)`. The `applicantId` the directory page sends, and so
    the value stored as `cv_id`, is the applicant's profile id (the `id` of a
    directory result), not a CV id. The table is a sequence of rows, which
    allows duplicates as a table without a uniqueness constraint does. */
module Bookmarks {
  import opened Wrappers
  import opened Lists

  datatype Bookmark = Bookmark(userId: string, cvId: string)

  /** The parsed JSON body; an unparsable body is `None` at the call. */
  datatype ToggleRequest = ToggleRequest(applicantId: string, isBookmarked: bool)

  datatype ToggleResponse = Toggled | Unauthorized | Failed

  function Status(r: ToggleResponse): int
  {
    match r
    case Toggled => 200
    case Unauthorized => 401
    case Failed => 500
  }

  function Error(r: ToggleResponse): string
    requires r != Toggled
  {
    match r
    case Unauthorized => "Unauthorized"
    case Failed => "Failed to toggle bookmark"
  }

  /** The rows `.delete().eq("user_id", user).eq("cv_id", id)` keeps. */
  function NotPair(user: string, id: string): Bookmark -> bool
  {
    (b: Bookmark) => !(b.userId == user && b.cvId == id)
  }

  function OwnedBy(user: string): Bookmark -> bool
  {
    (b: Bookmark) => b.userId == user
  }

  function Deleted(rows: seq<Bookmark>, user: string, id: string): (r: seq<Bookmark>)
    ensures |r| <= |rows|
  {
    Filter(rows, NotPair(user, id))
  }

  function Inserted(rows: seq<Bookmark>, user: string, id: string): (r: seq<Bookmark>)
    ensures |r| == |rows| + 1 && r[..|rows|] == rows && r[|rows|] == Bookmark(user, id)
  {
    rows + [Bookmark(user, id)]
  }

  /** The route on a table: the response and the table afterwards.
      `storeFails` says that the delete or insert reported an error, in which
      case the store has not changed the table. */
  function Toggle(rows: seq<Bookmark>, caller: Option<string>, body: Option<ToggleRequest>, storeFails: bool)
    : (r: (ToggleResponse, seq<Bookmark>))
    ensures r.0 == Unauthorized <==> caller.None?
    ensures r.0 == Failed <==> caller.Some? && (body.None? || storeFails)
    ensures r.0 == Toggled <==> caller.Some? && body.Some? && !storeFails
    ensures r.0 != Toggled ==> r.1 == rows
    ensures r.0 == Toggled && body.value.isBookmarked ==> r.1 == Deleted(rows, caller.value, body.value.applicantId)
    ensures r.0 == Toggled && !body.value.isBookmarked ==> r.1 == Inserted(rows, caller.value, body.value.applicantId)
  {
    if caller.None? then (Unauthorized, rows)
    else if body.None? || storeFails then (Failed, rows)
    else if body.value.isBookmarked then (Toggled, Deleted(rows, caller.value, body.value.applicantId))
    else (Toggled, Inserted(rows, caller.value, body.value.applicantId))
  }

  // ---------------------------------------------------------------- properties

  /** The delete removes every copy of the pair and keeps every other row as
      many times as it occurred. */
  lemma DeleteRemovesPair(rows: seq<Bookmark>, user: string, id: string, b: Bookmark)
    ensures Bookmark(user, id) !in Deleted(rows, user, id)
    ensures b != Bookmark(user, id) ==> multiset(Deleted(rows, user, id))[b] == multiset(rows)[b]
  {
    FilterMember(rows, NotPair(user, id), Bookmark(user, id));
    FilterCount(rows, NotPair(user, id), b);
  }

  /** The rows of any other user are the same, in the same order, after a toggle. */
  lemma OtherUsersUntouched(rows: seq<Bookmark>, caller: Option<string>, body: Option<ToggleRequest>,
                            storeFails: bool, other: string)
    requires caller != Some(other)
    ensures Filter(Toggle(rows, caller, body, storeFails).1, OwnedBy(other)) == Filter(rows, OwnedBy(other))
  {
    var r := Toggle(rows, caller, body, storeFails);
    if r.0 == Toggled {
      var u, id := caller.value, body.value.applicantId;
      if body.value.isBookmarked {
        FilterFilter(rows, NotPair(u, id), OwnedBy(other));
      } else {
        FilterConcat(rows, [Bookmark(u, id)], OwnedBy(other));
        assert Filter([Bookmark(u, id)], OwnedBy(other)) == [];
      }
    }
  }

  /** Inserting a pair the table lacks and then deleting it gives back the table. */
  lemma InsertThenDelete(rows: seq<Bookmark>, user: string, id: string)
    requires Bookmark(user, id) !in rows
    ensures Deleted(Inserted(rows, user, id), user, id) == rows
  {
    FilterConcat(rows, [Bookmark(user, id)], NotPair(user, id));
    assert Filter([Bookmark(user, id)], NotPair(user, id)) == [];
    forall i | 0 <= i < |rows|
      ensures NotPair(user, id)(rows[i])
    {
      assert rows[i] in rows;
    }
    FilterKeepsAll(rows, NotPair(user, id));
  }

  /** Deleting twice is deleting once. */
  lemma DeleteIdempotent(rows: seq<Bookmark>, user: string, id: string)
    ensures Deleted(Deleted(rows, user, id), user, id) == Deleted(rows, user, id)
  {
    FilterFilter(rows, NotPair(user, id), NotPair(user, id));
  }

  /** After a successful toggle the pair is in the table exactly when the
      request said it was not bookmarked. */
  lemma ToggleMembership(rows: seq<Bookmark>, user: string, req: ToggleRequest)
    ensures var r := Toggle(rows, Some(user), Some(req), false);
      r.0 == Toggled && (Bookmark(user, req.applicantId) in r.1 <==> !req.isBookmarked)
  {
    DeleteRemovesPair(rows, user, req.applicantId, Bookmark(user, req.applicantId));
    var ins := Inserted(rows, user, req.applicantId);
    assert ins[|rows|] == Bookmark(user, req.applicantId);
  }

  /** Each refusal of the route carries its own status and error body: 401
      "Unauthorized" without a session, and otherwise 500 "Failed to toggle
      bookmark" for an unreadable body or an error from the store. */
  lemma ToggleErrors(rows: seq<Bookmark>, caller: Option<string>, body: Option<ToggleRequest>, storeFails: bool)
    ensures var r := Toggle(rows, caller, body, storeFails).0;
      && (caller.None? ==> Status(r) == 401 && Error(r) == "Unauthorized")
      && (caller.Some? && (body.None? || storeFails) ==> Status(r) == 500 && Error(r) == "Failed to toggle bookmark")
      && (caller.Some? && body.Some? && !storeFails ==> Status(r) == 200)
  {
  }

  // ------------------------------------------------- the directory page's side

  /** `isBookmarked: !isBookmarked`: the flag `handleBookmark` sends, given
      the state the page shows. */
  function ClientFlagAsWritten(shown: bool): bool
  {
    !shown
  }

  /** The flag the route expects: the state being toggled away from. */
  function ClientFlag(shown: bool): bool
  {
    shown
  }

  /** One click on the page: the request, the route on the table, and the state
      the page shows afterwards. `caller` is the session's user and `storeFails`
      the store's error, as for Toggle; the page flips what it shows only when
      the response is ok, and otherwise logs the error and keeps its state. */
  function Click(rows: seq<Bookmark>, caller: Option<string>, id: string, shown: bool, flag: bool, storeFails: bool)
    : (r: (bool, seq<Bookmark>))
    ensures r.1 == Toggle(rows, caller, Some(ToggleRequest(id, flag)), storeFails).1
    ensures r.0 != shown <==> caller.Some? && !storeFails
    ensures caller.None? || storeFails ==> r == (shown, rows)
  {
    var t := Toggle(rows, caller, Some(ToggleRequest(id, flag)), storeFails);
    (if t.0 == Toggled then !shown else shown, t.1)
  }

  /** As written, a first click on an applicant the table does not hold shows
      it as bookmarked while the route deletes instead of inserting: the page
      and the table disagree. */
  lemma ClientFlagAsWrittenDrifts()
    ensures var r := Click([], Some("company-user"), "profile-1", false, ClientFlagAsWritten(false), false);
      r.0 && Bookmark("company-user", "profile-1") !in r.1
  {
    DeleteRemovesPair([], "company-user", "profile-1", Bookmark("company-user", "profile-1"));
  }

  /** With the flag the route expects, a click that starts from agreement
      between page and table ends in agreement, whether the route succeeds
      or fails: the pair is in the table exactly when the page shows it
      bookmarked. */
  lemma ClientFlagKeepsAgreement(rows: seq<Bookmark>, user: string, id: string, shown: bool, storeFails: bool)
    requires Bookmark(user, id) in rows <==> shown
    ensures var r := Click(rows, Some(user), id, shown, ClientFlag(shown), storeFails);
      Bookmark(user, id) in r.1 <==> r.0
  {
    ToggleMembership(rows, user, ToggleRequest(id, shown));
  }

  /** The bookmarks table the route works on. */
  class BookmarkTable {
    var rows: seq<Bookmark>

    constructor (initial: seq<Bookmark>)
      ensures rows == initial
    {
      rows := initial;
    }

    /** `POST`: sign-in check, then the delete or the insert. */
    method HandleToggle(caller: Option<string>, body: Option<ToggleRequest>, storeFails: bool)
      returns (response: ToggleResponse)
      modifies this
      ensures (response, rows) == Toggle(old(rows), caller, body, storeFails)
    {
      if caller.None? {
        return Unauthorized;
      }
      if body.None? {
        return Failed;
      }
      var user, req := caller.value, body.value;
      if storeFails {
        return Failed;
      }
      if req.isBookmarked {
        rows := Filter(rows, NotPair(user, req.applicantId));
      } else {
        rows := rows + [Bookmark(user, req.applicantId)];
      }
      response := Toggled;
    }
  }
}
