/**
 * The participant search list of the create-chat dialog
 * (front/src/project/components/create-chat/user-search.component.ts).
 */
module UserSearch {
  import opened Wrappers
  import opened IdLists
  import opened Users

  /** `toUpperCase` on one character, for the ASCII letters. */
  function UpperChar(c: char): (r: char) {
    if 'a' <= c <= 'z' then (c as int - 32) as char else c
  }

  /** `getUserInitials`: nothing for an empty name, else the first two characters (or one) upper-cased. */
  function Initials(username: string): (r: string)
    ensures r == "" <==> username == ""
    ensures |r| == if |username| < 2 then |username| else 2
    ensures forall i :: 0 <= i < |r| ==> r[i] == UpperChar(username[i])
  {
    if username == "" then ""
    else
      var prefix := if |username| < 2 then username else username[..2];
      seq(|prefix|, i requires 0 <= i < |prefix| => UpperChar(prefix[i]))
  }

  /** The characters `String.prototype.trim` removes. */
  predicate IsTrimmedSpace(c: char) {
    || c == ' ' || c == '\t' || c == '\n' || c == '\r' || c == '\U{B}' || c == '\U{C}'
    || c == '\U{A0}' || c == '\U{1680}' || ('\U{2000}' <= c <= '\U{200A}')
    || c == '\U{2028}' || c == '\U{2029}' || c == '\U{202F}' || c == '\U{205F}'
    || c == '\U{3000}' || c == '\U{FEFF}'
  }

  /** `!s.trim()`: the term is empty once trimmed. */
  predicate IsBlank(s: string) {
    forall i :: 0 <= i < |s| ==> IsTrimmedSpace(s[i])
  }

  /**
   * The id list after `toggleUserSelection(id)`: `push` when `indexOf` finds
   * nothing, otherwise `splice` at the found position.
   */
  function Toggle(ids: seq<int>, id: int): (r: seq<int>)
    ensures id !in ids ==> r == ids + [id]
    ensures id in ids ==> r == RemoveFirst(ids, id)
  {
    if IndexOf(ids, id) == -1 then ids + [id] else RemoveFirst(ids, id)
  }

  /**
   * On a duplicate-free list, toggling flips the membership of `id`, leaves
   * every other id's membership alone and keeps the list duplicate-free.
   */
  lemma ToggleFlipsMembership(ids: seq<int>, id: int)
    requires Distinct(ids)
    ensures Distinct(Toggle(ids, id))
    ensures id in Toggle(ids, id) <==> id !in ids
    ensures forall y :: y != id ==> (y in Toggle(ids, id) <==> y in ids)
  {
    if id in ids {
      RemoveAtDistinct(ids, IndexOf(ids, id));
    }
  }

  /** Toggling an absent id twice restores the original list. */
  lemma ToggleTwiceRestores(ids: seq<int>, id: int)
    requires id !in ids
    ensures Toggle(Toggle(ids, id), id) == ids
  {
    assert (ids + [id])[..|ids|] == ids;
  }

  /** The component's state; `selectedUserIds` may be shared with the create-chat dialog. */
  class UserSearchComponent {
    var searchTerm: string
    var searchResults: seq<User>
    var selectedUserIds: IdList
    var isLoading: bool
    var hasSearched: bool
    /** The arrays emitted through `userSelected`, in order (references, as the event passes them). */
    var userSelected: seq<IdList>
    /** The search terms for which `GET /users/?search=` was issued. */
    var searchRequests: seq<string>

    ghost predicate Valid()
      reads this, selectedUserIds
    {
      Distinct(selectedUserIds.ids)
    }

    constructor ()
      ensures Valid()
      ensures searchTerm == "" && searchResults == [] && selectedUserIds.ids == []
      ensures !isLoading && !hasSearched && userSelected == [] && searchRequests == []
      ensures fresh(selectedUserIds)
    {
      searchTerm := "";
      searchResults := [];
      selectedUserIds := new IdList([]);
      isLoading := false;
      hasSearched := false;
      userSelected := [];
      searchRequests := [];
    }

    /** `searchUsers()` up to the request: a blank term changes nothing. */
    method SearchUsers() returns (issued: bool)
      modifies this
      ensures issued <==> !IsBlank(old(searchTerm))
      ensures !issued ==> unchanged(this)
      ensures issued ==>
        && isLoading && hasSearched
        && searchRequests == old(searchRequests) + [searchTerm]
        && searchTerm == old(searchTerm) && searchResults == old(searchResults)
        && selectedUserIds == old(selectedUserIds) && userSelected == old(userSelected)
    {
      if IsBlank(searchTerm) {
        return false;
      }
      isLoading := true;
      hasSearched := true;
      searchRequests := searchRequests + [searchTerm];
      issued := true;
    }

    /**
     * The success callback of the search request: the results without the
     * current user (`currentUserId` is `Number` of the stored `user_id`, `None` for NaN).
     */
    method OnSearchResults(users: seq<User>, currentUserId: Option<int>)
      modifies this`searchResults, this`isLoading
      ensures searchResults == FilterOutId(users, currentUserId)
      ensures !isLoading
    {
      searchResults := FilterOutId(users, currentUserId);
      isLoading := false;
    }

    /** The error callback of the search request. */
    method OnSearchError()
      modifies this`searchResults, this`isLoading
      ensures searchResults == [] && !isLoading
    {
      searchResults := [];
      isLoading := false;
    }

    /** `toggleUserSelection(userId)`: flips the selection in place and emits the same array. */
    method ToggleUserSelection(userId: int)
      requires Valid()
      modifies selectedUserIds, this`userSelected
      ensures Valid()
      ensures selectedUserIds == old(selectedUserIds)
      ensures selectedUserIds.ids == Toggle(old(selectedUserIds.ids), userId)
      ensures userId in selectedUserIds.ids <==> userId !in old(selectedUserIds.ids)
      ensures userSelected == old(userSelected) + [selectedUserIds]
    {
      ToggleFlipsMembership(selectedUserIds.ids, userId);
      var index := IndexOf(selectedUserIds.ids, userId);
      if index == -1 {
        selectedUserIds.ids := selectedUserIds.ids + [userId];
      } else {
        selectedUserIds.ids := RemoveFirst(selectedUserIds.ids, userId);
      }
      userSelected := userSelected + [selectedUserIds];
    }

    /** `isSelected(userId)`: `includes` on the selection. */
    method IsSelected(userId: int) returns (b: bool)
      ensures b <==> exists i :: 0 <= i < |selectedUserIds.ids| && selectedUserIds.ids[i] == userId
    {
      b := userId in selectedUserIds.ids;
    }

    /** `clearSelection()`: a fresh empty array, emitted; the previous array is left as it was. */
    method ClearSelection()
      modifies this`selectedUserIds, this`userSelected
      ensures fresh(selectedUserIds) && selectedUserIds.ids == []
      ensures Valid()
      ensures old(selectedUserIds).ids == old(selectedUserIds.ids)
      ensures userSelected == old(userSelected) + [selectedUserIds]
    {
      selectedUserIds := new IdList([]);
      userSelected := userSelected + [selectedUserIds];
    }
  }
}
