/**
 * The create-chat dialog (front/src/project/components/create-chat/create-chat.component.ts).
 * Its template embeds the user search and binds `userSelected` to
 * `onUserSelected`, so the dialog holds the very array the search mutates.
 */
module CreateChat {
  import opened Wrappers
  import opened IdLists
  import opened Users
  import opened UserSearch

  /** The payload of the `chatCreated` output. */
  datatype ChatRequest = ChatRequest(participants: seq<int>, name: string, isGroup: bool)

  const NoSelectionAlert := "Please select at least one user to chat with"

  /** `list.some(u => u.id === id)`. */
  predicate HasUserWithId(users: seq<User>, id: int) {
    exists k :: 0 <= k < |users| && users[k].id == id
  }

  /** No two users in the list share an id. */
  predicate UniqueIds(users: seq<User>) {
    forall i, j :: 0 <= i < j < |users| ==> users[i].id != users[j].id
  }

  /** Filtering a list with unique ids keeps the ids unique. */
  lemma {:induction false} FilterOutIdUnique(users: seq<User>, id: Option<int>)
    requires UniqueIds(users)
    ensures UniqueIds(FilterOutId(users, id))
  {
    if users != [] {
      FilterOutIdUnique(users[1..], id);
      var rest := FilterOutId(users[1..], id);
      if Some(users[0].id) != id {
        forall k | 0 <= k < |rest| ensures rest[k].id != users[0].id {
          assert rest[k] in users[1..];
        }
      }
    }
  }

  class CreateChatComponent {
    var chatName: string
    var isGroupChat: bool
    var selectedUserIds: IdList
    var selectedUsers: seq<User>
    /** The user ids for which `GET /users/{id}/` was issued, in order. */
    var fetches: seq<int>
    /** What `chatCreated` emitted, in order. */
    var chatCreated: seq<ChatRequest>
    /** The `alert` texts shown. */
    var alerts: seq<string>

    /** The fetched-user list never holds two users with one id. */
    ghost predicate Valid()
      reads this
    {
      UniqueIds(selectedUsers)
    }

    constructor ()
      ensures Valid() && fresh(selectedUserIds)
      ensures chatName == "" && !isGroupChat && selectedUserIds.ids == [] && selectedUsers == []
      ensures fetches == [] && chatCreated == [] && alerts == []
    {
      chatName := "";
      isGroupChat := false;
      selectedUserIds := new IdList([]);
      selectedUsers := [];
      fetches := [];
      chatCreated := [];
      alerts := [];
    }

    /** `onUserSelected(userIds)`: adopt the emitted array (by reference) and reload its users. */
    method OnUserSelected(userIds: IdList)
      modifies this
      ensures Valid()
      ensures selectedUserIds == userIds && selectedUsers == []
      ensures fetches == old(fetches) + userIds.ids
      ensures chatName == old(chatName) && isGroupChat == old(isGroupChat)
      ensures chatCreated == old(chatCreated) && alerts == old(alerts)
    {
      selectedUserIds := userIds;
      LoadSelectedUsersDetails();
    }

    /**
     * `loadSelectedUsersDetails()`: with no ids the list is emptied and
     * nothing is fetched; otherwise the list is emptied and one fetch is
     * issued per id, whose results arrive later through `OnUserFetched`.
     */
    method LoadSelectedUsersDetails()
      modifies this`selectedUsers, this`fetches
      ensures Valid()
      ensures selectedUsers == []
      ensures fetches == old(fetches) + selectedUserIds.ids
    {
      if |selectedUserIds.ids| == 0 {
        selectedUsers := [];
        return;
      }
      fetches := fetches + selectedUserIds.ids;
      selectedUsers := [];
    }

    /** The `next` callback of one user fetch: append unless a user with that id is already listed. */
    method OnUserFetched(user: User)
      requires Valid()
      modifies this`selectedUsers
      ensures Valid()
      ensures HasUserWithId(selectedUsers, user.id)
      ensures selectedUsers == if HasUserWithId(old(selectedUsers), user.id)
                               then old(selectedUsers) else old(selectedUsers) + [user]
    {
      if !HasUserWithId(selectedUsers, user.id) {
        selectedUsers := selectedUsers + [user];
        assert selectedUsers[|selectedUsers| - 1].id == user.id;
      }
    }

    /**
     * `removeUser(userId)`: an id that is not selected changes nothing;
     * otherwise its first occurrence leaves the id array (in place) and every
     * user with that id leaves the fetched list.
     */
    method RemoveUser(userId: int)
      requires Valid()
      modifies selectedUserIds, this`selectedUsers
      ensures Valid()
      ensures userId !in old(selectedUserIds.ids) ==>
        selectedUserIds.ids == old(selectedUserIds.ids) && selectedUsers == old(selectedUsers)
      ensures userId in old(selectedUserIds.ids) ==>
        && selectedUserIds.ids == RemoveFirst(old(selectedUserIds.ids), userId)
        && selectedUsers == FilterOutId(old(selectedUsers), Some(userId))
        && !HasUserWithId(selectedUsers, userId)
    {
      var index := IndexOf(selectedUserIds.ids, userId);
      if index != -1 {
        var users := FilterOutId(selectedUsers, Some(userId));
        FilterOutIdUnique(selectedUsers, Some(userId));
        assert forall k :: 0 <= k < |users| ==> users[k].id != userId by {
          forall k | 0 <= k < |users| ensures users[k].id != userId {
            assert users[k] in users;
          }
        }
        // The two updates are independent; the filter is done first here.
        selectedUsers := users;
        assert Valid();
        selectedUserIds.ids := RemoveFirst(selectedUserIds.ids, userId);
      }
    }

    /** `createChat()`: an empty selection only alerts; otherwise exactly one request is emitted. */
    method CreateChat()
      modifies this`chatCreated, this`alerts
      ensures |selectedUserIds.ids| == 0 ==>
        chatCreated == old(chatCreated) && alerts == old(alerts) + [NoSelectionAlert]
      ensures |selectedUserIds.ids| != 0 ==>
        && chatCreated == old(chatCreated) + [ChatRequest(selectedUserIds.ids, chatName, isGroupChat)]
        && alerts == old(alerts)
    {
      if |selectedUserIds.ids| == 0 {
        alerts := alerts + [NoSelectionAlert];
        return;
      }
      chatCreated := chatCreated + [ChatRequest(selectedUserIds.ids, chatName, isGroupChat)];
    }
  }

  /**
   * The template wiring: toggling a user in the embedded search hands the
   * search's array to the dialog, so removing that user in the dialog also
   * deselects them in the search.
   */
  method SelectThenRemove(search: UserSearchComponent, dialog: CreateChatComponent, userId: int)
    requires search.Valid() && dialog.Valid()
    requires userId !in search.selectedUserIds.ids
    modifies search, search.selectedUserIds, dialog
    ensures dialog.selectedUserIds == search.selectedUserIds
    ensures search.selectedUserIds.ids == old(search.selectedUserIds.ids)
  {
    search.ToggleUserSelection(userId);
    dialog.OnUserSelected(search.userSelected[|search.userSelected| - 1]);
    dialog.RemoveUser(userId);
    ToggleTwiceRestores(old(search.selectedUserIds.ids), userId);
  }
}
