// client/src/components/Sidebar.jsx: the user search, chat selection with
// its unseen reset, the unread badge and group deletion.

module Sidebar {
  import opened Common
  import opened Text
  import opened ChatContext

  /** A user as the sidebar lists it. */
  datatype Contact = Contact(id: UserId, fullName: string)

  /** `user.fullName.toLowerCase().includes(input.toLowerCase())`. */
  predicate Matches(u: Contact, input: string)
  {
    Contains(ToLower(u.fullName), ToLower(input))
  }

  /** The users whose name matches a non-empty `input`, in list order. */
  function MatchingUsers(users: seq<Contact>, input: string): (r: seq<Contact>)
    ensures |r| <= |users|
  {
    if users == [] then []
    else
      var rest := MatchingUsers(users[1..], input);
      if Matches(users[0], input) then [users[0]] + rest else rest
  }

  /** A user is listed by the search exactly when they are in the list and match. */
  lemma {:induction false} MatchingMembers(users: seq<Contact>, input: string, u: Contact)
    ensures u in MatchingUsers(users, input) <==> u in users && Matches(u, input)
    decreases |users|
  {
    if users != [] {
      MatchingMembers(users[1..], input, u);
      assert users == [users[0]] + users[1..];
    }
  }

  /**
   * `filteredUsers` (Sidebar.jsx:25-29): an empty search shows every user
   * unchanged; any other search shows exactly the users whose lower-cased
   * name contains the lower-cased input.
   */
  function FilteredUsers(users: seq<Contact>, input: string): (r: seq<Contact>)
    ensures input == "" ==> r == users
    ensures input != "" ==> forall u :: u in r <==> u in users && Matches(u, input)
  {
    if input == "" then users
    else
      forall u ensures u in MatchingUsers(users, input) <==> u in users && Matches(u, input) {
        MatchingMembers(users, input, u);
      }
      MatchingUsers(users, input)
  }

  /** The filter keeps list order: filtering a concatenation concatenates the filtered parts. */
  lemma FilterKeepsOrder(a: seq<Contact>, b: seq<Contact>, input: string)
    ensures FilteredUsers(a + b, input) == FilteredUsers(a, input) + FilteredUsers(b, input)
  {
    if input != "" {
      MatchingAppend(a, b, input);
    }
  }

  /** The search over a list is the search over its first user followed by the search over the rest. */
  lemma MatchingCons(u: Contact, rest: seq<Contact>, input: string)
    ensures MatchingUsers([u] + rest, input) == (if Matches(u, input) then [u] else []) + MatchingUsers(rest, input)
  {
    assert ([u] + rest)[1..] == rest;
  }

  /** The search over a concatenation is the two searches concatenated. */
  lemma {:induction false} MatchingAppend(a: seq<Contact>, b: seq<Contact>, input: string)
    ensures MatchingUsers(a + b, input) == MatchingUsers(a, input) + MatchingUsers(b, input)
    decreases |a|
  {
    if a == [] {
      assert a + b == b;
    } else {
      var head := if Matches(a[0], input) then [a[0]] else [];
      var x, y := MatchingUsers(a[1..], input), MatchingUsers(b, input);
      MatchingAppend(a[1..], b, input);
      assert a + b == [a[0]] + (a[1..] + b);
      assert a == [a[0]] + a[1..];
      MatchingCons(a[0], a[1..] + b, input);
      MatchingCons(a[0], a[1..], input);
      assert head + (x + y) == (head + x) + y;
    }
  }

  /** Letter case in the search does not matter. */
  lemma SearchIgnoresCase(users: seq<Contact>, input: string)
    ensures FilteredUsers(users, ToLower(input)) == FilteredUsers(users, input)
  {
    ToLowerIdempotent(input);
    MatchingSameInput(users, ToLower(input), input);
  }

  /** Two inputs that lower-case alike filter alike. */
  lemma {:induction false} MatchingSameInput(users: seq<Contact>, x: string, y: string)
    requires ToLower(x) == ToLower(y)
    ensures MatchingUsers(users, x) == MatchingUsers(users, y)
    decreases |users|
  {
    if users != [] {
      MatchingSameInput(users[1..], x, y);
    }
  }

  /**
   * Selecting a user (Sidebar.jsx:177-180): the user becomes the selected
   * chat and their unseen counter is reset to 0; no other counter changes.
   */
  method SelectUser(store: ChatStore, id: UserId)
    modifies store`selected, store`unseen
    ensures store.selected == Some(Selection(Direct, id))
    ensures store.unseen == old(store.unseen)[id := 0]
  {
    store.selected := Some(Selection(Direct, id));
    store.unseen := store.unseen[id := 0];
  }

  /** Selecting a group (Sidebar.jsx:136): it becomes the selected chat; the counters are untouched. */
  method SelectGroup(store: ChatStore, id: string)
    modifies store`selected
    ensures store.selected == Some(Selection(GroupChat, id))
  {
    store.selected := Some(Selection(GroupChat, id));
  }

  /** The unread badge (Sidebar.jsx:206) shows exactly when the user's counter is positive. */
  function ShowsBadge(unseen: map<string, nat>, id: UserId): (r: bool)
    ensures r <==> Unseen(unseen, id) > 0
  {
    id in unseen && unseen[id] > 0
  }

  /**
   * A direct message from a user whose chat is not open raises their badge;
   * selecting them clears it, whatever the count was.
   */
  lemma BadgeRaisedThenCleared(unseen: map<string, nat>, id: UserId)
    ensures ShowsBadge(Bumped(unseen, id), id)
    ensures !ShowsBadge(Bumped(unseen, id)[id := 0], id)
  {
  }

  /** The DELETE request the sidebar sends, with the token it authenticates with. */
  datatype DeleteRequest = DeleteRequest(groupId: string, token: string)

  /**
   * handleDeleteGroup (Sidebar.jsx:33-59): with no token in the context or in
   * storage nothing is sent; nothing is sent unless the user confirms; when
   * the server reports success, the selection is cleared, whichever chat it
   * was. `succeeded` is the server's answer to the request.
   */
  method HandleDeleteGroup(store: ChatStore, groupId: string, token: string, storedToken: string,
                           confirmed: bool, succeeded: bool)
    returns (request: Option<DeleteRequest>)
    modifies store`selected
    ensures token == "" && storedToken == "" ==> request == None && store.selected == old(store.selected)
    ensures (token != "" || storedToken != "") && !confirmed ==>
      request == None && store.selected == old(store.selected)
    ensures (token != "" || storedToken != "") && confirmed ==>
      && request == Some(DeleteRequest(groupId, if token != "" then token else storedToken))
      && store.selected == (if succeeded then None else old(store.selected))
  {
    var authToken := if token != "" then token else storedToken;
    if authToken == "" {
      return None;
    }
    if !confirmed {
      return None;
    }
    request := Some(DeleteRequest(groupId, authToken));
    if succeeded {
      store.selected := None;
    }
  }
}
