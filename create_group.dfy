// client/src/pages/CreateGroup.jsx: the member toggle and the create-form
// validation, and how the request it sends meets the server's own check.

module CreateGroupPage {
  import opened Common
  import opened Text
  import GroupController

  /**
   * handleToggleMember's updater (CreateGroup.jsx:21-27): a selected id is
   * removed, every occurrence of it; an unselected one is appended at the end.
   */
  function Toggle(prev: seq<UserId>, id: UserId): (r: seq<UserId>)
    ensures id in prev ==> id !in r && forall x :: x != id ==> (x in r <==> x in prev)
    ensures id !in prev ==> r == prev + [id]
    ensures id in r <==> id !in prev
  {
    if id in prev then Without(prev, id) else prev + [id]
  }

  /** No id is selected twice. */
  predicate Distinct(s: seq<UserId>)
  {
    forall i, j :: 0 <= i < j < |s| ==> s[i] != s[j]
  }

  /** Removing every occurrence of an id keeps a list free of repeats. */
  lemma {:induction false} WithoutKeepsDistinct(s: seq<UserId>, v: UserId)
    requires Distinct(s)
    ensures Distinct(Without(s, v))
    decreases |s|
  {
    if s != [] {
      assert Distinct(s[1..]);
      WithoutKeepsDistinct(s[1..], v);
      if s[0] != v {
        var rest := Without(s[1..], v);
        assert s[0] !in s[1..];
        assert s[0] !in rest;
        assert Without(s, v) == [s[0]] + rest;
      }
    }
  }

  /** Toggling keeps the selection free of repeats. */
  lemma ToggleKeepsDistinct(prev: seq<UserId>, id: UserId)
    requires Distinct(prev)
    ensures Distinct(Toggle(prev, id))
  {
    if id in prev {
      WithoutKeepsDistinct(prev, id);
    }
  }

  /** Toggling an unselected id twice gives back the very same list. */
  lemma ToggleTwiceRestoresAbsent(prev: seq<UserId>, id: UserId)
    requires id !in prev
    ensures Toggle(Toggle(prev, id), id) == prev
  {
    WithoutAppended(prev, id);
  }

  /** Removing an id just appended to a list without it gives the list back. */
  lemma {:induction false} WithoutAppended(s: seq<UserId>, v: UserId)
    requires v !in s
    ensures Without(s + [v], v) == s
    decreases |s|
  {
    if s == [] {
      assert [] + [v] == [v];
    } else {
      WithoutAppended(s[1..], v);
      assert (s + [v])[1..] == s[1..] + [v];
      assert s == [s[0]] + s[1..];
    }
  }

  /**
   * Toggling a selected id twice gives back the same selection as a set of
   * members, with that id moved to the end.
   */
  lemma ToggleTwiceRestoresMembers(prev: seq<UserId>, id: UserId)
    requires Distinct(prev) && id in prev
    ensures multiset(Toggle(Toggle(prev, id), id)) == multiset(prev)
    ensures Toggle(Toggle(prev, id), id) == Without(prev, id) + [id]
  {
    var once := Toggle(prev, id);
    assert multiset(prev)[id] == 1 by {
      DistinctCountsOnce(prev, id);
    }
    calc {
      multiset(Toggle(once, id));
      multiset(once + [id]);
      multiset(prev)[id := 0] + multiset{id};
      multiset(prev);
    }
  }

  /** In a list without repeats every member occurs once. */
  lemma {:induction false} DistinctCountsOnce(s: seq<UserId>, v: UserId)
    requires Distinct(s) && v in s
    ensures multiset(s)[v] == 1
    decreases |s|
  {
    assert s == [s[0]] + s[1..];
    assert Distinct(s[1..]);
    if s[0] == v {
      assert v !in s[1..];
    } else {
      DistinctCountsOnce(s[1..], v);
    }
  }

  /** A concrete selection whose order a double toggle does not restore. */
  lemma ToggleTwiceReorders()
    ensures Toggle(Toggle(["a", "b"], "a"), "a") == ["b", "a"]
  {
    assert "a" in ["a", "b"];
    assert Without(["a", "b"], "a") == ["b"];
  }

  /** The body of the create request: the name as typed and the selected members. */
  datatype GroupRequest = GroupRequest(name: string, members: seq<UserId>)

  /**
   * handleCreateGroup's checks (CreateGroup.jsx:29-43): a name that is
   * empty after trimming is refused with "Group name is required", then an
   * empty selection with "Select at least one member"; otherwise the request
   * carries the untrimmed name and the selection as it is.
   */
  function CreateGroupRequest(groupName: string, selected: seq<UserId>): (r: Result<GroupRequest>)
    ensures AllSpace(groupName) ==> r == Fail("Group name is required")
    ensures !AllSpace(groupName) && selected == [] ==> r == Fail("Select at least one member")
    ensures !AllSpace(groupName) && selected != [] ==> r == Ok(GroupRequest(groupName, selected))
  {
    if Trim(groupName) == "" then Fail("Group name is required")
    else if |selected| == 0 then Fail("Select at least one member")
    else Ok(GroupRequest(groupName, selected))
  }

  /**
   * Every request the form lets through passes the server's "Missing group
   * details" check; the converse fails for a name of spaces only.
   */
  lemma ClientCheckImpliesServerCheck(groupName: string, selected: seq<UserId>)
    ensures CreateGroupRequest(groupName, selected).Ok? ==>
      var req := CreateGroupRequest(groupName, selected).value;
      GroupController.HasGroupDetails(req.name, Some(req.members))
    ensures GroupController.HasGroupDetails(" ", Some(selected)) && selected != [] ==>
      CreateGroupRequest(" ", selected).Fail?
  {
    if !AllSpace(groupName) {
      assert groupName != "";
    }
    assert IsSpace(" "[0]);
  }
}
