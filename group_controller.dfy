// server/controllers/groupController.js: the group handlers. A group's
// messages are embedded in its document; the live push of a group message
// goes to the socket.io room named after the group's id.

module GroupController {
  import opened Common
  import opened Records
  import Realtime

  /** The checks of createGroup (groupController.js:14): a name and a non-empty member list. */
  predicate HasGroupDetails(name: string, members: Option<seq<UserId>>): (r: bool)
    ensures !r <==> name == "" || members == None || members == Some([])
  {
    name != "" && members.Some? && |members.value| > 0
  }

  /**
   * The member list createGroup stores (groupController.js:19-21): the given
   * list, with the creator appended at the end unless already present.
   */
  function WithAdmin(members: seq<UserId>, admin: UserId): (r: seq<UserId>)
    ensures admin in r
    ensures forall u :: u in r <==> u in members || u == admin
    ensures admin !in members ==> r == members + [admin]
    ensures admin in members <==> r == members
  {
    if admin in members then members else members + [admin]
  }

  /**
   * createGroup (groupController.js:9-34): a missing name or a missing or
   * empty member list creates nothing; otherwise one group is added, with the
   * creator as admin and as a member, no messages and the default picture.
   */
  method CreateGroup(db: Database, me: UserId, name: string, members: Option<seq<UserId>>,
                     newId: string, now: nat)
    returns (r: Result<Group>)
    modifies db`groups
    ensures !HasGroupDetails(name, members) ==>
      r == Fail("Missing group details") && db.groups == old(db.groups)
    ensures HasGroupDetails(name, members) ==>
      && r == Ok(Group(newId, name, WithAdmin(members.value, me), Some(me), "", [], now))
      && db.groups == old(db.groups) + [r.value]
  {
    if !HasGroupDetails(name, members) {
      return Fail("Missing group details");
    }
    var g := Group(newId, name, WithAdmin(members.value, me), Some(me), "", [], now);
    db.groups := db.groups + [g];
    r := Ok(g);
  }

  /** The groups whose members include `me`, in stored order (`Group.find({members: me})`). */
  function MemberOf(groups: seq<Group>, me: UserId): (r: seq<Group>)
    ensures forall g :: g in r <==> g in groups && me in g.members
    ensures |r| <= |groups|
  {
    if groups == [] then []
    else
      assert groups == [groups[0]] + groups[1..];
      var rest := MemberOf(groups[1..], me);
      if me in groups[0].members then [groups[0]] + rest else rest
  }

  /** `sort({createdAt: -1})` holds: no group is older than a group after it. */
  predicate NewestFirst(s: seq<Group>)
  {
    forall i, j :: 0 <= i < j < |s| ==> s[i].createdAt >= s[j].createdAt
  }

  /** Places `g` before the first group that is not newer than it. */
  function InsertNewestFirst(g: Group, s: seq<Group>): (r: seq<Group>)
    requires NewestFirst(s)
    ensures NewestFirst(r)
    ensures multiset(r) == multiset(s) + multiset{g}
    ensures |r| == |s| + 1
    ensures r[0] == g || (s != [] && r[0] == s[0])
  {
    if s == [] || g.createdAt >= s[0].createdAt then
      [g] + s
    else
      var rest := InsertNewestFirst(g, s[1..]);
      assert s == [s[0]] + s[1..];
      [s[0]] + rest
  }

  /** The groups of `s`, newest first. */
  function SortNewestFirst(s: seq<Group>): (r: seq<Group>)
    ensures NewestFirst(r)
    ensures multiset(r) == multiset(s)
  {
    if s == [] then []
    else
      assert s == [s[0]] + s[1..];
      InsertNewestFirst(s[0], SortNewestFirst(s[1..]))
  }

  /**
   * getMyGroups (groupController.js:39-51): exactly the groups whose member
   * list holds the requester, each as often as stored, newest first.
   */
  function MyGroups(groups: seq<Group>, me: UserId): (r: seq<Group>)
    ensures forall g :: g in r <==> g in groups && me in g.members
    ensures multiset(r) == multiset(MemberOf(groups, me))
    ensures NewestFirst(r)
  {
    var r := SortNewestFirst(MemberOf(groups, me));
    assert forall g :: g in r <==> g in multiset(r);
    r
  }

  /** The group the creator just created is among their groups. */
  lemma CreatedGroupIsMine(groups: seq<Group>, me: UserId, name: string, members: seq<UserId>,
                           newId: string, now: nat)
    ensures Group(newId, name, WithAdmin(members, me), Some(me), "", [], now) in MyGroups(groups + [Group(newId, name, WithAdmin(members, me), Some(me), "", [], now)], me)
  {
  }

  /**
   * sendGroupMessage (groupController.js:55-99): an unknown group fails with
   * "Group not found" and a failed upload fails too, both changing nothing;
   * otherwise the message is appended to that group's messages only and
   * pushed to every connection in the group's room. Membership of the sender
   * is not checked.
   */
  method SendGroupMessage(db: Database, hub: Realtime.Hub, me: UserId, groupId: string,
                          text: string, image: string, upload: Upload, now: nat)
    returns (r: Result<GroupMessage>)
    modifies db`groups, hub`emitted
    ensures FindGroup(old(db.groups), groupId).None? ==>
      r == Fail("Group not found") && db.groups == old(db.groups) && hub.emitted == old(hub.emitted)
    ensures FindGroup(old(db.groups), groupId).Some? && image != "" && upload.UploadFailed? ==>
      r == Fail(upload.message) && db.groups == old(db.groups) && hub.emitted == old(hub.emitted)
    ensures FindGroup(old(db.groups), groupId).Some? && !(image != "" && upload.UploadFailed?) ==>
      var k := FindGroup(old(db.groups), groupId).value;
      var g := old(db.groups)[k];
      && r == Ok(GroupMessage(me, text, StoredImage(image, upload), now, false))
      && db.groups == old(db.groups)[k := g.(messages := g.messages + [r.value])]
      && hub.emitted == old(hub.emitted) +
           [Realtime.Delivery(hub.RoomMembers(groupId),
              Realtime.NewGroupMessage(Realtime.GroupPush(groupId, me, text, StoredImage(image, upload), now, false)))]
  {
    var found := FindGroup(db.groups, groupId);
    if found.None? {
      return Fail("Group not found");
    }
    if image != "" && upload.UploadFailed? {
      return Fail(upload.message);
    }
    var k := found.value;
    var m := GroupMessage(me, text, StoredImage(image, upload), now, false);
    db.groups := db.groups[k := db.groups[k].(messages := db.groups[k].messages + [m])];
    hub.EmitToRoom(groupId, Realtime.NewGroupMessage(Realtime.GroupPush(groupId, me, text, m.image, now, false)));
    r := Ok(m);
  }

  /**
   * getGroupMessages (groupController.js:104-120): the stored messages of the
   * group, in order, for any requester; "Group not found" for an unknown id.
   */
  function GetGroupMessages(groups: seq<Group>, groupId: string): (r: Result<seq<GroupMessage>>)
    ensures r.Fail? <==> forall k :: 0 <= k < |groups| ==> groups[k].id != groupId
    ensures r.Fail? ==> r.message == "Group not found"
    ensures r.Ok? ==> exists k :: 0 <= k < |groups| && groups[k].id == groupId && r.value == groups[k].messages
  {
    match FindGroup(groups, groupId)
    case None => Fail("Group not found")
    case Some(k) => Ok(groups[k].messages)
  }

  /** A message sent to a group is the last one its history then returns. */
  lemma SentMessageIsLast(groups: seq<Group>, groupId: string, m: GroupMessage)
    requires FindGroup(groups, groupId).Some?
    ensures var k := FindGroup(groups, groupId).value;
            var after := groups[k := groups[k].(messages := groups[k].messages + [m])];
            GetGroupMessages(after, groupId) == Ok(groups[k].messages + [m])
  {
    var k := FindGroup(groups, groupId).value;
    var after := groups[k := groups[k].(messages := groups[k].messages + [m])];
    assert forall j :: 0 <= j < k ==> after[j] == groups[j];
    assert after[k].id == groupId;
    var k' := FindGroup(after, groupId).value;
    assert !(k' < k) && !(k < k');
  }

  /**
   * exitGroup (groupController.js:124-144): every occurrence of the requester
   * is pulled from the group's members; an unknown id fails with
   * "Group not found". Nothing else about the group changes.
   */
  method ExitGroup(db: Database, groupId: string, me: UserId) returns (r: Result<Group>)
    modifies db`groups
    ensures FindGroup(old(db.groups), groupId).None? ==>
      r == Fail("Group not found") && db.groups == old(db.groups)
    ensures FindGroup(old(db.groups), groupId).Some? ==>
      var k := FindGroup(old(db.groups), groupId).value;
      && r == Ok(old(db.groups)[k].(members := Without(old(db.groups)[k].members, me)))
      && db.groups == old(db.groups)[k := r.value]
  {
    var found := FindGroup(db.groups, groupId);
    if found.None? {
      return Fail("Group not found");
    }
    var k := found.value;
    var g := db.groups[k].(members := Without(db.groups[k].members, me));
    db.groups := db.groups[k := g];
    r := Ok(g);
  }

  /** After exiting, the group is no longer among the requester's groups, and no one else's membership changes. */
  lemma ExitedGroupIsNotMine(groups: seq<Group>, k: nat, me: UserId, other: UserId)
    requires k < |groups|
    requires other != me
    ensures var g := groups[k].(members := Without(groups[k].members, me));
            g !in MyGroups(groups[k := g], me) &&
            (other in g.members <==> other in groups[k].members)
  {
  }

  /**
   * deleteGroup (groupController.js:148-173): the checks run in order
   * ("Group not found", "Group admin not set", "Not authorized" unless the
   * requester is the admin) and only then is the group removed.
   */
  method DeleteGroup(db: Database, groupId: string, me: UserId) returns (r: Result<string>)
    modifies db`groups
    ensures FindGroup(old(db.groups), groupId).None? ==>
      r == Fail("Group not found") && db.groups == old(db.groups)
    ensures FindGroup(old(db.groups), groupId).Some? ==>
      var k := FindGroup(old(db.groups), groupId).value;
      var g := old(db.groups)[k];
      && (g.admin.None? ==> r == Fail("Group admin not set") && db.groups == old(db.groups))
      && (g.admin.Some? && g.admin.value != me ==> r == Fail("Not authorized") && db.groups == old(db.groups))
      && (g.admin == Some(me) ==> r == Ok("Group deleted") && db.groups == old(db.groups)[..k] + old(db.groups)[k + 1..])
  {
    var found := FindGroup(db.groups, groupId);
    if found.None? {
      return Fail("Group not found");
    }
    var k := found.value;
    var g := db.groups[k];
    if g.admin.None? {
      return Fail("Group admin not set");
    }
    if g.admin.value != me {
      return Fail("Not authorized");
    }
    db.groups := db.groups[..k] + db.groups[k + 1..];
    r := Ok("Group deleted");
  }

  /** The error thrown by `group.admin.toString()` when the group has no admin. */
  const AdminMissingError := "Cannot read properties of undefined (reading 'toString')"

  /**
   * The group after updateGroup's assignments (groupController.js:199-200):
   * the name only when a non-empty one was given, the picture only when an
   * upload produced a URL.
   */
  function Updated(g: Group, name: string, imageUrl: Option<string>): (r: Group)
    ensures r.name == (if name != "" then name else g.name)
    ensures r.profilePic == (if imageUrl.Some? && imageUrl.value != "" then imageUrl.value else g.profilePic)
    ensures r.(name := g.name, profilePic := g.profilePic) == g
  {
    var g1 := if name != "" then g.(name := name) else g;
    if imageUrl.Some? && imageUrl.value != "" then g1.(profilePic := imageUrl.value) else g1
  }

  /** An update that names no field leaves the group as it was. */
  lemma EmptyUpdateChangesNothing(g: Group)
    ensures Updated(g, "", None) == g
  {
  }

  /**
   * updateGroup (groupController.js:177-209): "Group not found"; a group with
   * no admin throws when its admin is read; "Not authorized" unless the
   * requester is the admin; a failed upload changes nothing; otherwise the
   * group is saved with the new name and picture.
   */
  method UpdateGroup(db: Database, groupId: string, me: UserId, name: string, image: string, upload: Upload)
    returns (r: Result<Group>)
    modifies db`groups
    ensures FindGroup(old(db.groups), groupId).None? ==>
      r == Fail("Group not found") && db.groups == old(db.groups)
    ensures FindGroup(old(db.groups), groupId).Some? ==>
      var k := FindGroup(old(db.groups), groupId).value;
      var g := old(db.groups)[k];
      && (g.admin.None? ==> r == Fail(AdminMissingError) && db.groups == old(db.groups))
      && (g.admin.Some? && g.admin.value != me ==> r == Fail("Not authorized") && db.groups == old(db.groups))
      && (g.admin == Some(me) && image != "" && upload.UploadFailed? ==>
            r == Fail(upload.message) && db.groups == old(db.groups))
      && (g.admin == Some(me) && !(image != "" && upload.UploadFailed?) ==>
            r == Ok(Updated(g, name, StoredImage(image, upload))) && db.groups == old(db.groups)[k := r.value])
  {
    var found := FindGroup(db.groups, groupId);
    if found.None? {
      return Fail("Group not found");
    }
    var k := found.value;
    var g := db.groups[k];
    if g.admin.None? {
      return Fail(AdminMissingError);
    }
    if g.admin.value != me {
      return Fail("Not authorized");
    }
    if image != "" && upload.UploadFailed? {
      return Fail(upload.message);
    }
    var g' := Updated(g, name, StoredImage(image, upload));
    db.groups := db.groups[k := g'];
    r := Ok(g');
  }
}
