// server/controllers/messageController.js: the direct-message handlers.
// The Message and User collections are the Database's sequences; the live
// push goes through the Hub's registry.

module MessageController {
  import opened Common
  import opened Records
  import Realtime

  /** `User.find({_id: {$ne: me}})`: every user but the requester, in collection order. */
  function OtherUsers(users: seq<User>, me: UserId): (r: seq<User>)
    ensures forall x :: x in r <==> x in users && x.id != me
    ensures |r| <= |users|
  {
    if users == [] then []
    else
      assert users == [users[0]] + users[1..];
      var rest := OtherUsers(users[1..], me);
      if users[0].id != me then [users[0]] + rest else rest
  }

  /** `select("-password")` applied to every user found, in order. */
  function Publics(users: seq<User>): (r: seq<PublicUser>)
    ensures |r| == |users|
    ensures forall i :: 0 <= i < |users| ==> r[i] == Public(users[i])
  {
    seq(|users|, i requires 0 <= i < |users| => Public(users[i]))
  }

  /** The ids of a list of users as the sidebar receives them. */
  function UserIds(users: seq<PublicUser>): set<UserId>
  {
    set x | x in users :: x.id
  }

  /** The sidebar lists, by id, exactly the stored users other than the requester. */
  lemma SidebarIdsAreOthers(users: seq<User>, me: UserId, u: UserId)
    ensures u in UserIds(Publics(OtherUsers(users, me))) <==>
      u != me && exists k :: 0 <= k < |users| && users[k].id == u
  {
    var listed := Publics(OtherUsers(users, me));
    if u in UserIds(listed) {
      var x :| x in listed && x.id == u;
      var i :| 0 <= i < |listed| && listed[i] == x;
      assert OtherUsers(users, me)[i] in users;
    }
    if u != me && exists k :: 0 <= k < |users| && users[k].id == u {
      var k :| 0 <= k < |users| && users[k].id == u;
      assert users[k] in OtherUsers(users, me);
      var i :| 0 <= i < |OtherUsers(users, me)| && OtherUsers(users, me)[i] == users[k];
      assert listed[i] in listed;
    }
  }

  /**
   * `Message.find({senderId: from, receiverId: to, seen: false}).length`: the
   * number of unseen messages from `from` to `to`.
   */
  function UnseenCount(msgs: seq<Message>, from: UserId, to: UserId): (n: nat)
    ensures n <= |msgs|
    ensures n > 0 <==> exists m :: m in msgs && m.senderId == from && m.receiverId == to && !m.seen
  {
    if msgs == [] then 0
    else
      assert msgs == [msgs[0]] + msgs[1..];
      var rest := UnseenCount(msgs[1..], from, to);
      if msgs[0].senderId == from && msgs[0].receiverId == to && !msgs[0].seen then rest + 1 else rest
  }

  /** The count of a concatenation is the sum of the counts: each matching message counts once. */
  lemma {:induction false} UnseenCountAppend(a: seq<Message>, b: seq<Message>, from: UserId, to: UserId)
    ensures UnseenCount(a + b, from, to) == UnseenCount(a, from, to) + UnseenCount(b, from, to)
    decreases |a|
  {
    if a == [] {
      assert a + b == b;
    } else {
      assert (a + b)[0] == a[0];
      assert (a + b)[1..] == a[1..] + b;
      UnseenCountAppend(a[1..], b, from, to);
    }
  }

  /**
   * getUsersForSidebar (messageController.js:8-29): the other users without
   * their password hashes, and a map
   * that has an entry for a listed user exactly when that user has sent the
   * requester an unseen message, holding how many.
   */
  method GetUsersForSidebar(db: Database, me: UserId) returns (users: seq<PublicUser>, unseen: map<UserId, nat>)
    ensures users == Publics(OtherUsers(db.users, me))
    ensures forall u :: u in unseen <==> u in UserIds(users) && UnseenCount(db.messages, u, me) > 0
    ensures forall u :: u in unseen ==> unseen[u] == UnseenCount(db.messages, u, me) && unseen[u] > 0
  {
    users := Publics(OtherUsers(db.users, me));
    unseen := map[];
    var i := 0;
    while i < |users|
      invariant 0 <= i <= |users|
      invariant forall u :: u in unseen <==> u in UserIds(users[..i]) && UnseenCount(db.messages, u, me) > 0
      invariant forall u :: u in unseen ==> unseen[u] == UnseenCount(db.messages, u, me)
    {
      assert users[..i + 1] == users[..i] + [users[i]];
      var n := UnseenCount(db.messages, users[i].id, me);
      if n > 0 {
        unseen := unseen[users[i].id := n];
      }
      i := i + 1;
    }
    assert users[..i] == users;
  }

  /** The message travels between `a` and `b`, in either direction. */
  predicate Between(m: Message, a: UserId, b: UserId)
  {
    (m.senderId == a && m.receiverId == b) || (m.senderId == b && m.receiverId == a)
  }

  /** The `$or` query of getMessages (messageController.js:39-44), in collection order. */
  function Conversation(msgs: seq<Message>, me: UserId, other: UserId): (r: seq<Message>)
    ensures forall m :: m in r <==> m in msgs && Between(m, me, other)
    ensures |r| <= |msgs|
  {
    if msgs == [] then []
    else
      assert msgs == [msgs[0]] + msgs[1..];
      var rest := Conversation(msgs[1..], me, other);
      if Between(msgs[0], me, other) then [msgs[0]] + rest else rest
  }

  /** `Message.updateMany({senderId: from, receiverId: to}, {seen: true})`. */
  function MarkSeen(msgs: seq<Message>, from: UserId, to: UserId): (r: seq<Message>)
    ensures |r| == |msgs|
    ensures forall i :: 0 <= i < |msgs| ==>
      r[i] == if msgs[i].senderId == from && msgs[i].receiverId == to then msgs[i].(seen := true) else msgs[i]
  {
    if msgs == [] then []
    else
      var m := msgs[0];
      [if m.senderId == from && m.receiverId == to then m.(seen := true) else m] + MarkSeen(msgs[1..], from, to)
  }

  /** After the update nothing from `from` to `to` is unseen. */
  lemma NothingUnseenAfterMarkSeen(msgs: seq<Message>, from: UserId, to: UserId)
    ensures UnseenCount(MarkSeen(msgs, from, to), from, to) == 0
  {
    var r := MarkSeen(msgs, from, to);
    forall m | m in r && m.senderId == from && m.receiverId == to ensures m.seen {
      var i :| 0 <= i < |r| && r[i] == m;
    }
  }

  /** Marking one direction of one pair as seen leaves every other pair's unseen count as it was. */
  lemma {:induction false} MarkSeenKeepsOtherCounts(msgs: seq<Message>, from: UserId, to: UserId, x: UserId, y: UserId)
    requires x != from || y != to
    ensures UnseenCount(MarkSeen(msgs, from, to), x, y) == UnseenCount(msgs, x, y)
  {
    if msgs != [] {
      MarkSeenKeepsOtherCounts(msgs[1..], from, to, x, y);
      assert MarkSeen(msgs, from, to)[1..] == MarkSeen(msgs[1..], from, to);
    }
  }

  /**
   * getMessages (messageController.js:33-60): the conversation between the two
   * users as it was read, before the update marks every message from the
   * selected user to the requester as seen.
   */
  method GetMessages(db: Database, me: UserId, selected: UserId) returns (messages: seq<Message>)
    modifies db`messages
    ensures messages == Conversation(old(db.messages), me, selected)
    ensures db.messages == MarkSeen(old(db.messages), selected, me)
  {
    messages := Conversation(db.messages, me, selected);
    db.messages := MarkSeen(db.messages, selected, me);
  }

  /** `findByIdAndUpdate(id, {seen: true})`: the message with that id is seen, every other one unchanged. */
  function SetSeen(msgs: seq<Message>, id: string): (r: seq<Message>)
    ensures |r| == |msgs|
    ensures forall i :: 0 <= i < |msgs| ==> r[i] == if msgs[i].id == id then msgs[i].(seen := true) else msgs[i]
  {
    if msgs == [] then []
    else [if msgs[0].id == id then msgs[0].(seen := true) else msgs[0]] + SetSeen(msgs[1..], id)
  }

  /** Marking a message seen twice is marking it once. */
  lemma SetSeenIdempotent(msgs: seq<Message>, id: string)
    ensures SetSeen(SetSeen(msgs, id), id) == SetSeen(msgs, id)
  {
  }

  /**
   * markMessageAsSeen (messageController.js:63-72): reports success whether or
   * not a message has that id.
   */
  method MarkMessageAsSeen(db: Database, id: string) returns (r: Result<()>)
    modifies db`messages
    ensures db.messages == SetSeen(old(db.messages), id)
    ensures r == Ok(())
  {
    db.messages := SetSeen(db.messages, id);
    r := Ok(());
  }

  /**
   * sendMessage (messageController.js:76-109): a failed upload changes nothing;
   * otherwise one unseen message from the requester to the route's user is
   * stored, and pushed as `newMessage` to the receiver's connection exactly
   * when the receiver is registered.
   */
  method SendMessage(db: Database, hub: Realtime.Hub, me: UserId, receiverId: UserId,
                     text: string, image: string, upload: Upload, newId: string, now: nat)
    returns (r: Result<Message>)
    requires hub.Valid()
    modifies db`messages, hub`emitted
    ensures image != "" && upload.UploadFailed? ==>
      r == Fail(upload.message) && db.messages == old(db.messages) && hub.emitted == old(hub.emitted)
    ensures !(image != "" && upload.UploadFailed?) ==>
      && r == Ok(Message(newId, me, receiverId, text, StoredImage(image, upload), false, now))
      && db.messages == old(db.messages) + [r.value]
      && hub.emitted == old(hub.emitted) +
           (if receiverId in hub.userSocketMap
            then [Realtime.Delivery({hub.userSocketMap[receiverId]}, Realtime.NewMessage(r.value))]
            else [])
  {
    if image != "" && upload.UploadFailed? {
      return Fail(upload.message);
    }
    var m := Message(newId, me, receiverId, text, StoredImage(image, upload), false, now);
    db.messages := db.messages + [m];
    var target := hub.SocketOf(receiverId);
    if target.Some? {
      hub.EmitTo(target.value, Realtime.NewMessage(m));
    }
    r := Ok(m);
  }
}
