// The three MongoDB collections of the server (server/models/*.js), held in
// memory. A document's ObjectId is a string; an absent optional string
// field is "".

module Records {
  import opened Common

  /** A document of the User collection; `profilePic` defaults to "". */
  datatype User = User(
    id: UserId,
    email: string,
    fullName: string,
    password: string,
    bio: string,
    profilePic: string)

  /** A user as `select("-password")` returns it: every field but the password hash. */
  datatype PublicUser = PublicUser(
    id: UserId,
    email: string,
    fullName: string,
    bio: string,
    profilePic: string)

  /** The projection that drops the password hash. */
  function Public(u: User): PublicUser
  {
    PublicUser(u.id, u.email, u.fullName, u.bio, u.profilePic)
  }

  /** A document of the Message collection (a direct message); `seen` defaults to false. */
  datatype Message = Message(
    id: string,
    senderId: UserId,
    receiverId: UserId,
    text: string,
    image: Option<string>,
    seen: bool,
    createdAt: nat)

  /** An entry of a group's embedded `messages` array. */
  datatype GroupMessage = GroupMessage(
    sender: UserId,
    text: string,
    image: Option<string>,
    createdAt: nat,
    seen: bool)

  /**
   * A document of the Group collection. The schema requires `admin`, but the
   * controllers still test for its absence, so it is optional here.
   */
  datatype Group = Group(
    id: string,
    name: string,
    members: seq<UserId>,
    admin: Option<UserId>,
    profilePic: string,
    messages: seq<GroupMessage>,
    createdAt: nat)

  /** The outcome of a cloudinary upload: the secure URL, or the error thrown. */
  datatype Upload = Uploaded(secureUrl: string) | UploadFailed(message: string)

  /** The image URL a handler stores: the upload's URL when an image was sent, otherwise none. */
  function StoredImage(image: string, upload: Upload): (r: Option<string>)
    ensures r.Some? <==> image != "" && upload.Uploaded?
    ensures r.Some? ==> r.value == upload.secureUrl
  {
    if image != "" && upload.Uploaded? then Some(upload.secureUrl) else None
  }

  /** The database: each collection in insertion order. */
  class Database {
    var users: seq<User>
    var messages: seq<Message>
    var groups: seq<Group>

    constructor ()
      ensures users == [] && messages == [] && groups == []
    {
      users, messages, groups := [], [], [];
    }
  }

  /**
   * The first document a query whose filter is `p` finds: the index of the
   * first element satisfying `p`, None exactly when none does.
   */
  function FirstIndex<T>(s: seq<T>, p: T -> bool): (r: Option<nat>)
    ensures r.None? <==> forall k :: 0 <= k < |s| ==> !p(s[k])
    ensures r.Some? ==> r.value < |s| && p(s[r.value]) && forall k :: 0 <= k < r.value ==> !p(s[k])
  {
    if s == [] then None
    else if p(s[0]) then Some(0)
    else
      match FirstIndex(s[1..], p)
      case None =>
        assert forall k :: 1 <= k < |s| ==> s[k] == s[1..][k - 1];
        None
      case Some(k) => Some(k + 1)
  }

  /** `Group.findById(id)`: the group with that id. */
  function FindGroup(groups: seq<Group>, id: string): (r: Option<nat>)
    ensures r.None? <==> forall k :: 0 <= k < |groups| ==> groups[k].id != id
    ensures r.Some? ==> r.value < |groups| && groups[r.value].id == id &&
                        forall k :: 0 <= k < r.value ==> groups[k].id != id
  {
    FirstIndex(groups, (g: Group) => g.id == id)
  }

  /** `User.findOne({email})`: the first user with that email. */
  function FindUserByEmail(users: seq<User>, email: string): (r: Option<nat>)
    ensures r.None? <==> forall k :: 0 <= k < |users| ==> users[k].email != email
    ensures r.Some? ==> r.value < |users| && users[r.value].email == email &&
                        forall k :: 0 <= k < r.value ==> users[k].email != email
  {
    FirstIndex(users, (u: User) => u.email == email)
  }

  /** `User.findById(id)`: the user with that id. */
  function FindUserById(users: seq<User>, id: UserId): (r: Option<nat>)
    ensures r.None? <==> forall k :: 0 <= k < |users| ==> users[k].id != id
    ensures r.Some? ==> r.value < |users| && users[r.value].id == id &&
                        forall k :: 0 <= k < r.value ==> users[k].id != id
  {
    FirstIndex(users, (u: User) => u.id == id)
  }
}
