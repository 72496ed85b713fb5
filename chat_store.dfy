// client/src/context/ChatContext.jsx and its older copy
// client/context/ChatContext.jsx: the client's reconciliation store. Both
// copies normalise and file messages the same way; the call state of the
// newer copy is modelled with the call session (video_call.dfy).
//
// A message as it arrives from the server is a JSON object whose fields may
// be missing; a missing or empty string field is "" here, a missing nested
// sender is None. `Date.now()` and `new Date().toISOString()` are the
// parameters `now` and `nowIso`.

module ChatContext {
  import opened Common

  /** The `type` of a conversation: "user" (direct) or "group". */
  datatype Kind = Direct | GroupChat

  /** A populated or embedded sender object: its `_id` and its `id`. */
  datatype SenderRef = SenderRef(oid: string, id: string)

  /** A message as received over HTTP or the socket. */
  datatype RawMessage = RawMessage(
    oid: string,
    senderId: string,
    sender: Option<SenderRef>,
    userId: string,
    text: string,
    image: string,
    createdAt: string,
    groupId: string,
    receiverId: string)

  /** A normalised `_id`: the server's id, or the local clock reading used in its place. */
  datatype MsgId = ServerId(oid: string) | LocalClock(ms: nat)

  /** The id is truthy in JavaScript: a non-empty string or a non-zero number. */
  predicate Truthy(id: MsgId)
  {
    match id
    case ServerId(s) => s != ""
    case LocalClock(ms) => ms != 0
  }

  /** The shape normalizeMessage returns. */
  datatype ChatMessage = ChatMessage(
    id: MsgId,
    senderId: UserId,
    text: string,
    image: Option<string>,
    createdAt: string,
    groupId: Option<string>,
    sender: Option<SenderRef>)

  const UnknownSender := "unknown_sender"
  const UnknownGroup := "unknown_group"

  /** The operands of the sender fallback chain, in order; an absent sender contributes two empty operands. */
  function SenderChain(msg: RawMessage): seq<string>
  {
    match msg.sender
    case None => [msg.senderId, "", "", msg.userId]
    case Some(s) => [msg.senderId, s.oid, s.id, msg.userId]
  }

  /**
   * normalizeMessage (src/context/ChatContext.jsx:18-37, context/ChatContext.jsx:17-36).
   * The sender is the first non-empty of senderId, sender._id, sender.id and
   * userId, else "unknown_sender"; a group message's group is the first
   * non-empty of groupId and receiverId, else "unknown_group", and a direct
   * message has none; a missing id is replaced by the clock reading.
   */
  function Normalize(msg: RawMessage, kind: Kind, now: nat, nowIso: string): (r: ChatMessage)
    ensures msg.senderId != "" ==> r.senderId == msg.senderId
    ensures msg.senderId == "" && msg.sender.Some? && msg.sender.value.oid != "" ==>
      r.senderId == msg.sender.value.oid
    ensures msg.senderId == "" && msg.sender.Some? && msg.sender.value.oid == "" && msg.sender.value.id != "" ==>
      r.senderId == msg.sender.value.id
    ensures msg.senderId == "" && (msg.sender.None? || msg.sender.value == SenderRef("", "")) && msg.userId != "" ==>
      r.senderId == msg.userId
    ensures msg.senderId == "" && (msg.sender.None? || msg.sender.value == SenderRef("", "")) && msg.userId == "" ==>
      r.senderId == UnknownSender
    ensures r.senderId != ""
    ensures r.groupId.None? <==> kind == Direct
    ensures kind == GroupChat ==>
      r.groupId == Some(if msg.groupId != "" then msg.groupId
                        else if msg.receiverId != "" then msg.receiverId
                        else UnknownGroup)
    ensures r.id == (if msg.oid != "" then ServerId(msg.oid) else LocalClock(now))
    ensures r.text == msg.text
    ensures r.image.None? <==> msg.image == ""
    ensures r.image.Some? ==> r.image.value == msg.image
    ensures r.createdAt == (if msg.createdAt != "" then msg.createdAt else nowIso)
    ensures r.sender == msg.sender
  {
    var chain := SenderChain(msg);
    var senderId := FirstNonEmpty(chain, UnknownSender);
    assert msg.senderId == "" ==> chain[..1] == [""];
    assert msg.senderId == "" && msg.sender.Some? && msg.sender.value.oid == "" ==> chain[..2] == ["", ""];
    assert AllEmpty(chain[..3]) ==> chain[3] != "" ==> senderId == chain[3];
    var groupChain := [msg.groupId, msg.receiverId];
    assert groupChain[..1] == [msg.groupId];
    ChatMessage(
      if msg.oid != "" then ServerId(msg.oid) else LocalClock(now),
      senderId,
      msg.text,
      if msg.image != "" then Some(msg.image) else None,
      if msg.createdAt != "" then msg.createdAt else nowIso,
      if kind == GroupChat then Some(FirstNonEmpty(groupChain, UnknownGroup)) else None,
      msg.sender)
  }

  /** `(data.messages || []).map(m => normalizeMessage(m, type))`. */
  function NormalizeAll(msgs: seq<RawMessage>, kind: Kind, now: nat, nowIso: string): (r: seq<ChatMessage>)
    ensures |r| == |msgs|
    ensures forall i :: 0 <= i < |msgs| ==> r[i] == Normalize(msgs[i], kind, now, nowIso)
  {
    seq(|msgs|, i requires 0 <= i < |msgs| => Normalize(msgs[i], kind, now, nowIso))
  }

  /**
   * The conversation an incoming message is filed under: its group for a
   * group message, its sender for a direct one ("" stands for a missing key).
   */
  function IncomingKey(n: ChatMessage, kind: Kind): (r: string)
    ensures r != "" && kind == Direct ==> r == n.senderId
    ensures r != "" && kind == GroupChat ==> n.groupId == Some(r)
    ensures r == "" <==> (kind == Direct && n.senderId == "") || (kind == GroupChat && (n.groupId.None? || n.groupId.value == ""))
  {
    match kind
    case GroupChat => if n.groupId.Some? then n.groupId.value else ""
    case Direct => n.senderId
  }

  /** The `if (!key) return` guard of handleIncomingMessage never fires: every normalised message has a key. */
  lemma IncomingKeyNeverEmpty(msg: RawMessage, kind: Kind, now: nat, nowIso: string)
    ensures IncomingKey(Normalize(msg, kind, now, nowIso), kind) != ""
  {
  }

  /**
   * With a running clock, every direct message gets a truthy id, so
   * handleIncomingMessage sends a mark-seen request for each one.
   */
  lemma DirectIdAlwaysTruthy(msg: RawMessage, now: nat, nowIso: string)
    requires now > 0
    ensures Truthy(Normalize(msg, Direct, now, nowIso).id)
  {
  }

  /**
   * `{...prev, [key]: prev[key] ? [...prev[key], x] : [x]}`: `x` appended at
   * the end of the conversation under `key`, every other conversation as it was.
   */
  function Appended(messages: map<string, seq<ChatMessage>>, key: string, x: ChatMessage)
    : (r: map<string, seq<ChatMessage>>)
    ensures r.Keys == messages.Keys + {key}
    ensures r[key] == (if key in messages then messages[key] else []) + [x]
    ensures forall k :: k in messages && k != key ==> r[k] == messages[k]
  {
    messages[key := if key in messages then messages[key] + [x] else [x]]
  }

  /** The number of unseen messages recorded for `key`, an absent entry counting as 0. */
  function Unseen(unseen: map<string, nat>, key: string): nat
  {
    if key in unseen then unseen[key] else 0
  }

  /** `{...prev, [key]: prev[key] ? prev[key] + 1 : 1}`: one more unseen message under `key` only. */
  function Bumped(unseen: map<string, nat>, key: string): (r: map<string, nat>)
    ensures r.Keys == unseen.Keys + {key}
    ensures Unseen(r, key) == Unseen(unseen, key) + 1
    ensures forall k :: k != key ==> Unseen(r, k) == Unseen(unseen, k)
    ensures forall k :: k in unseen && k != key ==> r[k] == unseen[k]
  {
    unseen[key := if key in unseen && unseen[key] != 0 then unseen[key] + 1 else 1]
  }

  /** `n` incoming messages under `key` add `n` to its count and leave every other count alone. */
  function BumpedTimes(unseen: map<string, nat>, key: string, n: nat): (r: map<string, nat>)
    ensures Unseen(r, key) == Unseen(unseen, key) + n
    ensures forall k :: k != key ==> Unseen(r, k) == Unseen(unseen, k)
  {
    if n == 0 then unseen else Bumped(BumpedTimes(unseen, key, n - 1), key)
  }

  /** The selected chat: its `type` and `data._id`. */
  datatype Selection = Selection(kind: Kind, id: string)

  /** The payload handed to sendMessage. */
  datatype Outgoing = Outgoing(receiverId: string, kind: Kind, text: string, image: string)

  /**
   * The store's state: the conversations by id, the unseen counters, the
   * selected chat, and the signed-in user's id.
   */
  class ChatStore {
    const authUserId: UserId
    var messages: map<string, seq<ChatMessage>>
    var unseen: map<string, nat>
    var selected: Option<Selection>

    /** `useState({})`, `useState({})`, `useState(null)`. */
    constructor (authUserId: UserId)
      ensures this.authUserId == authUserId
      ensures messages == map[] && unseen == map[] && selected == None
    {
      this.authUserId := authUserId;
      messages, unseen, selected := map[], map[], None;
    }

    /**
     * getMessages (src/context/ChatContext.jsx:53-70, context/ChatContext.jsx:52-69):
     * with a chat id and a successful fetch, the conversation under `chatId`
     * is replaced by the normalised fetch result, whatever it held before;
     * every other conversation is unchanged. `fetched` is None when the
     * request failed or the server answered with `success: false`.
     */
    method GetMessages(chatId: string, kind: Kind, fetched: Option<seq<RawMessage>>, now: nat, nowIso: string)
      modifies this`messages
      ensures chatId == "" || fetched.None? ==> messages == old(messages)
      ensures chatId != "" && fetched.Some? ==>
        messages == old(messages)[chatId := NormalizeAll(fetched.value, kind, now, nowIso)]
    {
      if chatId == "" {
        return;
      }
      if fetched.Some? {
        messages := messages[chatId := NormalizeAll(fetched.value, kind, now, nowIso)];
      }
    }

    /**
     * sendMessage (src/context/ChatContext.jsx:73-100, context/ChatContext.jsx:72-99):
     * nothing happens without a receiver or when the server refuses; otherwise
     * the server's copy, normalised and with its sender forced to the signed-in
     * user, is appended to the receiver's conversation. `response` is the
     * returned `newMessage`, or None on failure.
     */
    method SendMessage(out: Outgoing, response: Option<RawMessage>, now: nat, nowIso: string)
      modifies this`messages
      ensures out.receiverId == "" || response.None? ==> messages == old(messages)
      ensures out.receiverId != "" && response.Some? ==>
        messages == Appended(old(messages), out.receiverId,
                             Normalize(response.value, out.kind, now, nowIso).(senderId := authUserId))
    {
      if out.receiverId == "" {
        return;
      }
      if response.Some? {
        var n := Normalize(response.value, out.kind, now, nowIso).(senderId := authUserId);
        messages := Appended(messages, out.receiverId, n);
      }
    }

    /**
     * handleIncomingMessage (src/context/ChatContext.jsx:103-128,
     * context/ChatContext.jsx:102-127): a null message is ignored; otherwise it
     * is appended to the conversation of its key, a mark-seen request is
     * returned for every direct message with a truthy id (whether or not its
     * conversation is open), and the key's unseen counter goes up by one
     * exactly when no chat is selected or the selected chat has another id.
     */
    method HandleIncomingMessage(msg: Option<RawMessage>, kind: Kind, now: nat, nowIso: string)
      returns (markSeen: Option<MsgId>)
      modifies this`messages, this`unseen
      ensures msg.None? ==> messages == old(messages) && unseen == old(unseen) && markSeen == None
      ensures msg.Some? ==>
        var n := Normalize(msg.value, kind, now, nowIso);
        var key := IncomingKey(n, kind);
        && messages == Appended(old(messages), key, n)
        && markSeen == (if kind == Direct && Truthy(n.id) then Some(n.id) else None)
        && unseen == (if selected.None? || selected.value.id != key then Bumped(old(unseen), key) else old(unseen))
    {
      if msg.None? {
        return None;
      }
      var n := Normalize(msg.value, kind, now, nowIso);
      var key := IncomingKey(n, kind);
      IncomingKeyNeverEmpty(msg.value, kind, now, nowIso);
      messages := Appended(messages, key, n);
      markSeen := if kind == Direct && Truthy(n.id) then Some(n.id) else None;
      if selected.None? || selected.value.id != key {
        unseen := Bumped(unseen, key);
      }
    }
  }
}
