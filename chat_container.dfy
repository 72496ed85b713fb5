// client/src/components/ChatContainer.jsx: the open conversation, the send
// guards for text and images, message authorship, and the call button.

module ChatContainer {
  import opened Common
  import opened Text
  import opened ChatContext
  import VideoCall
  import Realtime

  /** `selectedChat?.data?._id`, "" when no chat is selected. */
  function ChatId(selected: Option<Selection>): (r: string)
    ensures selected.None? ==> r == ""
    ensures selected.Some? ==> r == selected.value.id
  {
    if selected.None? then "" else selected.value.id
  }

  /**
   * `chatMessages` (ChatContainer.jsx:17-18): the conversation of the
   * selected chat, or nothing when no chat is selected or it has no entry.
   */
  function ChatMessages(selected: Option<Selection>, messages: map<string, seq<ChatMessage>>)
    : (r: seq<ChatMessage>)
    ensures ChatId(selected) != "" && ChatId(selected) in messages ==> r == messages[ChatId(selected)]
    ensures ChatId(selected) == "" || ChatId(selected) !in messages ==> r == []
  {
    var id := ChatId(selected);
    if id != "" && id in messages then messages[id] else []
  }

  /**
   * A message filed under the open chat shows at the bottom of it, after
   * everything it showed before; a message filed elsewhere does not change it.
   */
  lemma IncomingShowsInOpenChat(selected: Option<Selection>, messages: map<string, seq<ChatMessage>>,
                                key: string, n: ChatMessage)
    ensures key == ChatId(selected) && key != "" ==>
      ChatMessages(selected, Appended(messages, key, n)) == ChatMessages(selected, messages) + [n]
    ensures key != ChatId(selected) ==>
      ChatMessages(selected, Appended(messages, key, n)) == ChatMessages(selected, messages)
  {
  }

  /**
   * The payload handleSendMessage passes to sendMessage
   * (ChatContainer.jsx:22-28): none when the trimmed input is empty or no
   * chat is selected; otherwise the trimmed text to the selected chat, with
   * its type.
   */
  function PrepareSend(input: string, selected: Option<Selection>): (r: Option<Outgoing>)
    ensures r.None? <==> AllSpace(input) || ChatId(selected) == ""
    ensures r.Some? ==> r.value == Outgoing(selected.value.id, selected.value.kind, Trim(input), "")
    ensures r.Some? ==> r.value.text != "" && !IsSpace(r.value.text[0]) && !IsSpace(r.value.text[|r.value.text| - 1])
  {
    var text := Trim(input);
    if text == [] || ChatId(selected) == "" then None
    else Some(Outgoing(selected.value.id, selected.value.kind, text, ""))
  }

  /** The message input of the open chat. */
  class Composer {
    var input: string

    constructor ()
      ensures input == ""
    {
      input := "";
    }

    /**
     * handleSendMessage (ChatContainer.jsx:20-30): a guarded-out send changes
     * nothing; otherwise the payload goes to the store's sendMessage and the
     * input is cleared, whether or not the server accepted it.
     */
    method HandleSendMessage(store: ChatStore, response: Option<RawMessage>, now: nat, nowIso: string)
      modifies this`input, store`messages
      ensures PrepareSend(old(input), store.selected).None? ==>
        input == old(input) && store.messages == old(store.messages)
      ensures PrepareSend(old(input), store.selected).Some? ==>
        var out := PrepareSend(old(input), store.selected).value;
        && input == ""
        && (response.None? ==> store.messages == old(store.messages))
        && (response.Some? ==>
              store.messages == Appended(old(store.messages), out.receiverId,
                                         Normalize(response.value, out.kind, now, nowIso).(senderId := store.authUserId)))
    {
      var out := PrepareSend(input, store.selected);
      if out.None? {
        return;
      }
      store.SendMessage(out.value, response, now, nowIso);
      input := "";
    }
  }

  /** What handleSendImage does with the chosen file (ChatContainer.jsx:32-49). */
  datatype ImageSend = NoChat | Rejected(message: string) | SendImage(out: Outgoing)

  /** `file?.type.startsWith("image/")`: the MIME type of the chosen file, None when no file was chosen. */
  predicate IsImage(mime: Option<string>)
  {
    mime.Some? && StartsWith(mime.value, "image/")
  }

  /**
   * handleSendImage: nothing without a chat; a file whose type does not
   * start with "image/" is rejected with "Select a valid image file";
   * otherwise its data URL is sent to the selected chat.
   */
  function PrepareImage(mime: Option<string>, dataUrl: string, selected: Option<Selection>): (r: ImageSend)
    ensures ChatId(selected) == "" <==> r == NoChat
    ensures r.Rejected? <==> ChatId(selected) != "" && !(mime.Some? && exists rest :: mime.value == "image/" + rest)
    ensures r.Rejected? ==> r.message == "Select a valid image file"
    ensures r.SendImage? ==> r.out == Outgoing(selected.value.id, selected.value.kind, "", dataUrl)
  {
    if ChatId(selected) == "" then NoChat
    else if !IsImage(mime) then Rejected("Select a valid image file")
    else SendImage(Outgoing(selected.value.id, selected.value.kind, "", dataUrl))
  }

  /** `msg.senderId || msg.sender?._id`: the author id the view compares, None when both are missing. */
  function Author(m: ChatMessage): (r: Option<UserId>)
    ensures m.senderId != "" ==> r == Some(m.senderId)
    ensures m.senderId == "" ==>
      r == (if m.sender.Some? && m.sender.value.oid != "" then Some(m.sender.value.oid) else None)
  {
    if m.senderId != "" then Some(m.senderId)
    else if m.sender.Some? && m.sender.value.oid != "" then Some(m.sender.value.oid)
    else None
  }

  /** `isMine` (ChatContainer.jsx:115-116): the author is the signed-in user; `auth` is None when signed out. */
  predicate IsMine(m: ChatMessage, auth: Option<UserId>): (r: bool)
    ensures m.senderId != "" ==> (r <==> auth == Some(m.senderId))
    ensures auth.None? ==> (r <==> m.senderId == "" && (m.sender.None? || m.sender.value.oid == ""))
  {
    Author(m) == auth
  }

  /**
   * Every message the store holds names its sender, so a signed-out view
   * shows none as mine, and a message is mine exactly when its normalised
   * sender is the signed-in user.
   */
  lemma MineIffSender(msg: RawMessage, kind: Kind, now: nat, nowIso: string, auth: Option<UserId>)
    ensures var n := Normalize(msg, kind, now, nowIso);
            IsMine(n, auth) <==> auth == Some(n.senderId)
    ensures !IsMine(Normalize(msg, kind, now, nowIso), None)
  {
  }

  /** A message the store appended after a send is shown as the sender's own. */
  lemma SentMessageIsMine(response: RawMessage, kind: Kind, now: nat, nowIso: string, me: UserId)
    requires me != ""
    ensures IsMine(Normalize(response, kind, now, nowIso).(senderId := me), Some(me))
  {
  }

  /**
   * handleStartCall (ChatContainer.jsx:51-56): without a target nothing
   * happens; otherwise the call becomes an outgoing call to the target.
   */
  method HandleStartCall(session: VideoCall.CallSession, targetId: UserId)
    modifies session`call
    ensures targetId == "" ==> session.call == old(session.call)
    ensures targetId != "" ==> session.call == Some(VideoCall.Outgoing(targetId))
  {
    if targetId == "" {
      return;
    }
    session.call := Some(VideoCall.Outgoing(targetId));
  }

  /**
   * The call button, then the effect that starts an outgoing call: with
   * media granted, exactly one call-user signal carrying the offer goes to
   * the chosen user, and the session is in a call.
   */
  method CallFromChat(targetId: UserId, stream: nat, offer: Sdp)
    returns (sent: seq<VideoCall.Emit>, inCall: bool)
    requires targetId != ""
    ensures sent == [VideoCall.Emit(targetId, Realtime.Offer(offer))]
    ensures inCall
  {
    var session := new VideoCall.CallSession();
    HandleStartCall(session, targetId);
    session.StartCall(VideoCall.Granted(stream), offer);
    sent, inCall := session.sent, session.isInCall;
  }
}
