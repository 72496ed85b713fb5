// client/src/components/VideoCall.jsx, with the call handlers of
// client/src/context/ChatContext.jsx:136-153 that share its `call` state.
//
// The RTCPeerConnection is abstracted as a record of the peer it talks to,
// its local and remote descriptions and the ICE candidates it has accepted;
// whether `addIceCandidate` accepts a candidate is the oracle `addOk`, and
// `getUserMedia` is the outcome `media`. Socket emits are appended to `sent`.

module VideoCall {
  import opened Common
  import Realtime

  /** The `call` state: `{type: "incoming" | "accepted" | "outgoing", ...}`. */
  datatype CallInfo =
    | Incoming(from: UserId, offer: Sdp)
    | Accepted(from: UserId, answer: Sdp)
    | Outgoing(targetId: UserId)

  /** The peer connection: the remote user it was created for, its descriptions and applied candidates. */
  datatype Peer = Peer(
    remoteId: UserId,
    localDescription: Option<Sdp>,
    remoteDescription: Option<Sdp>,
    applied: seq<Candidate>)

  /** The outcome of `getUserMedia`: a stream handle, or the error it threw. */
  datatype MediaOutcome = Granted(stream: nat) | Denied(reason: string)

  /** One `socket.emit(event, {targetId, ...})` of a call signal. */
  datatype Emit = Emit(targetId: UserId, signal: Realtime.CallSignal)

  /** The candidates of `s` that the peer accepts, in the order of `s`. */
  function Kept(s: seq<Candidate>, ok: Candidate -> bool): (r: seq<Candidate>)
    ensures |r| <= |s|
  {
    if s == [] then []
    else
      var last := s[|s| - 1];
      assert s == s[..|s| - 1] + [last];
      Kept(s[..|s| - 1], ok) + (if ok(last) then [last] else [])
  }

  /** The applied candidates are exactly the queued ones the peer accepts. */
  lemma {:induction false} KeptMembers(s: seq<Candidate>, ok: Candidate -> bool, c: Candidate)
    ensures c in Kept(s, ok) <==> c in s && ok(c)
    decreases |s|
  {
    if s != [] {
      var init, last := s[..|s| - 1], s[|s| - 1];
      KeptMembers(init, ok, c);
      assert s == init + [last];
    }
  }

  /** Offering one more candidate after a queue applies it after the queue's, if accepted. */
  lemma KeptSnoc(s: seq<Candidate>, x: Candidate, ok: Candidate -> bool)
    ensures Kept(s + [x], ok) == Kept(s, ok) + (if ok(x) then [x] else [])
  {
    assert (s + [x])[..|s|] == s;
  }

  /** Flushing a queue in two parts applies what flushing it at once would, in the same order. */
  lemma {:induction false} KeptAppend(s: seq<Candidate>, t: seq<Candidate>, ok: Candidate -> bool)
    ensures Kept(s + t, ok) == Kept(s, ok) + Kept(t, ok)
    decreases |t|
  {
    if t == [] {
      assert s + t == s;
    } else {
      var t', last := t[..|t| - 1], t[|t| - 1];
      var tail := if ok(last) then [last] else [];
      var a, b := Kept(s, ok), Kept(t', ok);
      KeptAppend(s, t', ok);
      assert s + t == (s + t') + [last];
      assert t == t' + [last];
      KeptSnoc(s + t', last, ok);
      KeptSnoc(t', last, ok);
      assert Kept(s + t, ok) == (a + b) + tail;
      assert Kept(t, ok) == b + tail;
      assert (a + b) + tail == a + (b + tail);
    }
  }

  /** When every queued candidate is accepted, all of them are applied, in queue order. */
  lemma {:induction false} KeptAll(s: seq<Candidate>, ok: Candidate -> bool)
    requires forall i :: 0 <= i < |s| ==> ok(s[i])
    ensures Kept(s, ok) == s
    decreases |s|
  {
    if s != [] {
      var init, last := s[..|s| - 1], s[|s| - 1];
      assert forall i :: 0 <= i < |init| ==> init[i] == s[i];
      KeptAll(init, ok);
      assert ok(last);
      assert Kept(s, ok) == Kept(init, ok) + [last];
      assert init + [last] == s;
    }
  }

  /** The component's refs and state, and the signals it has emitted. */
  class CallSession {
    var call: Option<CallInfo>
    var pc: Option<Peer>
    var localStream: Option<nat>
    var queue: seq<Candidate>
    var isInCall: bool
    var sent: seq<Emit>

    /** A peer connection exists and has its remote description. */
    predicate Ready()
      reads this
    {
      pc.Some? && pc.value.remoteDescription.Some?
    }

    /** No call: every ref null, the queue empty, not in a call. */
    predicate Idle()
      reads this
    {
      pc.None? && localStream.None? && queue == [] && call.None? && !isInCall
    }

    constructor ()
      ensures Idle() && sent == []
    {
      call, pc, localStream, queue, isInCall, sent := None, None, None, [], false, [];
    }

    /**
     * flushQueuedCandidates (VideoCall.jsx:71-87): when the peer is ready,
     * every queued candidate is offered to it in queue order, those it
     * rejects are skipped, and the queue is emptied; otherwise nothing
     * changes.
     */
    method FlushQueuedCandidates(addOk: Candidate -> bool)
      modifies this`pc, this`queue
      ensures old(Ready()) ==>
        && pc == Some(old(pc).value.(applied := old(pc).value.applied + Kept(old(queue), addOk)))
        && queue == []
      ensures !old(Ready()) ==> pc == old(pc) && queue == old(queue)
    {
      if pc.Some? && pc.value.remoteDescription.Some? {
        var applied := pc.value.applied;
        for i := 0 to |queue|
          invariant applied == pc.value.applied + Kept(queue[..i], addOk)
        {
          assert queue[..i + 1][..i] == queue[..i];
          if addOk(queue[i]) {
            applied := applied + [queue[i]];
          }
        }
        assert queue[..|queue|] == queue;
        pc := Some(pc.value.(applied := applied));
        queue := [];
      }
    }

    /**
     * The `ice-candidate` handler (VideoCall.jsx:155-170): a ready peer is
     * offered the candidate at once (a rejection is skipped); otherwise the
     * candidate is queued at the end.
     */
    method OnRemoteCandidate(c: Candidate, addOk: Candidate -> bool)
      modifies this`pc, this`queue
      ensures old(Ready()) ==>
        && pc == Some(old(pc).value.(applied := old(pc).value.applied + (if addOk(c) then [c] else [])))
        && queue == old(queue)
      ensures !old(Ready()) ==> pc == old(pc) && queue == old(queue) + [c]
    {
      if pc.Some? && pc.value.remoteDescription.Some? {
        pc := Some(pc.value.(applied := pc.value.applied + (if addOk(c) then [c] else [])));
      } else {
        queue := queue + [c];
      }
    }

    /**
     * `pc.onicecandidate` (VideoCall.jsx:58-65): a local candidate is sent
     * to the user the peer connection was created for, if it has one.
     */
    method OnLocalCandidate(c: Candidate)
      modifies this`sent
      ensures pc.Some? && pc.value.remoteId != "" ==>
        sent == old(sent) + [Emit(pc.value.remoteId, Realtime.Ice(c))]
      ensures !(pc.Some? && pc.value.remoteId != "") ==> sent == old(sent)
    {
      if pc.Some? && pc.value.remoteId != "" {
        sent := sent + [Emit(pc.value.remoteId, Realtime.Ice(c))];
      }
    }

    /**
     * startCall (VideoCall.jsx:90-100): nothing without an outgoing call and
     * its target; a media failure aborts before any peer connection exists;
     * otherwise a peer for the target holds the offer as its local
     * description, call-user carries the offer to the target, and the
     * session is in a call.
     */
    method StartCall(media: MediaOutcome, offer: Sdp)
      modifies this`localStream, this`pc, this`sent, this`isInCall
      ensures (call.None? || !call.value.Outgoing? || call.value.targetId == "" || media.Denied?) ==>
        localStream == old(localStream) && pc == old(pc) && sent == old(sent) && isInCall == old(isInCall)
      ensures call.Some? && call.value.Outgoing? && call.value.targetId != "" && media.Granted? ==>
        && localStream == Some(media.stream)
        && pc == Some(Peer(call.value.targetId, Some(offer), None, []))
        && sent == old(sent) + [Emit(call.value.targetId, Realtime.Offer(offer))]
        && isInCall
    {
      if call.None? || !call.value.Outgoing? || call.value.targetId == "" {
        return;
      }
      if media.Denied? {
        return;
      }
      var target := call.value.targetId;
      localStream := Some(media.stream);
      pc := Some(Peer(target, None, None, []));
      pc := Some(pc.value.(localDescription := Some(offer)));
      sent := sent + [Emit(target, Realtime.Offer(offer))];
      isInCall := true;
    }

    /**
     * acceptCall (VideoCall.jsx:103-115), offered only for an incoming call:
     * a media failure changes nothing; otherwise a peer for the caller takes
     * the held offer as remote description and the answer as local one,
     * answer-call carries the answer to the caller, the session is in a call,
     * and the queued candidates are flushed into the new peer.
     */
    method AcceptCall(media: MediaOutcome, answer: Sdp, addOk: Candidate -> bool)
      requires call.Some? && call.value.Incoming?
      modifies this`localStream, this`pc, this`sent, this`isInCall, this`queue
      ensures media.Denied? ==>
        localStream == old(localStream) && pc == old(pc) && sent == old(sent) &&
        isInCall == old(isInCall) && queue == old(queue)
      ensures media.Granted? ==>
        && localStream == Some(media.stream)
        && pc == Some(Peer(call.value.from, Some(answer), Some(call.value.offer), Kept(old(queue), addOk)))
        && sent == old(sent) + [Emit(call.value.from, Realtime.Answer(answer))]
        && isInCall
        && queue == []
    {
      if media.Denied? {
        return;
      }
      var from, offer := call.value.from, call.value.offer;
      localStream := Some(media.stream);
      pc := Some(Peer(from, None, None, []));
      pc := Some(pc.value.(remoteDescription := Some(offer)));
      pc := Some(pc.value.(localDescription := Some(answer)));
      sent := sent + [Emit(from, Realtime.Answer(answer))];
      isInCall := true;
      FlushQueuedCandidates(addOk);
      assert [] + Kept(old(queue), addOk) == Kept(old(queue), addOk);
    }

    /**
     * endCall (VideoCall.jsx:124-138): whatever the state, the peer and the
     * stream are released, the queue emptied, the call cleared and the
     * session out of a call; a second call finds nothing left to change.
     */
    method EndCall()
      modifies this`pc, this`localStream, this`queue, this`call, this`isInCall
      ensures Idle()
    {
      pc := None;
      localStream := None;
      queue := [];
      call := None;
      isInCall := false;
    }

    /**
     * declineCall (VideoCall.jsx:118-121), offered only for an incoming
     * call: end-call is sent to the caller, then the session ends.
     */
    method DeclineCall()
      requires call.Some? && call.value.Incoming?
      modifies this
      ensures sent == old(sent) + [Emit(old(call).value.from, Realtime.Hangup)]
      ensures Idle()
    {
      sent := sent + [Emit(call.value.from, Realtime.Hangup)];
      EndCall();
    }

    /** The `incoming-call` handlers (ChatContext.jsx:136-138, VideoCall.jsx:144-146). */
    method OnIncomingCall(from: UserId, offer: Sdp)
      modifies this`call
      ensures call == Some(Incoming(from, offer))
    {
      call := Some(Incoming(from, offer));
    }

    /**
     * The `call-accepted` handlers (ChatContext.jsx:140-142, VideoCall.jsx:148-153):
     * the call becomes accepted; if a peer connection exists it takes the
     * answer as remote description and the queue is flushed into it,
     * otherwise the peer side is ignored.
     */
    method OnCallAccepted(from: UserId, answer: Sdp, addOk: Candidate -> bool)
      modifies this`call, this`pc, this`queue
      ensures call == Some(Accepted(from, answer))
      ensures old(pc).None? ==> pc == None && queue == old(queue)
      ensures old(pc).Some? ==>
        && pc == Some(old(pc).value.(remoteDescription := Some(answer),
                                     applied := old(pc).value.applied + Kept(old(queue), addOk)))
        && queue == []
    {
      call := Some(Accepted(from, answer));
      if pc.Some? {
        pc := Some(pc.value.(remoteDescription := Some(answer)));
        FlushQueuedCandidates(addOk);
      }
    }

    /** The `call-ended` handlers (ChatContext.jsx:150-153, VideoCall.jsx:172-175): the session ends. */
    method OnCallEnded()
      modifies this`pc, this`localStream, this`queue, this`call, this`isInCall
      ensures Idle()
    {
      EndCall();
    }
  }

  /**
   * Candidates that arrive before the answer are not lost: queued while the
   * peer has no remote description, they are applied in arrival order by the
   * flush when the answer comes in.
   */
  method QueuedCandidatesSurviveAnswer(c1: Candidate, c2: Candidate, offer: Sdp, answer: Sdp)
    returns (applied: seq<Candidate>)
    ensures applied == [c1, c2]
  {
    var s := new CallSession();
    var accept := (c: Candidate) => true;
    s.call := Some(Outgoing("callee"));
    s.StartCall(Granted(1), offer);
    s.OnRemoteCandidate(c1, accept);
    s.OnRemoteCandidate(c2, accept);
    assert s.queue == [c1, c2];
    s.OnCallAccepted("callee", answer, accept);
    KeptAll([c1, c2], accept);
    applied := s.pc.value.applied;
  }
}
