/** The call page of `src/pages/index.tsx`: the references it keeps to the
    peer connection and the media streams, and the handlers that change them
    and emit socket messages. */
module CallController {
  import opened Protocol
  import opened Browser
  import opened Text

  // ---------------------------------------------------------------------
  // Track attachment

  /** At most one sender per media kind. */
  predicate OnePerKind(senders: seq<MediaKind>) {
    forall i, j :: 0 <= i < j < |senders| ==> senders[i] != senders[j]
  }

  /** The senders after the page's track-attach loop: going through the
      local tracks in order, a track whose kind already has a sender is
      skipped, any other gets a new sender. */
  function Attach(senders: seq<MediaKind>, kinds: seq<MediaKind>): seq<MediaKind>
    decreases |kinds|
  {
    if kinds == [] then senders
    else Attach(if kinds[0] in senders then senders else senders + [kinds[0]], kinds[1..])
  }

  /** Existing senders are kept, in place; new ones are for local kinds. */
  lemma {:induction false} AttachExtends(senders: seq<MediaKind>, kinds: seq<MediaKind>)
    ensures |Attach(senders, kinds)| >= |senders|
    ensures Attach(senders, kinds)[..|senders|] == senders
    ensures forall k :: k in Attach(senders, kinds) ==> k in senders || k in kinds
    decreases |kinds|
  {
    if kinds != [] {
      var next := if kinds[0] in senders then senders else senders + [kinds[0]];
      AttachExtends(next, kinds[1..]);
      assert Attach(senders, kinds)[..|senders|] == Attach(next, kinds[1..])[..|next|][..|senders|];
    }
  }

  /** After the loop every local track's kind has a sender. */
  lemma {:induction false} AttachCovers(senders: seq<MediaKind>, kinds: seq<MediaKind>)
    ensures forall k :: k in kinds ==> k in Attach(senders, kinds)
    decreases |kinds|
  {
    if kinds != [] {
      var next := if kinds[0] in senders then senders else senders + [kinds[0]];
      AttachCovers(next, kinds[1..]);
      AttachExtends(next, kinds[1..]);
      assert kinds[0] in Attach(next, kinds[1..])[..|next|];
      assert forall k :: k in kinds ==> k == kinds[0] || k in kinds[1..];
    }
  }

  /** The loop never creates a second sender for a kind. */
  lemma {:induction false} AttachKeepsOnePerKind(senders: seq<MediaKind>, kinds: seq<MediaKind>)
    requires OnePerKind(senders)
    ensures OnePerKind(Attach(senders, kinds))
    decreases |kinds|
  {
    if kinds != [] {
      var next := if kinds[0] in senders then senders else senders + [kinds[0]];
      AttachKeepsOnePerKind(next, kinds[1..]);
    }
  }

  /** When every local kind already has a sender, the loop adds nothing. */
  lemma {:induction false} AttachCoveredIsNoop(senders: seq<MediaKind>, kinds: seq<MediaKind>)
    requires forall k :: k in kinds ==> k in senders
    ensures Attach(senders, kinds) == senders
    decreases |kinds|
  {
    if kinds != [] {
      assert kinds[0] in kinds;
      AttachCoveredIsNoop(senders, kinds[1..]);
    }
  }

  /** Running the loop again over the same tracks adds nothing. */
  lemma AttachTwiceIsOnce(senders: seq<MediaKind>, kinds: seq<MediaKind>)
    ensures Attach(Attach(senders, kinds), kinds) == Attach(senders, kinds)
  {
    AttachCovers(senders, kinds);
    AttachCoveredIsNoop(Attach(senders, kinds), kinds);
  }

  // ---------------------------------------------------------------------
  // ICE connection state

  datatype IceConnectionState = New | Checking | Connected | Completed | Failed | Disconnected | Closed

  /** `RTCPeerConnection.iceConnectionState` as the browser spells it. */
  function StateName(state: IceConnectionState): string {
    match state
    case New => "new"
    case Checking => "checking"
    case Connected => "connected"
    case Completed => "completed"
    case Failed => "failed"
    case Disconnected => "disconnected"
    case Closed => "closed"
  }

  const ConnectedStatus := "Connected successfully!"
  const RetryingStatus := "Connection failed - retrying..."
  const LostStatus := "Connection lost"

  /** The status the `oniceconnectionstatechange` handler leaves behind. */
  function IceStatus(state: IceConnectionState): string {
    if state == Connected || state == Completed then ConnectedStatus
    else if state == Failed then RetryingStatus
    else if state == Disconnected then LostStatus
    else "ICE connection: " + StateName(state)
  }

  /** The status tells the state apart, except that `connected` and
      `completed` are both reported as connected. */
  lemma IceStatusDistinguishes(a: IceConnectionState, b: IceConnectionState)
    requires IceStatus(a) == IceStatus(b)
    ensures a == b || ({a, b} <= {Connected, Completed})
  {
    var prefix := "ICE connection: ";
    assert ConnectedStatus[0] == 'C' && RetryingStatus[0] == 'C' && LostStatus[0] == 'C';
    assert ConnectedStatus[8] != RetryingStatus[8] && ConnectedStatus[8] != LostStatus[8];
    assert RetryingStatus[11] != LostStatus[11];
    if IceStatus(a)[0] == 'I' {
      assert IceStatus(a)[|prefix|..] == StateName(a);
      assert IceStatus(b)[|prefix|..] == StateName(b);
    }
  }

  /** Only `connected` and `completed` are reported as a success. */
  lemma IceStatusConnectedIff(state: IceConnectionState)
    ensures IceStatus(state) == ConnectedStatus <==> state == Connected || state == Completed
  {
    if IceStatus(state) == ConnectedStatus {
      IceStatusDistinguishes(state, Connected);
    }
  }

  // ---------------------------------------------------------------------
  // The page

  /** The outcome `getUserMedia` would have if the page asked now. */
  datatype MediaAccess = Granted(kinds: seq<MediaKind>) | Denied(message: string)

  /** The identity of an inbound (remote) MediaStream. */
  type StreamId = nat

  const IdleStatus := "Idle"
  const MediaErrorStatus := "Error accessing camera/microphone"
  const JoinErrorStatus := "Error joining room"
  const LeftStatus := "Left room."
  const OfferSentStatus := "Offer sent. Waiting for answer\U{2026}"
  const InvalidOfferStatus := "Error: Invalid offer received"
  const AnswerSentStatus := "Answer sent."
  const AnswerReceivedStatus := "Answer received. Connection establishing..."
  /** The message of the InvalidStateError `addIceCandidate` rejects with
      when no remote description is set. */
  const NoRemoteDescriptionMessage := "The remote description was null"

  function JoinedStatus(roomId: string): string {
    "Joined room " + roomId + ". Share this ID with your peer."
  }

  function SignalingErrorStatus(message: string): string {
    "Error during signaling: " + message
  }

  function StartCallErrorStatus(message: string): string {
    "Error starting call: " + message
  }

  class Page {
    var roomId: string
    var joined: bool
    var status: string
    var pc: PeerConnection?
    var localStream: MediaStream?
    var remoteStream: Option<StreamId>
    /** Every message emitted on the socket, oldest first. */
    var outbox: seq<ClientMessage>
    /** How many times `getUserMedia` was called. */
    var mediaRequests: nat

    /** A held peer connection is open, still has the page's handlers and
        at most one sender per kind; a held local stream has no stopped
        track. */
    ghost predicate Valid()
      reads this, pc, localStream
    {
      && (pc != null ==> !pc.closed && pc.handlersAttached && OnePerKind(pc.senders))
      && (localStream != null ==> forall i :: 0 <= i < |localStream.tracks| ==> !localStream.tracks[i].stopped)
    }

    constructor ()
      ensures Valid()
      ensures roomId == "" && !joined && status == IdleStatus
      ensures pc == null && localStream == null && remoteStream == None
      ensures outbox == [] && mediaRequests == 0
    {
      roomId, joined, status := "", false, IdleStatus;
      pc, localStream, remoteStream := null, null, None;
      outbox, mediaRequests := [], 0;
    }

    /** `ensureLocalStream`: asks for camera and microphone only when no
        stream is held, caches what it gets, and reports a refusal. */
    method EnsureLocalStream(media: MediaAccess) returns (failure: Option<string>)
      requires Valid()
      modifies this
      ensures Valid()
      ensures old(localStream) != null ==>
        failure == None && localStream == old(localStream)
        && mediaRequests == old(mediaRequests) && status == old(status)
      ensures old(localStream) == null ==> mediaRequests == old(mediaRequests) + 1
      ensures old(localStream) == null && media.Granted? ==>
        failure == None && localStream != null && fresh(localStream)
        && localStream.Kinds() == media.kinds && status == old(status)
      ensures old(localStream) == null && media.Denied? ==>
        failure == Some(media.message) && localStream == null && status == MediaErrorStatus
      ensures roomId == old(roomId) && joined == old(joined) && pc == old(pc)
      ensures remoteStream == old(remoteStream) && outbox == old(outbox)
    {
      failure := None;
      if localStream == null {
        mediaRequests := mediaRequests + 1;
        match media
        case Granted(kinds) =>
          localStream := new MediaStream(kinds);
        case Denied(message) =>
          status := MediaErrorStatus;
          failure := Some(message);
      }
    }

    /** `joinRoom`: refuses a blank room id; otherwise emits `join` with the
        trimmed id, marks the page joined and acquires local media. */
    method JoinRoom(media: MediaAccess)
      requires Valid()
      modifies this
      ensures Valid()
      ensures Trim(old(roomId)) == [] ==> unchanged(this)
      ensures Trim(old(roomId)) != [] ==>
        && outbox == old(outbox) + [JoinMsg(Trim(roomId))]
        && joined && roomId == old(roomId)
        && pc == old(pc) && remoteStream == old(remoteStream)
        && mediaRequests == old(mediaRequests) + (if old(localStream) == null then 1 else 0)
        && (old(localStream) != null ==> localStream == old(localStream) && status == JoinedStatus(roomId))
        && (old(localStream) == null && media.Granted? ==>
              && localStream != null && fresh(localStream) && localStream.Kinds() == media.kinds
              && status == JoinedStatus(roomId))
        && (old(localStream) == null && media.Denied? ==>
              localStream == null && status == JoinErrorStatus)
    {
      var trimmed := Trim(roomId);
      if trimmed == [] {
        return;
      }
      outbox := outbox + [JoinMsg(trimmed)];
      joined := true;
      status := JoinedStatus(roomId);
      var failure := EnsureLocalStream(media);
      if failure.Some? {
        status := JoinErrorStatus;
      }
    }

    /** The track-attach loop: for each local track, in order, add a sender
        unless the connection already has one for the track's kind. */
    method AttachLocalTracks()
      requires Valid() && pc != null && localStream != null
      modifies pc
      ensures Valid()
      ensures pc.senders == Attach(old(pc.senders), localStream.Kinds())
      ensures pc.localDescription == old(pc.localDescription)
      ensures pc.remoteDescription == old(pc.remoteDescription)
      ensures pc.remoteCandidates == old(pc.remoteCandidates)
      ensures pc.iceRestarts == old(pc.iceRestarts)
    {
      ghost var kinds := localStream.Kinds();
      var i := 0;
      while i < |localStream.tracks|
        invariant 0 <= i <= |localStream.tracks| == |kinds|
        invariant Attach(pc.senders, kinds[i..]) == Attach(old(pc.senders), kinds)
        invariant OnePerKind(pc.senders)
        invariant !pc.closed && pc.handlersAttached
        invariant pc.localDescription == old(pc.localDescription)
        invariant pc.remoteDescription == old(pc.remoteDescription)
        invariant pc.remoteCandidates == old(pc.remoteCandidates)
        invariant pc.iceRestarts == old(pc.iceRestarts)
      {
        var kind := localStream.tracks[i].kind;
        assert kinds[i..] == [kind] + kinds[i + 1..];
        if kind !in pc.senders {
          pc.AddTrack(kind);
        }
        i := i + 1;
      }
    }

    /** `leaveRoom`: when joined, emits `leave`, closes and drops the peer
        connection, drops the remote stream, stops every local track and
        drops the local stream. When not joined it does nothing. */
    method LeaveRoom()
      requires Valid()
      modifies this, pc, localStream
      ensures Valid()
      ensures !old(joined) ==>
        unchanged(this) && (pc != null ==> unchanged(pc)) && (localStream != null ==> unchanged(localStream))
      ensures old(joined) ==>
        && outbox == old(outbox) + [LeaveMsg(roomId)]
        && !joined && status == LeftStatus && roomId == old(roomId)
        && pc == null && remoteStream == None && localStream == null
        && mediaRequests == old(mediaRequests)
      ensures old(joined) && old(pc) != null ==> old(pc).closed && !old(pc).handlersAttached
      ensures old(joined) && old(localStream) != null ==>
        && |old(localStream).tracks| == old(|localStream.tracks|)
        && forall i :: 0 <= i < |old(localStream).tracks| ==>
             old(localStream).tracks[i] == old(localStream.tracks[i]).(stopped := true)
    {
      if !joined {
        return;
      }
      outbox := outbox + [LeaveMsg(roomId)];
      joined := false;
      status := LeftStatus;
      if pc != null {
        pc.DetachHandlers();
        pc.Close();
        pc := null;
      }
      remoteStream := None;
      if localStream != null {
        var stream := localStream;
        var i := 0;
        while i < |stream.tracks|
          modifies stream
          invariant 0 <= i <= |stream.tracks| == old(|localStream.tracks|)
          invariant forall k :: 0 <= k < i ==> stream.tracks[k] == old(localStream.tracks[k]).(stopped := true)
          invariant forall k :: i <= k < |stream.tracks| ==> stream.tracks[k] == old(localStream.tracks[k])
        {
          stream.StopTrack(i);
          i := i + 1;
        }
        localStream := null;
      }
    }

    /** `startCall`: when joined, makes sure local media is held, creates the
        peer connection if there is none, attaches the local tracks, sets the
        offer as local description and broadcasts it with `to: null`. */
    method StartCall(media: MediaAccess, offer: Description)
      requires Valid()
      modifies this, pc
      ensures Valid()
      ensures !old(joined) ==> unchanged(this) && (pc != null ==> unchanged(pc))
      ensures old(joined) ==>
        && roomId == old(roomId) && joined && remoteStream == old(remoteStream)
        && mediaRequests == old(mediaRequests) + (if old(localStream) == null then 1 else 0)
      ensures old(joined) && old(localStream) == null && media.Denied? ==>
        && localStream == null && pc == old(pc) && outbox == old(outbox)
        && (pc != null ==> unchanged(pc))
        && status == StartCallErrorStatus(media.message)
      ensures old(joined) && (old(localStream) != null || media.Granted?) ==>
        && localStream != null && pc != null
        && (old(localStream) != null ==> localStream == old(localStream))
        && (old(localStream) == null ==> fresh(localStream) && localStream.Kinds() == media.kinds)
        && (old(pc) != null ==> pc == old(pc))
        && (old(pc) == null ==> fresh(pc))
        && pc.senders == Attach(old(if pc == null then [] else pc.senders), localStream.Kinds())
        && pc.localDescription == Some(offer)
        && pc.remoteDescription == old(if pc == null then None else pc.remoteDescription)
        && pc.remoteCandidates == old(if pc == null then [] else pc.remoteCandidates)
        && pc.iceRestarts == old(if pc == null then 0 else pc.iceRestarts)
        && outbox == old(outbox) + [SignalMsg(roomId, None, OfferData(offer))]
        && status == OfferSentStatus
    {
      if !joined {
        return;
      }
      var failure := EnsureLocalStream(media);
      if failure.Some? {
        status := StartCallErrorStatus(failure.value);
        return;
      }
      if pc == null {
        pc := new PeerConnection();
      }
      if localStream != null {
        AttachLocalTracks();
      }
      pc.SetLocalDescription(offer);
      outbox := outbox + [SignalMsg(roomId, None, OfferData(offer))];
      status := OfferSentStatus;
    }

    /** The `peers-in-room` handler. */
    method OnPeersInRoom(peers: seq<SessionId>)
      modifies this
      ensures status == "Joined room. Peers here: " + DecimalString(|peers|)
      ensures roomId == old(roomId) && joined == old(joined) && pc == old(pc)
      ensures localStream == old(localStream) && remoteStream == old(remoteStream)
      ensures outbox == old(outbox) && mediaRequests == old(mediaRequests)
    {
      status := "Joined room. Peers here: " + DecimalString(|peers|);
    }

    /** The `peer-joined` handler. */
    method OnPeerJoined(socketId: SessionId)
      modifies this
      ensures status == "Peer joined: " + socketId + ". Click \"Start Call\" to call."
      ensures roomId == old(roomId) && joined == old(joined) && pc == old(pc)
      ensures localStream == old(localStream) && remoteStream == old(remoteStream)
      ensures outbox == old(outbox) && mediaRequests == old(mediaRequests)
    {
      status := "Peer joined: " + socketId + ". Click \"Start Call\" to call.";
    }

    /** The `peer-left` handler: closes and drops the peer connection and
        drops the remote stream; local media and `joined` stay as they are. */
    method OnPeerLeft(socketId: SessionId)
      requires Valid()
      modifies this, pc
      ensures Valid()
      ensures status == "Peer left: " + socketId
      ensures pc == null && remoteStream == None
      ensures old(pc) != null ==> old(pc).closed
      ensures roomId == old(roomId) && joined == old(joined) && localStream == old(localStream)
      ensures outbox == old(outbox) && mediaRequests == old(mediaRequests)
    {
      status := "Peer left: " + socketId;
      if pc != null {
        pc.Close();
        pc := null;
      }
      if remoteStream.Some? {
        remoteStream := None;
      }
    }

    /** The `signal` handler: creates the peer connection if there is none,
        then acts on the message's type. */
    method OnSignal(from: SessionId, data: SignalData, media: MediaAccess, answer: Description)
      requires Valid()
      modifies this, pc
      ensures Valid()
      ensures pc != null && (old(pc) != null ==> pc == old(pc)) && (old(pc) == null ==> fresh(pc))
      ensures roomId == old(roomId) && joined == old(joined) && remoteStream == old(remoteStream)
      ensures data.kind != OfferSignal ==> localStream == old(localStream) && mediaRequests == old(mediaRequests)
      ensures data.kind == OfferSignal ==>
        && mediaRequests == old(mediaRequests) + (if old(localStream) == null then 1 else 0)
        && (old(localStream) != null ==> localStream == old(localStream))
        && (old(localStream) == null && media.Granted? ==>
              localStream != null && fresh(localStream) && localStream.Kinds() == media.kinds)
      ensures pc.iceRestarts == old(if pc == null then 0 else pc.iceRestarts)
      ensures data.kind != CandidateSignal ==>
        pc.remoteCandidates == old(if pc == null then [] else pc.remoteCandidates)
      ensures !(data.kind == OfferSignal && (old(localStream) != null || media.Granted?) && data.offer.Some?) ==>
        && pc.senders == old(if pc == null then [] else pc.senders)
        && pc.localDescription == old(if pc == null then None else pc.localDescription)
      ensures data.kind == OfferSignal && old(localStream) == null && media.Denied? ==>
        && localStream == null && outbox == old(outbox)
        && pc.remoteDescription == old(if pc == null then None else pc.remoteDescription)
        && status == SignalingErrorStatus(media.message)
      ensures data.kind == OfferSignal && (old(localStream) != null || media.Granted?) && data.offer.None? ==>
        && localStream != null && outbox == old(outbox)
        && pc.remoteDescription == old(if pc == null then None else pc.remoteDescription)
        && status == InvalidOfferStatus
      ensures data.kind == OfferSignal && (old(localStream) != null || media.Granted?) && data.offer.Some? ==>
        && localStream != null
        && pc.remoteDescription == data.offer
        && pc.senders == Attach(old(if pc == null then [] else pc.senders), localStream.Kinds())
        && pc.localDescription == Some(answer)
        && outbox == old(outbox) + [SignalMsg(roomId, Some(from), AnswerData(answer))]
        && status == AnswerSentStatus
      ensures data.kind == AnswerSignal ==>
        && outbox == old(outbox)
        && pc.remoteDescription == (if data.answer.Some? then data.answer
                                    else old(if pc == null then None else pc.remoteDescription))
        && status == (if data.answer.Some? then AnswerReceivedStatus else old(status))
      ensures data.kind == CandidateSignal ==>
        && outbox == old(outbox)
        && pc.remoteDescription == old(if pc == null then None else pc.remoteDescription)
        && pc.remoteCandidates ==
             old(if pc == null then [] else pc.remoteCandidates)
             + (if data.candidate.Some? && pc.remoteDescription.Some? then [data.candidate.value] else [])
        && status == (if data.candidate.Some? && pc.remoteDescription.None?
                      then SignalingErrorStatus(NoRemoteDescriptionMessage) else old(status))
    {
      if pc == null {
        pc := new PeerConnection();
      }
      match data.kind
      case OfferSignal =>
        var failure := EnsureLocalStream(media);
        if failure.Some? {
          status := SignalingErrorStatus(failure.value);
          return;
        }
        if data.offer.None? {
          status := InvalidOfferStatus;
          return;
        }
        pc.SetRemoteDescription(data.offer.value);
        if localStream != null {
          AttachLocalTracks();
        }
        pc.SetLocalDescription(answer);
        outbox := outbox + [SignalMsg(roomId, Some(from), AnswerData(answer))];
        status := AnswerSentStatus;
      case AnswerSignal =>
        if data.answer.Some? {
          pc.SetRemoteDescription(data.answer.value);
          status := AnswerReceivedStatus;
        }
      case CandidateSignal =>
        if data.candidate.Some? {
          var accepted := pc.AddIceCandidate(data.candidate.value);
          if !accepted {
            status := SignalingErrorStatus(NoRemoteDescriptionMessage);
          }
        }
    }

    /** The `onicecandidate` callback: a discovered candidate is broadcast
        to the room (`to: null`) when a room id is set. */
    method OnIceCandidate(candidate: Option<Candidate>)
      modifies this
      ensures outbox == old(outbox)
        + (if candidate.Some? && roomId != "" then [SignalMsg(roomId, None, CandidateData(candidate.value))] else [])
      ensures roomId == old(roomId) && joined == old(joined) && status == old(status) && pc == old(pc)
      ensures localStream == old(localStream) && remoteStream == old(remoteStream)
      ensures mediaRequests == old(mediaRequests)
    {
      if candidate.Some? && roomId != "" {
        outbox := outbox + [SignalMsg(roomId, None, CandidateData(candidate.value))];
      }
    }

    /** The `ontrack` callback: the first stream of the event replaces the
        remote stream reference; an event without streams is ignored. */
    method OnTrack(streams: seq<StreamId>)
      modifies this
      ensures remoteStream == if streams == [] then old(remoteStream) else Some(streams[0])
      ensures roomId == old(roomId) && joined == old(joined) && status == old(status) && pc == old(pc)
      ensures localStream == old(localStream) && outbox == old(outbox)
      ensures mediaRequests == old(mediaRequests)
    {
      if streams == [] {
        return;
      }
      var first := streams[0];
      if remoteStream != Some(first) {
        remoteStream := Some(first);
      }
    }

    /** The `oniceconnectionstatechange` callback of the held connection:
        reports the state and restarts ICE once on `failed`. */
    method OnIceConnectionStateChange(state: IceConnectionState)
      requires Valid() && pc != null
      modifies this, pc
      ensures Valid()
      ensures status == IceStatus(state)
      ensures pc == old(pc)
      ensures pc.iceRestarts == old(pc.iceRestarts) + (if state == Failed then 1 else 0)
      ensures pc.senders == old(pc.senders) && pc.localDescription == old(pc.localDescription)
      ensures pc.remoteDescription == old(pc.remoteDescription)
      ensures pc.remoteCandidates == old(pc.remoteCandidates)
      ensures roomId == old(roomId) && joined == old(joined) && localStream == old(localStream)
      ensures remoteStream == old(remoteStream) && outbox == old(outbox)
      ensures mediaRequests == old(mediaRequests)
    {
      status := "ICE connection: " + StateName(state);
      if state == Connected || state == Completed {
        status := ConnectedStatus;
      } else if state == Failed {
        status := RetryingStatus;
        pc.RestartIce();
      } else if state == Disconnected {
        status := LostStatus;
      }
    }
  }
}
