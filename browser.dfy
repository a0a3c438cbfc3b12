/** The browser objects the call page drives, reduced to the state the page
    reads or changes: a captured media stream and an RTCPeerConnection. */
module Browser {
  import opened Protocol

  datatype MediaKind = Audio | Video

  /** A MediaStreamTrack: its kind, and whether `stop()` has been called. */
  datatype Track = Track(kind: MediaKind, stopped: bool)

  /** A local MediaStream as `getUserMedia` returns it. */
  class MediaStream {
    var tracks: seq<Track>

    /** A freshly captured stream: one live track per requested kind. */
    constructor (kinds: seq<MediaKind>)
      ensures |tracks| == |kinds|
      ensures forall i :: 0 <= i < |kinds| ==> tracks[i] == Track(kinds[i], false)
    {
      tracks := seq(|kinds|, i requires 0 <= i < |kinds| => Track(kinds[i], false));
    }

    /** `getTracks().map(t => t.kind)`. */
    function Kinds(): (ks: seq<MediaKind>)
      reads this
      ensures |ks| == |tracks| && forall i :: 0 <= i < |tracks| ==> ks[i] == tracks[i].kind
    {
      seq(|tracks|, i requires 0 <= i < |tracks| reads this => tracks[i].kind)
    }

    /** `track.stop()` on the track at position `i`. */
    method StopTrack(i: nat)
      requires i < |tracks|
      modifies this
      ensures tracks == old(tracks)[i := old(tracks)[i].(stopped := true)]
    {
      tracks := tracks[i := tracks[i].(stopped := true)];
    }
  }

  /** An RTCPeerConnection: its senders (by track kind), its local and
      remote descriptions, the remote ICE candidates it accepted, whether
      it is closed, whether the page's event handlers are still attached,
      and how many times `restartIce()` was called. */
  class PeerConnection {
    var senders: seq<MediaKind>
    var localDescription: Option<Description>
    var remoteDescription: Option<Description>
    var remoteCandidates: seq<Candidate>
    var closed: bool
    var handlersAttached: bool
    var iceRestarts: nat

    /** `createPeerConnection()`: a new connection with the page's handlers. */
    constructor ()
      ensures senders == [] && remoteCandidates == []
      ensures localDescription == None && remoteDescription == None
      ensures !closed && handlersAttached && iceRestarts == 0
    {
      senders, remoteCandidates := [], [];
      localDescription, remoteDescription := None, None;
      closed, handlersAttached, iceRestarts := false, true, 0;
    }

    /** `addTrack(track, stream)`: one more sender, for the track's kind. */
    method AddTrack(kind: MediaKind)
      modifies this
      ensures senders == old(senders) + [kind]
      ensures localDescription == old(localDescription) && remoteDescription == old(remoteDescription)
      ensures remoteCandidates == old(remoteCandidates) && closed == old(closed)
      ensures handlersAttached == old(handlersAttached) && iceRestarts == old(iceRestarts)
    {
      senders := senders + [kind];
    }

    method SetLocalDescription(d: Description)
      modifies this
      ensures localDescription == Some(d)
      ensures senders == old(senders) && remoteDescription == old(remoteDescription)
      ensures remoteCandidates == old(remoteCandidates) && closed == old(closed)
      ensures handlersAttached == old(handlersAttached) && iceRestarts == old(iceRestarts)
    {
      localDescription := Some(d);
    }

    method SetRemoteDescription(d: Description)
      modifies this
      ensures remoteDescription == Some(d)
      ensures senders == old(senders) && localDescription == old(localDescription)
      ensures remoteCandidates == old(remoteCandidates) && closed == old(closed)
      ensures handlersAttached == old(handlersAttached) && iceRestarts == old(iceRestarts)
    {
      remoteDescription := Some(d);
    }

    /** `addIceCandidate(c)`: the browser rejects a candidate while no remote
        description is set (an InvalidStateError); it does not queue it. */
    method AddIceCandidate(c: Candidate) returns (accepted: bool)
      modifies this
      ensures accepted <==> old(remoteDescription).Some?
      ensures remoteCandidates == if accepted then old(remoteCandidates) + [c] else old(remoteCandidates)
      ensures senders == old(senders) && localDescription == old(localDescription)
      ensures remoteDescription == old(remoteDescription) && closed == old(closed)
      ensures handlersAttached == old(handlersAttached) && iceRestarts == old(iceRestarts)
    {
      accepted := remoteDescription.Some?;
      if accepted {
        remoteCandidates := remoteCandidates + [c];
      }
    }

    method RestartIce()
      modifies this
      ensures iceRestarts == old(iceRestarts) + 1
      ensures senders == old(senders) && localDescription == old(localDescription)
      ensures remoteDescription == old(remoteDescription) && remoteCandidates == old(remoteCandidates)
      ensures closed == old(closed) && handlersAttached == old(handlersAttached)
    {
      iceRestarts := iceRestarts + 1;
    }

    /** Setting `onicecandidate`, `ontrack` and the state-change handlers to null. */
    method DetachHandlers()
      modifies this
      ensures !handlersAttached
      ensures senders == old(senders) && localDescription == old(localDescription)
      ensures remoteDescription == old(remoteDescription) && remoteCandidates == old(remoteCandidates)
      ensures closed == old(closed) && iceRestarts == old(iceRestarts)
    {
      handlersAttached := false;
    }

    method Close()
      modifies this
      ensures closed
      ensures senders == old(senders) && localDescription == old(localDescription)
      ensures remoteDescription == old(remoteDescription) && remoteCandidates == old(remoteCandidates)
      ensures handlersAttached == old(handlersAttached) && iceRestarts == old(iceRestarts)
    {
      closed := true;
    }
  }
}
