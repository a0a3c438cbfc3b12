/** Identifiers and messages exchanged between the browser clients and the
    signalling relay over the socket.io channel. */
module Protocol {

  datatype Option<+T> = None | Some(value: T)

  /** The relay-assigned socket id of one connected client. */
  type SessionId = string
  /** The name of a room, as chosen by the users. */
  type RoomId = string

  /** A session description (SDP) produced by the browser; opaque here. */
  datatype Description = Description(sdp: string)
  /** An ICE candidate line produced by the browser; opaque here. */
  datatype Candidate = Candidate(line: string)

  datatype SignalType = OfferSignal | AnswerSignal | CandidateSignal

  /** The `data` field of a `signal` message: a type tag and the optional
      payload fields that go with it. */
  datatype SignalData = SignalData(
    kind: SignalType,
    offer: Option<Description>,
    answer: Option<Description>,
    candidate: Option<Candidate>)

  function OfferData(d: Description): SignalData {
    SignalData(OfferSignal, Some(d), None, None)
  }

  function AnswerData(d: Description): SignalData {
    SignalData(AnswerSignal, None, Some(d), None)
  }

  function CandidateData(c: Candidate): SignalData {
    SignalData(CandidateSignal, None, None, Some(c))
  }

  /** Messages a client emits to the relay; `to == None` is the `to: null`
      of a broadcast signal. */
  datatype ClientMessage =
    | JoinMsg(roomId: RoomId)
    | SignalMsg(roomId: RoomId, to: Option<SessionId>, data: SignalData)
    | LeaveMsg(roomId: RoomId)

  /** Events the relay emits to a client. */
  datatype ServerEvent =
    | PeersInRoom(peers: set<SessionId>)
    | PeerJoined(socketId: SessionId)
    | SignalFrom(from: SessionId, data: SignalData)
    | PeerLeft(socketId: SessionId)
}
