/** Two clients meeting in room "r1" through the relay: the exchange of
    messages the page and the relay produce, step by step. */
module Scenarios {
  import opened Protocol
  import opened Relay
  import opened Browser
  import opened CallController

  /** A delivery sequence that reaches no one is empty. */
  lemma NoRecipientsNoDeliveries(sent: seq<Delivery>, event: ServerEvent)
    requires DeliversExactly(sent, {}, event)
    ensures sent == []
  {
  }

  /** A delivery sequence for a single recipient is one delivery to it. */
  lemma OneRecipientOneDelivery(sent: seq<Delivery>, s: SessionId, event: ServerEvent)
    requires DeliversExactly(sent, {s}, event)
    ensures sent == [Delivery(s, event)]
  {
    assert sent[0] in sent;
  }

  lemma TrimmedRoomId()
    ensures Text.Trim("r1") == "r1"
  {
    assert !Text.IsWhitespace('r') && !Text.IsWhitespace('1');
    assert Text.LeadingWhitespace("r1") == 0;
    assert Text.TrailingWhitespace("r1") == 0;
  }

  lemma SpacedRoomIdTrimmed()
    ensures Text.Trim(" r1 ") == "r1"
  {
    assert Text.IsWhitespace(' ') && !Text.IsWhitespace('r') && !Text.IsWhitespace('1');
    assert " r1 "[1..] == "r1 " && "r1 "[..2] == "r1";
    assert Text.LeadingWhitespace("r1 ") == 0;
    assert Text.LeadingWhitespace(" r1 ") == 1;
    assert Text.TrailingWhitespace("r1") == 0;
    assert Text.TrailingWhitespace("r1 ") == 1;
    assert " r1 "[1..3] == "r1";
  }

  lemma AttachBothKinds()
    ensures Attach([], [Audio, Video]) == [Audio, Video]
  {
    assert Attach([Audio, Video], []) == [Audio, Video];
    assert [Audio, Video][1..] == [Video];
  }

  /** The relay side: A and B join "r1", exchange an offer and an answer,
      and B leaves. */
  method RoomScenario(offer: SignalData, answer: SignalData) {
    var relay := new Server();
    relay.Connect("A");
    relay.Connect("B");

    // A joins an empty room and learns there is nobody else.
    var sent := relay.Join("A", "r1");
    NoRecipientsNoDeliveries(sent[..|sent| - 1], PeerJoined("A"));
    assert sent == [Delivery("A", PeersInRoom({}))];

    // B joins: A hears of it, B learns of A.
    sent := relay.Join("B", "r1");
    assert Members(relay.rooms, "r1") == {"A", "B"};
    OneRecipientOneDelivery(sent[..|sent| - 1], "A", PeerJoined("B"));
    assert sent == [Delivery("A", PeerJoined("B")), Delivery("B", PeersInRoom({"A"}))];

    // A's broadcast offer reaches B only; B's addressed answer reaches A only.
    sent := relay.Signal("A", "r1", None, offer);
    OneRecipientOneDelivery(sent, "B", SignalFrom("A", offer));
    sent := relay.Signal("B", "r1", Some("A"), answer);
    OneRecipientOneDelivery(sent, "A", SignalFrom("B", answer));

    // B leaves: A alone hears `peer-left`.
    sent := relay.Leave("B", "r1");
    OneRecipientOneDelivery(sent, "A", PeerLeft("B"));
  }

  /** A fresh page with a room id typed in. */
  method PageWithRoomId(roomId: RoomId) returns (page: Page)
    ensures fresh(page) && page.Valid() && page.roomId == roomId && !page.joined
    ensures page.pc == null && page.localStream == null && page.outbox == []
  {
    page := new Page();
    page.roomId := roomId;
  }

  /** A joined page whose camera and microphone are already held. */
  method JoinedPage(roomId: RoomId, kinds: seq<MediaKind>) returns (page: Page)
    ensures fresh(page) && page.Valid() && page.joined && page.roomId == roomId
    ensures page.pc == null && page.outbox == [] && page.localStream != null
    ensures fresh(page.localStream) && page.localStream.Kinds() == kinds
  {
    page := new Page();
    page.roomId := roomId;
    page.joined := true;
    page.localStream := new MediaStream(kinds);
  }

  /** A's page joins "r1" and gets its camera and microphone. */
  method JoinScenario() {
    var pageA := PageWithRoomId("r1");
    TrimmedRoomId();
    assert Text.Trim(pageA.roomId) == "r1";
    pageA.JoinRoom(Granted([Audio, Video]));
    assert pageA.outbox == [JoinMsg("r1")];
    assert pageA.joined && pageA.localStream.Kinds() == [Audio, Video];
  }

  /** A's joined page starts the call, and drops it when B leaves. */
  method OfferScenario() {
    var pageA := JoinedPage("r1", [Audio, Video]);
    AttachBothKinds();
    var offer := Description("offer-sdp");
    pageA.StartCall(Granted([Audio, Video]), offer);
    assert pageA.pc.senders == [Audio, Video];
    assert pageA.outbox == [SignalMsg("r1", None, OfferData(offer))];

    var closedPc := pageA.pc;
    var stream := pageA.localStream;
    pageA.OnPeerLeft("B");
    assert closedPc.closed && pageA.pc == null && pageA.remoteStream == None;
    assert pageA.joined && pageA.localStream == stream;
  }

  /** B's page receives the offer and answers it to A. */
  method AnswerScenario() {
    var offer := Description("offer-sdp");
    var pageB := new Page();
    pageB.roomId := "r1";
    var answer := Description("answer-sdp");
    pageB.OnSignal("A", OfferData(offer), Granted([Video, Audio]), answer);
    assert pageB.outbox == [SignalMsg("r1", Some("A"), AnswerData(answer))];
    assert pageB.pc.remoteDescription == Some(offer) && pageB.pc.localDescription == Some(answer);
  }

  /** A room id typed with surrounding spaces: `join` names the trimmed
      room "r1". */
  method SpacedRoomIdScenario() {
    var pageA := PageWithRoomId(" r1 ");
    SpacedRoomIdTrimmed();
    assert Text.Trim(pageA.roomId) == "r1";
    pageA.JoinRoom(Granted([Audio]));
    assert pageA.outbox == [JoinMsg("r1")];
  }

  /** With the same room id, the offer and the `leave` name " r1 " as
      typed. */
  method SpacedRoomIdOfferScenario() {
    var pageA := JoinedPage(" r1 ", [Audio]);
    var offer := Description("offer-sdp");
    pageA.StartCall(Granted([Audio]), offer);
    assert pageA.outbox == [SignalMsg(" r1 ", None, OfferData(offer))];
    pageA.LeaveRoom();
    assert pageA.outbox[1] == LeaveMsg(" r1 ");
  }

  /** The relay's side of the same exchange: A and B are in "r1", and A's
      offer and `leave` name " r1 ", a room with no members. The offer
      reaches nobody, and A is still in "r1" after leaving. */
  method SpacedRoomIdRelayScenario(offerData: SignalData) {
    var relay := new Server();
    relay.Connect("A");
    relay.Connect("B");
    var sent := relay.Join("B", "r1");
    sent := relay.Join("A", "r1");
    sent := relay.Signal("A", " r1 ", None, offerData);
    NoRecipientsNoDeliveries(sent, SignalFrom("A", offerData));
    sent := relay.Leave("A", " r1 ");
    NoRecipientsNoDeliveries(sent, PeerLeft("A"));
    assert "A" in Members(relay.rooms, "r1");
  }
}
