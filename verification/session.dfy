/**
 * Two browsers in one room, connected through the relay: what one side's
 * controller sends, the relay stamps and forwards, and the other side's
 * controller reacts to. These lemmas compose the relay's routing with the
 * controller's reaction to each envelope kind.
 */
module Session {
  import opened Envelopes
  import opened Relay
  import opened ChatUI

  /** Sockets `a` and `b` are distinct records of one room, and `b` is open. */
  predicate SameRoom(cs: seq<Client>, a: Socket, b: Socket, open: set<Socket>) {
    && UniqueSockets(cs)
    && Registered(cs, a) && Registered(cs, b) && a != b
    && SenderOf(cs, a).room == SenderOf(cs, b).room
    && b in open
  }

  /** Any forwarded envelope from `a` reaches `b` exactly once, stamped with `a`'s id. */
  lemma ReachesPeer(cs: seq<Client>, a: Socket, b: Socket, open: set<Socket>, data: Envelope)
    requires SameRoom(cs, a, b, open) && IsForwarded(data.kind)
    ensures multiset(Route(cs, a, data, open))[Delivery(b, Stamp(data, SenderOf(cs, a).id))] == 1
  {
    var sender := SenderOf(cs, a);
    DeliveredOnce(cs, sender.room, a, open, Stamp(data, sender.id), IndexOfSocket(cs, b));
  }

  /**
   * The offer/answer exchange, when every awaited step succeeds: the callee
   * receives the caller's offer, applies it, answers with its own name and
   * shows the caller's name; the caller receives that answer, applies it and
   * shows the callee's name.
   */
  lemma Negotiation(cs: seq<Client>, a: Socket, b: Socket, open: set<Socket>,
                    caller: Snapshot, callee: Snapshot, media: Stream,
                    offer: Description, answer: Description)
    requires SameRoom(cs, a, b, open) && SameRoom(cs, b, a, open)
    ensures var started := AfterStart(caller, Some(media), true, Some(offer));
            var offerFrame := Stamp(OfferEnvelope(offer, caller.username), SenderOf(cs, a).id);
            var reply := ReceiveReply(callee, offerFrame, true, Some(answer));
            var answered := AfterReceive(callee, offerFrame, true, Some(answer));
            && started.endShown && started.muteShown && started.sendFileShown
            && Delivery(b, offerFrame) in Route(cs, a, OfferEnvelope(offer, caller.username), open)
            && reply == [AnswerEnvelope(answer, callee.username)]
            && answered.remoteLabel == caller.username
            && answered.pcLog == callee.pcLog + [SetRemoteDescription(Some(offer)), CreateAnswer]
    ensures var started := AfterStart(caller, Some(media), true, Some(offer));
            var answerFrame := Stamp(AnswerEnvelope(answer, callee.username), SenderOf(cs, b).id);
            var connected := AfterReceive(started, answerFrame, true, None);
            && Delivery(a, answerFrame) in Route(cs, b, AnswerEnvelope(answer, callee.username), open)
            && connected.remoteLabel == callee.username
            && connected.pcLog == caller.pcLog + [AddStream(media), CreateOffer, SetRemoteDescription(Some(answer))]
  {
    var offerEnvelope := OfferEnvelope(offer, caller.username);
    var answerEnvelope := AnswerEnvelope(answer, callee.username);
    ReachesPeer(cs, a, b, open, offerEnvelope);
    ReachesPeer(cs, b, a, open, answerEnvelope);
    assert Delivery(b, Stamp(offerEnvelope, SenderOf(cs, a).id)) in multiset(Route(cs, a, offerEnvelope, open));
    assert Delivery(a, Stamp(answerEnvelope, SenderOf(cs, b).id)) in multiset(Route(cs, b, answerEnvelope, open));
  }

  /**
   * A chat line typed by one side shows once, trimmed, in its own chat box,
   * and reaches the other side once, where it shows as `name: text`.
   */
  lemma ChatReachesPeer(cs: seq<Client>, a: Socket, b: Socket, open: set<Socket>,
                        receiver: Snapshot, name: string, typed: string)
    requires SameRoom(cs, a, b, open) && !Blank(typed)
    ensures var sent := ChatEnvelope(Trim(typed), name);
            var frame := Stamp(sent, SenderOf(cs, a).id);
            && Trim(typed) != ""
            && ChatText(sent, true) == Trim(typed)
            && multiset(Route(cs, a, sent, open))[Delivery(b, frame)] == 1
            && AfterReceive(receiver, frame, false, None).chatLog
               == receiver.chatLog + [ChatEntry(false, name + ": " + Trim(typed))]
  {
    TrimEmptyIffBlank(typed);
    ReachesPeer(cs, a, b, open, ChatEnvelope(Trim(typed), name));
  }

  /** A candidate found by one side reaches the other once and goes straight to its peer connection. */
  lemma CandidateReachesPeer(cs: seq<Client>, a: Socket, b: Socket, open: set<Socket>,
                             receiver: Snapshot, candidate: Candidate, name: string)
    requires SameRoom(cs, a, b, open)
    ensures var frame := Stamp(CandidateEnvelope(candidate, name), SenderOf(cs, a).id);
            && multiset(Route(cs, a, CandidateEnvelope(candidate, name), open))[Delivery(b, frame)] == 1
            && AfterReceive(receiver, frame, false, None)
               == receiver.(pcLog := receiver.pcLog + [AddIceCandidate(Some(candidate))])
  {
    ReachesPeer(cs, a, b, open, CandidateEnvelope(candidate, name));
  }

  /** Hanging up on one side reaches the other once and tears its call down too. */
  lemma HangUpReachesPeer(cs: seq<Client>, a: Socket, b: Socket, open: set<Socket>, peer: Snapshot)
    requires SameRoom(cs, a, b, open)
    ensures var frame := Stamp(EndEnvelope(), SenderOf(cs, a).id);
            var after := AfterReceive(peer, frame, false, None);
            && multiset(Route(cs, a, EndEnvelope(), open))[Delivery(b, frame)] == 1
            && after.localStream.None? && after.pcLog == peer.pcLog + [ClosePeer]
            && after.remoteLabel == "Remote User" && after.chatLog == []
            && !after.endShown && !after.muteShown && !after.unmuteShown && !after.sendFileShown
  {
    ReachesPeer(cs, a, b, open, EndEnvelope());
  }
}
