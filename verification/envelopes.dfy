/**
 * The signaling envelope: the one record that travels, as JSON text, from a
 * browser to the relay and from the relay to the other browsers of a room.
 * JSON encoding is not modelled; an envelope is the decoded object, and a
 * property the object does not carry (JavaScript `undefined`) is `None`.
 */
module Envelopes {

  datatype Option<+T> = None | Some(value: T)

  /** The identifier the relay gives a connection (a counter stands in for a UUID). */
  type ClientId = nat

  /** Opaque payloads made and consumed by the peer connection and the file reader. */
  type Description = string
  type Candidate = string
  type DataUrl = string

  datatype Envelope = Envelope(
    kind: string,                  // the `type` property
    room: Option<string>,
    senderId: Option<ClientId>,
    username: Option<string>,
    offer: Option<Description>,
    answer: Option<Description>,
    candidate: Option<Candidate>,
    message: Option<string>,
    file: Option<DataUrl>,
    filename: Option<string>)

  /** An object with no properties at all. */
  const Empty := Envelope("", None, None, None, None, None, None, None, None, None)

  // The envelopes a browser builds, one per kind, with exactly the properties
  // the client code puts in them. Together with `IsOutbound`, each contract
  // fixes every property of the envelope. The client never builds a `join`.

  function OfferEnvelope(offer: Description, username: string): (e: Envelope)
    ensures IsOutbound(e)
    ensures e.kind == "offer" && e.offer == Some(offer) && e.username == Some(username)
  {
    Empty.(kind := "offer", offer := Some(offer), username := Some(username))
  }

  function AnswerEnvelope(answer: Description, username: string): (e: Envelope)
    ensures IsOutbound(e)
    ensures e.kind == "answer" && e.answer == Some(answer) && e.username == Some(username)
  {
    Empty.(kind := "answer", answer := Some(answer), username := Some(username))
  }

  function CandidateEnvelope(candidate: Candidate, username: string): (e: Envelope)
    ensures IsOutbound(e)
    ensures e.kind == "candidate" && e.candidate == Some(candidate) && e.username == Some(username)
  {
    Empty.(kind := "candidate", candidate := Some(candidate), username := Some(username))
  }

  function ChatEnvelope(message: string, username: string): (e: Envelope)
    ensures IsOutbound(e)
    ensures e.kind == "chat" && e.message == Some(message) && e.username == Some(username)
  {
    Empty.(kind := "chat", message := Some(message), username := Some(username))
  }

  function FileEnvelope(file: DataUrl, filename: string, username: string): (e: Envelope)
    ensures IsOutbound(e)
    ensures e.kind == "file" && e.file == Some(file) && e.filename == Some(filename)
    ensures e.username == Some(username)
  {
    Empty.(kind := "file", file := Some(file), filename := Some(filename), username := Some(username))
  }

  function EndEnvelope(): (e: Envelope)
    ensures IsOutbound(e)
    ensures e.kind == "end"
  {
    Empty.(kind := "end")
  }

  /** The six types the relay stamps and forwards; `join` and anything else are not forwarded. */
  predicate IsForwarded(kind: string) {
    kind == "offer" || kind == "answer" || kind == "candidate" ||
    kind == "chat" || kind == "file" || kind == "end"
  }

  /**
   * What a browser may put on the wire after joining: one of the forwarded
   * kinds, its own payload property, the sender's display name on every kind
   * but `end`, and never a room or a sender id.
   */
  predicate IsOutbound(e: Envelope) {
    && IsForwarded(e.kind)
    && e.room.None? && e.senderId.None?
    && (e.kind != "end" <==> e.username.Some?)
    && (e.kind == "offer" <==> e.offer.Some?)
    && (e.kind == "answer" <==> e.answer.Some?)
    && (e.kind == "candidate" <==> e.candidate.Some?)
    && (e.kind == "chat" <==> e.message.Some?)
    && (e.kind == "file" <==> e.file.Some?)
    && (e.kind == "file" <==> e.filename.Some?)
  }

  /**
   * The converse of the builders: every well-formed outbound envelope is the
   * one its kind's builder makes from its own properties.
   */
  lemma OutboundIsBuilt(e: Envelope)
    requires IsOutbound(e)
    ensures e.kind == "offer" ==> e == OfferEnvelope(e.offer.value, e.username.value)
    ensures e.kind == "answer" ==> e == AnswerEnvelope(e.answer.value, e.username.value)
    ensures e.kind == "candidate" ==> e == CandidateEnvelope(e.candidate.value, e.username.value)
    ensures e.kind == "chat" ==> e == ChatEnvelope(e.message.value, e.username.value)
    ensures e.kind == "file" ==> e == FileEnvelope(e.file.value, e.filename.value, e.username.value)
    ensures e.kind == "end" ==> e == EndEnvelope()
  {
  }
}
