/**
 * The browser-side controller of a call: it dispatches the envelopes the
 * signaling channel receives, drives the offer/answer/candidate exchange
 * against the peer connection, sends envelopes tagged with the local display
 * name, keeps the chat box, and tears the call down.
 *
 * The DOM is reduced to the values the controller reads and writes (input
 * values, label texts, button visibility, chat-box entries), the peer
 * connection to the log of calls made on it, and each awaited call of an
 * async handler to one step whose outcome (resolve or reject) is a parameter.
 */
module ChatUI {
  import opened Envelopes
  import opened Channel

  // ---------------------------------------------------------------------
  // Media and peer connection

  /** A media track; `stop` and muting change the browser object in place. */
  class Track {
    const audio: bool
    var enabled: bool
    var live: bool

    constructor (audio: bool)
      ensures this.audio == audio && enabled && live
    {
      this.audio, enabled, live := audio, true, true;
    }
  }

  datatype Stream = Stream(tracks: seq<Track>)

  function TracksOf(s: Option<Stream>): set<Track> {
    if s.Some? then set t | t in s.value.tracks else {}
  }

  /** `getAudioTracks()[0]`: the position of the first audio track, or -1. */
  function FirstAudio(ts: seq<Track>): (k: int)
    ensures -1 <= k < |ts|
    ensures k >= 0 ==> ts[k].audio && forall j :: 0 <= j < k ==> !ts[j].audio
    ensures k == -1 ==> forall j :: 0 <= j < |ts| ==> !ts[j].audio
  {
    if ts == [] then -1
    else if ts[0].audio then 0
    else
      var k := FirstAudio(ts[1..]);
      if k == -1 then -1 else k + 1
  }

  /** A call made on the peer connection. */
  datatype PcCall =
    | AddStream(stream: Stream)
    | CreateOffer
    | CreateAnswer
    | SetRemoteDescription(description: Option<Description>)
    | AddIceCandidate(candidate: Option<Candidate>)
    | ClosePeer

  // ---------------------------------------------------------------------
  // Text

  /** An entry of the chat box. */
  datatype Entry =
    | ChatEntry(sent: bool, text: string)
    | FileEntry(sent: bool, src: string, alt: string)

  /** A property value turned into a string (template literals, `img.src`, `img.alt`): undefined reads "undefined". */
  function Str(v: Option<string>): string {
    if v.Some? then v.value else "undefined"
  }

  /** A property value assigned to `textContent`: undefined leaves the element empty. */
  function TextContent(v: Option<string>): string {
    if v.Some? then v.value else ""
  }

  /** The text of a chat entry: the message alone when sent, `username: message` when received. */
  function ChatText(data: Envelope, isSent: bool): string {
    if isSent then TextContent(data.message) else Str(data.username) + ": " + Str(data.message)
  }

  /** `usernameInput.value || "Anonymous"`. */
  function DisplayName(input: string): (name: string)
    ensures name != ""
    ensures input != "" ==> name == input
    ensures input == "" ==> name == "Anonymous"
  {
    if input == "" then "Anonymous" else input
  }

  /** The code points `String.prototype.trim` removes: ECMAScript WhiteSpace and LineTerminator. */
  predicate IsJsSpace(c: char) {
    var n := c as int;
    (0x09 <= n <= 0x0D) || n == 0x20 || n == 0xA0 || n == 0x1680 || (0x2000 <= n <= 0x200A) ||
    n == 0x2028 || n == 0x2029 || n == 0x202F || n == 0x205F || n == 0x3000 || n == 0xFEFF
  }

  predicate Blank(s: string) {
    forall i :: 0 <= i < |s| ==> IsJsSpace(s[i])
  }

  function TrimStart(s: string): (t: string)
    ensures |t| <= |s| && t == s[|s| - |t|..]
    ensures Blank(s[..|s| - |t|])
    ensures t == [] || !IsJsSpace(t[0])
  {
    if s != [] && IsJsSpace(s[0]) then
      var t := TrimStart(s[1..]);
      var k := |s| - |t|;
      assert s[k..] == s[1..][k - 1..];
      assert forall i :: 1 <= i < k ==> s[..k][i] == s[1..][..k - 1][i - 1];
      t
    else s
  }

  function TrimEnd(s: string): (t: string)
    ensures |t| <= |s| && t == s[..|t|]
    ensures Blank(s[|t|..])
    ensures t == [] || !IsJsSpace(t[|t| - 1])
  {
    if s != [] && IsJsSpace(s[|s| - 1]) then
      var t := TrimEnd(s[..|s| - 1]);
      var k := |t|;
      assert s[..|s| - 1][..k] == s[..k];
      assert forall i :: 0 <= i < |s| - 1 - k ==> s[k..][i] == s[..|s| - 1][k..][i];
      t
    else s
  }

  /** `trim`: the input without its leading and trailing white space. */
  function Trim(s: string): string {
    TrimEnd(TrimStart(s))
  }

  /** The trimmed text is empty exactly when the input is all white space. */
  lemma TrimEmptyIffBlank(s: string)
    ensures Trim(s) == [] <==> Blank(s)
  {
    var u := TrimStart(s);
    if Trim(s) == [] {
      assert Blank(u[0..]);
      assert u == [];
      assert s[..|s|] == s;
    } else {
      assert Trim(s)[0] == u[0] == s[|s| - |u|];
    }
  }

  /** `t` sits in `s` at `a` with nothing but white space around it. */
  predicate SurroundedBySpace(s: string, a: int, t: string) {
    0 <= a <= |s| - |t| && s[a..a + |t|] == t && Blank(s[..a]) && Blank(s[a + |t|..])
  }

  /** The trimmed text neither starts nor ends with white space. */
  lemma TrimHasNoOuterSpace(s: string)
    ensures Trim(s) != [] ==> !IsJsSpace(Trim(s)[0]) && !IsJsSpace(Trim(s)[|Trim(s)| - 1])
  {
    var u := TrimStart(s);
    var t := TrimEnd(u);
    if t != [] {
      assert t[0] == u[0];
    }
  }

  /** The trimmed text is a run of the input with only white space before and after it. */
  lemma TrimIsInner(s: string)
    ensures exists a :: SurroundedBySpace(s, a, Trim(s))
  {
    var u := TrimStart(s);
    var t := TrimEnd(u);
    var a := |s| - |u|;
    assert SurroundedBySpace(s, a, t) by {
      assert s[a..a + |t|] == t;
      assert s[a + |t|..] == u[|t|..];
    }
    assert t == Trim(s);
  }

  // ---------------------------------------------------------------------
  // The controller

  /** The initial contents of the page elements the controller is given. */
  datatype Page = Page(
    usernameInput: string, chatInput: string, localLabel: string, remoteLabel: string,
    endShown: bool, muteShown: bool, unmuteShown: bool, sendFileShown: bool)

  /** The values of a controller's fields (the tracks' own flags aside). */
  datatype Snapshot = Snapshot(
    username: string,
    usernameInput: string,
    chatInput: string,
    localLabel: string,
    remoteLabel: string,
    chatLog: seq<Entry>,
    localStream: Option<Stream>,
    localVideo: Option<Stream>,
    remoteVideo: Option<Stream>,
    endShown: bool,
    muteShown: bool,
    unmuteShown: bool,
    sendFileShown: bool,
    pcLog: seq<PcCall>)

  /** The listeners the controller registers on its channel. */
  const ChannelListeners: Handlers := map[
    "open" := [Handler("handleWebSocketOpen")],
    "error" := [Handler("handleWebSocketError")],
    "close" := [Handler("handleWebSocketClose")],
    "message" := [Handler("handleWebSocketMessage")]
  ]

  // What each inbound envelope does to the controller's fields and what it sends.

  function AfterOffer(s: Snapshot, msg: Envelope, remoteOk: bool, answer: Option<Description>): Snapshot {
    var applied := s.(pcLog := s.pcLog + [SetRemoteDescription(msg.offer)]);
    if !remoteOk then applied
    else
      var answering := applied.(pcLog := applied.pcLog + [CreateAnswer]);
      if answer.None? then answering else answering.(remoteLabel := TextContent(msg.username))
  }

  function OfferReply(s: Snapshot, remoteOk: bool, answer: Option<Description>): seq<Envelope> {
    if remoteOk && answer.Some? then [AnswerEnvelope(answer.value, s.username)] else []
  }

  function AfterAnswer(s: Snapshot, msg: Envelope, remoteOk: bool): Snapshot {
    var applied := s.(pcLog := s.pcLog + [SetRemoteDescription(msg.answer)]);
    if remoteOk then applied.(remoteLabel := TextContent(msg.username)) else applied
  }

  function AfterCandidate(s: Snapshot, msg: Envelope): Snapshot {
    s.(pcLog := s.pcLog + [AddIceCandidate(msg.candidate)])
  }

  function FileEntryOf(data: Envelope, isSent: bool): Entry {
    FileEntry(isSent, Str(data.file), Str(data.filename))
  }

  /** `updateUIForChatStart`: the end, mute and send-file controls are shown. */
  function AfterChatStartUI(s: Snapshot): Snapshot {
    s.(endShown := true, muteShown := true, sendFileShown := true)
  }

  /** `resetUI`: the remote label reads "Remote User", the chat box is empty, the call controls are hidden. */
  function AfterResetUI(s: Snapshot): Snapshot {
    s.(remoteLabel := "Remote User", chatLog := [],
       endShown := false, muteShown := false, unmuteShown := false, sendFileShown := false)
  }

  /** `handleEndChat`: close the peer connection, drop the stream, empty the videos, reset the page. */
  function AfterEnd(s: Snapshot): Snapshot {
    AfterResetUI(s.(pcLog := s.pcLog + [ClosePeer], localStream := None, localVideo := None, remoteVideo := None))
  }

  /** `handleWebSocketMessage`: dispatch by `type`; any other type changes nothing. */
  function AfterReceive(s: Snapshot, msg: Envelope, remoteOk: bool, answer: Option<Description>): Snapshot {
    match msg.kind
    case "offer" => AfterOffer(s, msg, remoteOk, answer)
    case "answer" => AfterAnswer(s, msg, remoteOk)
    case "candidate" => AfterCandidate(s, msg)
    case "chat" => s.(chatLog := s.chatLog + [ChatEntry(false, ChatText(msg, false))])
    case "file" => s.(chatLog := s.chatLog + [FileEntryOf(msg, false)])
    case "end" => AfterEnd(s)
    case _ => s
  }

  function ReceiveReply(s: Snapshot, msg: Envelope, remoteOk: bool, answer: Option<Description>): seq<Envelope> {
    if msg.kind == "offer" then OfferReply(s, remoteOk, answer) else []
  }

  /** Whether `startVideoChat` gets as far as sending its offer. */
  predicate Started(media: Option<Stream>, addOk: bool, offer: Option<Description>) {
    media.Some? && addOk && offer.Some?
  }

  function AfterStart(s: Snapshot, media: Option<Stream>, addOk: bool, offer: Option<Description>): Snapshot {
    if media.None? then s
    else
      var attached := s.(localStream := media, localVideo := media,
                         pcLog := s.pcLog + [AddStream(media.value)]);
      if !addOk then attached
      else
        var offering := attached.(pcLog := attached.pcLog + [CreateOffer]);
        if offer.None? then offering
        else AfterChatStartUI(offering)
  }

  /** Registering the four listeners, in order, on a channel that has none gives `ChannelListeners`. */
  lemma ListenersOfFreshChannel()
    ensures Register(Register(Register(Register(map[],
              "open", Handler("handleWebSocketOpen")),
              "error", Handler("handleWebSocketError")),
              "close", Handler("handleWebSocketClose")),
              "message", Handler("handleWebSocketMessage")) == ChannelListeners
  {
    // Each name is new to the map, so its list is just the one listener.
    assert [] + [Handler("handleWebSocketOpen")] == [Handler("handleWebSocketOpen")];
    assert [] + [Handler("handleWebSocketError")] == [Handler("handleWebSocketError")];
    assert [] + [Handler("handleWebSocketClose")] == [Handler("handleWebSocketClose")];
    assert [] + [Handler("handleWebSocketMessage")] == [Handler("handleWebSocketMessage")];
  }

  /** Appending a well-formed envelope keeps every envelope of the outbox well-formed. */
  lemma AppendOutbound(box: seq<Envelope>, e: Envelope)
    requires forall x :: x in box ==> IsOutbound(x)
    requires IsOutbound(e)
    ensures forall x :: x in box + [e] ==> IsOutbound(x)
  {
  }

  /** `getTracks().forEach(track => track.stop())`: every track ends; mute states are kept. */
  method StopAll(tracks: seq<Track>)
    modifies set t | t in tracks
    ensures forall t :: t in tracks ==> !t.live && t.enabled == old(t.enabled)
  {
    var i := 0;
    while i < |tracks|
      invariant 0 <= i <= |tracks|
      invariant forall k :: 0 <= k < i ==> !tracks[k].live
      invariant forall t :: t in tracks ==> t.enabled == old(t.enabled)
    {
      tracks[i].live := false;
      i := i + 1;
    }
  }

  class ChatController {
    const channel: SignalingChannel

    var username: string
    /** The value of the username input box, as the user typed it. */
    var usernameInput: string
    /** The value of the chat input box, as the user typed it. */
    var chatInput: string
    var localLabel: string
    var remoteLabel: string
    var chatLog: seq<Entry>
    var localStream: Option<Stream>
    var localVideo: Option<Stream>
    /** Attached by the peer connection when a remote track arrives. */
    var remoteVideo: Option<Stream>
    var endShown: bool
    var muteShown: bool
    var unmuteShown: bool
    var sendFileShown: bool
    var pcLog: seq<PcCall>

    ghost function State(): Snapshot
      reads this
    {
      Snapshot(username, usernameInput, chatInput, localLabel, remoteLabel, chatLog,
               localStream, localVideo, remoteVideo, endShown, muteShown, unmuteShown,
               sendFileShown, pcLog)
    }

    /** Everything the controller has sent is a well-formed outbound envelope. */
    ghost predicate Valid()
      reads this, channel
    {
      forall e :: e in channel.outbox ==> IsOutbound(e)
    }

    constructor (page: Page)
      ensures Valid() && fresh(channel)
      ensures channel.handlers == ChannelListeners && channel.outbox == [] && channel.invoked == []
      ensures State() == Snapshot("You", page.usernameInput, page.chatInput, page.localLabel,
                                  page.remoteLabel, [], None, None, None, page.endShown,
                                  page.muteShown, page.unmuteShown, page.sendFileShown, [])
    {
      var ch := new SignalingChannel();
      ch.On("open", Handler("handleWebSocketOpen"));
      ch.On("error", Handler("handleWebSocketError"));
      ch.On("close", Handler("handleWebSocketClose"));
      ch.On("message", Handler("handleWebSocketMessage"));
      ListenersOfFreshChannel();
      assert ch.handlers == ChannelListeners;
      channel := ch;
      username := "You";
      usernameInput, chatInput := page.usernameInput, page.chatInput;
      localLabel, remoteLabel := page.localLabel, page.remoteLabel;
      chatLog, localStream, localVideo, remoteVideo := [], None, None, None;
      endShown, muteShown, unmuteShown, sendFileShown :=
        page.endShown, page.muteShown, page.unmuteShown, page.sendFileShown;
      pcLog := [];
    }

    /** The `onIceCandidate` hook: each discovered candidate goes out tagged with the current name. */
    method OnIceCandidate(candidate: Candidate)
      requires Valid()
      modifies channel`outbox
      ensures Valid()
      ensures channel.outbox == old(channel.outbox) + [CandidateEnvelope(candidate, username)]
    {
      AppendOutbound(channel.outbox, CandidateEnvelope(candidate, username));
      channel.Send(CandidateEnvelope(candidate, username));
    }

    /** `handleWebSocketMessage` for one decoded envelope. */
    method HandleWebSocketMessage(msg: Envelope, remoteOk: bool, answer: Option<Description>)
      requires Valid()
      modifies this, channel`outbox, TracksOf(localStream)
      ensures Valid()
      ensures State() == AfterReceive(old(State()), msg, remoteOk, answer)
      ensures channel.outbox == old(channel.outbox) + ReceiveReply(old(State()), msg, remoteOk, answer)
      ensures msg.kind == "end" ==> forall t :: t in old(TracksOf(localStream)) ==> !t.live
      ensures forall t :: t in old(TracksOf(localStream)) ==> t.enabled == old(t.enabled)
      ensures msg.kind != "end" ==> forall t :: t in old(TracksOf(localStream)) ==> t.live == old(t.live)
    {
      match msg.kind
      case "offer" => HandleOffer(msg, remoteOk, answer);
      case "answer" => HandleAnswer(msg, remoteOk);
      case "candidate" => HandleCandidate(msg);
      case "chat" => DisplayChatMessage(msg, false);
      case "file" => DisplayFileMessage(msg, false);
      case "end" => HandleEndChat();
      case _ =>
    }

    /** `setUsername`: the typed name, or "Anonymous" when none was typed, also shown on the local label. */
    method SetUsername()
      modifies this
      ensures State() == old(State()).(username := DisplayName(old(usernameInput)),
                                       localLabel := DisplayName(old(usernameInput)))
    {
      username := DisplayName(usernameInput);
      localLabel := username;
    }

    /**
     * `startVideoChat`, with what the media request, `addStream` and
     * `createOffer` produce as parameters (`None`/false: it threw or rejected).
     * The offer goes out only when all three succeeded.
     */
    method StartVideoChat(media: Option<Stream>, addOk: bool, offer: Option<Description>)
      requires Valid()
      modifies this, channel`outbox
      ensures Valid()
      ensures State() == AfterStart(old(State()), media, addOk, offer)
      ensures channel.outbox == old(channel.outbox) +
                if Started(media, addOk, offer) then [OfferEnvelope(offer.value, username)] else []
    {
      if media.Some? {
        localStream := media;
        localVideo := media;
        pcLog := pcLog + [AddStream(media.value)];
        if addOk {
          pcLog := pcLog + [CreateOffer];
          if offer.Some? {
            AppendOutbound(channel.outbox, OfferEnvelope(offer.value, username));
            channel.Send(OfferEnvelope(offer.value, username));
            UpdateUIForChatStart();
          }
        }
      }
    }

    /** `endVideoChat`: one `end` envelope per call, with no guard, then the teardown. */
    method EndVideoChat()
      requires Valid()
      modifies this, channel`outbox, TracksOf(localStream)
      ensures Valid()
      ensures channel.outbox == old(channel.outbox) + [EndEnvelope()]
      ensures State() == AfterEnd(old(State()))
      ensures forall t :: t in old(TracksOf(localStream)) ==> !t.live && t.enabled == old(t.enabled)
    {
      AppendOutbound(channel.outbox, EndEnvelope());
      channel.Send(EndEnvelope());
      HandleEndChat();
    }

    /**
     * The file reader's `onload` for a picked file: the file goes out tagged
     * with the current name and shows as a sent entry. Nothing happens when
     * no file was picked or the file could not be read.
     */
    method HandleFileInput(filename: Option<string>, dataUrl: Option<DataUrl>)
      requires Valid()
      modifies this, channel`outbox
      ensures Valid()
      ensures filename.None? || dataUrl.None? ==>
                State() == old(State()) && channel.outbox == old(channel.outbox)
      ensures filename.Some? && dataUrl.Some? ==>
                var sent := FileEnvelope(dataUrl.value, filename.value, username);
                && channel.outbox == old(channel.outbox) + [sent]
                && State() == old(State()).(chatLog := old(chatLog) + [FileEntryOf(sent, true)])
    {
      if filename.Some? && dataUrl.Some? {
        var fileMessage := FileEnvelope(dataUrl.value, filename.value, username);
        AppendOutbound(channel.outbox, fileMessage);
        channel.Send(fileMessage);
        DisplayFileMessage(fileMessage, true);
      }
    }

    /**
     * `sendMessage`: white-space-only input sends and shows nothing; otherwise
     * one `chat` envelope with the trimmed text and the current name goes out,
     * one sent entry is shown and the input is cleared.
     */
    method SendMessage()
      requires Valid()
      modifies this, channel`outbox
      ensures Valid()
      ensures Blank(old(chatInput)) ==>
                State() == old(State()) && channel.outbox == old(channel.outbox)
      ensures !Blank(old(chatInput)) ==>
                var sent := ChatEnvelope(Trim(old(chatInput)), username);
                && channel.outbox == old(channel.outbox) + [sent]
                && State() == old(State()).(chatLog := old(chatLog) + [ChatEntry(true, ChatText(sent, true))],
                                            chatInput := "")
    {
      var message := Trim(chatInput);
      assert message == "" <==> Blank(chatInput) by { TrimEmptyIffBlank(chatInput); }
      if message != "" {
        var chatMessage := ChatEnvelope(message, username);
        AppendOutbound(channel.outbox, chatMessage);
        channel.Send(chatMessage);
        DisplayChatMessage(chatMessage, true);
        chatInput := "";
      }
    }

    /** `handleOffer`: apply the offer, create the answer, send it, then show the caller's name. */
    method HandleOffer(msg: Envelope, remoteOk: bool, answer: Option<Description>)
      requires Valid()
      modifies this, channel`outbox
      ensures Valid()
      ensures State() == AfterOffer(old(State()), msg, remoteOk, answer)
      ensures channel.outbox == old(channel.outbox) + OfferReply(old(State()), remoteOk, answer)
    {
      pcLog := pcLog + [SetRemoteDescription(msg.offer)];
      if remoteOk {
        pcLog := pcLog + [CreateAnswer];
        if answer.Some? {
          AppendOutbound(channel.outbox, AnswerEnvelope(answer.value, username));
          channel.Send(AnswerEnvelope(answer.value, username));
          remoteLabel := TextContent(msg.username);
        }
      }
    }

    /** `handleAnswer`: apply the answer and show the callee's name; nothing is sent. */
    method HandleAnswer(msg: Envelope, remoteOk: bool)
      modifies this
      ensures State() == AfterAnswer(old(State()), msg, remoteOk)
    {
      pcLog := pcLog + [SetRemoteDescription(msg.answer)];
      if remoteOk {
        remoteLabel := TextContent(msg.username);
      }
    }

    /** `handleCandidate`: the candidate goes straight to the peer connection, unqueued. */
    method HandleCandidate(msg: Envelope)
      modifies this
      ensures State() == AfterCandidate(old(State()), msg)
    {
      pcLog := pcLog + [AddIceCandidate(msg.candidate)];
    }

    /** `displayChatMessage`: one entry appended to the chat box. */
    method DisplayChatMessage(data: Envelope, isSent: bool)
      modifies this
      ensures State() == old(State()).(chatLog := old(chatLog) + [ChatEntry(isSent, ChatText(data, isSent))])
    {
      chatLog := chatLog + [ChatEntry(isSent, ChatText(data, isSent))];
    }

    /** `displayFileMessage`: one image entry appended to the chat box. */
    method DisplayFileMessage(data: Envelope, isSent: bool)
      modifies this
      ensures State() == old(State()).(chatLog := old(chatLog) + [FileEntryOf(data, isSent)])
    {
      chatLog := chatLog + [FileEntryOf(data, isSent)];
    }

    /** `handleEndChat`: every track of the local stream is stopped and the call state is cleared. */
    method HandleEndChat()
      modifies this, TracksOf(localStream)
      ensures State() == AfterEnd(old(State()))
      ensures forall t :: t in old(TracksOf(localStream)) ==> !t.live && t.enabled == old(t.enabled)
    {
      pcLog := pcLog + [ClosePeer];
      if localStream.Some? {
        StopAll(localStream.value.tracks);
        localStream := None;
      }
      localVideo := None;
      remoteVideo := None;
      ResetUI();
    }

    /**
     * `toggleMic`: with a local stream that has an audio track, that track's
     * `enabled` becomes `unmute` and exactly one of the mute and unmute
     * buttons is shown. Without a stream nothing changes; without an audio
     * track the lookup throws and nothing changes either.
     */
    method ToggleMic(unmute: bool)
      modifies this, TracksOf(localStream)
      ensures localStream.None? || FirstAudio(localStream.value.tracks) < 0 ==>
                State() == old(State()) && forall t :: t in TracksOf(localStream) ==> t.enabled == old(t.enabled)
      ensures localStream.Some? && FirstAudio(localStream.value.tracks) >= 0 ==>
                var ts := localStream.value.tracks;
                && State() == old(State()).(muteShown := unmute, unmuteShown := !unmute)
                && ts[FirstAudio(ts)].enabled == unmute
                && forall t :: t in ts && t != ts[FirstAudio(ts)] ==> t.enabled == old(t.enabled)
      ensures forall t :: t in old(TracksOf(localStream)) ==> t.live == old(t.live)
    {
      if localStream.Some? {
        var ts := localStream.value.tracks;
        var k := FirstAudio(ts);
        if k >= 0 {
          ts[k].enabled := unmute;
          muteShown := unmute;
          unmuteShown := !unmute;
        }
      }
    }

    /** `updateUIForChatStart`: the end, mute and send-file buttons are shown; nothing else changes. */
    method UpdateUIForChatStart()
      modifies this
      ensures State() == AfterChatStartUI(old(State()))
    {
      endShown, muteShown, sendFileShown := true, true, true;
    }

    /** `resetUI`: the remote label reads "Remote User", the chat box is empty, the call buttons are hidden. */
    method ResetUI()
      modifies this
      ensures State() == AfterResetUI(old(State()))
    {
      remoteLabel, chatLog := "Remote User", [];
      endShown, muteShown, unmuteShown, sendFileShown := false, false, false, false;
    }
  }
}
