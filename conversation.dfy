/** The conversation store (`createConversationStore`): the message list and its
    by-id updates, the input and audio modes and their interplay with recording, the
    clamped settings, the send and streaming actions, and `reset`. The id generator and
    the clock are outside the model: each action that adds a message is given the id
    and the timestamp it uses. */
module Conversation {
  import opened Common
  import opened JsString
  import Realtime

  datatype Role = User | Assistant | System
  /** `MessageType` */
  datatype MessageKind = TextKind | AudioKind
  /** `MessageStatus` */
  datatype Status = Sending | Streaming | Sent | Error
  datatype InputMode = TextInput | AudioInput
  /** `'ptt' | 'vad'` */
  datatype AudioMode = PushToTalk | VoiceActivated

  /** `Message`; the timestamp is in milliseconds. */
  datatype Message = Message(
    id: string,
    role: Role,
    kind: MessageKind,
    content: string,
    audioUrl: Option<string>,
    audioDuration: Option<int>,
    timestamp: int,
    status: Status)

  /** The options `addMessage` accepts. */
  datatype MessageOptions = MessageOptions(
    kind: Option<MessageKind>,
    audioUrl: Option<string>,
    audioDuration: Option<int>,
    status: Option<Status>)

  /** `Partial<Message>`: the properties an update carries. */
  datatype MessageUpdate = MessageUpdate(
    id: Option<string>,
    role: Option<Role>,
    kind: Option<MessageKind>,
    content: Option<string>,
    audioUrl: Option<string>,
    audioDuration: Option<int>,
    timestamp: Option<int>,
    status: Option<Status>)

  const NoChange := MessageUpdate(None, None, None, None, None, None, None, None)

  /** `ConversationConfig` and its resolved form (`settings`). */
  datatype Config = Config(
    defaultInputMode: Option<InputMode>,
    defaultAudioMode: Option<AudioMode>,
    vadSensitivity: Option<real>,
    vadSilenceTimeout: Option<int>,
    maxRecordingDuration: Option<int>)

  datatype Settings = Settings(
    defaultInputMode: InputMode,
    defaultAudioMode: AudioMode,
    vadSensitivity: real,
    vadSilenceTimeout: int,
    maxRecordingDuration: int)

  /** `{ ...DEFAULT_CONFIG, ...config }` */
  function ResolveSettings(c: Config): (s: Settings)
    ensures s.defaultInputMode == c.defaultInputMode.GetOr(TextInput)
    ensures s.defaultAudioMode == c.defaultAudioMode.GetOr(PushToTalk)
    ensures s.vadSensitivity == c.vadSensitivity.GetOr(0.5)
    ensures s.vadSilenceTimeout == c.vadSilenceTimeout.GetOr(1500)
    ensures s.maxRecordingDuration == c.maxRecordingDuration.GetOr(60000)
  {
    Settings(c.defaultInputMode.GetOr(TextInput), c.defaultAudioMode.GetOr(PushToTalk),
             c.vadSensitivity.GetOr(0.5), c.vadSilenceTimeout.GetOr(1500),
             c.maxRecordingDuration.GetOr(60000))
  }

  /** The message `addMessage` builds: type `text` and status `sent` unless the options
      say otherwise. */
  function NewMessage(id: string, role: Role, content: string, o: MessageOptions, now: int): (m: Message)
    ensures m.id == id && m.role == role && m.content == content && m.timestamp == now
    ensures m.kind == o.kind.GetOr(TextKind) && m.status == o.status.GetOr(Sent)
    ensures m.audioUrl == o.audioUrl && m.audioDuration == o.audioDuration
  {
    Message(id, role, o.kind.GetOr(TextKind), content, o.audioUrl, o.audioDuration, now, o.status.GetOr(Sent))
  }

  /** `{ ...msg, ...updates }` */
  function Apply(m: Message, u: MessageUpdate): (r: Message)
    ensures u == NoChange ==> r == m
    ensures r.id == (if u.id.Some? then u.id.value else m.id)
    ensures r.role == (if u.role.Some? then u.role.value else m.role)
    ensures r.kind == (if u.kind.Some? then u.kind.value else m.kind)
    ensures r.content == (if u.content.Some? then u.content.value else m.content)
    ensures r.audioUrl == (if u.audioUrl.Some? then u.audioUrl else m.audioUrl)
    ensures r.audioDuration == (if u.audioDuration.Some? then u.audioDuration else m.audioDuration)
    ensures r.timestamp == (if u.timestamp.Some? then u.timestamp.value else m.timestamp)
    ensures r.status == (if u.status.Some? then u.status.value else m.status)
  {
    Message(u.id.GetOr(m.id), u.role.GetOr(m.role), u.kind.GetOr(m.kind), u.content.GetOr(m.content),
            if u.audioUrl.Some? then u.audioUrl else m.audioUrl,
            if u.audioDuration.Some? then u.audioDuration else m.audioDuration,
            u.timestamp.GetOr(m.timestamp), u.status.GetOr(m.status))
  }

  /** `messages.map(msg => msg.id === id ? { ...msg, ...updates } : msg)`: every message
      with the id is updated, every other one is left exactly as it was. */
  function UpdateById(ms: seq<Message>, id: string, u: MessageUpdate): (r: seq<Message>)
    ensures |r| == |ms|
    ensures forall i | 0 <= i < |ms| && ms[i].id == id :: r[i] == Apply(ms[i], u)
    ensures forall i | 0 <= i < |ms| && ms[i].id != id :: r[i] == ms[i]
  {
    if ms == [] then []
    else [if ms[0].id == id then Apply(ms[0], u) else ms[0]] + UpdateById(ms[1..], id, u)
  }

  /** `messages.filter(msg => msg.id !== id)`: exactly the messages with the id go. */
  function RemoveById(ms: seq<Message>, id: string): (r: seq<Message>)
    ensures |r| <= |ms|
    ensures forall i | 0 <= i < |r| :: r[i].id != id
    ensures forall m :: m in r <==> m in ms && m.id != id
  {
    if ms == [] then []
    else (if ms[0].id == id then [] else [ms[0]]) + RemoveById(ms[1..], id)
  }

  /** Removing keeps the order of the rest: it works piecewise over a split list. */
  lemma {:induction false} RemoveByIdAppend(a: seq<Message>, b: seq<Message>, id: string)
    ensures RemoveById(a + b, id) == RemoveById(a, id) + RemoveById(b, id)
  {
    if a == [] {
      assert a + b == b;
    } else {
      assert (a + b)[1..] == a[1..] + b;
      RemoveByIdAppend(a[1..], b, id);
    }
  }

  predicate HasId(ms: seq<Message>, id: string) {
    exists i | 0 <= i < |ms| :: ms[i].id == id
  }

  /** Index of the first message with the id, `|ms|` when there is none. */
  function IndexOfId(ms: seq<Message>, id: string): (k: nat)
    ensures k <= |ms|
    ensures k < |ms| ==> ms[k].id == id
    ensures forall j | 0 <= j < k :: ms[j].id != id
  {
    if ms == [] then 0 else if ms[0].id == id then 0 else 1 + IndexOfId(ms[1..], id)
  }

  /** `messages.find(m => m.id === id)`: the first message with the id, if any. */
  function FindById(ms: seq<Message>, id: string): (r: Option<Message>)
    ensures r.None? <==> !HasId(ms, id)
    ensures r.Some? ==> r.value in ms && r.value.id == id
    ensures r.Some? ==> exists k | 0 <= k < |ms| :: ms[k] == r.value && forall j | 0 <= j < k :: ms[j].id != id
  {
    var k := IndexOfId(ms, id);
    if k < |ms| then Some(ms[k]) else None
  }

  /** No two messages share an id. */
  predicate UniqueIds(ms: seq<Message>) {
    forall i, j | 0 <= i < j < |ms| :: ms[i].id != ms[j].id
  }

  /** Adding a message with an id not yet used keeps the ids unique. */
  lemma AppendKeepsUnique(ms: seq<Message>, m: Message)
    requires UniqueIds(ms) && !HasId(ms, m.id)
    ensures UniqueIds(ms + [m])
  {
    var r := ms + [m];
    forall i, j | 0 <= i < j < |r|
      ensures r[i].id != r[j].id
    {
      if j == |ms| {
        assert r[i] == ms[i];
      }
    }
  }

  /** Updates that leave ids alone, and removals, keep the ids unique. */
  lemma UpdateKeepsUnique(ms: seq<Message>, id: string, u: MessageUpdate)
    requires UniqueIds(ms) && u.id.None?
    ensures UniqueIds(UpdateById(ms, id, u))
  {
    var r := UpdateById(ms, id, u);
    assert forall i | 0 <= i < |ms| :: r[i].id == ms[i].id;
  }

  lemma {:induction false} RemoveKeepsUnique(ms: seq<Message>, id: string)
    requires UniqueIds(ms)
    ensures UniqueIds(RemoveById(ms, id))
  {
    if ms != [] {
      RemoveKeepsUnique(ms[1..], id);
      var rest := RemoveById(ms[1..], id);
      if ms[0].id != id {
        var r := [ms[0]] + rest;
        forall i, j | 0 <= i < j < |r|
          ensures r[i].id != r[j].id
        {
          if i == 0 {
            assert r[j] in ms[1..];
          }
        }
      }
    }
  }

  function ContentUpdate(content: string): MessageUpdate {
    NoChange.(content := Some(content))
  }

  function StatusUpdate(status: Status): MessageUpdate {
    NoChange.(status := Some(status))
  }

  /** `appendToStream(id, chunk)` on the list: the messages with the id get the first
      such message's content followed by the chunk; without one nothing changes. */
  function AppendChunk(ms: seq<Message>, id: string, chunk: string): (r: seq<Message>)
    ensures !HasId(ms, id) ==> r == ms
    ensures HasId(ms, id) ==>
              var k := IndexOfId(ms, id);
              |r| == |ms| && r[k] == ms[k].(content := ms[k].content + chunk) &&
              forall i | 0 <= i < |ms| && ms[i].id != id :: r[i] == ms[i]
    // every message carrying the id, not only the first, gets the first one's content plus the chunk
    ensures HasId(ms, id) ==>
              forall i | 0 <= i < |ms| && ms[i].id == id ::
                r[i] == ms[i].(content := ms[IndexOfId(ms, id)].content + chunk)
  {
    match FindById(ms, id)
    case None => ms
    case Some(m) => UpdateById(ms, id, ContentUpdate(m.content + chunk))
  }

  /** Chunks appended one after another. */
  function AppendChunks(ms: seq<Message>, id: string, chunks: seq<string>): seq<Message>
    decreases |chunks|
  {
    if chunks == [] then ms else AppendChunks(AppendChunk(ms, id, chunks[0]), id, chunks[1..])
  }

  /** A message whose id appears only on it, last in the list, accumulates the chunks
      appended to it in order, and nothing else changes. */
  lemma {:induction false} AppendChunksToLast(ms: seq<Message>, m: Message, chunks: seq<string>)
    requires !HasId(ms, m.id)
    ensures AppendChunks(ms + [m], m.id, chunks) ==
              ms + [m.(content := m.content + Concat(chunks))]
    decreases |chunks|
  {
    if chunks == [] {
      assert m.content + "" == m.content;
      assert m.(content := m.content) == m;
    } else {
      var next := m.(content := m.content + chunks[0]);
      AppendChunkToLast(ms, m, chunks[0]);
      AppendChunksToLast(ms, next, chunks[1..]);
      assert m.content + chunks[0] + Concat(chunks[1..]) ==
             m.content + Concat(chunks);
    }
  }

  /** One chunk appended to the last message, whose id no earlier message has. */
  lemma AppendChunkToLast(ms: seq<Message>, m: Message, chunk: string)
    requires !HasId(ms, m.id)
    ensures AppendChunk(ms + [m], m.id, chunk) == ms + [m.(content := m.content + chunk)]
  {
    var l := ms + [m];
    IndexPastPrefix(ms, m);
    assert HasId(l, m.id) by {
      assert l[|ms|].id == m.id;
    }
    var r := AppendChunk(l, m.id, chunk);
    assert forall i | 0 <= i < |ms| :: l[i] == ms[i] && r[i] == ms[i];
  }

  /** The first message with the id of a message appended after messages without that
      id is the appended one. */
  lemma {:induction false} IndexPastPrefix(ms: seq<Message>, m: Message)
    requires !HasId(ms, m.id)
    ensures IndexOfId(ms + [m], m.id) == |ms|
  {
    if ms == [] {
      assert ms + [m] == [m];
    } else {
      assert ms[0].id != m.id;
      assert (ms + [m])[1..] == ms[1..] + [m];
      assert !HasId(ms[1..], m.id) by {
        forall i | 0 <= i < |ms[1..]|
          ensures ms[1..][i].id != m.id
        {
          assert ms[1..][i] == ms[i + 1];
        }
      }
      IndexPastPrefix(ms[1..], m);
    }
  }

  /** The streaming options `startAssistantStream` passes. */
  const StreamOptions := MessageOptions(Some(TextKind), None, None, Some(Streaming))

  /** A streamed reply, start to finish: started with a fresh id, given its chunks and
      completed, it is the last message, an assistant text whose content is the chunks
      in order and whose status is `sent`; the messages before it are untouched. */
  lemma StreamLifecycle(ms: seq<Message>, id: string, now: int, chunks: seq<string>)
    requires !HasId(ms, id)
    ensures var started := ms + [NewMessage(id, Assistant, "", StreamOptions, now)];
            UpdateById(AppendChunks(started, id, chunks), id, StatusUpdate(Sent)) ==
              ms + [Message(id, Assistant, TextKind, Concat(chunks), None, None, now, Sent)]
  {
    var m := NewMessage(id, Assistant, "", StreamOptions, now);
    AppendChunksToLast(ms, m, chunks);
    var filled := m.(content := "" + Concat(chunks));
    assert "" + Concat(chunks) == Concat(chunks);
    CompleteLast(ms, filled);
  }

  /** Completing the last message, whose id nothing before it has, marks only it sent. */
  lemma CompleteLast(ms: seq<Message>, m: Message)
    requires !HasId(ms, m.id)
    ensures UpdateById(ms + [m], m.id, StatusUpdate(Sent)) == ms + [m.(status := Sent)]
  {
    var l := ms + [m];
    var r := UpdateById(l, m.id, StatusUpdate(Sent));
    assert Apply(m, StatusUpdate(Sent)) == m.(status := Sent);
    assert forall i | 0 <= i < |ms| :: l[i] == ms[i] && l[i].id != m.id;
  }

  /** What `sendTextMessage` sends: the trimmed input, or nothing when it is blank or
      sending is not possible. */
  function TextToSend(content: string, canSend: bool): (r: Option<string>)
    ensures r.None? <==> AllWhitespace(content) || !canSend
    ensures r.Some? ==> r.value == Trim(content) && r.value != ""
    ensures r.Some? ==> !IsWhitespace(r.value[0]) && !IsWhitespace(r.value[|r.value| - 1])
  {
    var t := Trim(content);
    if t == "" || !canSend then None else Some(t)
  }

  /** `addAssistantMessage`'s type: audio exactly when an audio URL is given and non-empty. */
  function AssistantKind(audioUrl: Option<string>): (k: MessageKind)
    ensures k == AudioKind <==> audioUrl.Some? && audioUrl.value != ""
  {
    if audioUrl.Some? && audioUrl.value != "" then AudioKind else TextKind
  }

  class ConversationStore {
    const settings: Settings
    var messages: seq<Message>
    var inputMode: InputMode
    var audioMode: AudioMode
    var isRecording: bool
    var isProcessing: bool
    var isSpeaking: bool
    var connectionState: Realtime.ConnectionState
    var error: Option<string>
    var audioLevel: real
    var recordingDuration: int
    var currentTranscript: string
    var vadSensitivity: real
    var vadSilenceTimeout: int

    /** `createConversationStore(config)` */
    constructor (config: Config)
      ensures settings == ResolveSettings(config)
      ensures messages == [] && inputMode == settings.defaultInputMode && audioMode == settings.defaultAudioMode
      ensures !isRecording && !isProcessing && !isSpeaking && error == None
      ensures connectionState == Realtime.Disconnected
      ensures audioLevel == 0.0 && recordingDuration == 0 && currentTranscript == ""
      ensures vadSensitivity == settings.vadSensitivity && vadSilenceTimeout == settings.vadSilenceTimeout
    {
      var s := ResolveSettings(config);
      settings := s;
      messages := [];
      inputMode := s.defaultInputMode;
      audioMode := s.defaultAudioMode;
      isRecording := false;
      isProcessing := false;
      isSpeaking := false;
      connectionState := Realtime.Disconnected;
      error := None;
      audioLevel := 0.0;
      recordingDuration := 0;
      currentTranscript := "";
      vadSensitivity := s.vadSensitivity;
      vadSilenceTimeout := s.vadSilenceTimeout;
    }

    /** `canSend`: not recording, not processing, and connected. */
    function CanSend(): (r: bool)
      reads this
      ensures r ==> connectionState == Realtime.Connected
      ensures r <==> !isRecording && !isProcessing && connectionState == Realtime.Connected
    {
      !isRecording && !isProcessing && connectionState == Realtime.Connected
    }

    /** `hasMessages` */
    function HasMessages(): (r: bool)
      reads this
      ensures r <==> LastMessage().Some?
    {
      |messages| > 0
    }

    /** `lastMessage` */
    function LastMessage(): (r: Option<Message>)
      reads this
      ensures r.None? <==> messages == []
      ensures r.Some? ==> r.value == messages[|messages| - 1]
    {
      if messages == [] then None else Some(messages[|messages| - 1])
    }

    /** `isAudioMode` */
    function IsAudioMode(): (r: bool)
      reads this
      ensures r <==> inputMode != TextInput
    {
      inputMode == AudioInput
    }

    /** `isPTTMode`: the audio mode alone decides it, whatever the input mode. */
    function IsPttMode(): (r: bool)
      reads this
      ensures r <==> !IsVadMode()
    {
      audioMode == PushToTalk
    }

    /** `isVADMode` */
    function IsVadMode(): (r: bool)
      reads this
      ensures r <==> audioMode != PushToTalk
    {
      audioMode == VoiceActivated
    }

    /** `addMessage(role, content, options)` with the given id and time: the message goes
        at the end and the earlier ones are untouched. */
    method AddMessage(role: Role, content: string, options: MessageOptions, id: string, now: int)
      returns (m: Message)
      modifies this`messages
      ensures m == NewMessage(id, role, content, options, now)
      ensures messages == old(messages) + [m]
      ensures LastMessage() == Some(m) && HasMessages()
    {
      m := NewMessage(id, role, content, options, now);
      messages := messages + [m];
    }

    /** `updateMessage(id, updates)` */
    method UpdateMessage(id: string, u: MessageUpdate)
      modifies this`messages
      ensures messages == UpdateById(old(messages), id, u)
    {
      messages := UpdateById(messages, id, u);
    }

    /** `removeMessage(id)` */
    method RemoveMessage(id: string)
      modifies this`messages
      ensures messages == RemoveById(old(messages), id)
    {
      messages := RemoveById(messages, id);
    }

    /** `clearMessages()` */
    method ClearMessages()
      modifies this`messages
      ensures messages == [] && !HasMessages()
    {
      messages := [];
    }

    /** `setInputMode(mode)`: leaving audio input stops a recording. */
    method SetInputMode(mode: InputMode)
      modifies this`inputMode, this`isRecording
      ensures inputMode == mode
      ensures isRecording == (old(isRecording) && mode == AudioInput)
    {
      inputMode := mode;
      if mode != AudioInput && isRecording {
        StopRecording();
      }
    }

    /** `toggleInputMode()` */
    method ToggleInputMode()
      modifies this`inputMode, this`isRecording
      ensures inputMode != old(inputMode)
      ensures isRecording == (old(isRecording) && old(inputMode) == TextInput)
    {
      SetInputMode(if inputMode == TextInput then AudioInput else TextInput);
    }

    /** `setAudioMode(mode)`: any change of audio mode stops a recording. */
    method SetAudioMode(mode: AudioMode)
      modifies this`audioMode, this`isRecording
      ensures audioMode == mode && !isRecording
    {
      audioMode := mode;
      if isRecording {
        StopRecording();
      }
    }

    /** `toggleAudioMode()` */
    method ToggleAudioMode()
      modifies this`audioMode, this`isRecording
      ensures audioMode != old(audioMode) && !isRecording
    {
      SetAudioMode(if audioMode == PushToTalk then VoiceActivated else PushToTalk);
    }

    /** `startRecording()`: nothing while recording; otherwise recording from zero with
        the error cleared. */
    method StartRecording()
      modifies this`isRecording, this`recordingDuration, this`error
      ensures isRecording
      ensures old(isRecording) ==> recordingDuration == old(recordingDuration) && error == old(error)
      ensures !old(isRecording) ==> recordingDuration == 0 && error == None
    {
      if isRecording {
        return;
      }
      isRecording := true;
      recordingDuration := 0;
      error := None;
    }

    /** `stopRecording()` */
    method StopRecording()
      modifies this`isRecording
      ensures !isRecording
    {
      isRecording := false;
    }

    /** `setAudioLevel(level)`: clamped to [0, 1]. */
    method SetAudioLevel(level: real)
      modifies this`audioLevel
      ensures audioLevel == ClampReal(0.0, 1.0, level) && 0.0 <= audioLevel <= 1.0
    {
      audioLevel := ClampReal(0.0, 1.0, level);
    }

    method SetRecordingDuration(duration: int)
      modifies this`recordingDuration
      ensures recordingDuration == duration
    {
      recordingDuration := duration;
    }

    method SetCurrentTranscript(transcript: string)
      modifies this`currentTranscript
      ensures currentTranscript == transcript
    {
      currentTranscript := transcript;
    }

    method SetProcessing(processing: bool)
      modifies this`isProcessing
      ensures isProcessing == processing
    {
      isProcessing := processing;
    }

    method SetSpeaking(speaking: bool)
      modifies this`isSpeaking
      ensures isSpeaking == speaking
    {
      isSpeaking := speaking;
    }

    method SetConnectionState(state: Realtime.ConnectionState)
      modifies this`connectionState
      ensures connectionState == state
    {
      connectionState := state;
    }

    method SetError(err: Option<string>)
      modifies this`error
      ensures error == err
    {
      error := err;
    }

    method ClearError()
      modifies this`error
      ensures error == None
    {
      error := None;
    }

    /** `setVADSensitivity(sensitivity)`: clamped to [0, 1]. */
    method SetVadSensitivity(sensitivity: real)
      modifies this`vadSensitivity
      ensures vadSensitivity == ClampReal(0.0, 1.0, sensitivity) && 0.0 <= vadSensitivity <= 1.0
    {
      vadSensitivity := ClampReal(0.0, 1.0, sensitivity);
    }

    /** `setVADSilenceTimeout(timeout)`: clamped to [500, 5000] ms. */
    method SetVadSilenceTimeout(timeout: int)
      modifies this`vadSilenceTimeout
      ensures vadSilenceTimeout == ClampInt(500, 5000, timeout) && 500 <= vadSilenceTimeout <= 5000
    {
      vadSilenceTimeout := ClampInt(500, 5000, timeout);
    }

    /** `sendTextMessage(content)`: nothing for blank input or when sending is not
        possible; otherwise a user text message with the trimmed input, status `sending`. */
    method SendTextMessage(content: string, id: string, now: int) returns (r: Option<Message>)
      modifies this`messages
      ensures r.None? <==> AllWhitespace(content) || !CanSend()
      ensures r.None? ==> messages == old(messages)
      ensures r.Some? ==>
                r.value == Message(id, User, TextKind, Trim(content), None, None, now, Sending) &&
                messages == old(messages) + [r.value]
    {
      var text := TextToSend(content, CanSend());
      if text.None? {
        return None;
      }
      var m := AddMessage(User, text.value, MessageOptions(Some(TextKind), None, None, Some(Sending)), id, now);
      r := Some(m);
    }

    /** `sendAudioMessage(audioUrl, transcript, duration)`: only `canSend` is checked. */
    method SendAudioMessage(audioUrl: string, transcript: string, duration: Option<int>, id: string, now: int)
      returns (r: Option<Message>)
      modifies this`messages
      ensures r.None? <==> !CanSend()
      ensures r.None? ==> messages == old(messages)
      ensures r.Some? ==>
                r.value == Message(id, User, AudioKind, transcript, Some(audioUrl), duration, now, Sending) &&
                messages == old(messages) + [r.value]
    {
      if !CanSend() {
        return None;
      }
      var m := AddMessage(User, transcript, MessageOptions(Some(AudioKind), Some(audioUrl), duration, Some(Sending)), id, now);
      r := Some(m);
    }

    /** `addAssistantMessage(content, options)`: an audio message when an audio URL is
        given, otherwise text; always `sent`. */
    method AddAssistantMessage(content: string, audioUrl: Option<string>, audioDuration: Option<int>, id: string, now: int)
      returns (m: Message)
      modifies this`messages
      ensures m == Message(id, Assistant, AssistantKind(audioUrl), content, audioUrl, audioDuration, now, Sent)
      ensures messages == old(messages) + [m]
    {
      m := AddMessage(Assistant, content, MessageOptions(Some(AssistantKind(audioUrl)), audioUrl, audioDuration, Some(Sent)), id, now);
    }

    /** `startAssistantStream()`: an empty assistant text message in status `streaming`. */
    method StartAssistantStream(id: string, now: int) returns (m: Message)
      modifies this`messages
      ensures m == Message(id, Assistant, TextKind, "", None, None, now, Streaming)
      ensures messages == old(messages) + [m]
    {
      m := AddMessage(Assistant, "", StreamOptions, id, now);
    }

    /** `appendToStream(id, chunk)` */
    method AppendToStream(id: string, chunk: string)
      modifies this`messages
      ensures messages == AppendChunk(old(messages), id, chunk)
    {
      var found := FindById(messages, id);
      if found.Some? {
        UpdateMessage(id, ContentUpdate(found.value.content + chunk));
      }
    }

    /** `completeStream(id)`: the status becomes `sent`, whatever it was. */
    method CompleteStream(id: string)
      modifies this`messages
      ensures messages == UpdateById(old(messages), id, StatusUpdate(Sent))
    {
      UpdateMessage(id, StatusUpdate(Sent));
    }

    /** `reset()`: back to the initial conversation; the connection state and the VAD
        settings are kept. */
    method Reset()
      modifies this`messages, this`inputMode, this`audioMode, this`isRecording, this`isProcessing,
               this`isSpeaking, this`error, this`audioLevel, this`recordingDuration, this`currentTranscript
      ensures messages == [] && inputMode == settings.defaultInputMode && audioMode == settings.defaultAudioMode
      ensures !isRecording && !isProcessing && !isSpeaking && error == None
      ensures audioLevel == 0.0 && recordingDuration == 0 && currentTranscript == ""
    {
      messages := [];
      inputMode := settings.defaultInputMode;
      audioMode := settings.defaultAudioMode;
      isRecording := false;
      isProcessing := false;
      isSpeaking := false;
      error := None;
      audioLevel := 0.0;
      recordingDuration := 0;
      currentTranscript := "";
    }
  }

  /** A streamed reply built through the store: "Hel" then "lo" gives "Hello", sent. */
  method StreamScenario() returns (reply: Message)
    ensures reply == Message("m1", Assistant, TextKind, "Hello", None, None, 5, Sent)
  {
    var store := new ConversationStore(Config(None, None, None, None, None));
    var started := store.StartAssistantStream("m1", 5);
    store.AppendToStream("m1", "Hel");
    store.AppendToStream("m1", "lo");
    store.CompleteStream("m1");
    reply := store.messages[0];
  }
}
