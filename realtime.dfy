/** The WebSocket conversation client (`RealtimeClient`): its connection state machine,
    the queue of messages sent while not connected, routing of server frames to the
    client's callbacks, and reconnection with exponential backoff. The socket, the
    timer and the URL encoder are outside the model: their outcomes are inputs, and
    what the client sends, opens, schedules and reports is kept in logs. */
module Realtime {
  import opened Common
  import opened JsString

  datatype ConnectionState = Disconnected | Connecting | Connected | Reconnecting

  /** `ClientMessage` as the client builds it (`ClientTextMessage`, `audio_end`). */
  datatype ClientMessage =
    | TextMessage(content: string, conversationId: Option<string>)
    | AudioEnd(conversationId: Option<string>)

  /** What goes out on the socket. */
  datatype OutFrame =
    | JsonFrame(message: ClientMessage)   // `ws.send(JSON.stringify(message))`
    | BinaryFrame(data: Bytes)            // `ws.send(chunk)`
    | CloseFrame(code: int, reason: string)

  /** A parsed server text frame (`ServerMessage`); absent properties are `None`. */
  datatype ServerMessage = ServerMessage(
    kind: string,
    text: Option<string>,
    isFinal: Option<bool>,
    data: Option<Bytes>,
    message: Option<string>)

  /** A frame from the server: binary data, or text that parses to a message or does not. */
  datatype Incoming = BinaryData(data: Bytes) | TextData(parsed: Option<ServerMessage>)

  /** A call of one of the client's callbacks. */
  datatype Notification =
    | ConnectionChanged(state: ConnectionState)   // `onConnectionChange`
    | MessageReceived(message: ServerMessage)     // `onMessage`
    | AudioChunkReceived(data: Bytes)             // `onAudioChunk`
    | TranscriptReceived(text: string, isFinal: bool)  // `onTranscript`
    | ErrorRaised(error: string)                  // `onError`

  /** `x || undefined` for a string that is `""` when unset. */
  function Truthy(s: string): (r: Option<string>)
    ensures r.None? <==> s == ""
    ensures r.Some? ==> r.value == s
  {
    if s == "" then None else Some(s)
  }

  /** `handleMessage`: the callback a server frame reaches. */
  function Route(frame: Incoming): (r: seq<Notification>)
    ensures |r| <= 1
    ensures frame.BinaryData? ==> r == [AudioChunkReceived(frame.data)]
    ensures frame == TextData(None) ==> r == []
    ensures forall k | 0 <= k < |r| && r[k].ErrorRaised? :: r[k].error != ""
    ensures frame.TextData? && frame.parsed.Some? ==>
              var m := frame.parsed.value;
              (m.kind == "transcript" ==> r == [TranscriptReceived(m.text.GetOr(""), m.isFinal.GetOr(false))]) &&
              (m.kind == "audio_chunk" ==> r == if m.data.Some? then [AudioChunkReceived(m.data.value)] else []) &&
              (m.kind == "error" ==> r == [ErrorRaised(if m.message.GetOr("") != "" then m.message.value else "Unknown server error")]) &&
              (m.kind !in {"transcript", "audio_chunk", "error"} ==> r == [MessageReceived(m)])
  {
    match frame
    case BinaryData(d) => [AudioChunkReceived(d)]
    case TextData(None) => []
    case TextData(Some(m)) =>
      if m.kind == "transcript" then [TranscriptReceived(m.text.GetOr(""), m.isFinal.GetOr(false))]
      else if m.kind == "audio_chunk" then (if m.data.Some? then [AudioChunkReceived(m.data.value)] else [])
      else if m.kind == "error" then
        [ErrorRaised(if m.message.GetOr("") != "" then m.message.value else "Unknown server error")]
      else [MessageReceived(m)]
  }

  /** `onConnectionChange` is called only when the state actually changes. */
  function Notify(from: ConnectionState, to: ConnectionState): (r: seq<Notification>)
    ensures r == [] <==> from == to
    ensures r != [] ==> r == [ConnectionChanged(to)]
  {
    if from != to then [ConnectionChanged(to)] else []
  }

  function Pow2(n: nat): (r: nat)
    ensures r >= 1
  {
    if n == 0 then 1 else 2 * Pow2(n - 1)
  }

  /** `reconnectDelay * Math.pow(2, attempts)`. */
  function Backoff(baseDelay: int, attempts: nat): (r: int)
    ensures attempts == 0 ==> r == baseDelay
    ensures baseDelay >= 0 ==> r >= baseDelay
  {
    var p := Pow2(attempts);
    assert baseDelay * p - baseDelay == baseDelay * (p - 1);
    baseDelay * p
  }

  /** The first retry waits the base delay, and each further one twice as long as the
      one before. */
  lemma BackoffDoubles(baseDelay: int, attempts: nat)
    ensures Backoff(baseDelay, 0) == baseDelay
    ensures Backoff(baseDelay, attempts + 1) == 2 * Backoff(baseDelay, attempts)
  {
    var p := Pow2(attempts);
    assert Pow2(attempts + 1) == 2 * p;
    assert baseDelay * (2 * p) == 2 * (baseDelay * p);
  }

  /** The query string `URLSearchParams` produces for the token and the conversation id;
      `encode` is its form encoding of a value. */
  function Query(token: string, conversationId: string, encode: string -> string): (q: string)
    ensures q == "" <==> token == "" && conversationId == ""
    ensures token != "" ==>
              q == "token=" + encode(token) +
                   (if conversationId != "" then "&conversationId=" + encode(conversationId) else "")
    ensures token == "" && conversationId != "" ==> q == "conversationId=" + encode(conversationId)
  {
    if token != "" && conversationId != "" then
      "token=" + encode(token) + "&conversationId=" + encode(conversationId)
    else if token != "" then "token=" + encode(token)
    else if conversationId != "" then "conversationId=" + encode(conversationId)
    else ""
  }

  /** The parameters that are present, each as `name=value`, token first. */
  function Params(token: string, conversationId: string, encode: string -> string): (r: seq<string>)
  {
    (if token != "" then ["token=" + encode(token)] else []) +
    (if conversationId != "" then ["conversationId=" + encode(conversationId)] else [])
  }

  /** Cutting the query at `&` gives back exactly the parameters that are present, in
      order, when the encoder never produces `&` (form encoding escapes it). */
  lemma QueryParams(token: string, conversationId: string, encode: string -> string)
    requires token != "" || conversationId != ""
    requires forall v :: '&' !in encode(v)
    ensures Split(Query(token, conversationId, encode), '&') == Params(token, conversationId, encode)
  {
    var t := "token=" + encode(token);
    var c := "conversationId=" + encode(conversationId);
    NoAmpersand("token=", encode(token));
    NoAmpersand("conversationId=", encode(conversationId));
    if token != "" && conversationId != "" {
      assert Query(token, conversationId, encode) == t + ['&'] + c;
      SplitAround(t, c, '&');
      SplitWithoutSeparator(c, '&');
    } else if token != "" {
      assert Query(token, conversationId, encode) == t;
      SplitWithoutSeparator(t, '&');
    } else {
      assert Query(token, conversationId, encode) == c;
      SplitWithoutSeparator(c, '&');
    }
  }

  /** A parameter name followed by an encoded value has no `&`. */
  lemma NoAmpersand(name: string, value: string)
    requires name == "token=" || name == "conversationId="
    requires '&' !in value
    ensures '&' !in name + value
  {
    assert forall k | 0 <= k < |name| :: name[k] != '&';
  }

  /** The URL `connect` opens: the endpoint, then the query after `?`, or after `&` when
      the endpoint already has a query. */
  function SocketUrl(base: string, token: string, conversationId: string, encode: string -> string): (url: string)
    ensures |url| >= |base| && url[..|base|] == base
    ensures url == base <==> token == "" && conversationId == ""
    ensures url != base ==>
              url[|base|] == (if '?' in base then '&' else '?') &&
              url[|base| + 1..] == Query(token, conversationId, encode)
  {
    var q := Query(token, conversationId, encode);
    if q == "" then base else base + [if '?' in base then '&' else '?'] + q
  }

  /** An endpoint without a query gets exactly one `?`, before the parameters, when the
      encoder never produces `?` (form encoding escapes it). */
  lemma SocketUrlSingleQuery(base: string, token: string, conversationId: string, encode: string -> string, i: nat)
    requires '?' !in base
    requires forall s :: '?' !in encode(s)
    requires i < |SocketUrl(base, token, conversationId, encode)|
    ensures SocketUrl(base, token, conversationId, encode)[i] == '?' <==>
              i == |base| && (token != "" || conversationId != "")
  {
    var url := SocketUrl(base, token, conversationId, encode);
    var q := Query(token, conversationId, encode);
    if url != base {
      assert url == base + ['?'] + q;
      if i > |base| {
        assert url[i] == q[i - |base| - 1];
        var t := encode(token);
        var c := encode(conversationId);
        assert '?' !in t && '?' !in c;
        assert '?' !in "token=" && '?' !in "&conversationId=" && '?' !in "conversationId=";
        assert '?' !in q;
      } else if i < |base| {
        assert url[i] == base[i];
      }
    } else {
      assert url[i] == base[i];
    }
  }

  /** How `handleClose` ends a connection. */
  datatype CloseDecision = CleanClose | Retry(delay: int) | GiveUp(error: string)

  /** `handleClose` (with `scheduleReconnect`'s delay): a normal close (1000) ends the
      connection; otherwise the client retries while attempts remain, and gives up
      with an error once they are spent. */
  function CloseOutcome(code: int, reason: string, autoReconnect: bool, attempts: nat,
                        maxAttempts: int, baseDelay: int): (d: CloseDecision)
    ensures d.CleanClose? <==> code == 1000
    ensures d.Retry? <==> code != 1000 && autoReconnect && attempts < maxAttempts
    ensures d.Retry? ==> d.delay == Backoff(baseDelay, attempts)
    ensures d.GiveUp? ==>
              d.error == "Connection closed: " + (if reason == "" then "Unknown reason" else reason)
  {
    if code == 1000 then CleanClose
    else if autoReconnect && attempts < maxAttempts then Retry(Backoff(baseDelay, attempts))
    else GiveUp("Connection closed: " + (if reason == "" then "Unknown reason" else reason))
  }

  /** The decisions a run of `n` abnormal closes meets when no connection opens in
      between, starting with `attempts` spent: every retry spends one. */
  function AbnormalCloses(n: nat, code: int, reason: string, attempts: nat, maxAttempts: int, baseDelay: int)
    : (r: seq<CloseDecision>)
    ensures |r| == n
  {
    if n == 0 then []
    else
      var d := CloseOutcome(code, reason, true, attempts, maxAttempts, baseDelay);
      [d] + AbnormalCloses(n - 1, code, reason, if d.Retry? then attempts + 1 else attempts, maxAttempts, baseDelay)
  }

  /** With automatic reconnection and `attempts` of `maxAttempts` spent, the next
      `maxAttempts - attempts` abnormal closes retry after doubling delays, and the one
      after them gives up. */
  lemma {:induction false} RetryBudget(code: int, reason: string, attempts: nat, maxAttempts: nat, baseDelay: int)
    requires code != 1000 && attempts <= maxAttempts
    ensures var r := AbnormalCloses(maxAttempts - attempts + 1, code, reason, attempts, maxAttempts, baseDelay);
            (forall k | 0 <= k < maxAttempts - attempts :: r[k] == Retry(Backoff(baseDelay, attempts + k))) &&
            r[maxAttempts - attempts].GiveUp?
    decreases maxAttempts - attempts
  {
    var n := maxAttempts - attempts + 1;
    var r := AbnormalCloses(n, code, reason, attempts, maxAttempts, baseDelay);
    if attempts < maxAttempts {
      RetryBudget(code, reason, attempts + 1, maxAttempts, baseDelay);
      var tail := AbnormalCloses(n - 1, code, reason, attempts + 1, maxAttempts, baseDelay);
      assert r == [Retry(Backoff(baseDelay, attempts))] + tail;
      forall k | 1 <= k < maxAttempts - attempts
        ensures r[k] == Retry(Backoff(baseDelay, attempts + k))
      {
        assert r[k] == tail[k - 1];
      }
    }
  }

  /** Once the attempts are spent, every further abnormal close gives up at once:
      nothing but an open connection gives the attempts back. */
  lemma {:induction false} SpentBudgetStaysSpent(n: nat, code: int, reason: string, attempts: nat, maxAttempts: int, baseDelay: int)
    requires code != 1000 && attempts >= maxAttempts
    ensures forall k | 0 <= k < n :: AbnormalCloses(n, code, reason, attempts, maxAttempts, baseDelay)[k].GiveUp?
  {
    if n > 0 {
      SpentBudgetStaysSpent(n - 1, code, reason, attempts, maxAttempts, baseDelay);
    }
  }

  /** The frames a queue of messages becomes when sent in order. */
  function Frames(messages: seq<ClientMessage>): (r: seq<OutFrame>)
    ensures |r| == |messages|
    ensures forall k | 0 <= k < |r| :: r[k] == JsonFrame(messages[k])
  {
    if messages == [] then [] else [JsonFrame(messages[0])] + Frames(messages[1..])
  }

  /** Sending one more message appends its frame. */
  lemma FramesSnoc(messages: seq<ClientMessage>, m: ClientMessage)
    ensures Frames(messages + [m]) == Frames(messages) + [JsonFrame(m)]
  {
  }

  class RealtimeClient {
    const url: string
    const authToken: string
    const autoReconnect: bool
    const maxReconnectAttempts: int
    const reconnectDelay: int
    /** `URLSearchParams`' encoding of a parameter value. */
    const encode: string -> string

    /** `conversationId`, with `""` for `null`. */
    var conversationId: string
    /** `ws` is set. */
    var hasSocket: bool
    var state: ConnectionState
    var reconnectAttempts: nat
    /** A reconnection callback is scheduled and has not run yet. */
    var timerPending: bool
    var pending: seq<ClientMessage>
    var sent: seq<OutFrame>
    var notifications: seq<Notification>
    /** The URLs sockets were socketUrls on, and the delays reconnections were scheduled with. */
    var socketUrls: seq<string>
    var scheduled: seq<int>

    /** A socket exists exactly while connecting or connected, and nothing waits in the
        queue while connected. */
    ghost predicate Valid()
      reads this
    {
      (hasSocket <==> state == Connecting || state == Connected) &&
      (state == Connected ==> pending == [])
    }

    /** `new RealtimeClient(options)` with the documented defaults. */
    constructor (url: string, authToken: Option<string>, conversationId: Option<string>,
                 autoReconnect: Option<bool>, maxReconnectAttempts: Option<int>,
                 reconnectDelay: Option<int>, encode: string -> string)
      ensures Valid()
      ensures this.url == url && this.authToken == authToken.GetOr("") && this.encode == encode
      ensures this.autoReconnect == autoReconnect.GetOr(true)
      ensures this.maxReconnectAttempts == maxReconnectAttempts.GetOr(5)
      ensures this.reconnectDelay == reconnectDelay.GetOr(1000)
      ensures this.conversationId == conversationId.GetOr("")
      ensures state == Disconnected && !hasSocket && reconnectAttempts == 0 && !timerPending
      ensures pending == [] && sent == [] && notifications == [] && socketUrls == [] && scheduled == []
    {
      this.url := url;
      this.authToken := authToken.GetOr("");
      this.autoReconnect := autoReconnect.GetOr(true);
      this.maxReconnectAttempts := maxReconnectAttempts.GetOr(5);
      this.reconnectDelay := reconnectDelay.GetOr(1000);
      this.encode := encode;
      this.conversationId := conversationId.GetOr("");
      hasSocket := false;
      state := Disconnected;
      reconnectAttempts := 0;
      timerPending := false;
      pending := [];
      sent := [];
      notifications := [];
      socketUrls := [];
      scheduled := [];
    }

    /** `isConnected` */
    function IsConnected(): (r: bool)
      reads this
      ensures r <==> state == Connected
    {
      state == Connected
    }

    /** `setConnectionState` */
    method SetState(s: ConnectionState)
      modifies this`state, this`notifications
      ensures state == s
      ensures notifications == old(notifications) + Notify(old(state), s)
    {
      if state != s {
        state := s;
        notifications := notifications + [ConnectionChanged(s)];
      }
    }

    /** `connect()`: nothing while connecting or connected; otherwise open a socket on
        the URL with the token and the conversation id. `socketOk` is whether the
        socket could be created. */
    method Connect(socketOk: bool)
      requires Valid()
      modifies this`state, this`notifications, this`hasSocket, this`socketUrls
      ensures Valid()
      ensures old(state) == Connected || old(state) == Connecting ==>
                state == old(state) && hasSocket == old(hasSocket) &&
                notifications == old(notifications) && socketUrls == old(socketUrls)
      ensures old(state) != Connected && old(state) != Connecting && socketOk ==>
                state == Connecting && hasSocket &&
                notifications == old(notifications) + [ConnectionChanged(Connecting)] &&
                socketUrls == old(socketUrls) + [SocketUrl(url, authToken, conversationId, encode)]
      ensures old(state) != Connected && old(state) != Connecting && !socketOk ==>
                state == Disconnected && !hasSocket && socketUrls == old(socketUrls) &&
                notifications == old(notifications) + [ConnectionChanged(Connecting), ConnectionChanged(Disconnected)]
    {
      if state == Connected || state == Connecting {
        return;
      }
      SetState(Connecting);
      var target := SocketUrl(url, authToken, conversationId, encode);
      if socketOk {
        hasSocket := true;
        socketUrls := socketUrls + [target];
      } else {
        SetState(Disconnected);
      }
    }

    /** `send`: queue the message unless connected, otherwise put it on the socket. */
    method Send(message: ClientMessage)
      modifies this`pending, this`sent
      ensures state == Connected && hasSocket ==>
                sent == old(sent) + [JsonFrame(message)] && pending == old(pending)
      ensures !(state == Connected && hasSocket) ==>
                pending == old(pending) + [message] && sent == old(sent)
    {
      if state != Connected || !hasSocket {
        pending := pending + [message];
        return;
      }
      sent := sent + [JsonFrame(message)];
    }

    /** The socket's `open` event: connected, attempts reset, and the queue flushed in
        the order the messages were queued. */
    method OnOpen()
      requires Valid() && state == Connecting
      modifies this`state, this`notifications, this`reconnectAttempts, this`pending, this`sent
      ensures Valid()
      ensures state == Connected && reconnectAttempts == 0
      ensures notifications == old(notifications) + [ConnectionChanged(Connected)]
      ensures pending == [] && sent == old(sent) + Frames(old(pending))
    {
      SetState(Connected);
      reconnectAttempts := 0;
      Flush();
    }

    /** `flushPendingMessages`: send the queued messages, oldest first, until the queue is empty. */
    method Flush()
      requires state == Connected && hasSocket
      modifies this`pending, this`sent
      ensures pending == [] && sent == old(sent) + Frames(old(pending))
    {
      ghost var queue := pending;
      ghost var i := 0;
      while |pending| > 0
        invariant 0 <= i <= |queue| && pending == queue[i..]
        invariant sent == old(sent) + Frames(queue[..i])
        decreases |pending|
      {
        var message := pending[0];
        assert message == queue[i];
        ghost var before := sent;
        pending := pending[1..];
        Send(message);
        assert sent == before + [JsonFrame(message)];
        assert queue[..i + 1] == queue[..i] + [message];
        FramesSnoc(queue[..i], message);
        i := i + 1;
      }
      assert queue[..i] == queue;
    }

    /** The socket's `message` event. */
    method OnMessage(frame: Incoming)
      requires hasSocket
      modifies this`notifications
      ensures notifications == old(notifications) + Route(frame)
    {
      notifications := notifications + Route(frame);
    }

    /** The socket's `error` event. */
    method OnSocketError()
      requires hasSocket
      modifies this`notifications
      ensures notifications == old(notifications) + [ErrorRaised("WebSocket error")]
    {
      notifications := notifications + [ErrorRaised("WebSocket error")];
    }

    /** The socket's `close` event (`handleClose`, `scheduleReconnect`). */
    method OnClose(code: int, reason: string)
      requires Valid() && hasSocket
      modifies this`state, this`notifications, this`hasSocket, this`reconnectAttempts,
               this`timerPending, this`scheduled
      ensures Valid() && !hasSocket
      ensures var d := CloseOutcome(code, reason, autoReconnect, old(reconnectAttempts),
                                    maxReconnectAttempts, reconnectDelay);
              match d
              case CleanClose =>
                state == Disconnected && reconnectAttempts == old(reconnectAttempts) &&
                timerPending == old(timerPending) && scheduled == old(scheduled) &&
                notifications == old(notifications) + Notify(old(state), Disconnected)
              case Retry(delay) =>
                state == Reconnecting && reconnectAttempts == old(reconnectAttempts) + 1 &&
                timerPending && scheduled == old(scheduled) + [delay] &&
                notifications == old(notifications) + Notify(old(state), Reconnecting)
              case GiveUp(error) =>
                state == Disconnected && reconnectAttempts == old(reconnectAttempts) &&
                timerPending == old(timerPending) && scheduled == old(scheduled) &&
                notifications == old(notifications) + Notify(old(state), Disconnected) + [ErrorRaised(error)]
    {
      hasSocket := false;
      if code == 1000 {
        SetState(Disconnected);
        return;
      }
      if autoReconnect && reconnectAttempts < maxReconnectAttempts {
        SetState(Reconnecting);
        var delay := reconnectDelay * Pow2(reconnectAttempts);
        reconnectAttempts := reconnectAttempts + 1;
        timerPending := true;
        scheduled := scheduled + [delay];
      } else {
        SetState(Disconnected);
        notifications := notifications + [ErrorRaised("Connection closed: " + (if reason == "" then "Unknown reason" else reason))];
      }
    }

    /** The scheduled reconnection runs: it calls `connect()`. */
    method ReconnectTimerFires(socketOk: bool)
      requires Valid() && timerPending
      modifies this`state, this`notifications, this`hasSocket, this`socketUrls, this`timerPending
      ensures Valid() && !timerPending
      ensures old(state) == Connected || old(state) == Connecting ==>
                state == old(state) && hasSocket == old(hasSocket) &&
                notifications == old(notifications) && socketUrls == old(socketUrls)
      ensures old(state) != Connected && old(state) != Connecting && socketOk ==>
                state == Connecting && hasSocket &&
                notifications == old(notifications) + [ConnectionChanged(Connecting)] &&
                socketUrls == old(socketUrls) + [SocketUrl(url, authToken, conversationId, encode)]
      ensures old(state) != Connected && old(state) != Connecting && !socketOk ==>
                state == Disconnected && !hasSocket && socketUrls == old(socketUrls) &&
                notifications == old(notifications) + [ConnectionChanged(Connecting), ConnectionChanged(Disconnected)]
    {
      timerPending := false;
      Connect(socketOk);
    }

    /** `sendText(content)`. */
    method SendText(content: string)
      modifies this`pending, this`sent
      ensures var m := TextMessage(content, Truthy(conversationId));
              if state == Connected && hasSocket then sent == old(sent) + [JsonFrame(m)] && pending == old(pending)
              else pending == old(pending) + [m] && sent == old(sent)
    {
      Send(TextMessage(content, Truthy(conversationId)));
    }

    /** `sendAudioEnd()`. */
    method SendAudioEnd()
      modifies this`pending, this`sent
      ensures var m := AudioEnd(Truthy(conversationId));
              if state == Connected && hasSocket then sent == old(sent) + [JsonFrame(m)] && pending == old(pending)
              else pending == old(pending) + [m] && sent == old(sent)
    {
      Send(AudioEnd(Truthy(conversationId)));
    }

    /** `sendAudioChunk(chunk)`: audio is sent only while connected, never queued. */
    method SendAudioChunk(chunk: Bytes)
      modifies this`sent
      ensures state == Connected && hasSocket ==> sent == old(sent) + [BinaryFrame(chunk)]
      ensures !(state == Connected && hasSocket) ==> sent == old(sent)
    {
      if state != Connected || !hasSocket {
        return;
      }
      sent := sent + [BinaryFrame(chunk)];
    }

    /** `setConversationId(id)`. */
    method SetConversationId(id: string)
      modifies this`conversationId
      ensures conversationId == id
    {
      conversationId := id;
    }

    /** `disconnect()`: cancel a scheduled reconnection, close the socket normally and
        report the disconnection. The attempt count and the queue are kept. */
    method Disconnect()
      requires Valid()
      modifies this`state, this`notifications, this`hasSocket, this`timerPending, this`sent
      ensures Valid()
      ensures state == Disconnected && !hasSocket && !timerPending
      ensures sent == old(sent) + (if old(hasSocket) then [CloseFrame(1000, "Client disconnect")] else [])
      ensures notifications == old(notifications) + Notify(old(state), Disconnected)
    {
      timerPending := false;
      if hasSocket {
        sent := sent + [CloseFrame(1000, "Client disconnect")];
        hasSocket := false;
      }
      SetState(Disconnected);
    }

    /** `dispose()`: disconnect and drop the queue. */
    method Dispose()
      requires Valid()
      modifies this`state, this`notifications, this`hasSocket, this`timerPending, this`sent, this`pending
      ensures Valid()
      ensures state == Disconnected && !hasSocket && !timerPending && pending == []
      ensures sent == old(sent) + (if old(hasSocket) then [CloseFrame(1000, "Client disconnect")] else [])
      ensures notifications == old(notifications) + Notify(old(state), Disconnected)
    {
      Disconnect();
      pending := [];
    }
  }

  /** With the defaults, a connection that keeps dropping is retried after 1 s, 2 s and
      4 s, and so on. */
  method BackoffScenario(encode: string -> string) returns (delays: seq<int>, state: ConnectionState, attempts: int)
    ensures delays == [1000, 2000, 4000]
    ensures state == Reconnecting && attempts == 3
  {
    var client := new RealtimeClient("wss://api/ws", None, None, None, None, None, encode);
    client.Connect(true);
    client.OnClose(1006, "");
    assert client.scheduled == [1000];
    client.ReconnectTimerFires(true);
    client.OnClose(1006, "");
    assert client.scheduled == [1000, 2000];
    client.ReconnectTimerFires(true);
    client.OnClose(1006, "");
    delays, state, attempts := client.scheduled, client.state, client.reconnectAttempts;
  }
}
