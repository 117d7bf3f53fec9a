/** The companion extension's session (bob-helper-extension/src/extension.ts):
    request dispatch, the `send` guard, and the connection / reconnect / watcher
    state machine over the module-level `ws`, `reconnectTimer` and `stateWatcher`,
    here the fields of one Session object. Socket events and timer firings are
    methods the environment calls. */
module Extension {
  import opened Protocol
  import opened Editor
  import Actions
  import opened StateReader

  const DefaultPort: nat := 9876
  const ReconnectIntervalMs: nat := 5000
  const WatcherPollMs: nat := 1000
  const ExtensionVersion := "0.1.0"
  const NoPromptText := "No prompt text provided"

  /** The request types of BobMessageType. */
  const RequestTypes: set<string> :=
    {"getState", "acceptAll", "acceptStep", "acceptTerminal", "runTerminal", "retry", "sendPrompt", "ping"}

  /** The request types answered by one single-command action. */
  function SimpleActionFor(msgType: string): Option<Actions.SimpleAction> {
    if msgType == "acceptAll" then Some(Actions.AcceptAll)
    else if msgType == "acceptStep" then Some(Actions.AcceptAgentStep)
    else if msgType == "acceptTerminal" then Some(Actions.AcceptTerminalCommand)
    else if msgType == "runTerminal" then Some(Actions.RunTerminalCommand)
    else None
  }

  /** `(msg.payload?.text as string) || ''` */
  function PromptText(msg: BobMessage): string {
    msg.text.GetOr("")
  }

  /** The response type each request is answered with. */
  function ReplyType(msg: BobMessage): ResponseType {
    if msg.msgType == "getState" then StateType
    else if msg.msgType == "ping" then PongType
    else if msg.msgType == "sendPrompt" then (if PromptText(msg) == "" then ErrorType else ResultType)
    else if msg.msgType in RequestTypes then ResultType
    else ErrorType
  }

  /** The messages an action trace pushes to the hub, in order. */
  function Pushed(trace: seq<Actions.Effect>): (out: seq<ExtensionResponse>)
    ensures |out| <= |trace|
    ensures forall x :: x in out ==> Actions.Push(x) in trace
  {
    if trace == [] then []
    else Pushed(trace[..|trace| - 1]) + (if trace[|trace| - 1].Push? then [trace[|trace| - 1].message] else [])
  }

  lemma {:induction false} PushedAttempts(trace: seq<Actions.Effect>)
    requires forall i :: 0 <= i < |trace| ==> !trace[i].Push?
    ensures Pushed(trace) == []
  {
    if trace != [] {
      PushedAttempts(trace[..|trace| - 1]);
    }
  }

  lemma {:induction false} PushedAppend(a: seq<Actions.Effect>, b: seq<Actions.Effect>)
    ensures Pushed(a + b) == Pushed(a) + Pushed(b)
    decreases |b|
  {
    if b == [] {
      assert a + b == a;
    } else {
      assert (a + b)[..|a + b| - 1] == a + b[..|b| - 1];
      PushedAppend(a, b[..|b| - 1]);
    }
  }

  /** Whether sendPrompt with `text` ends by pushing a simulateEnter request: all
      direct-send commands failed, and the write and the focus completed. */
  predicate PushesEnter(host: Host, text: string) {
    Actions.PromptResult(host, text).success &&
    Actions.FirstCompleted(host, Actions.DirectCalls(text)) == |Actions.DirectCalls(text)|
  }

  /** The messages handleMessage sends for `msg`, in order: exactly one reply, last,
      echoing the request id, and before it at most the simulateEnter request that a
      Tier-2 sendPrompt pushes. `state` is what readAntigravityState returns, `stamp`
      and `now` stand for `Date.now()`. */
  predicate RepliesTo(msg: BobMessage, host: Host, state: AntigravityState, folder: Option<string>, stamp: string, now: int,
                      out: seq<ExtensionResponse>)
  {
    |out| >= 1 && out[|out| - 1].id == msg.id && out[|out| - 1].kind == ReplyType(msg) &&
    (forall i :: 0 <= i < |out| - 1 ==> out[i].kind == SimulateEnterType) &&
    (msg.msgType == "getState" ==>
      out == [ExtensionResponse(StateType, StatePayload(state), msg.id)]) &&
    (SimpleActionFor(msg.msgType).Some? ==>
      var a := SimpleActionFor(msg.msgType).value;
      out == [ExtensionResponse(ResultType, ResultPayload(Actions.Reported(host(Actions.Bare(Actions.CommandId(a))), Actions.ActionName(a))), msg.id)]) &&
    (msg.msgType == "retry" ==>
      out == [ExtensionResponse(ResultType, ResultPayload(Actions.RetryResult(host)), msg.id)]) &&
    (msg.msgType == "sendPrompt" && PromptText(msg) == "" ==>
      out == [ExtensionResponse(ErrorType, ResultPayload(ActionResult(false, "sendPrompt", Some(NoPromptText))), msg.id)]) &&
    (msg.msgType == "sendPrompt" && PromptText(msg) != "" ==>
      out == (if PushesEnter(host, PromptText(msg)) then [Actions.EnterRequest(folder, stamp)] else []) +
             [ExtensionResponse(ResultType, ResultPayload(Actions.PromptResult(host, PromptText(msg))), msg.id)]) &&
    (msg.msgType == "ping" ==>
      out == [ExtensionResponse(PongType, PongPayload(now), msg.id)]) &&
    (msg.msgType !in RequestTypes ==>
      out == [ExtensionResponse(ErrorType, ErrorText("Unknown message type: " + msg.msgType), msg.id)])
  }

  /** handleMessage with the socket abstracted away: the messages it `send`s, in order,
      and the trace of the action it ran. */
  method Respond(msg: BobMessage, host: Host, state: AntigravityState, folder: Option<string>, stamp: string, now: int)
    returns (out: seq<ExtensionResponse>, trace: seq<Actions.Effect>)
    ensures RepliesTo(msg, host, state, folder, stamp, now, out)
    // Everything before the reply is pushed by the action itself.
    ensures out[..|out| - 1] == Pushed(trace)
    ensures SimpleActionFor(msg.msgType).Some? ==>
      trace == [Actions.Attempt(Actions.Bare(Actions.CommandId(SimpleActionFor(msg.msgType).value)))]
    ensures (msg.msgType in {"getState", "ping"} || msg.msgType !in RequestTypes ||
             (msg.msgType == "sendPrompt" && PromptText(msg) == "")) ==> trace == []
  {
    var action := SimpleActionFor(msg.msgType);
    trace := [];
    if msg.msgType == "getState" {
      out := [ExtensionResponse(StateType, StatePayload(state), msg.id)];
      FixedReplies(msg, host, state, folder, stamp, now);
    } else if action.Some? {
      var r;
      r, trace := Actions.RunSimpleAction(host, action.value);
      PushedAttempts(trace);
      out := [ExtensionResponse(ResultType, ResultPayload(r), msg.id)];
      ActionReplies(msg, host, state, folder, stamp, now);
    } else if msg.msgType == "retry" {
      var r;
      r, trace := Actions.RetryAction(host);
      PushedAttempts(trace);
      out := [ExtensionResponse(ResultType, ResultPayload(r), msg.id)];
      ActionReplies(msg, host, state, folder, stamp, now);
    } else if msg.msgType == "sendPrompt" {
      var text := PromptText(msg);
      if text == "" {
        out := [ExtensionResponse(ErrorType, ResultPayload(ActionResult(false, "sendPrompt", Some(NoPromptText))), msg.id)];
      } else {
        var r;
        r, trace := Actions.SendPrompt(host, text, folder, stamp);
        PromptPushes(host, text, folder, stamp, trace);
        out := Pushed(trace) + [ExtensionResponse(ResultType, ResultPayload(r), msg.id)];
        assert out[..|out| - 1] == Pushed(trace);
      }
      PromptReplies(msg, host, state, folder, stamp, now);
    } else if msg.msgType == "ping" {
      out := [ExtensionResponse(PongType, PongPayload(now), msg.id)];
      FixedReplies(msg, host, state, folder, stamp, now);
    } else {
      out := [ExtensionResponse(ErrorType, ErrorText("Unknown message type: " + msg.msgType), msg.id)];
      FixedReplies(msg, host, state, folder, stamp, now);
    }
  }

  /** The requests answered without running an action. */
  lemma FixedReplies(msg: BobMessage, host: Host, state: AntigravityState, folder: Option<string>, stamp: string, now: int)
    ensures msg.msgType == "getState" ==>
      RepliesTo(msg, host, state, folder, stamp, now, [ExtensionResponse(StateType, StatePayload(state), msg.id)])
    ensures msg.msgType == "ping" ==>
      RepliesTo(msg, host, state, folder, stamp, now, [ExtensionResponse(PongType, PongPayload(now), msg.id)])
    ensures msg.msgType !in RequestTypes ==>
      RepliesTo(msg, host, state, folder, stamp, now,
                [ExtensionResponse(ErrorType, ErrorText("Unknown message type: " + msg.msgType), msg.id)])
  {
  }

  /** The requests answered with the result of a single-command action or of retry. */
  lemma ActionReplies(msg: BobMessage, host: Host, state: AntigravityState, folder: Option<string>, stamp: string, now: int)
    ensures SimpleActionFor(msg.msgType).Some? ==>
      var a := SimpleActionFor(msg.msgType).value;
      RepliesTo(msg, host, state, folder, stamp, now,
                [ExtensionResponse(ResultType, ResultPayload(Actions.Reported(host(Actions.Bare(Actions.CommandId(a))), Actions.ActionName(a))), msg.id)])
    ensures msg.msgType == "retry" ==>
      RepliesTo(msg, host, state, folder, stamp, now, [ExtensionResponse(ResultType, ResultPayload(Actions.RetryResult(host)), msg.id)])
  {
  }

  /** The prompt request, with and without text. */
  lemma PromptReplies(msg: BobMessage, host: Host, state: AntigravityState, folder: Option<string>, stamp: string, now: int)
    requires msg.msgType == "sendPrompt"
    ensures PromptText(msg) == "" ==>
      RepliesTo(msg, host, state, folder, stamp, now,
                [ExtensionResponse(ErrorType, ResultPayload(ActionResult(false, "sendPrompt", Some(NoPromptText))), msg.id)])
    ensures PromptText(msg) != "" ==>
      RepliesTo(msg, host, state, folder, stamp, now,
                (if PushesEnter(host, PromptText(msg)) then [Actions.EnterRequest(folder, stamp)] else []) +
                [ExtensionResponse(ResultType, ResultPayload(Actions.PromptResult(host, PromptText(msg))), msg.id)])
  {
  }

  /** A trace that can push only in its last effect pushes at most that message. */
  lemma PushedLastOnly(trace: seq<Actions.Effect>)
    requires |trace| > 0
    requires forall i :: 0 <= i < |trace| - 1 ==> !trace[i].Push?
    ensures Pushed(trace) == if trace[|trace| - 1].Push? then [trace[|trace| - 1].message] else []
  {
    PushedAttempts(trace[..|trace| - 1]);
  }

  /** A sendPrompt trace pushes at most one message, the simulateEnter request, and
      only when Tier 2 ran to its end. */
  lemma PromptPushes(host: Host, text: string, folder: Option<string>, stamp: string, trace: seq<Actions.Effect>)
    requires var calls := Actions.DirectCalls(text);
      var k := Actions.FirstCompleted(host, calls);
      var write := host(Actions.WriteCall(text));
      var focus := host(Actions.Bare(Actions.FocusCommand));
      (k < |calls| ==> trace == Actions.Attempts(calls[..k + 1])) &&
      (k == |calls| ==>
        |trace| > |calls| && trace[..|calls|] == Actions.Attempts(calls) &&
        trace[|calls|..] ==
          if write.Failed? then [Actions.Attempt(Actions.WriteCall(text))]
          else if focus.Failed? then [Actions.Attempt(Actions.WriteCall(text)), Actions.Sleep(Actions.SettleAfterWriteMs),
                                      Actions.Attempt(Actions.Bare(Actions.FocusCommand))]
          else [Actions.Attempt(Actions.WriteCall(text)), Actions.Sleep(Actions.SettleAfterWriteMs),
                Actions.Attempt(Actions.Bare(Actions.FocusCommand)), Actions.Sleep(Actions.SettleAfterFocusMs),
                Actions.Push(Actions.EnterRequest(folder, stamp))])
    ensures Pushed(trace) == if PushesEnter(host, text) then [Actions.EnterRequest(folder, stamp)] else []
    ensures forall i :: 0 <= i < |Pushed(trace)| ==> Pushed(trace)[i].kind == SimulateEnterType
  {
    var calls := Actions.DirectCalls(text);
    var k := Actions.FirstCompleted(host, calls);
    if k < |calls| {
      PushedAttempts(trace);
    } else {
      forall i | 0 <= i < |trace| - 1
        ensures !trace[i].Push?
      {
        if i < |calls| {
          assert trace[i] == trace[..|calls|][i];
        } else {
          assert trace[i] == trace[|calls|..][i - |calls|];
        }
      }
      PushedLastOnly(trace);
      assert trace[|trace| - 1] == trace[|calls|..][|trace| - 1 - |calls|];
    }
  }

  // ---------------------------------------------------------------------------
  // The session

  /** WebSocket readyState, as far as the session looks at it. */
  datatype ReadyState = Connecting | Open | Closed

  /** A socket the session created; `id` stands for its object identity. */
  datatype Socket = Socket(id: nat, readyState: ReadyState)

  /** A message transmitted by `ws.send` on socket `socket`. */
  datatype Frame = Frame(socket: nat, message: ExtensionResponse)

  /** The messages transmitted on one socket, in order. */
  function SentOn(frames: seq<Frame>, socket: nat): seq<ExtensionResponse> {
    if frames == [] then []
    else SentOn(frames[..|frames| - 1], socket)
         + (if frames[|frames| - 1].socket == socket then [frames[|frames| - 1].message] else [])
  }

  lemma {:induction false} SentOnNone(frames: seq<Frame>, socket: nat)
    requires forall i :: 0 <= i < |frames| ==> frames[i].socket != socket
    ensures SentOn(frames, socket) == []
  {
    if frames != [] {
      SentOnNone(frames[..|frames| - 1], socket);
    }
  }

  function Tag(socket: nat, msgs: seq<ExtensionResponse>): (frames: seq<Frame>)
    ensures |frames| == |msgs|
    ensures forall i :: 0 <= i < |msgs| ==> frames[i] == Frame(socket, msgs[i])
  {
    seq(|msgs|, i requires 0 <= i < |msgs| => Frame(socket, msgs[i]))
  }

  /** The hello a newly opened socket sends. */
  function HelloMessage(folder: Option<string>, stamp: string): ExtensionResponse {
    ExtensionResponse(HelloType, HelloInfo(HelloPayload(ExtensionVersion, WorkspaceName(folder, "unknown"), "ext-" + stamp)), "hello")
  }

  class Session {
    var ws: Option<Socket>
    var socketsCreated: nat
    var reconnectTimer: bool
    var stateWatcher: StateWatcher?
    var sent: seq<Frame>
    /** The reader's module-level log dedup, shared by getState and the watcher. */
    const reader: StateChangeLog

    ghost predicate Valid()
      reads this, stateWatcher
    {
      (ws.Some? ==> ws.value.id < socketsCreated) &&
      (forall i :: 0 <= i < |sent| ==> sent[i].socket < socketsCreated) &&
      // Nothing is ever transmitted on a socket before it opens.
      (ws.Some? && ws.value.readyState == Connecting ==> SentOn(sent, ws.value.id) == []) &&
      // A watcher the session holds is always polling.
      (stateWatcher != null ==> stateWatcher.polling)
    }

    predicate IsOpen()
      reads this
    {
      ws.Some? && ws.value.readyState == Open
    }

    constructor ()
      ensures Valid() && fresh(reader)
      ensures ws == None && socketsCreated == 0 && !reconnectTimer && stateWatcher == null && sent == []
      ensures reader.lastStateJson == ""
    {
      ws := None;
      socketsCreated := 0;
      reconnectTimer := false;
      stateWatcher := null;
      sent := [];
      reader := new StateChangeLog();
    }

    /** send: transmits only while the socket is open; otherwise the message is dropped. */
    method Send(msg: ExtensionResponse)
      requires Valid()
      modifies this`sent
      ensures Valid()
      ensures sent == old(sent) + if IsOpen() then [Frame(ws.value.id, msg)] else []
    {
      if ws.Some? && ws.value.readyState == Open {
        sent := sent + [Frame(ws.value.id, msg)];
      }
    }

    method SendAll(msgs: seq<ExtensionResponse>)
      requires Valid()
      modifies this`sent
      ensures Valid()
      ensures sent == old(sent) + if IsOpen() then Tag(ws.value.id, msgs) else []
    {
      for i := 0 to |msgs|
        invariant Valid()
        invariant sent == old(sent) + if IsOpen() then Tag(ws.value.id, msgs[..i]) else []
      {
        Send(msgs[i]);
        assert IsOpen() ==> Tag(ws.value.id, msgs[..i + 1]) == Tag(ws.value.id, msgs[..i]) + [Frame(ws.value.id, msgs[i])];
      }
      assert msgs[..|msgs|] == msgs;
    }

    /** scheduleReconnect: a no-op while a timer is pending or when autoConnect is off. */
    method ScheduleReconnect(autoConnect: bool)
      modifies this`reconnectTimer
      ensures reconnectTimer == (old(reconnectTimer) || autoConnect)
    {
      if reconnectTimer { return; }
      if !autoConnect { return; }
      reconnectTimer := true;
    }

    /** clearReconnectTimer */
    method ClearReconnectTimer()
      modifies this`reconnectTimer
      ensures !reconnectTimer
    {
      if reconnectTimer {
        reconnectTimer := false;
      }
    }

    /** startStateWatcher: a no-op while a watcher exists. */
    method StartStateWatcher()
      requires Valid()
      modifies this`stateWatcher
      ensures Valid() && stateWatcher != null
      ensures old(stateWatcher) != null ==> stateWatcher == old(stateWatcher)
      ensures old(stateWatcher) == null ==>
        fresh(stateWatcher) && stateWatcher.lastState == None && stateWatcher.pollMs == WatcherPollMs
    {
      if stateWatcher != null { return; }
      var w := new StateWatcher();
      w.Start(WatcherPollMs);
      stateWatcher := w;
    }

    /** stopStateWatcher: idempotent. */
    method StopStateWatcher()
      requires Valid()
      modifies this`stateWatcher, stateWatcher
      ensures Valid() && stateWatcher == null
      ensures old(stateWatcher) != null ==> !old(stateWatcher).polling
    {
      if stateWatcher != null {
        stateWatcher.Stop();
        stateWatcher := null;
      }
    }

    /** connect: a no-op when the socket is open; otherwise a new socket, or, when
        the constructor throws, a scheduled reconnect. */
    method Connect(constructorThrows: bool, autoConnect: bool)
      requires Valid()
      modifies this`ws, this`socketsCreated, this`reconnectTimer
      ensures Valid()
      ensures old(IsOpen()) ==>
        ws == old(ws) && socketsCreated == old(socketsCreated) && reconnectTimer == old(reconnectTimer)
      ensures !old(IsOpen()) && !constructorThrows ==>
        ws == Some(Socket(old(socketsCreated), Connecting)) && socketsCreated == old(socketsCreated) + 1 &&
        reconnectTimer == old(reconnectTimer)
      ensures !old(IsOpen()) && constructorThrows ==>
        ws == old(ws) && socketsCreated == old(socketsCreated) && reconnectTimer == (old(reconnectTimer) || autoConnect)
    {
      if ws.Some? && ws.value.readyState == Open {
        return;
      }
      if constructorThrows {
        ScheduleReconnect(autoConnect);
        return;
      }
      SentOnNone(sent, socketsCreated);
      ws := Some(Socket(socketsCreated, Connecting));
      socketsCreated := socketsCreated + 1;
    }

    /** The reconnect timer fires: the field is cleared before connect runs. */
    method ReconnectTimerFires(constructorThrows: bool, autoConnect: bool)
      requires Valid() && reconnectTimer
      modifies this`ws, this`socketsCreated, this`reconnectTimer
      ensures Valid()
      ensures old(IsOpen()) ==> ws == old(ws) && socketsCreated == old(socketsCreated) && !reconnectTimer
      ensures !old(IsOpen()) && !constructorThrows ==>
        ws == Some(Socket(old(socketsCreated), Connecting)) && socketsCreated == old(socketsCreated) + 1 && !reconnectTimer
      ensures !old(IsOpen()) && constructorThrows ==>
        ws == old(ws) && socketsCreated == old(socketsCreated) && reconnectTimer == autoConnect
    {
      reconnectTimer := false;
      Connect(constructorThrows, autoConnect);
    }

    /** disconnect: clears the timer, stops the watcher, closes and forgets the socket.
        The socket's own close event is delivered later through OnClose. */
    method Disconnect()
      requires Valid()
      modifies this`ws, this`reconnectTimer, this`stateWatcher, stateWatcher
      ensures Valid()
      ensures ws == None && !reconnectTimer && stateWatcher == null
      ensures sent == old(sent) && socketsCreated == old(socketsCreated)
    {
      ClearReconnectTimer();
      StopStateWatcher();
      if ws.Some? {
        ws := None;
      }
    }

    /** The 'open' handler of socket `socket`: clear the timer, send the hello, start
        the watcher. On a freshly opened current socket, the hello is its first frame. */
    method OnOpen(socket: nat, folder: Option<string>, stamp: string)
      requires Valid() && socket < socketsCreated
      modifies this`ws, this`reconnectTimer, this`sent, this`stateWatcher
      ensures Valid()
      ensures ws == if old(ws) == Some(Socket(socket, Connecting)) then Some(Socket(socket, Open)) else old(ws)
      ensures !reconnectTimer && stateWatcher != null
      ensures old(stateWatcher) != null ==> stateWatcher == old(stateWatcher)
      ensures old(stateWatcher) == null ==> fresh(stateWatcher)
      ensures sent == old(sent) + if IsOpen() then [Frame(ws.value.id, HelloMessage(folder, stamp))] else []
      ensures old(ws) == Some(Socket(socket, Connecting)) ==> SentOn(sent, socket) == [HelloMessage(folder, stamp)]
    {
      if ws == Some(Socket(socket, Connecting)) {
        ws := Some(Socket(socket, Open));
      }
      ClearReconnectTimer();
      Send(HelloMessage(folder, stamp));
      StartStateWatcher();
    }

    /** The 'close' handler of socket `socket`: stop the watcher, schedule a reconnect. */
    method OnClose(socket: nat, autoConnect: bool)
      requires Valid()
      modifies this`ws, this`reconnectTimer, this`stateWatcher, stateWatcher
      ensures Valid()
      ensures ws == if old(ws).Some? && old(ws).value.id == socket then Some(Socket(socket, Closed)) else old(ws)
      ensures stateWatcher == null && reconnectTimer == (old(reconnectTimer) || autoConnect)
      ensures sent == old(sent) && socketsCreated == old(socketsCreated)
    {
      if ws.Some? && ws.value.id == socket {
        ws := Some(Socket(socket, Closed));
      }
      StopStateWatcher();
      ScheduleReconnect(autoConnect);
    }

    /** The 'error' handler: it only logs and updates the status bar; in particular it
        schedules no reconnect (the close event that follows does). */
    method OnError(socket: nat)
      requires Valid()
      ensures Valid() && unchanged(this)
    {
    }

    /** handleMessage on the live session: the reply (and any push) is sent through the
        `send` guard; getState reads the state through the shared log dedup. */
    method HandleMessage(msg: BobMessage, host: Host, ctx: ContextReads, folder: Option<string>, stamp: string, now: int)
      returns (out: seq<ExtensionResponse>)
      requires Valid()
      modifies this`sent, reader
      ensures Valid()
      ensures sent == old(sent) + if IsOpen() then Tag(ws.value.id, out) else []
      ensures RepliesTo(msg, host, ReadState(ctx, folder), folder, stamp, now, out)
      // Only getState goes through the log dedup.
      ensures msg.msgType == "getState" ==>
        reader.lastStateJson == Signature(ReadState(ctx, folder)) &&
        reader.lines == old(reader.lines) +
          (if Signature(ReadState(ctx, folder)) != old(reader.lastStateJson) then [Signature(ReadState(ctx, folder))] else [])
      ensures msg.msgType != "getState" ==> unchanged(reader)
    {
      var state := ReadState(ctx, folder);
      if msg.msgType == "getState" {
        state := reader.ReadAntigravityState(ctx, folder);
      }
      var trace;
      out, trace := Respond(msg, host, state, folder, stamp, now);
      SendAll(out);
    }

    /** The 'message' handler: an unparseable frame is logged and dropped; a parsed
        request is handled as HandleMessage states, `out` being what it replies. */
    method OnMessage(parsed: Option<BobMessage>, host: Host, ctx: ContextReads, folder: Option<string>, stamp: string, now: int)
      returns (out: seq<ExtensionResponse>)
      requires Valid()
      modifies this`sent, reader
      ensures Valid()
      ensures parsed.None? ==> out == [] && sent == old(sent) && unchanged(reader)
      ensures parsed.Some? ==>
        sent == old(sent) + (if IsOpen() then Tag(ws.value.id, out) else []) &&
        RepliesTo(parsed.value, host, ReadState(ctx, folder), folder, stamp, now, out)
      ensures parsed.Some? && parsed.value.msgType == "getState" ==>
        reader.lastStateJson == Signature(ReadState(ctx, folder)) &&
        reader.lines == old(reader.lines) +
          (if Signature(ReadState(ctx, folder)) != old(reader.lastStateJson) then [Signature(ReadState(ctx, folder))] else [])
      ensures parsed.Some? && parsed.value.msgType != "getState" ==> unchanged(reader)
    {
      out := [];
      if parsed.Some? {
        out := HandleMessage(parsed.value, host, ctx, folder, stamp, now);
      }
    }

    /** One tick of the session's watcher: read the state, and push a stateChanged
        when the watcher reports a change. */
    method WatcherTick(ctx: ContextReads, folder: Option<string>, stamp: string)
      requires Valid() && stateWatcher != null
      modifies this`sent, reader, stateWatcher
      ensures Valid()
      ensures stateWatcher == old(stateWatcher) && stateWatcher.lastState == Some(ReadState(ctx, folder))
      ensures stateWatcher.polling == old(stateWatcher.polling) && stateWatcher.pollMs == old(stateWatcher.pollMs)
      // The tick reads the state through the shared log dedup.
      ensures reader.lastStateJson == Signature(ReadState(ctx, folder))
      ensures reader.lines == old(reader.lines) +
        (if Signature(ReadState(ctx, folder)) != old(reader.lastStateJson) then [Signature(ReadState(ctx, folder))] else [])
      ensures sent == old(sent) +
        if old(stateWatcher.lastState) != Some(ReadState(ctx, folder)) && IsOpen()
        then [Frame(ws.value.id, ExtensionResponse(StateChangedType, StatePayload(ReadState(ctx, folder)), "push-" + stamp))]
        else []
    {
      var s := reader.ReadAntigravityState(ctx, folder);
      var fired := stateWatcher.Tick(s);
      if fired {
        Send(ExtensionResponse(StateChangedType, StatePayload(s), "push-" + stamp));
      }
    }
  }

  /** An explicit disconnect does not stay disconnected: the closed socket's close
      event, arriving afterwards, schedules a reconnect when autoConnect is on. */
  method DisconnectThenCloseReschedules() returns (pending: bool, current: Option<Socket>)
    ensures pending && current == None
  {
    var s := new Session();
    s.Connect(false, true);
    s.OnOpen(0, Some("demo"), "1");
    s.Disconnect();
    s.OnClose(0, true);
    pending, current := s.reconnectTimer, s.ws;
  }

  /** On a new link the hello goes first, and a request's reply echoes its id. */
  method HelloThenReply(host: Host, ctx: ContextReads) returns (frames: seq<ExtensionResponse>)
    ensures |frames| == 2
    ensures frames[0] == HelloMessage(Some("demo"), "1")
    ensures frames[1] == ExtensionResponse(StateType, StatePayload(ReadState(ctx, Some("demo"))), "req-7")
  {
    var s := new Session();
    s.Connect(false, true);
    s.OnOpen(0, Some("demo"), "1");
    var out := s.HandleMessage(BobMessage("getState", None, "req-7"), host, ctx, Some("demo"), "2", 0);
    frames := SentOn(s.sent, 0);
    assert s.sent == [Frame(0, HelloMessage(Some("demo"), "1")), Frame(0, out[0])];
  }
}
