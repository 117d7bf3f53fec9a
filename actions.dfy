/** The Command Dispatcher of the companion extension
    (bob-helper-extension/src/actions.ts). Every host command call, sleep and
    message pushed to the hub is recorded, in order, in a trace of Effects. */
module Actions {
  import opened Protocol
  import opened Editor

  /** What an action does, in order: call a host command, sleep, or push a message
      to the hub through the extension's `send`. */
  datatype Effect = Attempt(call: Invocation) | Sleep(ms: nat) | Push(message: ExtensionResponse)

  /** The five single-command actions. */
  datatype SimpleAction = AcceptAll | AcceptAgentStep | AcceptTerminalCommand | RunTerminalCommand | RejectChanges

  function CommandId(a: SimpleAction): string {
    match a
    case AcceptAll => "antigravity.command.accept"
    case AcceptAgentStep => "antigravity.agent.acceptAgentStep"
    case AcceptTerminalCommand => "antigravity.terminalCommand.accept"
    case RunTerminalCommand => "antigravity.terminalCommand.run"
    case RejectChanges => "antigravity.command.reject"
  }

  /** The logical name each action reports. */
  function ActionName(a: SimpleAction): string {
    match a
    case AcceptAll => "acceptAll"
    case AcceptAgentStep => "acceptStep"
    case AcceptTerminalCommand => "acceptTerminal"
    case RunTerminalCommand => "runTerminal"
    case RejectChanges => "reject"
  }

  const RetryCommands: seq<string> := ["antigravity.agent.retry", "antigravity.retry", "antigravity.command.retry"]
  const DirectCommands: seq<string> := [
    "antigravity.sendUserMessage",
    "antigravity.chat.send",
    "antigravity.agent.sendMessage",
    "workbench.action.chat.send"
  ]
  const WriteTextCommand := "antigravity.sendTextToChat"
  const FocusCommand := "antigravity.agentPanel.focus"
  const SettleAfterWriteMs: nat := 400
  const SettleAfterFocusMs: nat := 200
  const NoRetryCommand := "No retry command found"
  const PromptFailurePrefix := "sendPrompt failed: "

  /** Every logical name an action can report. */
  const LogicalNames: set<string> := {"acceptAll", "acceptStep", "acceptTerminal", "runTerminal", "reject", "retry", "sendPrompt"}

  /** Every host command id the dispatcher may call. */
  function AllCommandIds(): set<string> {
    (set a: SimpleAction :: CommandId(a)) + set c | c in RetryCommands + DirectCommands + [WriteTextCommand, FocusCommand]
  }

  function Bare(command: string): Invocation {
    Invocation(command, [])
  }

  function RetryCalls(): seq<Invocation> {
    seq(|RetryCommands|, i requires 0 <= i < |RetryCommands| => Bare(RetryCommands[i]))
  }

  /** Tier 1 passes the prompt text to each direct-send command. */
  function DirectCalls(text: string): seq<Invocation> {
    seq(|DirectCommands|, i requires 0 <= i < |DirectCommands| => Invocation(DirectCommands[i], [TextArg(text)]))
  }

  function WriteCall(text: string): Invocation {
    Invocation(WriteTextCommand, [BoolArg(true), TextArg(text)])
  }

  function Attempts(calls: seq<Invocation>): (trace: seq<Effect>)
    ensures |trace| == |calls| && forall i :: 0 <= i < |calls| ==> trace[i] == Attempt(calls[i])
  {
    seq(|calls|, i requires 0 <= i < |calls| => Attempt(calls[i]))
  }

  /** The position of the first call that completes, or |calls| if none does. */
  function FirstCompleted(host: Host, calls: seq<Invocation>): (k: nat)
    ensures k <= |calls|
    ensures forall j :: 0 <= j < k ==> host(calls[j]) != Completed
    ensures k < |calls| ==> host(calls[k]) == Completed
  {
    if calls == [] then 0
    else if host(calls[0]) == Completed then 0
    else 1 + FirstCompleted(host, calls[1..])
  }

  /** What executeAction reports for a command that settled with `outcome`. */
  function Reported(outcome: Outcome, actionName: string): ActionResult {
    match outcome
    case Completed => ActionResult(true, actionName, None)
    case Failed(e) => ActionResult(false, actionName, Some(MessageOf(e)))
  }

  /** The simulateEnter request Tier 2 pushes; the workspace name defaults to ''. */
  function EnterRequest(folder: Option<string>, stamp: string): ExtensionResponse {
    ExtensionResponse(SimulateEnterType, EnterPayload(WorkspaceName(folder, "")), "enter-" + stamp)
  }

  /** executeAction: one command, the logical name reported either way. */
  method ExecuteAction(host: Host, command: string, actionName: string) returns (r: ActionResult, trace: seq<Effect>)
    ensures trace == [Attempt(Bare(command))]
    ensures r.action == actionName
    ensures r.success <==> host(Bare(command)) == Completed
    ensures r == Reported(host(Bare(command)), actionName)
  {
    var call := Bare(command);
    trace := [Attempt(call)];
    match host(call)
    case Completed =>
      r := ActionResult(true, actionName, None);
    case Failed(e) =>
      r := ActionResult(false, actionName, Some(MessageOf(e)));
  }

  /** acceptAll, acceptAgentStep, acceptTerminalCommand, runTerminalCommand, rejectChanges. */
  method RunSimpleAction(host: Host, a: SimpleAction) returns (r: ActionResult, trace: seq<Effect>)
    ensures trace == [Attempt(Bare(CommandId(a)))]
    ensures r == Reported(host(Bare(CommandId(a))), ActionName(a))
  {
    r, trace := ExecuteAction(host, CommandId(a), ActionName(a));
  }

  /** What retryAction reports. */
  function RetryResult(host: Host): ActionResult {
    if FirstCompleted(host, RetryCalls()) < |RetryCalls()| then ActionResult(true, "retry", None)
    else ActionResult(false, "retry", Some(NoRetryCommand))
  }

  /** retryAction: the candidates in list order, stopping at the first that completes. */
  method RetryAction(host: Host) returns (r: ActionResult, trace: seq<Effect>)
    ensures r == RetryResult(host)
    ensures r.success <==> exists j :: 0 <= j < |RetryCalls()| && host(RetryCalls()[j]) == Completed
    // If the k-th candidate is the first to complete, exactly k attempts are made
    // (the candidates up to and including it); if none completes, all three.
    ensures var k := FirstCompleted(host, RetryCalls());
      trace == Attempts(RetryCalls()[..if k < |RetryCalls()| then k + 1 else k])
  {
    var calls := RetryCalls();
    trace := [];
    for i := 0 to |calls|
      invariant trace == Attempts(calls[..i])
      invariant forall j :: 0 <= j < i ==> host(calls[j]) != Completed
    {
      trace := trace + [Attempt(calls[i])];
      if host(calls[i]) == Completed {
        assert calls[..i + 1] == calls[..i] + [calls[i]];
        r := ActionResult(true, "retry", None);
        return;
      }
      assert calls[..i + 1] == calls[..i] + [calls[i]];
    }
    assert calls[..|calls|] == calls;
    r := ActionResult(false, "retry", Some(NoRetryCommand));
  }

  /** What sendPrompt reports. */
  function PromptResult(host: Host, text: string): ActionResult {
    if FirstCompleted(host, DirectCalls(text)) < |DirectCalls(text)| then ActionResult(true, "sendPrompt", None)
    else if host(WriteCall(text)).Failed? then
      ActionResult(false, "sendPrompt", Some(PromptFailurePrefix + TextOf(host(WriteCall(text)).thrown)))
    else if host(Bare(FocusCommand)).Failed? then
      ActionResult(false, "sendPrompt", Some(PromptFailurePrefix + TextOf(host(Bare(FocusCommand)).thrown)))
    else ActionResult(true, "sendPrompt", None)
  }

  /** sendPrompt: Tier 1 tries the direct-send commands in order; only if all of them
      fail does Tier 2 write the text, sleep 400, focus, sleep 200 and push one
      simulateEnter request, after which it reports success. */
  method SendPrompt(host: Host, text: string, folder: Option<string>, stamp: string)
    returns (r: ActionResult, trace: seq<Effect>)
    ensures r == PromptResult(host, text)
    ensures var calls := DirectCalls(text);
      var k := FirstCompleted(host, calls);
      var write := host(WriteCall(text));
      var focus := host(Bare(FocusCommand));
      // Tier 1 succeeds: later direct commands, writes, sleeps and pushes never happen.
      (k < |calls| ==> trace == Attempts(calls[..k + 1])) &&
      // Tier 2, in this exact order; a throwing step ends it before the push.
      (k == |calls| ==>
        |trace| > |calls| && trace[..|calls|] == Attempts(calls) &&
        trace[|calls|..] ==
          if write.Failed? then [Attempt(WriteCall(text))]
          else if focus.Failed? then [Attempt(WriteCall(text)), Sleep(SettleAfterWriteMs), Attempt(Bare(FocusCommand))]
          else [Attempt(WriteCall(text)), Sleep(SettleAfterWriteMs), Attempt(Bare(FocusCommand)),
                Sleep(SettleAfterFocusMs), Push(EnterRequest(folder, stamp))])
  {
    var calls := DirectCalls(text);
    trace := [];
    var directSendWorked := false;
    for i := 0 to |calls|
      invariant trace == Attempts(calls[..i])
      invariant forall j :: 0 <= j < i ==> host(calls[j]) != Completed
    {
      trace := trace + [Attempt(calls[i])];
      assert calls[..i + 1] == calls[..i] + [calls[i]];
      if host(calls[i]) == Completed {
        directSendWorked := true;
        break;
      }
    }
    if directSendWorked {
      r := ActionResult(true, "sendPrompt", None);
      return;
    }
    assert calls[..|calls|] == calls;
    ghost var tier1 := trace;
    // Fallback: write the text, then ask the hub to press Enter.
    trace := trace + [Attempt(WriteCall(text))];
    var written := host(WriteCall(text));
    if written.Failed? {
      r := ActionResult(false, "sendPrompt", Some(PromptFailurePrefix + TextOf(written.thrown)));
      assert trace[|calls|..] == [Attempt(WriteCall(text))];
      return;
    }
    trace := trace + [Sleep(SettleAfterWriteMs)];
    trace := trace + [Attempt(Bare(FocusCommand))];
    var focused := host(Bare(FocusCommand));
    if focused.Failed? {
      r := ActionResult(false, "sendPrompt", Some(PromptFailurePrefix + TextOf(focused.thrown)));
      assert trace == tier1 + [Attempt(WriteCall(text)), Sleep(SettleAfterWriteMs), Attempt(Bare(FocusCommand))];
      return;
    }
    trace := trace + [Sleep(SettleAfterFocusMs)];
    trace := trace + [Push(EnterRequest(folder, stamp))];
    assert trace == tier1 + [Attempt(WriteCall(text)), Sleep(SettleAfterWriteMs), Attempt(Bare(FocusCommand)),
                             Sleep(SettleAfterFocusMs), Push(EnterRequest(folder, stamp))];
    r := ActionResult(true, "sendPrompt", None);
  }

  /** Each single-command action runs its own command and reports its own name. */
  lemma SimpleActionsDistinct(a: SimpleAction, b: SimpleAction)
    ensures CommandId(a) == CommandId(b) <==> a == b
    ensures ActionName(a) == ActionName(b) <==> a == b
  {
  }

  /** The `action` of every result is a logical name and never a host command id. */
  lemma ReportedNamesAreLogical(host: Host, a: SimpleAction, text: string)
    ensures Reported(host(Bare(CommandId(a))), ActionName(a)).action in LogicalNames
    ensures RetryResult(host).action in LogicalNames
    ensures PromptResult(host, text).action in LogicalNames
    ensures LogicalNames !! AllCommandIds()
  {
    assert Reported(host(Bare(CommandId(a))), ActionName(a)).action == ActionName(a);
    assert RetryResult(host).action == "retry";
    assert PromptResult(host, text).action == "sendPrompt";
    // Every command id is longer than every logical name.
    LogicalNamesShort();
    CommandIdsLong();
  }

  lemma LogicalNamesShort()
    ensures forall n :: n in LogicalNames ==> |n| <= 14
  {
  }

  lemma CommandIdsLong()
    ensures forall c :: c in AllCommandIds() ==> |c| >= 17
  {
    var listed := RetryCommands + DirectCommands + [WriteTextCommand, FocusCommand];
    assert forall i :: 0 <= i < |listed| ==> |listed[i]| >= 17;
    assert forall a: SimpleAction :: |CommandId(a)| >= 17;
  }

  /** A failing Tier 2 step reports an error that starts with the fixed prefix. */
  lemma PromptFailureHasPrefix(host: Host, text: string)
    requires !PromptResult(host, text).success
    ensures PromptResult(host, text).error.Some?
    ensures var e := PromptResult(host, text).error.value;
      |e| >= |PromptFailurePrefix| && e[..|PromptFailurePrefix|] == PromptFailurePrefix
  {
  }
}
