/** The monitor front end's side of silent mode (src/lib/websocket.ts): matching a
    connected extension to a monitored instance, reading its cached state, and the
    action wrappers that ask the backend to forward a request to an extension. */
module WebsocketClient {
  import opened Protocol
  import opened Types
  import Lists
  import Extension

  /** One element of `get_silent_extensions`' listing. */
  datatype SilentExtension = SilentExtension(windowId: string, workspaceName: string, state: Option<AntigravityState>)

  /** The only payload a wrapper sends: `{ text }`. */
  datatype SilentPayload = TextPayload(text: string)

  /** The arguments of one `send_silent_action` invoke. */
  datatype SilentCall = SilentCall(windowId: string, action: string, payload: Option<SilentPayload>)

  /** The backend command `send_silent_action`: its boolean answer, or None when the
      invoke is rejected. */
  type Invoker = SilentCall -> Option<bool>

  /** ASCII case folding; see README for what full Unicode lower-casing adds. */
  function LowerChar(c: char): char {
    if 'A' <= c <= 'Z' then (c as int + 32) as char else c
  }

  function Lower(s: string): string {
    seq(|s|, i requires 0 <= i < |s| => LowerChar(s[i]))
  }

  /** `a.toLowerCase() === b.toLowerCase()` */
  predicate SameName(a: string, b: string) {
    Lower(a) == Lower(b)
  }

  /** The first extension, in listing order, whose workspace name equals the
      instance's project name ignoring case; None when there is none. */
  function MatchExtensionToInstance(exts: seq<SilentExtension>, instance: Instance): (r: Option<SilentExtension>)
    ensures r.None? <==> forall i :: 0 <= i < |exts| ==> !SameName(exts[i].workspaceName, instance.projectName)
    ensures forall i :: 0 <= i < |exts| && SameName(exts[i].workspaceName, instance.projectName) &&
                        (forall j :: 0 <= j < i ==> !SameName(exts[j].workspaceName, instance.projectName)) ==>
                        r == Some(exts[i])
  {
    Lists.Find(exts, (e: SilentExtension) => SameName(e.workspaceName, instance.projectName))
  }

  function InstanceNamed(projectName: string): Instance {
    Instance("instance-1", projectName + " - Antigravity", 1, projectName, projectName, true, None, 0, 0, 0, 3, Idle, 0, 0)
  }

  /** Matching ignores case but compares whole names: "Foo" matches an instance
      "foo", "Foobar" does not, and the first of two matches wins. */
  lemma MatchIsWholeName()
    ensures var foobar := SilentExtension("w1", "Foobar", None);
            var foo := SilentExtension("w2", "Foo", None);
            var foo2 := SilentExtension("w3", "FOO", None);
            MatchExtensionToInstance([foobar, foo, foo2], InstanceNamed("foo")) == Some(foo) &&
            MatchExtensionToInstance([foobar], InstanceNamed("foo")) == None
  {
    var foobar := SilentExtension("w1", "Foobar", None);
    var foo := SilentExtension("w2", "Foo", None);
    assert Lower("Foo") == "foo";
    assert |Lower("Foobar")| != |Lower("foo")|;
    assert !SameName(foobar.workspaceName, "foo");
  }

  /** sendSilentAction: an omitted payload travels as null; a rejected invoke
      counts as false. Returns the call made and the answer. */
  function SendSilentAction(invoke: Invoker, windowId: string, action: string, payload: Option<SilentPayload>): (r: (SilentCall, bool))
    ensures r.0.windowId == windowId && r.0.action == action && r.0.payload == payload
    ensures invoke(r.0).None? ==> !r.1
    ensures invoke(r.0).Some? ==> r.1 == invoke(r.0).value
  {
    var call := SilentCall(windowId, action, payload);
    (call, invoke(call).GetOr(false))
  }

  /** getSilentExtensions: a rejected invoke gives the empty listing. */
  function GetSilentExtensions(listing: Option<seq<SilentExtension>>): (exts: seq<SilentExtension>)
    ensures listing.None? ==> exts == []
    ensures listing.Some? ==> exts == listing.value
  {
    listing.GetOr([])
  }

  /** getStateSilent: first a `getState` request to the extension, then the cached
      state of the first listed extension with that window id. (Were the request
      forwarded to the hub, the hub would only log the answer. The cached state is
      therefore the last `stateChanged` push.) */
  function GetStateSilent(windowId: string, listing: Option<seq<SilentExtension>>): (r: (SilentCall, Option<AntigravityState>))
    ensures r.0 == SilentCall(windowId, "getState", None)
    ensures var exts := GetSilentExtensions(listing);
      (forall i :: 0 <= i < |exts| ==> exts[i].windowId != windowId) ==> r.1 == None
    ensures var exts := GetSilentExtensions(listing);
      forall i :: (0 <= i < |exts| && exts[i].windowId == windowId &&
                   (forall j :: 0 <= j < i ==> exts[j].windowId != windowId)) ==> r.1 == exts[i].state
  {
    var exts := GetSilentExtensions(listing);
    var found := Lists.Find(exts, (e: SilentExtension) => e.windowId == windowId);
    (SilentCall(windowId, "getState", None), if found.Some? then found.value.state else None)
  }

  /** The five `*Silent` wrappers. */
  datatype SilentAction = AcceptAllSilent | AcceptStepSilent | AcceptTerminalSilent | SendPromptSilent(text: string) | RetrySilent

  function ActionName(a: SilentAction): string {
    match a
    case AcceptAllSilent => "acceptAll"
    case AcceptStepSilent => "acceptStep"
    case AcceptTerminalSilent => "acceptTerminal"
    case SendPromptSilent(_) => "sendPrompt"
    case RetrySilent => "retry"
  }

  function PayloadOf(a: SilentAction): Option<SilentPayload> {
    if a.SendPromptSilent? then Some(TextPayload(a.text)) else None
  }

  function RunWrapper(invoke: Invoker, windowId: string, a: SilentAction): (r: (SilentCall, bool))
    ensures r.0 == SilentCall(windowId, ActionName(a), PayloadOf(a))
    ensures r.1 <==> invoke(r.0) == Some(true)
  {
    SendSilentAction(invoke, windowId, ActionName(a), PayloadOf(a))
  }

  /** The request an extension would receive for a forwarded call. No backend
      command in the program does this forwarding; its shape is assumed. */
  function AsRequest(c: SilentCall, id: string): BobMessage {
    BobMessage(c.action, if c.payload.Some? then Some(c.payload.value.text) else None, id)
  }

  /** Every wrapper names a request type the extension handles, and the extension
      answers it with a `result`, except a prompt wrapper with empty text, which it
      answers with an `error`. */
  lemma WrappersAreExtensionRequests(invoke: Invoker, windowId: string, a: SilentAction, id: string)
    ensures var m := AsRequest(RunWrapper(invoke, windowId, a).0, id);
      m.msgType in Extension.RequestTypes &&
      (Extension.ReplyType(m) == ErrorType <==> a == SendPromptSilent("")) &&
      (Extension.ReplyType(m) != ErrorType ==> Extension.ReplyType(m) == ResultType)
  {
  }
}
