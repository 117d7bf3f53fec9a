/** Message and payload types exchanged between the companion extension and the
    monitor hub (bob-helper-extension/src/protocol.ts). The JSON text frames are
    modelled by their decoded values. */
module Protocol {

  datatype Option<T> = None | Some(value: T) {
    function GetOr(default: T): T {
      if Some? then value else default
    }
  }

  /** The semantic status snapshot of one editor window (AntigravityState). */
  datatype AntigravityState = AntigravityState(
    hasAcceptButton: bool,
    hasRetryButton: bool,
    hasEnterButton: bool,
    agentWorking: bool,
    terminalPending: bool,
    workspaceName: string)

  /** The handshake an extension sends first on every new link. */
  datatype HelloPayload = HelloPayload(extensionVersion: string, workspaceName: string, windowId: string)

  /** What an action reports; `action` is always the logical action name. */
  datatype ActionResult = ActionResult(success: bool, action: string, error: Option<string>)

  /** ExtensionResponseType: the `type` of every extension-to-hub message. */
  datatype ResponseType =
    | StateType | ResultType | ErrorType | StateChangedType | HelloType | PongType | SimulateEnterType

  function WireName(t: ResponseType): string {
    match t
    case StateType => "state"
    case ResultType => "result"
    case ErrorType => "error"
    case StateChangedType => "stateChanged"
    case HelloType => "hello"
    case PongType => "pong"
    case SimulateEnterType => "simulateEnter"
  }

  /** The payload shapes the extension sends. */
  datatype Payload =
    | StatePayload(state: AntigravityState)
    | ResultPayload(result: ActionResult)
    | HelloInfo(hello: HelloPayload)
    | EnterPayload(workspaceName: string)
    | PongPayload(timestamp: int)
    | ErrorText(error: string)

  /** ExtensionResponse: `{type, payload, id}`. */
  datatype ExtensionResponse = ExtensionResponse(kind: ResponseType, payload: Payload, id: string)

  /** BobMessage after JSON parsing: the `type` string as it arrived (any string),
      the `payload.text` field when it is a string, and the correlation id. */
  datatype BobMessage = BobMessage(msgType: string, text: Option<string>, id: string)
}
