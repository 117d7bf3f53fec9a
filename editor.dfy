/** What the model sees of the host editor: its command registry, the values it
    throws, and the first workspace folder's name. The registry is an oracle. */
module Editor {
  import opened Protocol

  /** A value thrown by `vscode.commands.executeCommand`: an Error object, or any
      other value. */
  datatype Thrown = ErrorObject(name: string, message: string) | OtherValue(text: string)

  /** `err instanceof Error ? err.message : String(err)`, as executeAction reports it. */
  function MessageOf(e: Thrown): string {
    match e
    case ErrorObject(_, message) => message
    case OtherValue(text) => text
  }

  /** The template-literal text `${e}`: Error.prototype.toString for Error objects. */
  function TextOf(e: Thrown): string {
    match e
    case ErrorObject(name, message) =>
      if name == "" then message else if message == "" then name else name + ": " + message
    case OtherValue(text) => text
  }

  datatype Arg = BoolArg(b: bool) | TextArg(text: string)

  /** One call `executeCommand(command, ...args)`. */
  datatype Invocation = Invocation(command: string, args: seq<Arg>)

  /** How a command call settles: it completes, or it throws. */
  datatype Outcome = Completed | Failed(thrown: Thrown)

  /** The host's command registry, as an oracle from a call to its outcome. */
  type Host = Invocation -> Outcome

  /** `workspaceFolders?.[0]?.name || fallback`: an absent or empty name falls back. */
  function WorkspaceName(folder: Option<string>, fallback: string): (name: string)
    ensures name == fallback <==> (folder.None? || folder.value == "" || folder.value == fallback)
    ensures name != fallback ==> folder == Some(name)
  {
    match folder
    case Some(n) => if n != "" then n else fallback
    case None => fallback
  }
}
